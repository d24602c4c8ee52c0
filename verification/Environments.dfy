/** Which conses lead to the variables of an environment and which hold their values
    (src/lib/siod/slib.c): while they are apart, set! changes a value and nothing else. */
module Environments {

  import opened Evaluator

  /** The conses of a list. */
  function Conses(p: int, st: Store, n: nat): set<int>
    decreases n
  {
    if n == 0 || !At(st, p).Cons? then {} else {p} + Conses(At(st, p).cdr, st, n - 1)
  }

  function FrameShape(frame: int, st: Store, n: nat): set<int> {
    if At(st, frame).Cons? then {frame} + Conses(At(st, frame).car, st, n) else {}
  }

  function FrameValues(frame: int, st: Store, n: nat): set<int> {
    if At(st, frame).Cons? then Conses(At(st, frame).cdr, st, n) else {}
  }

  /** The conses of an environment, of its frames and of their formals. */
  function Shape(env: int, st: Store, n: nat): set<int>
    decreases n
  {
    if n == 0 || !At(st, env).Cons? then {}
    else {env} + FrameShape(At(st, env).car, st, n) + Shape(At(st, env).cdr, st, n - 1)
  }

  /** The conses of the actuals in its frames. */
  function Values(env: int, st: Store, n: nat): set<int>
    decreases n
  {
    if n == 0 || !At(st, env).Cons? then {} else FrameValues(At(st, env).car, st, n) + Values(At(st, env).cdr, st, n - 1)
  }

  /** No cons leads to a variable of a and holds a value of b. */
  ghost predicate Apart(a: int, b: int, st: Store) {
    forall m: nat, n: nat :: Shape(a, st, m) !! Values(b, st, n)
  }

  /** So it is of any two of these environments. */
  ghost predicate AllApart(envs: set<int>, st: Store) {
    Closed(st) && (forall a :: a in envs ==> a <= |st|) && forall a, b :: a in envs && b in envs ==> Apart(a, b, st)
  }

  lemma {:induction false} FrameSpineInShape(name: int, fl: int, al: int, st: Store, n: nat, p: int)
    requires p in FrameSpine(name, fl, al, st, n) && At(st, p).Cons?
    ensures p in Conses(fl, st, n + 1)
    decreases n
  {
    if p != fl {
      FrameSpineInShape(name, At(st, fl).cdr, At(st, al).cdr, st, n - 1, p);
    }
  }

  lemma {:induction false} SpineInShape(name: int, env: int, st: Store, n: nat, p: int)
    requires p in Spine(name, env, st, n) && At(st, p).Cons?
    ensures p in Shape(env, st, n + 1)
    decreases n
  {
    if p != env && p != At(st, env).car {
      var frame := At(st, At(st, env).car);
      if p in FrameSpine(name, frame.car, frame.cdr, st, n) {
        FrameSpineInShape(name, frame.car, frame.cdr, st, n, p);
      } else {
        SpineInShape(name, At(st, env).cdr, st, n - 1, p);
      }
    }
  }

  lemma {:induction false} CellInFrame(name: int, fl: int, al: int, st: Store, n: nat)
    requires BindingIn(name, fl, al, st, n).InCar?
    ensures BindingIn(name, fl, al, st, n).cell in Conses(al, st, n)
    decreases n
  {
    if At(st, fl).car != name {
      CellInFrame(name, At(st, fl).cdr, At(st, al).cdr, st, n - 1);
    }
  }

  lemma {:induction false} CellInValues(name: int, env: int, st: Store, n: nat)
    requires BindingOf(name, env, st, n).InCar?
    ensures BindingOf(name, env, st, n).cell in Values(env, st, n)
    decreases n
  {
    var frame := At(st, At(st, env).car);
    if BindingIn(name, frame.car, frame.cdr, st, n) == Unbound {
      CellInValues(name, At(st, env).cdr, st, n - 1);
    } else {
      CellInFrame(name, frame.car, frame.cdr, st, n);
    }
  }

  /** What SetVarHolds and SetVarShared ask for. */
  lemma CellNotInSpine(name: int, env: int, env2: int, st: Store, n: nat)
    requires Apart(env2, env, st) && BindingOf(name, env, st, n).InCar?
    ensures BindingOf(name, env, st, n).cell !in Spine(name, env2, st, n)
  {
    var cell := BindingOf(name, env, st, n).cell;
    CellInValues(name, env, st, n);
    LookupIs(name, env, st, n);
    assert Shape(env2, st, n + 1) !! Values(env, st, n);
    if cell in Spine(name, env2, st, n) {
      SpineInShape(name, env2, st, n, cell);
    }
  }

  // A new value

  lemma {:induction false} ConsesKeep(p: int, st: Store, n: nat, cell: int, v: int)
    requires At(st, cell).Cons?
    ensures Conses(p, Put(st, cell, At(st, cell).(car := v)), n) == Conses(p, st, n)
    decreases n
  {
    if n > 0 && At(st, p).Cons? {
      ConsesKeep(At(st, p).cdr, st, n - 1, cell, v);
    }
  }

  lemma {:induction false} ShapeKeeps(env: int, st: Store, n: nat, cell: int, v: int)
    requires At(st, cell).Cons? && cell !in Shape(env, st, n)
    ensures Shape(env, Put(st, cell, At(st, cell).(car := v)), n) == Shape(env, st, n)
    ensures Values(env, Put(st, cell, At(st, cell).(car := v)), n) == Values(env, st, n)
    decreases n
  {
    if n > 0 && At(st, env).Cons? {
      var frame := At(st, env).car;
      if At(st, frame).Cons? {
        ConsesKeep(At(st, frame).car, st, n, cell, v);
        ConsesKeep(At(st, frame).cdr, st, n, cell, v);
      }
      ShapeKeeps(At(st, env).cdr, st, n - 1, cell, v);
    }
  }

  lemma {:induction false} ConsesSym(p: int, st: Store, n: nat, x: int, v: int)
    requires At(st, x).Sym?
    ensures Conses(p, Put(st, x, Sym(v)), n) == Conses(p, st, n)
    decreases n
  {
    if n > 0 && At(st, p).Cons? {
      ConsesSym(At(st, p).cdr, st, n - 1, x, v);
    }
  }

  lemma {:induction false} ShapeSym(env: int, st: Store, n: nat, x: int, v: int)
    requires At(st, x).Sym?
    ensures Shape(env, Put(st, x, Sym(v)), n) == Shape(env, st, n) && Values(env, Put(st, x, Sym(v)), n) == Values(env, st, n)
    decreases n
  {
    if n > 0 && At(st, env).Cons? {
      var frame := At(st, env).car;
      if At(st, frame).Cons? {
        ConsesSym(At(st, frame).car, st, n, x, v);
        ConsesSym(At(st, frame).cdr, st, n, x, v);
      }
      ShapeSym(At(st, env).cdr, st, n - 1, x, v);
    }
  }

  // A new object

  lemma {:induction false} ConsesGrow(p: int, st: Store, n: nat, more: Store)
    requires Closed(st) && p <= |st|
    ensures Conses(p, st + more, n) == Conses(p, st, n)
    decreases n
  {
    if n > 0 && At(st, p).Cons? {
      ConsesGrow(At(st, p).cdr, st, n - 1, more);
    }
  }

  lemma {:induction false} ShapeGrows(env: int, st: Store, n: nat, more: Store)
    requires Closed(st) && env <= |st|
    ensures Shape(env, st + more, n) == Shape(env, st, n) && Values(env, st + more, n) == Values(env, st, n)
    decreases n
  {
    if n > 0 && At(st, env).Cons? {
      var frame := At(st, env).car;
      if At(st, frame).Cons? {
        ConsesGrow(At(st, frame).car, st, n, more);
        ConsesGrow(At(st, frame).cdr, st, n, more);
      }
      ShapeGrows(At(st, env).cdr, st, n - 1, more);
    }
  }

  /** Two stores in which an environment has the same conses. */
  ghost predicate SameShape(a: int, st: Store, st': Store) {
    forall n: nat :: Shape(a, st', n) == Shape(a, st, n) && Values(a, st', n) == Values(a, st, n)
  }

  lemma SameApart(a: int, b: int, st: Store, st': Store)
    requires Apart(a, b, st) && SameShape(a, st, st') && SameShape(b, st, st')
    ensures Apart(a, b, st')
  {
    forall m: nat, n: nat ensures Shape(a, st', m) !! Values(b, st', n) {
      assert Shape(a, st, m) !! Values(b, st, n);
    }
  }

  /** set! through one environment leaves the conses of another where they are. */
  lemma SetKeepsShape(name: int, v: int, env: int, st: Store, n: nat, a: int)
    requires At(st, name).Sym? && SetVar(name, v, env, st, n).Val? && Closed(st) && env <= |st| && a <= |st| && Apart(a, env, st)
    ensures SameShape(a, st, SetVar(name, v, env, st, n).st)
  {
    LookupIs(name, env, st, n);
    var b, st' := BindingOf(name, env, st, n), SetVar(name, v, env, st, n).st;
    forall m: nat ensures Shape(a, st', m) == Shape(a, st, m) && Values(a, st', m) == Values(a, st, m) {
      match b
      case Unbound => ShapeSym(a, st, m, name, v);
      case InCar(cell) =>
        CellInValues(name, env, st, n);
        assert Shape(a, st, m) !! Values(env, st, n);
        ShapeKeeps(a, st, m, cell, v);
      case DottedTail(actuals) =>
        SetDotted(name, v, env, st, n, actuals);
        ShapeGrows(a, st, m, [Cons(v, NIL)]);
    }
  }

  lemma {:induction false} BindingInKeeps(name: int, fl: int, al: int, st: Store, n: nat, cell: int, v: int)
    requires At(st, cell).Cons? && cell !in Conses(fl, st, n)
    ensures BindingIn(name, fl, al, Put(st, cell, At(st, cell).(car := v)), n) == BindingIn(name, fl, al, st, n)
    decreases n
  {
    if n > 0 && At(st, fl).Cons? && At(st, al).Cons? && At(st, fl).car != name {
      BindingInKeeps(name, At(st, fl).cdr, At(st, al).cdr, st, n - 1, cell, v);
    }
  }

  lemma {:induction false} BindingKeeps(name: int, env: int, st: Store, n: nat, cell: int, v: int)
    requires At(st, cell).Cons? && cell !in Shape(env, st, n)
    ensures BindingOf(name, env, Put(st, cell, At(st, cell).(car := v)), n) == BindingOf(name, env, st, n)
    decreases n
  {
    if n > 0 && At(st, env).Cons? && At(st, At(st, env).car).Cons? {
      var frame := At(st, At(st, env).car);
      BindingInKeeps(name, frame.car, frame.cdr, st, n, cell, v);
      BindingKeeps(name, At(st, env).cdr, st, n - 1, cell, v);
    }
  }

  /** set! of one variable leaves every variable bound where it was. */
  lemma SetKeepsBinding(name: int, v: int, env: int, st: Store, n: nat, name2: int, env2: int, m: nat)
    requires At(st, name).Sym? && SetVar(name, v, env, st, n).Val? && Closed(st) && env <= |st| && env2 <= |st| && Apart(env2, env, st)
    ensures BindingOf(name2, env2, SetVar(name, v, env, st, n).st, m) == BindingOf(name2, env2, st, m)
  {
    LookupIs(name, env, st, n);
    match BindingOf(name, env, st, n)
    case Unbound => BindingSets(name2, env2, st, m, name, v);
    case InCar(cell) =>
      CellInValues(name, env, st, n);
      assert Shape(env2, st, m) !! Values(env, st, n);
      BindingKeeps(name2, env2, st, m, cell, v);
    case DottedTail(actuals) =>
      SetDotted(name, v, env, st, n, actuals);
      BindingGrows(name2, env2, st, m, Cons(v, NIL));
  }

  /** The main property: set! through any of the environments keeps them apart and every variable of theirs bound where it was, ... */
  lemma SetVarKeepsApart(envs: set<int>, name: int, v: int, env: int, st: Store, n: nat)
    requires AllApart(envs, st) && env in envs && v <= |st| && At(st, name).Sym? && SetVar(name, v, env, st, n).Val?
    ensures AllApart(envs, SetVar(name, v, env, st, n).st)
    ensures forall name2: int, env2, m: nat :: env2 in envs ==>
      BindingOf(name2, env2, SetVar(name, v, env, st, n).st, m) == BindingOf(name2, env2, st, m)
  {
    var st' := SetVar(name, v, env, st, n).st;
    forall a | a in envs ensures SameShape(a, st, st') {
      SetKeepsShape(name, v, env, st, n, a);
    }
    forall a, b | a in envs && b in envs ensures Apart(a, b, st') {
      SameApart(a, b, st, st');
    }
    forall name2: int, env2, m: nat | env2 in envs ensures BindingOf(name2, env2, st', m) == BindingOf(name2, env2, st, m) {
      SetKeepsBinding(name, v, env, st, n, name2, env2, m);
    }
    LookupIs(name, env, st, n);
    LookupGrows(name, env, st, n);
  }

  /** Of the variables of all these environments set! of one changes those that share its binding, and no other. */
  lemma SetChangesOne(envs: set<int>, name: int, v: int, env: int, st: Store, n: nat, name2: int, env2: int, m: nat)
    requires AllApart(envs, st) && env in envs && env2 in envs && At(st, name).Sym? && SetVar(name, v, env, st, n).Val?
    requires BindingOf(name, env, st, n).InCar? && BindingOf(name2, env2, st, m).InCar?
    ensures var before, after := Variable(name2, env2, st, m), Variable(name2, env2, SetVar(name, v, env, st, n).st, m);
      && before.Val? && after.Val?
      && after.v == if BindingOf(name2, env2, st, m) == BindingOf(name, env, st, n) then v else before.v
  {
    var st' := SetVar(name, v, env, st, n).st;
    SetKeepsBinding(name, v, env, st, n, name2, env2, m);
    LookupIs(name, env, st, n);
    LookupIs(name2, env2, st, m);
    LookupIs(name2, env2, st', m);
  }

  /** At the top level there is no frame. */
  lemma TopApart(st: Store)
    requires Closed(st)
    ensures AllApart({NIL}, st)
  {
    assert Apart(NIL, NIL, st);
  }

  // A new frame

  lemma {:induction false} ConsesOld(p: int, st: Store, n: nat)
    ensures forall x :: x in Conses(p, st, n) ==> x <= |st|
    decreases n
  {
    if n > 0 && At(st, p).Cons? {
      ConsesOld(At(st, p).cdr, st, n - 1);
    }
  }

  lemma {:induction false} ShapeOld(env: int, st: Store, n: nat)
    ensures forall x :: x in Shape(env, st, n) ==> x <= |st|
    ensures forall x :: x in Values(env, st, n) ==> x <= |st|
    decreases n
  {
    if n > 0 && At(st, env).Cons? {
      FrameOld(At(st, env).car, st, n);
      ShapeOld(At(st, env).cdr, st, n - 1);
    }
  }

  lemma FrameOld(frame: int, st: Store, n: nat)
    ensures forall x :: x in FrameShape(frame, st, n) ==> x <= |st|
    ensures forall x :: x in FrameValues(frame, st, n) ==> x <= |st|
  {
    if At(st, frame).Cons? {
      ConsesOld(At(st, frame).car, st, n);
      ConsesOld(At(st, frame).cdr, st, n);
    }
  }

  /** The actuals share no cons with the formals or with what leads to a variable, and the formals none with the values. A
      formal that takes all the actuals needs no more: extend_env makes its list. */
  ghost predicate Separate(envs: set<int>, actuals: int, formals: int, st: Store) {
    At(st, formals).Sym? ||
      (&& (forall m: nat, n: nat :: Conses(formals, st, m) !! Conses(actuals, st, n))
       && (forall e, m: nat, n: nat :: e in envs ==> Conses(formals, st, m) !! Values(e, st, n))
       && forall e, m: nat, n: nat :: e in envs ==> Conses(actuals, st, n) !! Shape(e, st, m))
  }

  function Leading(formals: int, st: Store, n: nat): set<int> {
    if At(st, formals).Sym? then {|st| + 3, |st| + 4} + {|st| + 1} else {|st| + 1, |st| + 2} + Conses(formals, st, n)
  }

  function Holding(actuals: int, formals: int, st: Store, n: nat): set<int> {
    if At(st, formals).Sym? then {|st| + 2} else Conses(actuals, st, n)
  }

  /** The conses of an environment that extend_env made. */
  ghost predicate Extends(actuals: int, formals: int, env: int, st: Store, n: nat, r: Out)
    requires n > 0
  {
    && r.Val? && r.v == |r.st| && st <= r.st && Closed(r.st)
    && Shape(r.v, r.st, n) == Leading(formals, st, n) + Shape(env, st, n - 1)
    && Values(r.v, r.st, n) == Holding(actuals, formals, st, n) + Values(env, st, n - 1)
  }

  lemma NewShape(actuals: int, formals: int, env: int, st: Store, n: nat)
    requires Closed(st) && actuals <= |st| && formals <= |st| && env <= |st| && n > 0
    ensures Extends(actuals, formals, env, st, n, ExtendEnv(actuals, formals, env, st))
  {
    if At(st, formals).Sym? {
      TakesAll(actuals, formals, env, st, |st|, n);
    } else {
      TakesEach(actuals, formals, env, st, |st|, n);
    }
  }

  lemma TakesAll(actuals: int, formals: int, env: int, st: Store, k: nat, n: nat)
    requires Closed(st) && k == |st| && actuals <= k && formals <= k && env <= k && n > 0 && At(st, formals).Sym?
    ensures Extends(actuals, formals, env, st, n, ExtendEnv(actuals, formals, env, st))
  {
    var more := [Cons(formals, NIL), Cons(actuals, NIL), Cons(k + 1, k + 2), Cons(k + 3, env)];
    var st' := FourMore(actuals, formals, env, st, k, more);
    ShapeOfFour(env, st, k, more, st', n);
  }

  lemma ShapeOfFour(env: int, st: Store, k: nat, more: Store, st': Store, n: nat)
    requires Closed(st) && k == |st| && env <= k && n > 0 && st' == st + more && At(st', k + 4) == Cons(k + 3, env)
    requires At(st', k + 1).Cons? && At(st', k + 1).cdr == NIL && At(st', k + 2).Cons? && At(st', k + 2).cdr == NIL
    requires At(st', k + 3) == Cons(k + 1, k + 2)
    ensures Shape(k + 4, st', n) == {k + 3, k + 4} + {k + 1} + Shape(env, st, n - 1) && Values(k + 4, st', n) == {k + 2} + Values(env, st, n - 1)
  {
    OneCons(k + 1, st', n);
    OneCons(k + 2, st', n);
    FirstFrame(k + 4, k + 3, env, st', n, {k + 1}, {k + 2});
    ShapeGrows(env, st, n - 1, more);
  }

  lemma FourMore(actuals: int, formals: int, env: int, st: Store, k: nat, more: Store) returns (st': Store)
    requires Closed(st) && k == |st| && actuals <= k && formals <= k && env <= k && At(st, formals).Sym?
    requires more == [Cons(formals, NIL), Cons(actuals, NIL), Cons(k + 1, k + 2), Cons(k + 3, env)]
    ensures st' == st + more && ExtendEnv(actuals, formals, env, st) == Val(k + 4, st') && |st'| == k + 4 && Closed(st')
    ensures At(st', k + 1) == more[0] && At(st', k + 2) == more[1] && At(st', k + 3) == more[2] && At(st', k + 4) == more[3]
  {
    st' := st + [more[0]] + [more[1]] + [more[2]] + [more[3]];
    assert st' == st + more;
  }

  lemma OneCons(p: int, st: Store, n: nat)
    requires n > 0 && At(st, p).Cons? && At(st, p).cdr == NIL
    ensures Conses(p, st, n) == {p}
  {
    assert Conses(NIL, st, n - 1) == {};
  }

  lemma TakesEach(actuals: int, formals: int, env: int, st: Store, k: nat, n: nat)
    requires Closed(st) && k == |st| && actuals <= k && formals <= k && env <= k && n > 0 && !At(st, formals).Sym?
    ensures Extends(actuals, formals, env, st, n, ExtendEnv(actuals, formals, env, st))
  {
    var more := [Cons(formals, actuals), Cons(k + 1, env)];
    var st' := TwoMore(actuals, formals, env, st, k, more);
    ShapeOfTwo(actuals, formals, env, st, k, more, st', n);
  }

  lemma ShapeOfTwo(actuals: int, formals: int, env: int, st: Store, k: nat, more: Store, st': Store, n: nat)
    requires Closed(st) && k == |st| && actuals <= k && formals <= k && env <= k && n > 0 && st' == st + more
    requires At(st', k + 1) == Cons(formals, actuals) && At(st', k + 2) == Cons(k + 1, env)
    ensures Shape(k + 2, st', n) == {k + 1, k + 2} + Conses(formals, st, n) + Shape(env, st, n - 1)
    ensures Values(k + 2, st', n) == Conses(actuals, st, n) + Values(env, st, n - 1)
  {
    ConsesGrow(formals, st, n, more);
    ConsesGrow(actuals, st, n, more);
    FirstFrame(k + 2, k + 1, env, st', n, Conses(formals, st, n), Conses(actuals, st, n));
    ShapeGrows(env, st, n - 1, more);
  }

  lemma TwoMore(actuals: int, formals: int, env: int, st: Store, k: nat, more: Store) returns (st': Store)
    requires Closed(st) && k == |st| && actuals <= k && formals <= k && env <= k && !At(st, formals).Sym?
    requires more == [Cons(formals, actuals), Cons(k + 1, env)]
    ensures st' == st + more && ExtendEnv(actuals, formals, env, st) == Val(k + 2, st') && |st'| == k + 2 && Closed(st')
    ensures At(st', k + 1) == more[0] && At(st', k + 2) == more[1]
  {
    st' := st + [more[0]] + [more[1]];
    assert st' == st + more;
  }

  lemma FirstFrame(e: int, frame: int, env: int, st: Store, n: nat, leads: set<int>, holds: set<int>)
    requires n > 0 && At(st, e) == Cons(frame, env) && At(st, frame).Cons?
    requires Conses(At(st, frame).car, st, n) == leads && Conses(At(st, frame).cdr, st, n) == holds
    ensures Shape(e, st, n) == {frame, e} + leads + Shape(env, st, n - 1) && Values(e, st, n) == holds + Values(env, st, n - 1)
  {
  }

  /** ... and so does a call, whose frame joins them. */
  lemma CallKeepsApart(envs: set<int>, actuals: int, formals: int, env: int, st: Store)
    requires AllApart(envs, st) && env in envs && actuals <= |st| && formals <= |st| && Separate(envs, actuals, formals, st)
    ensures var r := ExtendEnv(actuals, formals, env, st);
      r.Val? && AllApart(envs + {r.v}, r.st)
  {
    var r := ExtendEnv(actuals, formals, env, st);
    NewShape(actuals, formals, env, st, 1);
    forall a, b | a in envs + {r.v} && b in envs + {r.v} ensures Apart(a, b, r.st) {
      forall m: nat, n: nat ensures Shape(a, r.st, m) !! Values(b, r.st, n) {
        PairApart(envs, actuals, formals, env, st, r, a, m, b, n);
      }
    }
  }

  lemma PairApart(envs: set<int>, actuals: int, formals: int, env: int, st: Store, r: Out, a: int, m: nat, b: int, n: nat)
    requires AllApart(envs, st) && env in envs && actuals <= |st| && formals <= |st| && Separate(envs, actuals, formals, st)
    requires r == ExtendEnv(actuals, formals, env, st) && r.Val? && a in envs + {r.v} && b in envs + {r.v}
    ensures Shape(a, r.st, m) !! Values(b, r.st, n)
  {
    ShapeOf(envs, actuals, formals, env, st, r, a, m);
    ShapeOf(envs, actuals, formals, env, st, r, b, n);
    var e, k := if a == r.v then env else a, if a == r.v && m > 0 then m - 1 else m;
    var f, l := if b == r.v then env else b, if b == r.v && n > 0 then n - 1 else n;
    NewApart(envs, actuals, formals, st, e, f, m, k, n, l);
    var leads, holds := if a == r.v then Leading(formals, st, m) else {}, if b == r.v then Holding(actuals, formals, st, n) else {};
    FourApart(leads, Shape(e, st, k), holds, Values(f, st, l));
    assert Shape(a, r.st, m) <= leads + Shape(e, st, k);
    assert Values(b, r.st, n) <= holds + Values(f, st, l);
  }

  lemma FourApart(a: set<int>, b: set<int>, x: set<int>, y: set<int>)
    requires a !! x && a !! y && b !! x && b !! y
    ensures a + b !! x + y
  {
  }

  /** What a call adds is apart from what it adds and from what was there. */
  lemma NewApart(envs: set<int>, actuals: int, formals: int, st: Store, e: int, f: int, m: nat, k: nat, n: nat, l: nat)
    requires AllApart(envs, st) && Separate(envs, actuals, formals, st) && e in envs && f in envs
    ensures Leading(formals, st, m) !! Holding(actuals, formals, st, n) && Leading(formals, st, m) !! Values(f, st, l)
    ensures Shape(e, st, k) !! Holding(actuals, formals, st, n) && Shape(e, st, k) !! Values(f, st, l)
  {
    assert Apart(e, f, st);
    ShapeOld(e, st, k);
    ShapeOld(f, st, l);
    ConsesOld(formals, st, m);
    ConsesOld(actuals, st, n);
    if !At(st, formals).Sym? {
      assert Conses(formals, st, m) !! Conses(actuals, st, n);
      assert Conses(formals, st, m) !! Values(f, st, l) && Conses(actuals, st, n) !! Shape(e, st, k);
    }
  }

  /** An environment after the call: the new one, or one that is as it was. */
  lemma ShapeOf(envs: set<int>, actuals: int, formals: int, env: int, st: Store, r: Out, a: int, m: nat)
    requires AllApart(envs, st) && env in envs && actuals <= |st| && formals <= |st|
    requires r == ExtendEnv(actuals, formals, env, st) && r.Val? && a in envs + {r.v}
    ensures a != r.v ==> Shape(a, r.st, m) == Shape(a, st, m) && Values(a, r.st, m) == Values(a, st, m)
    ensures a == r.v && m > 0 ==> Shape(a, r.st, m) == Leading(formals, st, m) + Shape(env, st, m - 1)
    ensures a == r.v && m > 0 ==> Values(a, r.st, m) == Holding(actuals, formals, st, m) + Values(env, st, m - 1)
    ensures a == r.v && m == 0 ==> Shape(a, r.st, m) == Values(a, r.st, m) == {}
  {
    NewShape(actuals, formals, env, st, 1);
    if a != r.v {
      assert r.st == st + r.st[|st|..];
      ShapeGrows(a, st, m, r.st[|st|..]);
    } else if m > 0 {
      NewShape(actuals, formals, env, st, m);
    }
  }
}
