/** leval and the rules agree: each derivation is found with enough fuel, and each value has a derivation. */
module RulesDecide {

  import opened Evaluator
  import opened Rules

  function Max(a: nat, b: nat): nat {
    if a < b then b else a
  }

  // The parts of a form

  lemma CarIs(st: Store, p: int)
    ensures Car(st, p) == if Listed(st, p, 1) then Val(Item(st, p, 0), st) else Error
    ensures Cdr(st, p) == if Listed(st, p, 1) then Val(Behind(st, p, 1), st) else Error
  {
    assert Behind(st, p, 0) == p;
    assert At(st, p).Cons? ==> Behind(st, At(st, p).cdr, 0) == At(st, p).cdr;
  }

  lemma CadrIs(st: Store, p: int)
    ensures Cadr(st, p) == if Listed(st, p, 2) then Val(Item(st, p, 1), st) else Error
    ensures Cddr(st, p) == if Listed(st, p, 2) then Val(Behind(st, p, 2), st) else Error
  {
    CarIs(st, p);
    if At(st, p).Cons? {
      CarIs(st, At(st, p).cdr);
    }
  }

  lemma CaddrIs(st: Store, p: int)
    ensures Caddr(st, p) == if Listed(st, p, 3) then Val(Item(st, p, 2), st) else Error
  {
    CadrIs(st, p);
    if At(st, p).Cons? {
      CadrIs(st, At(st, p).cdr);
    }
  }

  lemma FramedIs(actuals: int, formals: int, env: int, st: Store, env2: int, st2: Store)
    ensures Framed(actuals, formals, env, st, env2, st2) <==> ExtendEnv(actuals, formals, env, st) == Val(env2, st2)
  {
    var k := |st|;
    assert st + [Cons(formals, NIL)] + [Cons(actuals, NIL)] + [Cons(k + 1, k + 2)] + [Cons(k + 3, env)]
        == st + [Cons(formals, NIL), Cons(actuals, NIL), Cons(k + 1, k + 2), Cons(k + 3, env)];
    assert st + [Cons(formals, actuals)] + [Cons(k + 1, env)] == st + [Cons(formals, actuals), Cons(k + 1, env)];
  }

  lemma ReadsIs(x: int, env: int, st: Store, n: nat, v: int, st2: Store)
    requires At(st, x).Sym?
    ensures Reads(x, env, st, n, v, st2) <==> Variable(x, env, st, n) == Val(v, st2)
  {
    LookupIs(x, env, st, n);
  }

  lemma AssignsIs(x: int, v: int, env: int, st: Store, n: nat, st2: Store)
    requires At(st, x).Sym?
    ensures Assigns(x, v, env, st, n, st2) <==> SetVar(x, v, env, st, n) == Val(v, st2)
  {
    LookupIs(x, env, st, n);
    match BindingOf(x, env, st, n)
    case DottedTail(actuals) => assert Put(st + [Cons(actuals, NIL)], |st| + 1, Cons(v, NIL)) == st + [Cons(v, NIL)];
    case _ =>
  }

  lemma {:induction false} UnboundFrame(x: int, env: int, st: Store, n: nat)
    requires BindingOf(x, env, st, n) == Unbound && env != NIL
    ensures At(st, env).Cons? && At(st, At(st, env).car).Cons?
  {
  }

  lemma NewBinding(x: int, v: int, env: int, st: Store, n: nat)
    requires BindingOf(x, env, st, n) == Unbound && env != NIL
    ensures var k, frame := |st|, At(st, env).car;
      && At(st, env).Cons? && At(st, frame).Cons?
      && Bind(x, v, env, st, n)
         == Val(v, Put(st + [Cons(x, At(st, frame).car), Cons(v, At(st, frame).cdr)], frame, Cons(k + 1, k + 2)))
  {
    LookupIs(x, env, st, n);
    UnboundFrame(x, env, st, n);
    var frame := At(st, env).car;
    var fl, al := At(st, frame).car, At(st, frame).cdr;
    var st2 := st + [Cons(x, fl)];
    var st3 := Put(st2, frame, Cons(|st| + 1, al));
    var st4 := st3 + [Cons(v, al)];
    assert Bind(x, v, env, st, n) == Val(v, Put(st4, frame, Cons(|st| + 1, |st| + 2)));
    assert Put(st4, frame, Cons(|st| + 1, |st| + 2)) == Put(st + [Cons(x, fl), Cons(v, al)], frame, Cons(|st| + 1, |st| + 2));
  }

  lemma ClosesIs(c: Names, args: int, env: int, st: Store, v: int, st2: Store)
    ensures Closes(c, args, env, st, v, st2) <==> MakeLambda(c, args, env, st) == Val(v, st2)
  {
    CadrIs(st, args);
    CarIs(st, args);
    if Listed(st, args, 2) {
      var k, formals := |st|, Item(st, args, 0);
      if Behind(st, args, 2) == NIL {
        CarIs(st, Behind(st, args, 1));
        assert st + [Cons(formals, Item(st, args, 1))] + [Closure(env, k + 1)]
            == st + [Cons(formals, Item(st, args, 1)), Closure(env, k + 1)];
      } else {
        var st1 := st + [Cons(c.progn, Behind(st, args, 1))];
        CarIs(st1, args);
        assert st1 + [Cons(formals, k + 1)] + [Closure(env, k + 2)]
            == st + [Cons(c.progn, Behind(st, args, 1)), Cons(formals, k + 1), Closure(env, k + 2)];
      }
    }
  }

  function OneLevel(c: Names, args: int, st: Store): Store {
    var a, k := Item(st, args, 0), |st|;
    st + [Cons(Behind(st, a, 1), Behind(st, args, 1)), Cons(c.lambda, k + 1), Cons(k + 2, NIL), Cons(Item(st, a, 0), k + 3)]
  }

  lemma LevelIs(c: Names, args: int, st: Store, n: nat)
    requires n > 0 && Listed(st, args, 1)
    ensures var a := Item(st, args, 0);
      SyntaxDefine(c, args, st, n) ==
        if At(st, a).Sym? then Val(args, st)
        else if Listed(st, a, 1) then SyntaxDefine(c, |st| + 4, OneLevel(c, args, st), n - 1) else Error
  {
    var a, k := Item(st, args, 0), |st|;
    CarIs(st, args);
    CarIs(st, a);
    assert st + [Cons(Behind(st, a, 1), Behind(st, args, 1))] + [Cons(c.lambda, k + 1)] + [Cons(k + 2, NIL)] + [Cons(Item(st, a, 0), k + 3)]
        == OneLevel(c, args, st);
  }

  lemma {:induction false} SugarSound(c: Names, args: int, st: Store, levels: nat, args2: int, st2: Store)
    requires Sugar(c, args, st, levels, args2, st2)
    ensures SyntaxDefine(c, args, st, levels + 1) == Val(args2, st2) && Listed(st2, args2, 1) && At(st2, Item(st2, args2, 0)).Sym?
    decreases levels
  {
    LevelIs(c, args, st, levels + 1);
    if levels > 0 {
      SugarSound(c, |st| + 4, OneLevel(c, args, st), levels - 1, args2, st2);
    }
  }

  lemma {:induction false} SugarComplete(c: Names, args: int, st: Store, n: nat, args2: int, st2: Store) returns (levels: nat)
    requires SyntaxDefine(c, args, st, n) == Val(args2, st2)
    ensures Sugar(c, args, st, levels, args2, st2)
    decreases n
  {
    CarIs(st, args);
    LevelIs(c, args, st, n);
    if At(st, Item(st, args, 0)).Sym? {
      levels := 0;
    } else {
      var rest := SugarComplete(c, |st| + 4, OneLevel(c, args, st), n - 1, args2, st2);
      levels := rest + 1;
    }
  }

  lemma HeadIs(c: Names, h: int, env: int, st: Store, n: nat, f: int, st2: Store)
    requires n > 0 && At(st, h).Sym?
    ensures Operator(c, h, env, st, n) == Val(f, st2)
       <==> Reads(h, env, st, n, f, st2) && (BindingOf(h, env, st, n) == Unbound ==> f != c.unbound)
  {
    LookupIs(h, env, st, n);
  }

  // From the rules to leval

  lemma {:induction false} GivesSound(t: Tree, c: Names, x: int, env: int, st: Store, v: int, st2: Store) returns (n: nat)
    requires Gives(t, c, x, env, st, v, st2)
    ensures n > 0 && Eval(c, x, env, st, n) == Val(v, st2)
    decreases t
  {
    match t
    case Constant => n := 1;
    case Name(m) =>
      ReadsIs(x, env, st, m, v, st2);
      n := m + 1;
      LookupMore(x, env, st, m, n);
    case Form(head, f, st1, body) =>
      var i := HeadSound(head, c, At(st, x).car, env, st, f, st1);
      var j := BodySound(body, c, f, x, env, st1, v, st2);
      n := Max(i, j);
      OperatorMore(c, At(st, x).car, env, st, i, n);
      ApplyMore(c, f, x, env, st1, j, n);
  }

  lemma {:induction false} HeadSound(t: Head, c: Names, h: int, env: int, st: Store, f: int, st2: Store) returns (n: nat)
    requires HeadGives(t, c, h, env, st, f, st2)
    ensures n > 0 && Operator(c, h, env, st, n) == Val(f, st2)
    decreases t
  {
    match t
    case Named(m) =>
      n := m + 1;
      LookupIs(h, env, st, m);
      LookupIs(h, env, st, n);
      LookupMore(h, env, st, m, n);
    case Computed(t1) =>
      var i := GivesSound(t1, c, h, env, st, f, st2);
      n := i + 1;
    case Itself => n := 1;
  }

  lemma {:induction false} BodySound(t: Body, c: Names, f: int, x: int, env: int, st: Store, v: int, st2: Store) returns (n: nat)
    requires BodyGives(t, c, f, x, env, st, v, st2)
    ensures n > 0 && Apply(c, f, x, env, st, n) == Val(v, st2)
    decreases t, 2
  {
    CarIs(st, x);
    match At(st, f)
    case Closure(cenv, code) => n := CallSound(t, c, f, cenv, code, x, env, st, v, st2);
    case Sym(_) => n := MacroSound(t, c, f, x, env, st, v, st2);
    case Subr(kind, id) => n := KindSound(t, c, kind, id, Behind(st, x, 1), env, st, v, st2);
  }

  lemma {:induction false} KindSound(t: Body, c: Names, kind: Kind, id: int, args: int, env: int, st: Store, v: int, st2: Store)
    returns (n: nat)
    requires KindGives(t, c, kind, id, args, env, st, v, st2)
    ensures n > 0 && Special(c, kind, id, args, env, st, n) == Val(v, st2)
    decreases t, 1
  {
    match kind
    case Fixed(k) =>
      var i := EachSound(t.args, c, args, k, env, st, t.vs, t.st2);
      n := i + 1;
    case Folded => n := FoldingSound(t, c, id, args, env, st, v, st2);
    case ListArgs =>
      var i := ListSound(t.args, c, args, env, st, t.list, t.st2);
      n := i + 1;
      EvalListMore(c, args, env, st, i, i, n, i);
    case Quote =>
      CarIs(st, args);
      n := 1;
    case Lambda =>
      ClosesIs(c, args, env, st, v, st2);
      n := 1;
    case TheEnv => n := 1;
    case SetQ => n := SetSound(t, c, id, args, env, st, v, st2);
    case Define => n := DefineSound(t, c, id, args, env, st, v, st2);
    case If => n := IfSound(t, c, id, args, env, st, v, st2);
    case Let => n := LetSound(t, c, id, args, env, st, v, st2);
    case _ => n := FormsSound(t, c, kind, id, args, env, st, v, st2);
  }

  lemma {:induction false} FormsSound(t: Body, c: Names, kind: Kind, id: int, args: int, env: int, st: Store, v: int, st2: Store)
    returns (n: nat)
    requires (kind.Begin? || kind.Or? || kind.And?) && KindGives(t, c, kind, id, args, env, st, v, st2)
    ensures n > 0 && Special(c, kind, id, args, env, st, n) == Val(v, st2)
    decreases t, 0
  {
    n := 1;
    if kind.Begin? {
      var i := TurnSound(t.forms, c, args, env, st, v, st2);
      n := i + 1;
      EvalBeginMore(c, args, env, st, i, i, n, i);
    } else if kind.Or? {
      var i := AnySound(t.forms, c, args, env, st, v, st2);
      n := i + 1;
      EvalOrMore(c, args, env, st, i, i, n, i);
    } else if args != NIL {
      var i := AllSound(t.forms, c, args, env, st, v, st2);
      n := i + 1;
      EvalAndMore(c, args, env, st, i, i, n, i);
    }
  }

  lemma {:induction false} FoldingSound(t: Body, c: Names, id: int, args: int, env: int, st: Store, v: int, st2: Store) returns (n: nat)
    requires t.Folding? && FoldRule(t, c, id, args, env, st, v, st2)
    ensures n > 0 && Special(c, Folded, id, args, env, st, n) == Val(v, st2)
    decreases t, 0
  {
    var i := EachSound(t.args, c, args, 2, env, st, t.vs, t.st2);
    var r := c.builtin(id, t.vs, t.st2);
    CadrIs(r.st, args);
    var j := FoldSound(t.more, c, id, r.v, Behind(r.st, args, 2), env, r.st, v, st2);
    n := Max(i, j) + 1;
    EvalFixedMore(c, args, 2, env, st, i, n - 1);
    EvalFoldMore(c, id, r.v, Behind(r.st, args, 2), env, r.st, j, j, n, n - 1);
  }

  lemma {:induction false} SetSound(t: Body, c: Names, id: int, args: int, env: int, st: Store, v: int, st2: Store) returns (n: nat)
    requires t.Setting? && SetRule(t, c, args, env, st, v, st2)
    ensures n > 0 && Special(c, SetQ, id, args, env, st, n) == Val(v, st2)
    decreases t, 0
  {
    CadrIs(st, args);
    CarIs(t.st2, args);
    var name := Item(t.st2, args, 0);
    var i := GivesSound(t.value, c, Item(st, args, 1), env, st, v, t.st2);
    AssignsIs(name, v, env, t.st2, t.n, st2);
    n := Max(i, t.n) + 1;
    EvalMore(c, Item(st, args, 1), env, st, i, n - 1);
    LookupMore(name, env, t.st2, t.n, n);
  }

  lemma {:induction false} DefineSound(t: Body, c: Names, id: int, args: int, env: int, st: Store, v: int, st2: Store) returns (n: nat)
    requires t.Defining? && DefineRule(t, c, args, env, st, v, st2)
    ensures n > 0 && Special(c, Define, id, args, env, st, n) == Val(v, st2)
    decreases t, 0
  {
    SugarSound(c, args, st, t.levels, t.args2, t.st2);
    CarIs(t.st2, t.args2);
    CadrIs(t.st2, t.args2);
    var name, form := Item(t.st2, t.args2, 0), Item(t.st2, t.args2, 1);
    var i := GivesSound(t.value, c, form, env, t.st2, v, t.st3);
    n := Max(Max(t.levels + 1, t.n), i) + 1;
    SyntaxDefineMore(c, args, st, t.levels + 1, n);
    EvalMore(c, form, env, t.st2, i, n - 1);
    BindMore(name, v, env, t.st3, t.n, st2, n);
  }

  lemma BindMore(x: int, v: int, env: int, st: Store, m: nat, st2: Store, n: nat)
    requires Binds(x, v, env, st, m, st2) && m <= n
    ensures Bind(x, v, env, st, n) == Val(v, st2)
  {
    BindsIs(x, v, env, st, m, st2);
    LookupMore(x, env, st, m, n);
  }

  lemma {:induction false} IfSound(t: Body, c: Names, id: int, args: int, env: int, st: Store, v: int, st2: Store) returns (n: nat)
    requires t.Choosing? && IfRule(t, c, args, env, st, v, st2)
    ensures n > 0 && Special(c, If, id, args, env, st, n) == Val(v, st2)
    decreases t, 0
  {
    CarIs(st, args);
    CadrIs(t.st2, args);
    CaddrIs(t.st2, args);
    var test, branch := Item(st, args, 0), if t.tested != NIL then Item(t.st2, args, 1) else Item(t.st2, args, 2);
    var i := GivesSound(t.test, c, test, env, st, t.tested, t.st2);
    var j := GivesSound(t.branch, c, branch, env, t.st2, v, st2);
    n := Max(i, j) + 1;
    EvalMore(c, test, env, st, i, n - 1);
    EvalMore(c, branch, env, t.st2, j, n - 1);
  }

  lemma {:induction false} LetSound(t: Body, c: Names, id: int, args: int, env: int, st: Store, v: int, st2: Store) returns (n: nat)
    requires t.Letting? && LetRule(t, c, args, env, st, v, st2)
    ensures n > 0 && Special(c, Let, id, args, env, st, n) == Val(v, st2)
    decreases t, 0
  {
    var i := ListSound(t.args, c, Item(st, args, 1), env, st, t.list, t.st2);
    var j := GivesSound(t.body, c, Item(t.st3, args, 2), t.env2, t.st3, v, st2);
    n := LetAt(c, id, args, env, st, i, t.list, t.st2, t.env2, t.st3, j, Val(v, st2));
  }

  lemma LetAt(c: Names, id: int, args: int, env: int, st: Store, i: nat, list: int, st1: Store, env2: int, st2: Store, j: nat, r: Out)
    returns (n: nat)
    requires Listed(st, args, 2) && EvalList(c, Item(st, args, 1), env, st, i, i) == Val(list, st1)
    requires Listed(st1, args, 1) && Framed(list, Item(st1, args, 0), env, st1, env2, st2) && Listed(st2, args, 3)
    requires r.Val? && Eval(c, Item(st2, args, 2), env2, st2, j) == r
    ensures n > 0 && Special(c, Let, id, args, env, st, n) == r
  {
    n := Max(i, j) + 1;
    EvalListMore(c, Item(st, args, 1), env, st, i, i, n, n - 1);
    EvalMore(c, Item(st2, args, 2), env2, st2, j, n - 1);
    CadrIs(st, args);
    CarIs(st1, args);
    CaddrIs(st2, args);
    FramedIs(list, Item(st1, args, 0), env, st1, env2, st2);
    LetStep(c, id, args, env, st, n, Item(st, args, 1), list, st1, Item(st1, args, 0), env2, st2, Item(st2, args, 2));
  }

  lemma LetStep(c: Names, id: int, args: int, env: int, st: Store, n: nat, forms: int, list: int, st1: Store, formals: int,
                env2: int, st2: Store, body: int)
    requires n > 0 && Cadr(st, args) == Val(forms, st) && EvalList(c, forms, env, st, n, n - 1) == Val(list, st1)
    requires Car(st1, args) == Val(formals, st1) && ExtendEnv(list, formals, env, st1) == Val(env2, st2) && Caddr(st2, args) == Val(body, st2)
    ensures Special(c, Let, id, args, env, st, n) == Eval(c, body, env2, st2, n - 1)
  {
    LetOpens(c, id, args, env, st, n, forms);
    assert LetBody(c, args, Val(list, st1), env, n) == Eval(c, body, env2, st2, n - 1);
  }

  lemma LetOpens(c: Names, id: int, args: int, env: int, st: Store, n: nat, forms: int)
    requires n > 0 && Cadr(st, args) == Val(forms, st)
    ensures Special(c, Let, id, args, env, st, n) == LetBody(c, args, EvalList(c, forms, env, st, n, n - 1), env, n)
  {
  }

  lemma {:induction false} CallSound(t: Body, c: Names, f: int, cenv: int, code: int, x: int, env: int, st: Store, v: int, st2: Store)
    returns (n: nat)
    requires At(st, f) == Closure(cenv, code) && Listed(st, x, 1) && t.Calling?
    requires CallRule(t, c, cenv, code, Behind(st, x, 1), env, st, v, st2)
    ensures n > 0 && Apply(c, f, x, env, st, n) == Val(v, st2)
    decreases t, 0
  {
    var i := ListSound(t.args, c, Behind(st, x, 1), env, st, t.list, t.st2);
    var j := GivesSound(t.body, c, Behind(t.st3, code, 1), t.env2, t.st3, v, st2);
    n := CallAt(c, f, cenv, code, x, env, st, i, t.list, t.st2, t.env2, t.st3, j, Val(v, st2));
  }

  lemma CallAt(c: Names, f: int, cenv: int, code: int, x: int, env: int, st: Store, i: nat, list: int, st1: Store, env2: int, st2: Store,
               j: nat, r: Out) returns (n: nat)
    requires At(st, f) == Closure(cenv, code) && At(st, code).Cons? && Listed(st, x, 1)
    requires EvalList(c, Behind(st, x, 1), env, st, i, i) == Val(list, st1) && Listed(st1, code, 1)
    requires Framed(list, Item(st1, code, 0), cenv, st1, env2, st2) && Listed(st2, code, 1)
    requires r.Val? && Eval(c, Behind(st2, code, 1), env2, st2, j) == r
    ensures n > 0 && Apply(c, f, x, env, st, n) == r
  {
    n := Max(i, j) + 1;
    EvalListMore(c, Behind(st, x, 1), env, st, i, i, n, n - 1);
    EvalMore(c, Behind(st2, code, 1), env2, st2, j, n - 1);
    CarIs(st, x);
    CarIs(st1, code);
    CarIs(st2, code);
    FramedIs(list, Item(st1, code, 0), cenv, st1, env2, st2);
    CallStep(c, f, cenv, code, x, env, st, n, Behind(st, x, 1), list, st1, Item(st1, code, 0), env2, st2, Behind(st2, code, 1));
  }

  lemma CallStep(c: Names, f: int, cenv: int, code: int, x: int, env: int, st: Store, n: nat, args: int, list: int, st1: Store,
                 formals: int, env2: int, st2: Store, body: int)
    requires n > 0 && At(st, f) == Closure(cenv, code) && At(st, code).Cons? && Cdr(st, x) == Val(args, st)
    requires EvalList(c, args, env, st, n, n - 1) == Val(list, st1) && Car(st1, code) == Val(formals, st1)
    requires ExtendEnv(list, formals, cenv, st1) == Val(env2, st2) && Cdr(st2, code) == Val(body, st2)
    ensures Apply(c, f, x, env, st, n) == Eval(c, body, env2, st2, n - 1)
  {
  }

  lemma {:induction false} MacroSound(t: Body, c: Names, f: int, x: int, env: int, st: Store, v: int, st2: Store) returns (n: nat)
    requires At(st, f).Sym? && Listed(st, x, 1) && t.Expanding? && MacroRule(t, c, f, x, env, st, v, st2)
    ensures n > 0 && Apply(c, f, x, env, st, n) == Val(v, st2)
    decreases t, 0
  {
    CarIs(st, x);
    MacroIs(c, f, x, st);
    var st1 := Expansion(c, f, x, st);
    var i := GivesSound(t.expansion, c, |st| + 4, NIL, st1, t.form, t.st2);
    var j := GivesSound(t.value, c, t.form, env, t.st2, v, st2);
    n := Max(i, j) + 1;
    EvalMore(c, |st| + 4, NIL, st1, i, n - 1);
    EvalMore(c, t.form, env, t.st2, j, n - 1);
  }

  function Expansion(c: Names, f: int, x: int, st: Store): Store {
    st + [Cons(x, NIL), Cons(c.quote, |st| + 1), Cons(|st| + 2, NIL), Cons(f, |st| + 3)]
  }

  lemma MacroIs(c: Names, f: int, x: int, st: Store)
    ensures MacroCall(c, f, x, st) == Val(|st| + 4, Expansion(c, f, x, st))
  {
    assert st + [Cons(x, NIL)] + [Cons(c.quote, |st| + 1)] + [Cons(|st| + 2, NIL)] + [Cons(f, |st| + 3)] == Expansion(c, f, x, st);
  }

  /** The name in a definition need not be a symbol still when its value is known. */
  lemma BindsIs(x: int, v: int, env: int, st: Store, n: nat, st2: Store)
    ensures Binds(x, v, env, st, n, st2) <==> Bind(x, v, env, st, n) == Val(v, st2)
  {
    LookupIs(x, env, st, n);
    if BindingOf(x, env, st, n) == Unbound && env != NIL {
      NewBinding(x, v, env, st, n);
    }
    match BindingOf(x, env, st, n)
    case DottedTail(actuals) => assert Put(st + [Cons(actuals, NIL)], |st| + 1, Cons(v, NIL)) == st + [Cons(v, NIL)];
    case _ =>
  }

  lemma {:induction false} EachSound(t: Parts, c: Names, l: int, k: nat, env: int, st: Store, vs: seq<int>, st2: Store) returns (n: nat)
    requires EachGives(t, c, l, k, env, st, vs, st2)
    ensures EvalFixed(c, l, k, env, st, n) == Val(vs, st2)
    decreases t
  {
    if k == 0 {
      n := 0;
    } else {
      CarIs(st, l);
      CarIs(t.st1, l);
      var i := GivesSound(t.t, c, Item(st, l, 0), env, st, t.v, t.st1);
      var j := EachSound(t.rest, c, Behind(t.st1, l, 1), k - 1, env, t.st1, vs[1..], st2);
      n := Max(i, j);
      EvalMore(c, Item(st, l, 0), env, st, i, n);
      EvalFixedMore(c, Behind(t.st1, l, 1), k - 1, env, t.st1, j, n);
      assert vs == [t.v] + vs[1..];
    }
  }

  lemma {:induction false} FoldSound(t: Parts, c: Names, id: int, acc: int, l: int, env: int, st: Store, v: int, st2: Store) returns (n: nat)
    requires FoldGives(t, c, id, acc, l, env, st, v, st2)
    ensures n > 0 && EvalFold(c, id, acc, l, env, st, n, n) == Val(v, st2)
    decreases t
  {
    if !At(st, l).Cons? {
      n := 1;
    } else {
      var i := GivesSound(t.t, c, At(st, l).car, env, st, t.v, t.st1);
      var r := c.builtin(id, [acc, t.v], t.st1);
      CarIs(r.st, l);
      var rest := Behind(r.st, l, 1);
      var j := FoldSound(t.rest, c, id, r.v, rest, env, r.st, v, st2);
      n := Max(i, j) + 1;
      EvalMore(c, At(st, l).car, env, st, i, n);
      EvalFoldMore(c, id, r.v, rest, env, r.st, j, j, n - 1, n);
    }
  }

  lemma {:induction false} ListSound(t: Parts, c: Names, l: int, env: int, st: Store, list: int, st2: Store) returns (n: nat)
    requires ListGives(t, c, l, env, st, list, st2)
    ensures EvalList(c, l, env, st, n, n) == Val(list, st2)
    decreases t
  {
    if l == NIL {
      n := 0;
    } else {
      var i := GivesSound(t.t, c, At(st, l).car, env, st, t.v, t.st1);
      var st3 := t.st1 + [Cons(t.v, NIL)];
      CarIs(st3, l);
      var j := MoreSound(t.rest, c, list, Behind(st3, l, 1), env, st3, st2);
      n := Max(i, j);
      EvalMore(c, At(st, l).car, env, st, i, n);
      EvalTailMore(c, list, Behind(st3, l, 1), env, st3, j, j, n, n);
    }
  }

  lemma {:induction false} MoreSound(t: Parts, c: Names, last: int, l: int, env: int, st: Store, st2: Store) returns (n: nat)
    requires MoreGives(t, c, last, l, env, st, st2)
    ensures n > 0 && EvalTail(c, last, l, env, st, n, n) == Val(NIL, st2)
    decreases t
  {
    if l == NIL {
      n := 1;
    } else {
      var i := GivesSound(t.t, c, At(st, l).car, env, st, t.v, t.st1);
      var st4 := LinkedTo(t.st1, last, t.v);
      var j := MoreSound(t.rest, c, |t.st1| + 1, Behind(st4, l, 1), env, st4, st2);
      n := MoreAt(c, last, l, env, st, t.v, t.st1, st2, i, j);
    }
  }

  function LinkedTo(st: Store, last: int, v: int): Store {
    var st3 := st + [Cons(v, NIL)];
    if At(st3, last).Cons? then Put(st3, last, Cons(At(st3, last).car, |st3|)) else st3
  }

  lemma MoreAt(c: Names, last: int, l: int, env: int, st: Store, v: int, st1: Store, st2: Store, i: nat, j: nat) returns (n: nat)
    requires At(st, l).Cons? && Eval(c, At(st, l).car, env, st, i) == Val(v, st1) && At(st1 + [Cons(v, NIL)], last).Cons?
    requires var st4 := LinkedTo(st1, last, v);
      Listed(st4, l, 1) && EvalTail(c, |st1| + 1, Behind(st4, l, 1), env, st4, j, j) == Val(NIL, st2)
    ensures n > 0 && EvalTail(c, last, l, env, st, n, n) == Val(NIL, st2)
  {
    n := Max(i, j) + 1;
    EvalMore(c, At(st, l).car, env, st, i, n);
    RestMore(c, |st1| + 1, Behind(LinkedTo(st1, last, v), l, 1), env, LinkedTo(st1, last, v), st2, j, n);
    TailStep(c, last, l, env, st, n, n, v, st1);
  }

  lemma RestMore(c: Names, last: int, l: int, env: int, st: Store, st2: Store, j: nat, n: nat)
    requires j < n && EvalTail(c, last, l, env, st, j, j) == Val(NIL, st2)
    ensures EvalTail(c, last, l, env, st, n - 1, n) == Val(NIL, st2)
  {
    EvalTailMore(c, last, l, env, st, j, j, n - 1, n);
  }

  lemma TailStep(c: Names, last: int, l: int, env: int, st: Store, m: nat, n: nat, v: int, st1: Store)
    requires m > 0 && At(st, l).Cons? && Eval(c, At(st, l).car, env, st, n) == Val(v, st1)
    ensures var st2 := st1 + [Cons(v, NIL)];
      EvalTail(c, last, l, env, st, m, n) ==
        if !At(st2, last).Cons? then Error
        else
          var st3 := Put(st2, last, Cons(At(st2, last).car, |st2|));
          if Listed(st3, l, 1) then EvalTail(c, |st2|, Behind(st3, l, 1), env, st3, m - 1, n) else Error
  {
    var st2 := st1 + [Cons(v, NIL)];
    if At(st2, last).Cons? {
      CarIs(Put(st2, last, Cons(At(st2, last).car, |st2|)), l);
    }
  }

  lemma {:induction false} TurnSound(t: Parts, c: Names, l: int, env: int, st: Store, v: int, st2: Store) returns (n: nat)
    requires TurnGives(t, c, l, env, st, v, st2)
    ensures n > 0 && EvalBegin(c, l, env, st, n, n) == Val(v, st2)
    decreases t
  {
    CarIs(st, l);
    var i := GivesSound(t.t, c, Item(st, l, 0), env, st, t.v, t.st1);
    n := i;
    if Behind(st, l, 1) != NIL {
      var j := TurnSound(t.rest, c, Behind(st, l, 1), env, t.st1, v, st2);
      n := Max(i, j) + 1;
      EvalBeginMore(c, Behind(st, l, 1), env, t.st1, j, j, n - 1, n);
    }
    EvalMore(c, Item(st, l, 0), env, st, i, n);
  }

  lemma {:induction false} AnySound(t: Parts, c: Names, l: int, env: int, st: Store, v: int, st2: Store) returns (n: nat)
    requires AnyGives(t, c, l, env, st, v, st2)
    ensures n > 0 && EvalOr(c, l, env, st, n, n) == Val(v, st2)
    decreases t
  {
    CarIs(st, l);
    var i := GivesSound(t.t, c, Item(st, l, 0), env, st, t.v, t.st1);
    n := i;
    if Behind(st, l, 1) != NIL && t.v == NIL {
      var j := AnySound(t.rest, c, Behind(st, l, 1), env, t.st1, v, st2);
      n := Max(i, j) + 1;
      EvalOrMore(c, Behind(st, l, 1), env, t.st1, j, j, n - 1, n);
    }
    EvalMore(c, Item(st, l, 0), env, st, i, n);
  }

  lemma {:induction false} AllSound(t: Parts, c: Names, l: int, env: int, st: Store, v: int, st2: Store) returns (n: nat)
    requires AllGives(t, c, l, env, st, v, st2)
    ensures n > 0 && EvalAnd(c, l, env, st, n, n) == Val(v, st2)
    decreases t
  {
    CarIs(st, l);
    var i := GivesSound(t.t, c, Item(st, l, 0), env, st, t.v, t.st1);
    n := i;
    if Behind(st, l, 1) != NIL && t.v != NIL {
      var j := AllSound(t.rest, c, Behind(st, l, 1), env, t.st1, v, st2);
      n := Max(i, j) + 1;
      EvalAndMore(c, Behind(st, l, 1), env, t.st1, j, j, n - 1, n);
    }
    EvalMore(c, Item(st, l, 0), env, st, i, n);
  }

  // From leval to the rules

  lemma {:induction false} GivesComplete(c: Names, x: int, env: int, st: Store, n: nat) returns (t: Tree)
    requires Eval(c, x, env, st, n).Val?
    ensures var r := Eval(c, x, env, st, n);
      Gives(t, c, x, env, st, r.v, r.st)
    decreases n, 2, 0
  {
    var r := Eval(c, x, env, st, n);
    match At(st, x)
    case Sym(_) =>
      ReadsIs(x, env, st, n, r.v, r.st);
      t := Name(n);
    case Cons(h, _) =>
      var op := Operator(c, h, env, st, n);
      var head := HeadComplete(c, h, env, st, n);
      var body := BodyComplete(c, op.v, x, env, op.st, n);
      t := Form(head, op.v, op.st, body);
    case _ => t := Constant;
  }

  lemma {:induction false} HeadComplete(c: Names, h: int, env: int, st: Store, n: nat) returns (t: Head)
    requires n > 0 && Operator(c, h, env, st, n).Val?
    ensures var r := Operator(c, h, env, st, n);
      HeadGives(t, c, h, env, st, r.v, r.st)
    decreases n, 0, 0
  {
    var r := Operator(c, h, env, st, n);
    match At(st, h)
    case Sym(_) =>
      HeadIs(c, h, env, st, n, r.v, r.st);
      t := Named(n);
    case Cons(_, _) =>
      var t1 := GivesComplete(c, h, env, st, n - 1);
      t := Computed(t1);
    case _ => t := Itself;
  }

  lemma {:induction false} BodyComplete(c: Names, f: int, x: int, env: int, st: Store, n: nat) returns (t: Body)
    requires n > 0 && Apply(c, f, x, env, st, n).Val?
    ensures var r := Apply(c, f, x, env, st, n);
      BodyGives(t, c, f, x, env, st, r.v, r.st)
    decreases n, 1, 0
  {
    CarIs(st, x);
    match At(st, f)
    case Subr(kind, id) => t := KindComplete(c, kind, id, Behind(st, x, 1), env, st, n);
    case Closure(cenv, code) => t := CallComplete(c, f, cenv, code, x, env, st, n);
    case Sym(_) => t := MacroComplete(c, f, x, env, st, n);
  }

  lemma {:induction false} MacroComplete(c: Names, f: int, x: int, env: int, st: Store, n: nat) returns (t: Body)
    requires n > 0 && At(st, f).Sym? && Apply(c, f, x, env, st, n).Val?
    ensures var r := Apply(c, f, x, env, st, n);
      t.Expanding? && MacroRule(t, c, f, x, env, st, r.v, r.st)
    decreases n, 0, 3
  {
    MacroIs(c, f, x, st);
    var st1 := Expansion(c, f, x, st);
    var e := Eval(c, |st| + 4, NIL, st1, n - 1);
    var expansion := GivesComplete(c, |st| + 4, NIL, st1, n - 1);
    var value := GivesComplete(c, e.v, env, e.st, n - 1);
    t := Expanding(expansion, e.v, e.st, value);
  }

  lemma {:induction false} CallComplete(c: Names, f: int, cenv: int, code: int, x: int, env: int, st: Store, n: nat) returns (t: Body)
    requires n > 0 && Listed(st, x, 1) && At(st, f) == Closure(cenv, code) && Apply(c, f, x, env, st, n).Val?
    ensures var r := Apply(c, f, x, env, st, n);
      t.Calling? && CallRule(t, c, cenv, code, Behind(st, x, 1), env, st, r.v, r.st)
    decreases n, 0, 3
  {
    CarIs(st, x);
    var args := Behind(st, x, 1);
    var vs := EvalList(c, args, env, st, n, n - 1);
    CarIs(vs.st, code);
    var formals := Item(vs.st, code, 0);
    var env2 := ExtendEnv(vs.v, formals, cenv, vs.st);
    FramedIs(vs.v, formals, cenv, vs.st, env2.v, env2.st);
    CarIs(env2.st, code);
    var parts := ListComplete(c, args, env, st, n, n - 1);
    var body := GivesComplete(c, Behind(env2.st, code, 1), env2.v, env2.st, n - 1);
    t := Calling(parts, vs.v, vs.st, env2.v, env2.st, body);
  }

  lemma {:induction false} KindComplete(c: Names, kind: Kind, id: int, args: int, env: int, st: Store, n: nat) returns (t: Body)
    requires n > 0 && Special(c, kind, id, args, env, st, n).Val?
    ensures var r := Special(c, kind, id, args, env, st, n);
      KindGives(t, c, kind, id, args, env, st, r.v, r.st)
    decreases n, 0, 3
  {
    t := Alone;
    match kind
    case Fixed(k) =>
      var vs := EvalFixed(c, args, k, env, st, n - 1);
      var parts := EachComplete(c, args, k, env, st, n - 1);
      t := BuiltIn(parts, vs.v, vs.st);
    case Folded => t := FoldingComplete(c, id, args, env, st, n);
    case ListArgs =>
      var l := EvalList(c, args, env, st, n, n - 1);
      var parts := ListComplete(c, args, env, st, n, n - 1);
      t := OfList(parts, l.v, l.st);
    case Quote => CarIs(st, args);
    case Lambda =>
      var r := MakeLambda(c, args, env, st);
      ClosesIs(c, args, env, st, r.v, r.st);
    case TheEnv =>
    case SetQ => t := SetComplete(c, id, args, env, st, n);
    case Define => t := DefineComplete(c, id, args, env, st, n);
    case If => t := IfComplete(c, id, args, env, st, n);
    case Let =>
      var forms, vs, env2, body := LetSplits(c, id, args, env, st, n);
      t := LetComplete(c, args, env, st, n, forms, vs, env2, body);
    case _ => t := FormsComplete(c, kind, id, args, env, st, n);
  }

  lemma {:induction false} FormsComplete(c: Names, kind: Kind, id: int, args: int, env: int, st: Store, n: nat) returns (t: Body)
    requires (kind.Begin? || kind.Or? || kind.And?) && n > 0 && Special(c, kind, id, args, env, st, n).Val?
    ensures var r := Special(c, kind, id, args, env, st, n);
      KindGives(t, c, kind, id, args, env, st, r.v, r.st)
    decreases n, 0, 2
  {
    var forms := Done;
    if kind.Begin? {
      forms := TurnComplete(c, args, env, st, n, n - 1);
    } else if kind.Or? {
      forms := AnyComplete(c, args, env, st, n, n - 1);
    } else if args != NIL {
      forms := AllComplete(c, args, env, st, n, n - 1);
    }
    t := InTurn(forms);
  }

  lemma {:induction false} FoldingComplete(c: Names, id: int, args: int, env: int, st: Store, n: nat) returns (t: Body)
    requires n > 0 && Special(c, Folded, id, args, env, st, n).Val?
    ensures var r := Special(c, Folded, id, args, env, st, n);
      t.Folding? && FoldRule(t, c, id, args, env, st, r.v, r.st)
    decreases n, 0, 2
  {
    var vs := EvalFixed(c, args, 2, env, st, n - 1);
    var parts := EachComplete(c, args, 2, env, st, n - 1);
    var acc := c.builtin(id, vs.v, vs.st);
    CadrIs(acc.st, args);
    var more := FoldComplete(c, id, acc.v, Behind(acc.st, args, 2), env, acc.st, n, n - 1);
    t := Folding(parts, vs.v, vs.st, more);
  }

  lemma {:induction false} SetComplete(c: Names, id: int, args: int, env: int, st: Store, n: nat) returns (t: Body)
    requires n > 0 && Special(c, SetQ, id, args, env, st, n).Val?
    ensures var r := Special(c, SetQ, id, args, env, st, n);
      t.Setting? && SetRule(t, c, args, env, st, r.v, r.st)
    decreases n, 0, 2
  {
    var r := Special(c, SetQ, id, args, env, st, n);
    CadrIs(st, args);
    var v := Eval(c, Item(st, args, 1), env, st, n - 1);
    var value := GivesComplete(c, Item(st, args, 1), env, st, n - 1);
    CarIs(v.st, args);
    AssignsIs(Item(v.st, args, 0), v.v, env, v.st, n, r.st);
    t := Setting(value, v.st, n);
  }

  lemma {:induction false} DefineComplete(c: Names, id: int, args: int, env: int, st: Store, n: nat) returns (t: Body)
    requires n > 0 && Special(c, Define, id, args, env, st, n).Val?
    ensures var r := Special(c, Define, id, args, env, st, n);
      t.Defining? && DefineRule(t, c, args, env, st, r.v, r.st)
    decreases n, 0, 2
  {
    var r := Special(c, Define, id, args, env, st, n);
    var d := SyntaxDefine(c, args, st, n);
    var levels := SugarComplete(c, args, st, n, d.v, d.st);
    CarIs(d.st, d.v);
    CadrIs(d.st, d.v);
    var name, form := Item(d.st, d.v, 0), Item(d.st, d.v, 1);
    var v := Eval(c, form, env, d.st, n - 1);
    var value := GivesComplete(c, form, env, d.st, n - 1);
    BindsIs(name, v.v, env, v.st, n, r.st);
    t := Defining(levels, d.v, d.st, value, v.st, n);
  }

  lemma {:induction false} IfComplete(c: Names, id: int, args: int, env: int, st: Store, n: nat) returns (t: Body)
    requires n > 0 && Special(c, If, id, args, env, st, n).Val?
    ensures var r := Special(c, If, id, args, env, st, n);
      t.Choosing? && IfRule(t, c, args, env, st, r.v, r.st)
    decreases n, 0, 2
  {
    CarIs(st, args);
    var v := Eval(c, Item(st, args, 0), env, st, n - 1);
    var test := GivesComplete(c, Item(st, args, 0), env, st, n - 1);
    CadrIs(v.st, args);
    CaddrIs(v.st, args);
    var branch := GivesComplete(c, if v.v != NIL then Item(v.st, args, 1) else Item(v.st, args, 2), env, v.st, n - 1);
    t := Choosing(test, v.v, v.st, branch);
  }

  lemma {:induction false} LetComplete(c: Names, args: int, env: int, st: Store, n: nat, forms: int, vs: Out, env2: Out, body: int)
    returns (t: Body)
    requires n > 0 && Listed(st, args, 2) && forms == Item(st, args, 1) && vs == EvalList(c, forms, env, st, n, n - 1) && vs.Val?
    requires Listed(vs.st, args, 1) && env2.Val? && Framed(vs.v, Item(vs.st, args, 0), env, vs.st, env2.v, env2.st)
    requires Listed(env2.st, args, 3) && body == Item(env2.st, args, 2) && Eval(c, body, env2.v, env2.st, n - 1).Val?
    ensures var r := Eval(c, body, env2.v, env2.st, n - 1);
      t.Letting? && LetRule(t, c, args, env, st, r.v, r.st)
    decreases n, 0, 2
  {
    var parts := ListComplete(c, forms, env, st, n, n - 1);
    var value := GivesComplete(c, body, env2.v, env2.st, n - 1);
    t := Letting(parts, vs.v, vs.st, env2.v, env2.st, value);
  }

  lemma LetSplits(c: Names, id: int, args: int, env: int, st: Store, n: nat) returns (forms: int, vs: Out, env2: Out, body: int)
    requires n > 0 && Special(c, Let, id, args, env, st, n).Val?
    ensures Listed(st, args, 2) && forms == Item(st, args, 1) && vs == EvalList(c, forms, env, st, n, n - 1) && vs.Val?
    ensures Listed(vs.st, args, 1) && env2.Val? && Framed(vs.v, Item(vs.st, args, 0), env, vs.st, env2.v, env2.st)
    ensures Listed(env2.st, args, 3) && body == Item(env2.st, args, 2)
    ensures Special(c, Let, id, args, env, st, n) == Eval(c, body, env2.v, env2.st, n - 1)
  {
    CadrIs(st, args);
    forms := Item(st, args, 1);
    LetOpens(c, id, args, env, st, n, forms);
    vs := EvalList(c, forms, env, st, n, n - 1);
    env2, body := LetBodyIs(c, args, vs, env, n);
  }

  lemma LetBodyIs(c: Names, args: int, vs: Out, env: int, n: nat) returns (env2: Out, body: int)
    requires n > 0 && LetBody(c, args, vs, env, n).Val?
    ensures vs.Val? && Listed(vs.st, args, 1) && env2.Val? && Framed(vs.v, Item(vs.st, args, 0), env, vs.st, env2.v, env2.st)
    ensures Listed(env2.st, args, 3) && body == Item(env2.st, args, 2)
    ensures LetBody(c, args, vs, env, n) == Eval(c, body, env2.v, env2.st, n - 1)
  {
    CarIs(vs.st, args);
    var formals := Item(vs.st, args, 0);
    env2 := ExtendEnv(vs.v, formals, env, vs.st);
    FramedIs(vs.v, formals, env, vs.st, env2.v, env2.st);
    CaddrIs(env2.st, args);
    body := Item(env2.st, args, 2);
  }

  lemma {:induction false} EachComplete(c: Names, l: int, k: nat, env: int, st: Store, n: nat) returns (t: Parts)
    requires EvalFixed(c, l, k, env, st, n).Val?
    ensures var r := EvalFixed(c, l, k, env, st, n);
      EachGives(t, c, l, k, env, st, r.v, r.st)
    decreases n, 3, k
  {
    if k == 0 {
      t := Done;
    } else {
      CarIs(st, l);
      var v := Eval(c, Item(st, l, 0), env, st, n);
      var first := GivesComplete(c, Item(st, l, 0), env, st, n);
      CarIs(v.st, l);
      var rest := EachComplete(c, Behind(v.st, l, 1), k - 1, env, v.st, n);
      t := Part(first, v.v, v.st, rest);
    }
  }

  lemma {:induction false} FoldComplete(c: Names, id: int, acc: int, l: int, env: int, st: Store, m: nat, n: nat) returns (t: Parts)
    requires EvalFold(c, id, acc, l, env, st, m, n).Val?
    ensures var r := EvalFold(c, id, acc, l, env, st, m, n);
      FoldGives(t, c, id, acc, l, env, st, r.v, r.st)
    decreases n, 3, m
  {
    if !At(st, l).Cons? {
      t := Done;
    } else {
      var v := Eval(c, At(st, l).car, env, st, n);
      var first := GivesComplete(c, At(st, l).car, env, st, n);
      var acc2 := c.builtin(id, [acc, v.v], v.st);
      CarIs(acc2.st, l);
      var rest := FoldComplete(c, id, acc2.v, Behind(acc2.st, l, 1), env, acc2.st, m - 1, n);
      t := Part(first, v.v, v.st, rest);
    }
  }

  lemma {:induction false} ListComplete(c: Names, l: int, env: int, st: Store, m: nat, n: nat) returns (t: Parts)
    requires EvalList(c, l, env, st, m, n).Val?
    ensures var r := EvalList(c, l, env, st, m, n);
      ListGives(t, c, l, env, st, r.v, r.st)
    decreases n, 4, m
  {
    if l == NIL {
      t := Done;
    } else {
      var v := Eval(c, At(st, l).car, env, st, n);
      var first := GivesComplete(c, At(st, l).car, env, st, n);
      var st3 := v.st + [Cons(v.v, NIL)];
      CarIs(st3, l);
      var rest := MoreComplete(c, |st3|, Behind(st3, l, 1), env, st3, m, n);
      t := Part(first, v.v, v.st, rest);
    }
  }

  lemma {:induction false} MoreComplete(c: Names, last: int, l: int, env: int, st: Store, m: nat, n: nat) returns (t: Parts)
    requires EvalTail(c, last, l, env, st, m, n).Val?
    ensures var r := EvalTail(c, last, l, env, st, m, n);
      r.v == NIL && MoreGives(t, c, last, l, env, st, r.st)
    decreases n, 3, m
  {
    if l == NIL {
      t := Done;
    } else {
      var v := Eval(c, At(st, l).car, env, st, n);
      var first := GivesComplete(c, At(st, l).car, env, st, n);
      var st3 := v.st + [Cons(v.v, NIL)];
      var st4 := Put(st3, last, Cons(At(st3, last).car, |st3|));
      TailStep(c, last, l, env, st, m, n, v.v, v.st);
      var rest := MoreComplete(c, |st3|, Behind(st4, l, 1), env, st4, m - 1, n);
      t := Part(first, v.v, v.st, rest);
    }
  }

  lemma {:induction false} TurnComplete(c: Names, l: int, env: int, st: Store, m: nat, n: nat) returns (t: Parts)
    requires EvalBegin(c, l, env, st, m, n).Val?
    ensures var r := EvalBegin(c, l, env, st, m, n);
      TurnGives(t, c, l, env, st, r.v, r.st)
    decreases n, 3, m
  {
    CarIs(st, l);
    var v := Eval(c, Item(st, l, 0), env, st, n);
    var first := GivesComplete(c, Item(st, l, 0), env, st, n);
    var rest := Done;
    if Behind(st, l, 1) != NIL {
      rest := TurnComplete(c, Behind(st, l, 1), env, v.st, m - 1, n);
    }
    t := Part(first, v.v, v.st, rest);
  }

  lemma {:induction false} AnyComplete(c: Names, l: int, env: int, st: Store, m: nat, n: nat) returns (t: Parts)
    requires EvalOr(c, l, env, st, m, n).Val?
    ensures var r := EvalOr(c, l, env, st, m, n);
      AnyGives(t, c, l, env, st, r.v, r.st)
    decreases n, 3, m
  {
    CarIs(st, l);
    var v := Eval(c, Item(st, l, 0), env, st, n);
    var first := GivesComplete(c, Item(st, l, 0), env, st, n);
    var rest := Done;
    if Behind(st, l, 1) != NIL && v.v == NIL {
      rest := AnyComplete(c, Behind(st, l, 1), env, v.st, m - 1, n);
    }
    t := Part(first, v.v, v.st, rest);
  }

  lemma {:induction false} AllComplete(c: Names, l: int, env: int, st: Store, m: nat, n: nat) returns (t: Parts)
    requires EvalAnd(c, l, env, st, m, n).Val?
    ensures var r := EvalAnd(c, l, env, st, m, n);
      AllGives(t, c, l, env, st, r.v, r.st)
    decreases n, 3, m
  {
    CarIs(st, l);
    var v := Eval(c, Item(st, l, 0), env, st, n);
    var first := GivesComplete(c, Item(st, l, 0), env, st, n);
    var rest := Done;
    if Behind(st, l, 1) != NIL && v.v != NIL {
      rest := AllComplete(c, Behind(st, l, 1), env, v.st, m - 1, n);
    }
    t := Part(first, v.v, v.st, rest);
  }

  ghost predicate Evaluates(c: Names, x: int, env: int, st: Store, v: int, st2: Store) {
    exists n: nat :: Eval(c, x, env, st, n) == Val(v, st2)
  }

  ghost predicate Derived(c: Names, x: int, env: int, st: Store, v: int, st2: Store) {
    exists t :: Gives(t, c, x, env, st, v, st2)
  }

  /** The main property: leval gives a form a value, with enough fuel, if and only if the rules do, and the same store. */
  lemma RulesDecide(c: Names, x: int, env: int, st: Store, v: int, st2: Store)
    ensures Evaluates(c, x, env, st, v, st2) <==> Derived(c, x, env, st, v, st2)
  {
    if n: nat :| Eval(c, x, env, st, n) == Val(v, st2) {
      var t := GivesComplete(c, x, env, st, n);
      assert Gives(t, c, x, env, st, v, st2);
    }
    if t :| Gives(t, c, x, env, st, v, st2) {
      var n := GivesSound(t, c, x, env, st, v, st2);
      assert Eval(c, x, env, st, n) == Val(v, st2);
    }
  }

  /** And only one value and store. */
  lemma RulesAgree(c: Names, x: int, env: int, st: Store, t: Tree, v: int, st2: Store, t': Tree, v': int, st2': Store)
    requires Gives(t, c, x, env, st, v, st2) && Gives(t', c, x, env, st, v', st2')
    ensures v == v' && st2 == st2'
  {
    var n := GivesSound(t, c, x, env, st, v, st2);
    var m := GivesSound(t', c, x, env, st, v', st2');
    EvalMore(c, x, env, st, n, Max(n, m));
    EvalMore(c, x, env, st, m, Max(n, m));
  }

  // What a name means in a frame, and in frames

  /** The first formal of that name has the actual at its place. */
  lemma {:induction false} FormalIs(name: int, fl: int, al: int, st: Store, i: nat, n: nat)
    requires i < n && At(st, Behind(st, fl, i)).Cons? && At(st, Behind(st, al, i)).Cons?
    requires Item(st, fl, i) == name && forall j: nat :: j < i ==> Item(st, fl, j) != name
    ensures BindingIn(name, fl, al, st, n) == InCar(Behind(st, al, i))
    decreases i
  {
    if i > 0 {
      assert Item(st, fl, 0) != name;
      forall j: nat | j < i - 1 ensures Item(st, At(st, fl).cdr, j) != name {
        assert Item(st, fl, j + 1) != name;
      }
      FormalIs(name, At(st, fl).cdr, At(st, al).cdr, st, i - 1, n - 1);
    }
  }

  /** The symbol behind the last formal has the actuals that are left. */
  lemma {:induction false} DottedIs(name: int, fl: int, al: int, st: Store, i: nat, n: nat)
    requires i < n && Behind(st, fl, i) == name && At(st, name).Sym? && (i > 0 ==> At(st, Behind(st, al, i - 1)).Cons?)
    requires forall j: nat :: j < i ==> Item(st, fl, j) != name
    ensures BindingIn(name, fl, al, st, n) == DottedTail(Behind(st, al, i))
    decreases i
  {
    if i > 0 {
      assert Item(st, fl, 0) != name;
      forall j: nat | j < i - 1 ensures Item(st, At(st, fl).cdr, j) != name {
        assert Item(st, fl, j + 1) != name;
      }
      DottedIs(name, At(st, fl).cdr, At(st, al).cdr, st, i - 1, n - 1);
    }
  }

  /** The first frame that binds a name decides what it is. */
  lemma {:induction false} FrameDecides(name: int, env: int, st: Store, k: nat, n: nat)
    requires k < n && forall h: nat :: h <= k ==> At(st, Item(st, env, h)).Cons?
    requires forall h: nat :: h < k ==> var f := At(st, Item(st, env, h)); BindingIn(name, f.car, f.cdr, st, n - h) == Unbound
    ensures var f := At(st, Item(st, env, k));
      BindingIn(name, f.car, f.cdr, st, n - k) != Unbound ==> BindingOf(name, env, st, n) == BindingIn(name, f.car, f.cdr, st, n - k)
    decreases k
  {
    assert At(st, Item(st, env, 0)).Cons?;
    if k > 0 {
      var rest := At(st, env).cdr;
      forall h: nat | h <= k - 1 ensures Item(st, rest, h) == Item(st, env, h + 1) {
      }
      forall h: nat | h < k - 1
        ensures var f := At(st, Item(st, rest, h)); BindingIn(name, f.car, f.cdr, st, n - 1 - h) == Unbound
      {
        assert Item(st, rest, h) == Item(st, env, h + 1);
        var f := At(st, Item(st, env, h + 1));
        assert BindingIn(name, f.car, f.cdr, st, n - (h + 1)) == Unbound;
      }
      FrameDecides(name, rest, st, k - 1, n - 1);
    }
  }
}
