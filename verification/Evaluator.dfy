/** The evaluator of the embedded Lisp (src/lib/siod/slib.c).

    Eval gives the meaning of a form by plain recursion.  The class at the end works as
    the source does: its loop overwrites form and environment and jumps back, and every
    list is walked by a loop.  Both count fuel, one unit for each nested or repeated
    evaluation, and both are shown to agree at every fuel. */
module Evaluator {

  import opened Sealed

  const NIL: int := 0

  /** How a built-in takes its arguments: the subr types evaluate a fixed number, fold
      a binary function or take the list of values; the rest are the special forms. */
  datatype Kind =
    | Fixed(n: nat) | Folded | ListArgs
    | Quote | Lambda | SetQ | Define | TheEnv
    | If | Begin | Or | And | Let

  datatype Obj =
    | Nil
    | Num(n: int)
    | Cons(car: int, cdr: int)
    | Sym(vcell: int)
    | Closure(env: int, code: int)
    | Subr(kind: Kind, id: int)

  /** The object at address p is element p - 1. */
  type Store = seq<Obj>

  function At(st: Store, p: int): Obj {
    if 0 < p <= |st| then st[p - 1] else Nil
  }

  function Put(st: Store, p: int, o: Obj): Store {
    if 0 < p <= |st| then st[p - 1 := o] else st
  }

  /** The outcome of an operation: a value and the new store, an error, or no fuel left. */
  datatype Result<T> = Val(v: T, st: Store) | Error | NoFuel {
    predicate IsFailure() {
      !Val?
    }
    function PropagateFailure<U>(): Result<U>
      requires IsFailure()
    {
      if Error? then Result.Error else NoFuel
    }
    function Extract(): (T, Store)
      requires !IsFailure()
    {
      (v, st)
    }
  }

  type Out = Result<int>

  /** The symbols and the marker the interpreter knows by address, and what its built-in
      functions return for their arguments. */
  datatype Names = Names(quote: int, lambda: int, progn: int, t: int, unbound: int,
                         builtin: (int, seq<int>, Store) -> Out)

  function New(st: Store, o: Obj): Out {
    Val(|st| + 1, st + [o])
  }

  function MakeCons(st: Store, a: int, d: int): Out {
    New(st, Cons(a, d))
  }

  /** car and cdr: NIL of NIL, an error of anything but a cons. */
  function Car(st: Store, p: int): Out {
    if p == NIL then Val(NIL, st) else match At(st, p) case Cons(a, _) => Val(a, st) case _ => Error
  }

  function Cdr(st: Store, p: int): Out {
    if p == NIL then Val(NIL, st) else match At(st, p) case Cons(_, d) => Val(d, st) case _ => Error
  }

  function Cadr(st: Store, p: int): Out {
    var (d, _) :- Cdr(st, p);
    Car(st, d)
  }

  function Cddr(st: Store, p: int): Out {
    var (d, _) :- Cdr(st, p);
    Cdr(st, d)
  }

  /** envlookup within one frame: the cons whose car is the value, 0 if not here.  A
      dotted last formal is found too, but through a fresh cons. */
  function ScanFrame(name: int, fl: int, al: int, st: Store, n: nat): Out
    decreases n
  {
    if n == 0 then NoFuel
    else match At(st, fl)
      case Cons(f, fls) =>
        (match At(st, al)
         case Cons(_, als) => if f == name then Val(al, st) else ScanFrame(name, fls, als, st, n - 1)
         case _ => Error)
      case Sym(_) => if fl == name then MakeCons(st, al, NIL) else Val(NIL, st)
      case _ => Val(NIL, st)
  }

  /** envlookup: 0 if no frame binds the variable. */
  function Lookup(name: int, env: int, st: Store, n: nat): Out
    decreases n
  {
    if n == 0 then NoFuel
    else match At(st, env)
      case Cons(frame, rest) =>
        (match At(st, frame)
         case Cons(fl, al) =>
           var (r, st1) :- ScanFrame(name, fl, al, st, n);
           if r != NIL then Val(r, st1) else Lookup(name, rest, st1, n - 1)
         case _ => Error)
      case _ => if env == NIL then Val(NIL, st) else Error
  }

  function SetCar(st: Store, p: int, v: int): Out {
    match At(st, p) case Cons(_, d) => Val(v, Put(st, p, Cons(v, d))) case _ => Error
  }

  function SetCdr(st: Store, p: int, v: int): Out {
    match At(st, p) case Cons(a, _) => Val(v, Put(st, p, Cons(a, v))) case _ => Error
  }

  function SetVar(name: int, v: int, env: int, st: Store, n: nat): Out {
    if !At(st, name).Sym? then Error
    else
      var (al, st1) :- Lookup(name, env, st, n);
      if al == NIL then Val(v, Put(st1, name, Sym(v))) else SetCar(st1, al, v)
  }

  function ExtendEnv(actuals: int, formals: int, env: int, st: Store): Out {
    if At(st, formals).Sym? then
      var (f, st1) :- MakeCons(st, formals, NIL);
      var (a, st2) :- MakeCons(st1, actuals, NIL);
      var (fr, st3) :- MakeCons(st2, f, a);
      MakeCons(st3, fr, env)
    else
      var (fr, st1) :- MakeCons(st, formals, actuals);
      MakeCons(st1, fr, env)
  }

  /** syntax_define: (define (f . formals) . body) to (define f (lambda formals . body)). */
  function SyntaxDefine(nm: Names, args: int, st: Store, n: nat): Out
    decreases n
  {
    if n == 0 then NoFuel
    else
      var (a, _) :- Car(st, args);
      if At(st, a).Sym? then Val(args, st)
      else
        var (f, _) :- Car(st, a);
        var (formals, _) :- Cdr(st, a);
        var (body, _) :- Cdr(st, args);
        var (c1, st1) :- MakeCons(st, formals, body);
        var (c2, st2) :- MakeCons(st1, nm.lambda, c1);
        var (c3, st3) :- MakeCons(st2, c2, NIL);
        var (c4, st4) :- MakeCons(st3, f, c3);
        SyntaxDefine(nm, c4, st4, n - 1)
  }

  /** The part of define after the value is known. */
  function Bind(name: int, v: int, env: int, st: Store, n: nat): Out {
    var (al, st1) :- Lookup(name, env, st, n);
    if al != NIL then SetCar(st1, al, v)
    else if env == NIL then Val(v, Put(st1, name, Sym(v)))
    else
      var (fr, _) :- Car(st1, env);
      var (fl, _) :- Car(st1, fr);
      var (c, st2) :- MakeCons(st1, name, fl);
      var (_, st3) :- SetCar(st2, fr, c);
      var (al2, _) :- Cdr(st3, fr);
      var (d, st4) :- MakeCons(st3, v, al2);
      var (_, st5) :- SetCdr(st4, fr, d);
      Val(v, st5)
  }

  function MakeLambda(nm: Names, args: int, env: int, st: Store): Out {
    var (dd, _) :- Cddr(st, args);
    var (d, _) :- Cdr(st, args);
    var (body, st1) :- if dd == NIL then Car(st, d) else MakeCons(st, nm.progn, d);
    var (formals, _) :- Car(st1, args);
    var (code, st2) :- MakeCons(st1, formals, body);
    New(st2, Closure(env, code))
  }

  /** leval: the value of form x in environment env. */
  function Eval(c: Names, x: int, env: int, st: Store, fuel: nat): Out
    decreases fuel, 2, 0
  {
    if fuel == 0 then NoFuel
    else match At(st, x)
      case Sym(_) => Variable(x, env, st, fuel)
      case Cons(h, _) =>
        var (f, st1) :- Operator(c, h, env, st, fuel);
        Apply(c, f, x, env, st1, fuel)
      case _ => Val(x, st)
  }

  /** The value of a symbol: its binding in the environment, or its global value. */
  function Variable(x: int, env: int, st: Store, n: nat): Out {
    var (al, st1) :- Lookup(x, env, st, n);
    if al != NIL then Car(st1, al)
    else match At(st1, x) case Sym(v) => Val(v, st1) case _ => Error
  }

  /** What stands in operator position; only here an unbound global is an error. */
  function Operator(c: Names, h: int, env: int, st: Store, fuel: nat): Out
    requires fuel > 0
    decreases fuel, 0, 0
  {
    match At(st, h)
    case Sym(_) =>
      var (al, st1) :- Lookup(h, env, st, fuel);
      if al != NIL then Car(st1, al)
      else (match At(st1, h) case Sym(v) => if v == c.unbound then Error else Val(v, st1) case _ => Error)
    case Cons(_, _) => Eval(c, h, env, st, fuel - 1)
    case _ => Val(h, st)
  }

  /** The form x with operator value f. */
  function Apply(c: Names, f: int, x: int, env: int, st: Store, fuel: nat): Out
    requires fuel > 0
    decreases fuel, 1, 0
  {
    var (args, _) :- Cdr(st, x);
    match At(st, f)
    case Subr(kind, id) => Special(c, kind, id, args, env, st, fuel)
    case Closure(cenv, code) =>
      if !At(st, code).Cons? then Error
      else
        var (vs, st1) :- EvalList(c, args, env, st, fuel, fuel - 1);
        var (formals, _) :- Car(st1, code);
        var (env2, st2) :- ExtendEnv(vs, formals, cenv, st1);
        var (body, _) :- Cdr(st2, code);
        Eval(c, body, env2, st2, fuel - 1)
    case Sym(_) =>
      var (form, st1) :- MacroCall(c, f, x, st);
      var (x2, st2) :- Eval(c, form, NIL, st1, fuel - 1);
      Eval(c, x2, env, st2, fuel - 1)
    case _ => Error
  }

  /** The form that expands x by the macro f: (f (quote x)). */
  function MacroCall(c: Names, f: int, x: int, st: Store): Out {
    var (a, st1) :- MakeCons(st, x, NIL);
    var (b, st2) :- MakeCons(st1, c.quote, a);
    var (d, st3) :- MakeCons(st2, b, NIL);
    MakeCons(st3, f, d)
  }

  function Special(c: Names, kind: Kind, id: int, args: int, env: int, st: Store, fuel: nat): Out
    requires fuel > 0
    decreases fuel, 0, 0
  {
    match kind
    case Fixed(n) =>
      var (vs, st1) :- EvalFixed(c, args, n, env, st, fuel - 1);
      c.builtin(id, vs, st1)
    case Folded =>
      var (vs, st1) :- EvalFixed(c, args, 2, env, st, fuel - 1);
      var (acc, st2) :- c.builtin(id, vs, st1);
      var (rest, _) :- Cddr(st2, args);
      EvalFold(c, id, acc, rest, env, st2, fuel, fuel - 1)
    case ListArgs =>
      var (l, st1) :- EvalList(c, args, env, st, fuel, fuel - 1);
      c.builtin(id, [l], st1)
    case Quote => Car(st, args)
    case Lambda => MakeLambda(c, args, env, st)
    case TheEnv => Val(env, st)
    case SetQ =>
      var (form, _) :- Cadr(st, args);
      var (v, st1) :- Eval(c, form, env, st, fuel - 1);
      var (x, _) :- Car(st1, args);
      SetVar(x, v, env, st1, fuel)
    case Define =>
      var (d, st1) :- SyntaxDefine(c, args, st, fuel);
      var (x, _) :- Car(st1, d);
      if !At(st1, x).Sym? then Error
      else
        var (form, _) :- Cadr(st1, d);
        var (v, st2) :- Eval(c, form, env, st1, fuel - 1);
        Bind(x, v, env, st2, fuel)
    case If =>
      var (test, _) :- Car(st, args);
      var (v, st1) :- Eval(c, test, env, st, fuel - 1);
      var (branch, _) :- if v != NIL then Cadr(st1, args) else Caddr(st1, args);
      Eval(c, branch, env, st1, fuel - 1)
    case Begin => EvalBegin(c, args, env, st, fuel, fuel - 1)
    case Or => EvalOr(c, args, env, st, fuel, fuel - 1)
    case And => if args == NIL then Val(c.t, st) else EvalAnd(c, args, env, st, fuel, fuel - 1)
    case Let =>
      var (actuals, _) :- Cadr(st, args);
      var (vs, st1) :- EvalList(c, actuals, env, st, fuel, fuel - 1);
      var (formals, _) :- Car(st1, args);
      var (env2, st2) :- ExtendEnv(vs, formals, env, st1);
      var (body, _) :- Caddr(st2, args);
      Eval(c, body, env2, st2, fuel - 1)
  }

  function Caddr(st: Store, p: int): Out {
    var (d, _) :- Cddr(st, p);
    Car(st, d)
  }

  /** The first n arguments, missing ones evaluated as NIL. */
  function EvalFixed(c: Names, l: int, n: nat, env: int, st: Store, fuel: nat): Result<seq<int>>
    decreases fuel, 3, n
  {
    if n == 0 then Val([], st)
    else
      var (a, _) :- Car(st, l);
      var (v, st1) :- Eval(c, a, env, st, fuel);
      var (rest, _) :- Cdr(st1, l);
      var (vs, st2) :- EvalFixed(c, rest, n - 1, env, st1, fuel);
      Val([v] + vs, st2)
  }

  function EvalFold(c: Names, id: int, acc: int, l: int, env: int, st: Store, n: nat, fuel: nat): Out
    decreases fuel, 3, n
  {
    if n == 0 then NoFuel
    else match At(st, l)
      case Cons(a, _) =>
        var (v, st1) :- Eval(c, a, env, st, fuel);
        var (acc2, st2) :- c.builtin(id, [acc, v], st1);
        var (rest, _) :- Cdr(st2, l);
        EvalFold(c, id, acc2, rest, env, st2, n - 1, fuel)
      case _ => Val(acc, st)
  }

  /** leval_args: a fresh list of the values of the elements of l. */
  function EvalList(c: Names, l: int, env: int, st: Store, n: nat, fuel: nat): Out
    decreases fuel, 4, n
  {
    if l == NIL then Val(NIL, st)
    else match At(st, l)
      case Cons(a, _) =>
        var (v, st1) :- Eval(c, a, env, st, fuel);
        var (head, st2) :- MakeCons(st1, v, NIL);
        var (rest, _) :- Cdr(st2, l);
        var (_, st3) :- EvalTail(c, head, rest, env, st2, n, fuel);
        Val(head, st3)
      case _ => Error
  }

  /** The values of the elements of l, linked behind the cons last. */
  function EvalTail(c: Names, last: int, l: int, env: int, st: Store, n: nat, fuel: nat): Out
    decreases fuel, 3, n
  {
    if n == 0 then NoFuel
    else match At(st, l)
      case Cons(a, _) =>
        var (v, st1) :- Eval(c, a, env, st, fuel);
        var (cell, st2) :- MakeCons(st1, v, NIL);
        var (_, st3) :- SetCdr(st2, last, cell);
        var (rest, _) :- Cdr(st3, l);
        EvalTail(c, cell, rest, env, st3, n - 1, fuel)
      case _ => if l == NIL then Val(NIL, st) else Error
  }

  /** begin: the forms in order, the value of the last. */
  function EvalBegin(c: Names, l: int, env: int, st: Store, n: nat, fuel: nat): Out
    decreases fuel, 3, n
  {
    if n == 0 then NoFuel
    else
      var (next, _) :- Cdr(st, l);
      var (form, _) :- Car(st, l);
      if next == NIL then Eval(c, form, env, st, fuel)
      else
        var (_, st1) :- Eval(c, form, env, st, fuel);
        EvalBegin(c, next, env, st1, n - 1, fuel)
  }

  /** or: the first value that is not NIL, without evaluating the forms after it. */
  function EvalOr(c: Names, l: int, env: int, st: Store, n: nat, fuel: nat): Out
    decreases fuel, 3, n
  {
    if n == 0 then NoFuel
    else
      var (next, _) :- Cdr(st, l);
      var (form, _) :- Car(st, l);
      var (v, st1) :- Eval(c, form, env, st, fuel);
      if next == NIL || v != NIL then Val(v, st1) else EvalOr(c, next, env, st1, n - 1, fuel)
  }

  /** and: NIL as soon as a value is NIL, else the last value. */
  function EvalAnd(c: Names, l: int, env: int, st: Store, n: nat, fuel: nat): Out
    decreases fuel, 3, n
  {
    if n == 0 then NoFuel
    else
      var (next, _) :- Cdr(st, l);
      var (form, _) :- Car(st, l);
      var (v, st1) :- Eval(c, form, env, st, fuel);
      if next == NIL || v == NIL then Val(v, st1) else EvalAnd(c, next, env, st1, n - 1, fuel)
  }

  /** What a tail form leaves behind: a form to go on with, a value, or a failure. */
  datatype Tail = Jump(form: int, env: int) | Return(v: int) | Raise | Exhausted

  function Failed<T>(r: Result<T>): Tail
    requires !r.Val?
  {
    if r.Error? then Raise else Exhausted
  }

  /** The outcome of going on from there. */
  function Resume(c: Names, r: Tail, st: Store, fuel: nat): Out
    requires fuel > 0
  {
    match r
    case Jump(form, env) => Eval(c, form, env, st, fuel - 1)
    case Return(v) => Val(v, st)
    case Raise => Error
    case Exhausted => NoFuel
  }

  // More fuel never changes an outcome that did not run out of it.

  predicate More<T(==)>(r: Result<T>, r2: Result<T>) {
    r.NoFuel? || r == r2
  }

  lemma {:induction false} ScanFrameMore(name: int, fl: int, al: int, st: Store, n: nat, m: nat)
    requires n <= m
    ensures More(ScanFrame(name, fl, al, st, n), ScanFrame(name, fl, al, st, m))
    decreases n
  {
    if n > 0 && At(st, fl).Cons? && At(st, al).Cons? {
      ScanFrameMore(name, At(st, fl).cdr, At(st, al).cdr, st, n - 1, m - 1);
    }
  }

  lemma {:induction false} LookupMore(name: int, env: int, st: Store, n: nat, m: nat)
    requires n <= m
    ensures More(Lookup(name, env, st, n), Lookup(name, env, st, m))
    decreases n
  {
    if n > 0 && At(st, env).Cons? && At(st, At(st, env).car).Cons? {
      var frame := At(st, At(st, env).car);
      ScanFrameMore(name, frame.car, frame.cdr, st, n, m);
      var r := ScanFrame(name, frame.car, frame.cdr, st, n);
      if r.Val? && r.v == NIL {
        LookupMore(name, At(st, env).cdr, r.st, n - 1, m - 1);
      }
    }
  }

  lemma {:induction false} SyntaxDefineMore(nm: Names, args: int, st: Store, n: nat, m: nat)
    requires n <= m
    ensures More(SyntaxDefine(nm, args, st, n), SyntaxDefine(nm, args, st, m))
    decreases n
  {
    if n == 0 {
      return;
    }
    var a := Car(st, args);
    if !a.Val? || At(st, a.v).Sym? {
      return;
    }
    var f, formals, body := Car(st, a.v), Cdr(st, a.v), Cdr(st, args);
    if f.Val? && formals.Val? && body.Val? {
      var c1 := MakeCons(st, formals.v, body.v);
      var c2 := MakeCons(c1.st, nm.lambda, c1.v);
      var c3 := MakeCons(c2.st, c2.v, NIL);
      var c4 := MakeCons(c3.st, f.v, c3.v);
      SyntaxDefineMore(nm, c4.v, c4.st, n - 1, m - 1);
    }
  }

  /** The main property: whatever the evaluator answers within its fuel, it answers with
      any larger amount. */
  lemma {:induction false} EvalMore(c: Names, x: int, env: int, st: Store, f: nat, g: nat)
    requires f <= g
    ensures More(Eval(c, x, env, st, f), Eval(c, x, env, st, g))
    decreases f, 2, 0
  {
    if f == 0 {
      return;
    }
    match At(st, x) {
      case Sym(_) => LookupMore(x, env, st, f, g);
      case Cons(h, _) =>
        OperatorMore(c, h, env, st, f, g);
        var op := Operator(c, h, env, st, f);
        if op.Val? {
          ApplyMore(c, op.v, x, env, op.st, f, g);
        }
      case _ =>
    }
  }

  lemma {:induction false} OperatorMore(c: Names, h: int, env: int, st: Store, f: nat, g: nat)
    requires 0 < f <= g
    ensures More(Operator(c, h, env, st, f), Operator(c, h, env, st, g))
    decreases f, 0, 0
  {
    match At(st, h) {
      case Sym(_) => LookupMore(h, env, st, f, g);
      case Cons(_, _) => EvalMore(c, h, env, st, f - 1, g - 1);
      case _ =>
    }
  }

  lemma {:induction false} ApplyMore(c: Names, op: int, x: int, env: int, st: Store, f: nat, g: nat)
    requires 0 < f <= g
    ensures More(Apply(c, op, x, env, st, f), Apply(c, op, x, env, st, g))
    decreases f, 1, 0
  {
    var args := Cdr(st, x);
    if !args.Val? {
      return;
    }
    match At(st, op) {
      case Subr(kind, id) => SpecialMore(c, kind, id, args.v, env, st, f, g);
      case Closure(_, _) => ClosureMore(c, op, x, env, st, f, g);
      case Sym(_) => MacroMore(c, op, x, env, st, f, g);
      case _ =>
    }
  }

  lemma {:induction false} ClosureMore(c: Names, op: int, x: int, env: int, st: Store, f: nat, g: nat)
    requires 0 < f <= g && Cdr(st, x).Val? && At(st, op).Closure?
    ensures More(Apply(c, op, x, env, st, f), Apply(c, op, x, env, st, g))
    decreases f, 0, 4
  {
    var args, code := Cdr(st, x).v, At(st, op).code;
    EvalListMore(c, args, env, st, f, f - 1, g, g - 1);
    var vs := EvalList(c, args, env, st, f, f - 1);
    if At(st, code).Cons? && vs.Val? && Car(vs.st, code).Val? {
      var env2 := ExtendEnv(vs.v, Car(vs.st, code).v, At(st, op).env, vs.st);
      var body := Cdr(env2.st, code);
      if body.Val? {
        EvalMore(c, body.v, env2.v, env2.st, f - 1, g - 1);
      }
    }
  }

  lemma {:induction false} MacroMore(c: Names, op: int, x: int, env: int, st: Store, f: nat, g: nat)
    requires 0 < f <= g && Cdr(st, x).Val? && At(st, op).Sym?
    ensures More(Apply(c, op, x, env, st, f), Apply(c, op, x, env, st, g))
    decreases f, 0, 4
  {
    var form := MacroCall(c, op, x, st);
    EvalMore(c, form.v, NIL, form.st, f - 1, g - 1);
    var x2 := Eval(c, form.v, NIL, form.st, f - 1);
    if x2.Val? {
      EvalMore(c, x2.v, env, x2.st, f - 1, g - 1);
    }
  }

  lemma {:induction false} SpecialMore(c: Names, kind: Kind, id: int, args: int, env: int, st: Store, f: nat, g: nat)
    requires 0 < f <= g
    ensures More(Special(c, kind, id, args, env, st, f), Special(c, kind, id, args, env, st, g))
    decreases f, 0, 3
  {
    match kind {
      case Fixed(n) => EvalFixedMore(c, args, n, env, st, f - 1, g - 1);
      case Folded => FoldedMore(c, id, args, env, st, f, g);
      case ListArgs => EvalListMore(c, args, env, st, f, f - 1, g, g - 1);
      case SetQ => SetQMore(c, args, env, st, f, g);
      case Define => DefineMore(c, args, env, st, f, g);
      case If => IfMore(c, args, env, st, f, g);
      case Begin => EvalBeginMore(c, args, env, st, f, f - 1, g, g - 1);
      case Or => EvalOrMore(c, args, env, st, f, f - 1, g, g - 1);
      case And => EvalAndMore(c, args, env, st, f, f - 1, g, g - 1);
      case Let => LetMore(c, args, env, st, f, g);
      case _ =>
    }
  }

  lemma {:induction false} FoldedMore(c: Names, id: int, args: int, env: int, st: Store, f: nat, g: nat)
    requires 0 < f <= g
    ensures More(Special(c, Folded, id, args, env, st, f), Special(c, Folded, id, args, env, st, g))
    decreases f, 0, 2
  {
    EvalFixedMore(c, args, 2, env, st, f - 1, g - 1);
    var vs := EvalFixed(c, args, 2, env, st, f - 1);
    if vs.Val? {
      var acc := c.builtin(id, vs.v, vs.st);
      if acc.Val? {
        var rest := Cddr(acc.st, args);
        if rest.Val? {
          EvalFoldMore(c, id, acc.v, rest.v, env, acc.st, f, f - 1, g, g - 1);
        }
      }
    }
  }

  lemma {:induction false} SetQMore(c: Names, args: int, env: int, st: Store, f: nat, g: nat)
    requires 0 < f <= g
    ensures More(Special(c, SetQ, 0, args, env, st, f), Special(c, SetQ, 0, args, env, st, g))
    decreases f, 0, 2
  {
    var form := Cadr(st, args);
    if form.Val? {
      EvalMore(c, form.v, env, st, f - 1, g - 1);
      var v := Eval(c, form.v, env, st, f - 1);
      if v.Val? && Car(v.st, args).Val? {
        LookupMore(Car(v.st, args).v, env, v.st, f, g);
      }
    }
  }

  lemma {:induction false} DefineMore(c: Names, args: int, env: int, st: Store, f: nat, g: nat)
    requires 0 < f <= g
    ensures More(Special(c, Define, 0, args, env, st, f), Special(c, Define, 0, args, env, st, g))
    decreases f, 0, 2
  {
    SyntaxDefineMore(c, args, st, f, g);
    var d := SyntaxDefine(c, args, st, f);
    if !d.Val? || !Car(d.st, d.v).Val? {
      return;
    }
    var x := Car(d.st, d.v).v;
    var form := Cadr(d.st, d.v);
    if At(d.st, x).Sym? && form.Val? {
      EvalMore(c, form.v, env, d.st, f - 1, g - 1);
      var v := Eval(c, form.v, env, d.st, f - 1);
      if v.Val? {
        LookupMore(x, env, v.st, f, g);
      }
    }
  }

  lemma {:induction false} IfMore(c: Names, args: int, env: int, st: Store, f: nat, g: nat)
    requires 0 < f <= g
    ensures More(Special(c, If, 0, args, env, st, f), Special(c, If, 0, args, env, st, g))
    decreases f, 0, 2
  {
    var test := Car(st, args);
    if test.Val? {
      EvalMore(c, test.v, env, st, f - 1, g - 1);
      var v := Eval(c, test.v, env, st, f - 1);
      if v.Val? {
        var branch := if v.v != NIL then Cadr(v.st, args) else Caddr(v.st, args);
        if branch.Val? {
          EvalMore(c, branch.v, env, v.st, f - 1, g - 1);
        }
      }
    }
  }

  lemma {:induction false} LetMore(c: Names, args: int, env: int, st: Store, f: nat, g: nat)
    requires 0 < f <= g
    ensures More(Special(c, Let, 0, args, env, st, f), Special(c, Let, 0, args, env, st, g))
    decreases f, 0, 2
  {
    var actuals := Cadr(st, args);
    if actuals.Val? {
      EvalListMore(c, actuals.v, env, st, f, f - 1, g, g - 1);
      LetBodyMore(c, args, EvalList(c, actuals.v, env, st, f, f - 1), env, f, g);
    }
  }

  /** The part of let behind the values. */
  function LetBody(c: Names, args: int, vs: Out, env: int, fuel: nat): Out
    requires fuel > 0
  {
    var (v, st1) :- vs;
    var (formals, _) :- Car(st1, args);
    var (env2, st2) :- ExtendEnv(v, formals, env, st1);
    var (body, _) :- Caddr(st2, args);
    Eval(c, body, env2, st2, fuel - 1)
  }

  lemma {:induction false} LetBodyMore(c: Names, args: int, vs: Out, env: int, f: nat, g: nat)
    requires 0 < f <= g
    ensures More(LetBody(c, args, vs, env, f), LetBody(c, args, vs, env, g))
    decreases f, 0, 1
  {
    if vs.Val? && Car(vs.st, args).Val? {
      var env2 := ExtendEnv(vs.v, Car(vs.st, args).v, env, vs.st);
      var body := Caddr(env2.st, args);
      if body.Val? {
        EvalMore(c, body.v, env2.v, env2.st, f - 1, g - 1);
      }
    }
  }

  lemma {:induction false} EvalFixedMore(c: Names, l: int, n: nat, env: int, st: Store, f: nat, g: nat)
    requires f <= g
    ensures More(EvalFixed(c, l, n, env, st, f), EvalFixed(c, l, n, env, st, g))
    decreases f, 3, n
  {
    if n > 0 && Car(st, l).Val? {
      EvalMore(c, Car(st, l).v, env, st, f, g);
      var v := Eval(c, Car(st, l).v, env, st, f);
      if v.Val? && Cdr(v.st, l).Val? {
        EvalFixedMore(c, Cdr(v.st, l).v, n - 1, env, v.st, f, g);
      }
    }
  }

  lemma {:induction false} EvalFoldMore(c: Names, id: int, acc: int, l: int, env: int, st: Store, n: nat, f: nat, m: nat, g: nat)
    requires n <= m && f <= g
    ensures More(EvalFold(c, id, acc, l, env, st, n, f), EvalFold(c, id, acc, l, env, st, m, g))
    decreases f, 3, n
  {
    if n > 0 && At(st, l).Cons? {
      EvalMore(c, At(st, l).car, env, st, f, g);
      var v := Eval(c, At(st, l).car, env, st, f);
      if v.Val? {
        var acc2 := c.builtin(id, [acc, v.v], v.st);
        if acc2.Val? && Cdr(acc2.st, l).Val? {
          EvalFoldMore(c, id, acc2.v, Cdr(acc2.st, l).v, env, acc2.st, n - 1, f, m - 1, g);
        }
      }
    }
  }

  lemma {:induction false} EvalListMore(c: Names, l: int, env: int, st: Store, n: nat, f: nat, m: nat, g: nat)
    requires n <= m && f <= g
    ensures More(EvalList(c, l, env, st, n, f), EvalList(c, l, env, st, m, g))
    decreases f, 4, n
  {
    if l != NIL && At(st, l).Cons? {
      EvalMore(c, At(st, l).car, env, st, f, g);
      var v := Eval(c, At(st, l).car, env, st, f);
      if v.Val? {
        var head := MakeCons(v.st, v.v, NIL);
        if Cdr(head.st, l).Val? {
          EvalTailMore(c, head.v, Cdr(head.st, l).v, env, head.st, n, f, m, g);
        }
      }
    }
  }

  lemma {:induction false} EvalTailMore(c: Names, last: int, l: int, env: int, st: Store, n: nat, f: nat, m: nat, g: nat)
    requires n <= m && f <= g
    ensures More(EvalTail(c, last, l, env, st, n, f), EvalTail(c, last, l, env, st, m, g))
    decreases f, 3, n
  {
    if n > 0 && At(st, l).Cons? {
      EvalMore(c, At(st, l).car, env, st, f, g);
      var v := Eval(c, At(st, l).car, env, st, f);
      if v.Val? {
        var cell := MakeCons(v.st, v.v, NIL);
        var linked := SetCdr(cell.st, last, cell.v);
        if linked.Val? && Cdr(linked.st, l).Val? {
          EvalTailMore(c, cell.v, Cdr(linked.st, l).v, env, linked.st, n - 1, f, m - 1, g);
        }
      }
    }
  }

  lemma {:induction false} EvalBeginMore(c: Names, l: int, env: int, st: Store, n: nat, f: nat, m: nat, g: nat)
    requires n <= m && f <= g
    ensures More(EvalBegin(c, l, env, st, n, f), EvalBegin(c, l, env, st, m, g))
    decreases f, 3, n
  {
    if n > 0 && Cdr(st, l).Val? && Car(st, l).Val? {
      EvalMore(c, Car(st, l).v, env, st, f, g);
      var v := Eval(c, Car(st, l).v, env, st, f);
      if v.Val? && Cdr(st, l).v != NIL {
        EvalBeginMore(c, Cdr(st, l).v, env, v.st, n - 1, f, m - 1, g);
      }
    }
  }

  lemma {:induction false} EvalOrMore(c: Names, l: int, env: int, st: Store, n: nat, f: nat, m: nat, g: nat)
    requires n <= m && f <= g
    ensures More(EvalOr(c, l, env, st, n, f), EvalOr(c, l, env, st, m, g))
    decreases f, 3, n
  {
    if n > 0 && Cdr(st, l).Val? && Car(st, l).Val? {
      EvalMore(c, Car(st, l).v, env, st, f, g);
      var v := Eval(c, Car(st, l).v, env, st, f);
      if v.Val? && Cdr(st, l).v != NIL && v.v == NIL {
        EvalOrMore(c, Cdr(st, l).v, env, v.st, n - 1, f, m - 1, g);
      }
    }
  }

  lemma {:induction false} EvalAndMore(c: Names, l: int, env: int, st: Store, n: nat, f: nat, m: nat, g: nat)
    requires n <= m && f <= g
    ensures More(EvalAnd(c, l, env, st, n, f), EvalAnd(c, l, env, st, m, g))
    decreases f, 3, n
  {
    if n > 0 && Cdr(st, l).Val? && Car(st, l).Val? {
      EvalMore(c, Car(st, l).v, env, st, f, g);
      var v := Eval(c, Car(st, l).v, env, st, f);
      if v.Val? && Cdr(st, l).v != NIL && v.v != NIL {
        EvalAndMore(c, Cdr(st, l).v, env, v.st, n - 1, f, m - 1, g);
      }
    }
  }

  // set! and the variables it reaches.

  /** The conses whose car decides where a variable is found. */
  function FrameSpine(name: int, fl: int, al: int, st: Store, n: nat): set<int>
    decreases n
  {
    if n == 0 || !At(st, fl).Cons? || !At(st, al).Cons? || At(st, fl).car == name then {fl}
    else {fl} + FrameSpine(name, At(st, fl).cdr, At(st, al).cdr, st, n - 1)
  }

  function Spine(name: int, env: int, st: Store, n: nat): set<int>
    decreases n
  {
    if n == 0 || !At(st, env).Cons? || !At(st, At(st, env).car).Cons? then {env}
    else
      var frame := At(st, At(st, env).car);
      {env, At(st, env).car} + FrameSpine(name, frame.car, frame.cdr, st, n) + Spine(name, At(st, env).cdr, st, n - 1)
  }

  /** r found the same address, in a store that grew the same way. */
  predicate SameFind(r: Out, st: Store, r2: Out, st2: Store) {
    r.Val? && r.st == st ==> r2 == Val(r.v, st2)
  }

  lemma {:induction false} ScanFrameKeeps(name: int, fl: int, al: int, st: Store, n: nat, p: int, v: int, st2: Store)
    requires At(st, p).Cons? && p !in FrameSpine(name, fl, al, st, n)
    requires st2 == Put(st, p, At(st, p).(car := v))
    ensures SameFind(ScanFrame(name, fl, al, st, n), st, ScanFrame(name, fl, al, st2, n), st2)
    decreases n
  {
    if n > 0 && At(st, fl).Cons? && At(st, al).Cons? && At(st, fl).car != name {
      ScanFrameKeeps(name, At(st, fl).cdr, At(st, al).cdr, st, n - 1, p, v, st2);
    }
  }

  lemma {:induction false} LookupKeeps(name: int, env: int, st: Store, n: nat, p: int, v: int, st2: Store)
    requires At(st, p).Cons? && p !in Spine(name, env, st, n)
    requires st2 == Put(st, p, At(st, p).(car := v))
    ensures SameFind(Lookup(name, env, st, n), st, Lookup(name, env, st2, n), st2)
    decreases n
  {
    if n > 0 && At(st, env).Cons? && At(st, At(st, env).car).Cons? {
      var frame := At(st, At(st, env).car);
      ScanFrameKeeps(name, frame.car, frame.cdr, st, n, p, v, st2);
      ScanFrameGrows(name, frame.car, frame.cdr, st, n);
      var r := ScanFrame(name, frame.car, frame.cdr, st, n);
      if r.Val? && r.v == NIL {
        LookupKeeps(name, At(st, env).cdr, st, n - 1, p, v, st2);
      }
    }
  }

  /** Only a dotted formal makes envlookup allocate, and then it finds the new cons. */
  lemma {:induction false} ScanFrameGrows(name: int, fl: int, al: int, st: Store, n: nat)
    ensures var r := ScanFrame(name, fl, al, st, n);
      r.Val? ==> r.st == st || (r.v == |st| + 1 && |r.st| == |st| + 1 && r.st[..|st|] == st && r.st[|st|].Cons?)
    decreases n
  {
    if n > 0 && At(st, fl).Cons? && At(st, al).Cons? && At(st, fl).car != name {
      ScanFrameGrows(name, At(st, fl).cdr, At(st, al).cdr, st, n - 1);
    }
  }

  lemma {:induction false} LookupGrows(name: int, env: int, st: Store, n: nat)
    ensures var r := Lookup(name, env, st, n);
      r.Val? ==> r.st == st || (r.v == |st| + 1 && |r.st| == |st| + 1 && r.st[..|st|] == st && r.st[|st|].Cons?)
    decreases n
  {
    if n > 0 && At(st, env).Cons? && At(st, At(st, env).car).Cons? {
      var frame := At(st, At(st, env).car);
      ScanFrameGrows(name, frame.car, frame.cdr, st, n);
      var r := ScanFrame(name, frame.car, frame.cdr, st, n);
      if r.Val? && r.v == NIL {
        LookupGrows(name, At(st, env).cdr, st, n - 1);
      }
    }
  }

  /** set! through one environment is seen through every environment that finds the same
      binding, as when two closures share a frame. */
  lemma SetVarShared(name: int, v: int, env: int, env2: int, al: int, st: Store, n: nat)
    requires At(st, name).Sym?
    requires Lookup(name, env, st, n) == Val(al, st) == Lookup(name, env2, st, n)
    requires al != NIL && At(st, al).Cons? && al !in Spine(name, env2, st, n)
    ensures var r := SetVar(name, v, env, st, n);
      r.Val? && r.v == v && Variable(name, env2, r.st, n) == Val(v, r.st)
  {
    var st2 := Put(st, al, At(st, al).(car := v));
    LookupKeeps(name, env2, st, n, al, v, st2);
  }

  /** How an environment binds a variable: by the car of an actuals cons, or as what a dotted last formal takes. */
  datatype Binding = Unbound | InCar(cell: int) | DottedTail(actuals: int) | Damaged | Tired

  function BindingIn(name: int, fl: int, al: int, st: Store, n: nat): Binding
    decreases n
  {
    if n == 0 then Tired
    else match At(st, fl)
      case Cons(f, fls) =>
        (match At(st, al) case Cons(_, als) => if f == name then InCar(al) else BindingIn(name, fls, als, st, n - 1) case _ => Damaged)
      case Sym(_) => if fl == name then DottedTail(al) else Unbound
      case _ => Unbound
  }

  function BindingOf(name: int, env: int, st: Store, n: nat): Binding
    decreases n
  {
    if n == 0 then Tired
    else match At(st, env)
      case Cons(frame, rest) =>
        (match At(st, frame)
         case Cons(fl, al) =>
           var b := BindingIn(name, fl, al, st, n);
           if b == Unbound then BindingOf(name, rest, st, n - 1) else b
         case _ => Damaged)
      case _ => if env == NIL then Unbound else Damaged
  }

  function Found(b: Binding, st: Store): Out {
    match b
    case Unbound => Val(NIL, st)
    case InCar(cell) => Val(cell, st)
    case DottedTail(actuals) => Val(|st| + 1, st + [Cons(actuals, NIL)])
    case Damaged => Error
    case Tired => NoFuel
  }

  lemma {:induction false} ScanFrameIs(name: int, fl: int, al: int, st: Store, n: nat)
    ensures ScanFrame(name, fl, al, st, n) == Found(BindingIn(name, fl, al, st, n), st)
    ensures BindingIn(name, fl, al, st, n).InCar? ==> At(st, BindingIn(name, fl, al, st, n).cell).Cons?
    decreases n
  {
    if n > 0 && At(st, fl).Cons? && At(st, al).Cons? && At(st, fl).car != name {
      ScanFrameIs(name, At(st, fl).cdr, At(st, al).cdr, st, n - 1);
    }
  }

  lemma {:induction false} LookupIs(name: int, env: int, st: Store, n: nat)
    ensures Lookup(name, env, st, n) == Found(BindingOf(name, env, st, n), st)
    ensures BindingOf(name, env, st, n).InCar? ==> At(st, BindingOf(name, env, st, n).cell).Cons?
    decreases n
  {
    if n > 0 && At(st, env).Cons? && At(st, At(st, env).car).Cons? {
      var frame := At(st, At(st, env).car);
      ScanFrameIs(name, frame.car, frame.cdr, st, n);
      if BindingIn(name, frame.car, frame.cdr, st, n) == Unbound {
        LookupIs(name, At(st, env).cdr, st, n - 1);
      }
    }
  }

  /** No cons points past the end of the store. */
  predicate Closed(st: Store) {
    forall i :: 0 <= i < |st| && st[i].Cons? ==> st[i].car <= |st| && st[i].cdr <= |st|
  }

  lemma {:induction false} BindingInGrows(name: int, fl: int, al: int, st: Store, n: nat, o: Obj)
    requires Closed(st) && fl <= |st| && al <= |st|
    ensures BindingIn(name, fl, al, st + [o], n) == BindingIn(name, fl, al, st, n)
    decreases n
  {
    if n > 0 && At(st, fl).Cons? && At(st, al).Cons? && At(st, fl).car != name {
      BindingInGrows(name, At(st, fl).cdr, At(st, al).cdr, st, n - 1, o);
    }
  }

  lemma {:induction false} BindingGrows(name: int, env: int, st: Store, n: nat, o: Obj)
    requires Closed(st) && env <= |st|
    ensures BindingOf(name, env, st + [o], n) == BindingOf(name, env, st, n)
    decreases n
  {
    if n > 0 && At(st, env).Cons? {
      var frame := At(st, env).car;
      if At(st, frame).Cons? {
        BindingInGrows(name, At(st, frame).car, At(st, frame).cdr, st, n, o);
        BindingGrows(name, At(st, env).cdr, st, n - 1, o);
      }
    }
  }

  lemma {:induction false} BindingInSets(name: int, fl: int, al: int, st: Store, n: nat, x: int, v: int)
    requires At(st, x).Sym?
    ensures BindingIn(name, fl, al, Put(st, x, Sym(v)), n) == BindingIn(name, fl, al, st, n)
    decreases n
  {
    if n > 0 && At(st, fl).Cons? && At(st, al).Cons? && At(st, fl).car != name {
      BindingInSets(name, At(st, fl).cdr, At(st, al).cdr, st, n - 1, x, v);
    }
  }

  /** The value of a symbol has no part in how an environment binds. */
  lemma {:induction false} BindingSets(name: int, env: int, st: Store, n: nat, x: int, v: int)
    requires At(st, x).Sym?
    ensures BindingOf(name, env, Put(st, x, Sym(v)), n) == BindingOf(name, env, st, n)
    decreases n
  {
    if n > 0 && At(st, env).Cons? && At(st, At(st, env).car).Cons? {
      var frame := At(st, At(st, env).car);
      BindingInSets(name, frame.car, frame.cdr, st, n, x, v);
      BindingSets(name, At(st, env).cdr, st, n - 1, x, v);
    }
  }

  /** set! of a variable, and then the variable. */
  function SetAndRead(name: int, v: int, env: int, st: Store, n: nat): Out {
    var (_, st2) :- SetVar(name, v, env, st, n);
    Variable(name, env, st2, n)
  }

  /** After set! a variable reads the new value if and only if it is not the tail of dotted formals, unless it read
      that value before: the tail is found through a fresh cons, and only that is changed. */
  lemma SetVarHolds(name: int, v: int, env: int, st: Store, n: nat)
    requires At(st, name).Sym? && SetVar(name, v, env, st, n).Val? && Closed(st) && env <= |st|
    requires BindingOf(name, env, st, n).InCar? ==> BindingOf(name, env, st, n).cell !in Spine(name, env, st, n)
    ensures var b := BindingOf(name, env, st, n);
      var before, after := Variable(name, env, st, n), SetAndRead(name, v, env, st, n);
      && before.Val? && after.Val?
      && (after.v == v <==> !b.DottedTail? || before.v == v)
      && (b.DottedTail? ==> after.v == before.v && SetVar(name, v, env, st, n).st == st + [Cons(v, NIL)])
  {
    LookupIs(name, env, st, n);
    match BindingOf(name, env, st, n)
    case Unbound => SetGlobal(name, v, env, st, n);
    case InCar(cell) => SetVarShared(name, v, env, env, cell, st, n);
    case DottedTail(actuals) => SetDotted(name, v, env, st, n, actuals);
  }

  lemma SetGlobal(name: int, v: int, env: int, st: Store, n: nat)
    requires At(st, name).Sym? && BindingOf(name, env, st, n) == Unbound
    ensures Variable(name, env, st, n).Val? && SetAndRead(name, v, env, st, n).Val? && SetAndRead(name, v, env, st, n).v == v
  {
    LookupIs(name, env, st, n);
    BindingSets(name, env, st, n, name, v);
    LookupIs(name, env, Put(st, name, Sym(v)), n);
  }

  lemma SetDotted(name: int, v: int, env: int, st: Store, n: nat, actuals: int)
    requires At(st, name).Sym? && Closed(st) && env <= |st| && BindingOf(name, env, st, n) == DottedTail(actuals)
    ensures SetVar(name, v, env, st, n) == Val(v, st + [Cons(v, NIL)])
    ensures Variable(name, env, st, n) == Val(actuals, st + [Cons(actuals, NIL)])
    ensures SetAndRead(name, v, env, st, n).Val? && SetAndRead(name, v, env, st, n).v == actuals
  {
    LookupIs(name, env, st, n);
    assert Put(st + [Cons(actuals, NIL)], |st| + 1, Cons(v, NIL)) == st + [Cons(v, NIL)];
    BindingGrows(name, env, st, n, Cons(v, NIL));
    LookupIs(name, env, st + [Cons(v, NIL)], n);
  }

  /** (lambda (a . x) ..) called with 10 and 20: after set! of x to 10, x is still the list of 20. */
  lemma SetVarLost() returns (st: Store, name: int, v: int, env: int)
    ensures At(st, name).Sym? && BindingOf(name, env, st, 4) == DottedTail(7)
    ensures SetAndRead(name, v, env, st, 4).Val? && Variable(name, env, st, 4).Val?
    ensures SetAndRead(name, v, env, st, 4).v == Variable(name, env, st, 4).v != v
  {
    st := [Sym(0), Sym(0), Num(10), Num(20), Cons(1, 2), Cons(3, 7), Cons(4, NIL), Cons(5, 6), Cons(8, NIL)];
    name, v, env := 2, 3, 9;
    assert BindingIn(2, 2, 7, st, 3) == DottedTail(7);
    assert BindingOf(2, 9, st, 4) == DottedTail(7);
    LookupIs(name, env, st, 4);
    SetVarHolds(name, v, env, st, 4);
  }

  /** What the spine is for: the-environment hands out the conses of a frame.  Here the list that holds the value of x,
      the symbol y, is also the formals of a frame further in, where y is bound to 20.  After set! of x to the symbol x
      those formals say x, and x is 20. */
  lemma SetVarCrossed() returns (st: Store, name: int, v: int, env: int)
    ensures Closed(st) && At(st, name).Sym? && BindingOf(name, env, st, 3) == InCar(5) && 5 in Spine(name, env, st, 3)
    ensures SetAndRead(name, v, env, st, 3).Val? && At(st, SetAndRead(name, v, env, st, 3).v) == Num(20) && v == name
  {
    st := [Sym(0), Sym(0), Num(20), Cons(1, NIL), Cons(2, NIL), Cons(4, 5), Cons(6, NIL), Cons(3, NIL), Cons(5, 8), Cons(9, 7)];
    name, v, env := 1, 1, 10;
    assert BindingIn(1, 5, 8, st, 3) == Unbound by {
      assert BindingIn(1, NIL, NIL, st, 2) == Unbound;
    }
    assert BindingIn(1, 4, 5, st, 2) == InCar(5);
    assert BindingOf(1, 7, st, 2) == InCar(5);
    assert FrameSpine(1, 5, 8, st, 3) == {5} + FrameSpine(1, NIL, NIL, st, 2);
    LookupIs(name, env, st, 3);
    var st2 := Put(st, 5, Cons(1, NIL));
    assert BindingIn(1, 5, 8, st2, 3) == InCar(8);
    assert BindingOf(1, 10, st2, 3) == InCar(8);
    LookupIs(name, env, st2, 3);
  }

  function Prepend(vs: seq<int>, r: Result<seq<int>>): Result<seq<int>> {
    match r case Val(ws, st) => Val(vs + ws, st) case Error => Error case NoFuel => NoFuel
  }

  lemma PrependTwice(vs: seq<int>, v: int, r: Result<seq<int>>)
    ensures Prepend(vs + [v], r) == Prepend(vs, Prepend([v], r))
  {
    if r.Val? {
      assert vs + [v] + r.v == vs + ([v] + r.v);
    }
  }

  class Interpreter {
    const c: Names
    var cells: Store

    /** The result a method returns agrees with the specification, store included. */
    ghost predicate Agrees(r: Out, spec: Out)
      reads this
    {
      r == spec && (r.Val? ==> cells == r.st)
    }

    /** envlookup: frame by frame, and along the formals of each frame. */
    method EnvLookup(name: int, env: int, n: nat) returns (r: Out)
      modifies this`cells
      ensures Agrees(r, Lookup(name, env, old(cells), n))
    {
      var frame, k := env, n;
      while k > 0 && At(cells, frame).Cons?
        invariant Lookup(name, env, old(cells), n) == Lookup(name, frame, cells, k)
      {
        var tmp := At(cells, frame).car;
        if !At(cells, tmp).Cons? {
          return Error;
        }
        var fl, al, j := At(cells, tmp).car, At(cells, tmp).cdr, k;
        ghost var scan := ScanFrame(name, fl, al, cells, k);
        while j > 0 && At(cells, fl).Cons?
          invariant cells == old(cells)
          invariant scan == ScanFrame(name, fl, al, cells, j)
        {
          if !At(cells, al).Cons? {
            return Error;
          }
          if At(cells, fl).car == name {
            return Val(al, cells);
          }
          fl, al, j := At(cells, fl).cdr, At(cells, al).cdr, j - 1;
        }
        if j == 0 {
          return NoFuel;
        }
        if At(cells, fl).Sym? && fl == name {
          cells := cells + [Cons(al, NIL)];
          return Val(|cells|, cells);
        }
        frame, k := At(cells, frame).cdr, k - 1;
      }
      if k == 0 {
        return NoFuel;
      }
      if frame != NIL {
        return Error;
      }
      return Val(NIL, cells);
    }

    method SetVarInPlace(name: int, v: int, env: int, n: nat) returns (r: Out)
      modifies this`cells
      ensures Agrees(r, SetVar(name, v, env, old(cells), n))
    {
      if !At(cells, name).Sym? {
        return Error;
      }
      var tmp := EnvLookup(name, env, n);
      if !tmp.Val? {
        return tmp;
      }
      if tmp.v == NIL {
        cells := Put(cells, name, Sym(v));
        return Val(v, cells);
      }
      r := SetCar(cells, tmp.v, v);
      if r.Val? {
        cells := r.st;
      }
    }

    /** leval: a symbol, a call or a constant; calls that end in another form loop. */
    method Leval(x0: int, env0: int, fuel0: nat) returns (r: Out)
      modifies this`cells
      ensures Agrees(r, Eval(c, x0, env0, old(cells), fuel0))
      decreases fuel0, 2, 0
    {
      var x, env, fuel := x0, env0, fuel0;
      while fuel > 0
        invariant 0 <= fuel <= fuel0
        invariant Eval(c, x0, env0, old(cells), fuel0) == Eval(c, x, env, cells, fuel)
      {
        match At(cells, x) {
          case Sym(_) =>
            r := VariableValue(x, env, fuel);
            return;
          case Cons(h, _) =>
            var op := OperatorValue(h, env, fuel);
            if !op.Val? {
              return op;
            }
            var t := Call(op.v, x, env, fuel);
            match t {
              case Raise => return Error;
              case Exhausted => return NoFuel;
              case Return(v) => return Val(v, cells);
              case Jump(form, env2) => x, env, fuel := form, env2, fuel - 1;
            }
          case _ =>
            return Val(x, cells);
        }
      }
      return NoFuel;
    }

    method VariableValue(x: int, env: int, n: nat) returns (r: Out)
      modifies this`cells
      ensures Agrees(r, Variable(x, env, old(cells), n))
    {
      var tmp := EnvLookup(x, env, n);
      if !tmp.Val? {
        return tmp;
      }
      if tmp.v != NIL {
        return Car(cells, tmp.v);
      }
      return match At(cells, x) case Sym(v) => Val(v, cells) case _ => Error;
    }

    method OperatorValue(h: int, env: int, fuel: nat) returns (r: Out)
      requires fuel > 0
      modifies this`cells
      ensures Agrees(r, Operator(c, h, env, old(cells), fuel))
      decreases fuel, 0, 0
    {
      match At(cells, h)
      case Sym(_) =>
        var tmp := EnvLookup(h, env, fuel);
        if !tmp.Val? {
          return tmp;
        }
        if tmp.v != NIL {
          return Car(cells, tmp.v);
        }
        return match At(cells, h) case Sym(v) => (if v == c.unbound then Error else Val(v, cells)) case _ => Error;
      case Cons(_, _) =>
        r := Leval(h, env, fuel - 1);
      case _ =>
        return Val(h, cells);
    }

    /** Carry out the store change of a constructor. */
    method Commit(o: Out)
      modifies this`cells
      ensures cells == if o.Val? then o.st else old(cells)
    {
      if o.Val? {
        cells := o.st;
      }
    }

    /** leval_args: the values of the elements of l, consed up front to back. */
    method LevalArgs(l: int, env: int, fuel: nat) returns (r: Out)
      requires fuel > 0
      modifies this`cells
      ensures Agrees(r, EvalList(c, l, env, old(cells), fuel, fuel - 1))
      decreases fuel, 0, 1
    {
      if l == NIL {
        return Val(NIL, cells);
      }
      if !At(cells, l).Cons? {
        return Error;
      }
      var v := Leval(At(cells, l).car, env, fuel - 1);
      if !v.Val? {
        return v;
      }
      cells := cells + [Cons(v.v, NIL)];
      var result := |cells|;
      var rest := Cdr(cells, l);
      if !rest.Val? {
        return rest;
      }
      var tail := LevalTail(result, rest.v, env, fuel);
      r := if tail.Val? then Val(result, cells) else tail;
    }

    /** The list from l on, linked behind last, is all that is left of goal. */
    static ghost predicate TailLeft(goal: Out, c: Names, last: int, l: int, env: int, st: Store, n: nat, fuel: nat) {
      forall k: int :: Asked(k, (l, n)) ==> goal == EvalTail(c, last, l, env, st, n, fuel)
    }

    static lemma TailEnds(goal: Out, c: Names, last: int, l: int, env: int, st: Store, n: nat, fuel: nat)
      requires TailLeft(goal, c, last, l, env, st, n, fuel) && (n == 0 || !At(st, l).Cons?)
      ensures goal == if n == 0 then NoFuel else if l == NIL then Val(NIL, st) else Error
    {
      assert Asked(0, (l, n));
    }

    /** One round of it: the value v of the form at the head of l is linked behind last. */
    static lemma TailUnfolds(goal: Out, c: Names, last: int, l: int, env: int, st: Store, n: nat, fuel: nat, v: Out)
      requires TailLeft(goal, c, last, l, env, st, n, fuel)
      requires n > 0 && At(st, l).Cons? && v == Eval(c, At(st, l).car, env, st, fuel)
      ensures !v.Val? ==> goal == v
      ensures v.Val? ==>
        var st2 := v.st + [Cons(v.v, NIL)];
        var linked := SetCdr(st2, last, |st2|);
        && (!linked.Val? ==> goal == linked)
        && (linked.Val? && !Cdr(linked.st, l).Val? ==> goal == Cdr(linked.st, l))
        && (linked.Val? && Cdr(linked.st, l).Val? ==> TailLeft(goal, c, |st2|, Cdr(linked.st, l).v, env, linked.st, n - 1, fuel))
    {
      assert Asked(0, (l, n));
    }

    /** The loop of leval_args. */
    method LevalTail(last: int, rest: int, env: int, fuel: nat) returns (r: Out)
      requires fuel > 0
      modifies this`cells
      ensures Agrees(r, EvalTail(c, last, rest, env, old(cells), fuel, fuel - 1))
      decreases fuel, 0, 0
    {
      ghost var goal := EvalTail(c, last, rest, env, cells, fuel, fuel - 1);
      var v1, v2, k := last, rest, fuel;
      while k > 0 && At(cells, v2).Cons?
        invariant 0 <= k <= fuel
        invariant TailLeft(goal, c, v1, v2, env, cells, k, fuel - 1)
      {
        ghost var st := cells;
        var v := Leval(At(cells, v2).car, env, fuel - 1);
        TailUnfolds(goal, c, v1, v2, env, st, k, fuel - 1, v);
        if !v.Val? {
          return v;
        }
        cells := cells + [Cons(v.v, NIL)];
        var tmp := |cells|;
        var linked := SetCdr(cells, v1, tmp);
        if !linked.Val? {
          return linked;
        }
        cells := linked.st;
        var next := Cdr(cells, v2);
        if !next.Val? {
          return next;
        }
        v1, v2, k := tmp, next.v, k - 1;
      }
      TailEnds(goal, c, v1, v2, env, cells, k, fuel - 1);
      if k == 0 {
        return NoFuel;
      }
      if v2 != NIL {
        return Error;
      }
      return Val(NIL, cells);
    }

    /** leval_progn. */
    method LevalProgn(args: int, env: int, fuel: nat) returns (t: Tail)
      requires fuel > 0
      modifies this`cells
      ensures Resume(c, t, cells, fuel) == EvalBegin(c, args, env, old(cells), fuel, fuel - 1)
      decreases fuel, 0, 0
    {
      var l, k := args, fuel;
      while k > 0
        invariant k <= fuel
        invariant EvalBegin(c, args, env, old(cells), fuel, fuel - 1) == EvalBegin(c, l, env, cells, k, fuel - 1)
      {
        var next, form := Cdr(cells, l), Car(cells, l);
        if !next.Val? {
          return Failed(next);
        }
        if !form.Val? {
          return Failed(form);
        }
        if next.v == NIL {
          return Jump(form.v, env);
        }
        var v := Leval(form.v, env, fuel - 1);
        if !v.Val? {
          return Failed(v);
        }
        l, k := next.v, k - 1;
      }
      return Exhausted;
    }

    /** leval_or. */
    method LevalOr(args: int, env: int, fuel: nat) returns (t: Tail)
      requires fuel > 0
      modifies this`cells
      ensures Resume(c, t, cells, fuel) == EvalOr(c, args, env, old(cells), fuel, fuel - 1)
      decreases fuel, 0, 0
    {
      var l, k := args, fuel;
      while k > 0
        invariant k <= fuel
        invariant EvalOr(c, args, env, old(cells), fuel, fuel - 1) == EvalOr(c, l, env, cells, k, fuel - 1)
      {
        var next, form := Cdr(cells, l), Car(cells, l);
        if !next.Val? {
          return Failed(next);
        }
        if !form.Val? {
          return Failed(form);
        }
        if next.v == NIL {
          return Jump(form.v, env);
        }
        var v := Leval(form.v, env, fuel - 1);
        if !v.Val? {
          return Failed(v);
        }
        if v.v != NIL {
          return Return(v.v);
        }
        l, k := next.v, k - 1;
      }
      return Exhausted;
    }

    /** leval_and. */
    method LevalAnd(args: int, env: int, fuel: nat) returns (t: Tail)
      requires fuel > 0
      modifies this`cells
      ensures Resume(c, t, cells, fuel) ==
        if args == NIL then Val(c.t, old(cells)) else EvalAnd(c, args, env, old(cells), fuel, fuel - 1)
      decreases fuel, 0, 0
    {
      if args == NIL {
        return Return(c.t);
      }
      var l, k := args, fuel;
      while k > 0
        invariant k <= fuel
        invariant EvalAnd(c, args, env, old(cells), fuel, fuel - 1) == EvalAnd(c, l, env, cells, k, fuel - 1)
      {
        var next, form := Cdr(cells, l), Car(cells, l);
        if !next.Val? {
          return Failed(next);
        }
        if !form.Val? {
          return Failed(form);
        }
        if next.v == NIL {
          return Jump(form.v, env);
        }
        var v := Leval(form.v, env, fuel - 1);
        if !v.Val? {
          return Failed(v);
        }
        if v.v == NIL {
          return Return(NIL);
        }
        l, k := next.v, k - 1;
      }
      return Exhausted;
    }

    /** The values of the first n arguments. */
    method FixedArgs(args: int, n: nat, env: int, fuel: nat) returns (r: Result<seq<int>>)
      modifies this`cells
      ensures r == EvalFixed(c, args, n, env, old(cells), fuel) && (r.Val? ==> cells == r.st)
      decreases fuel, 3, 0
    {
      var l, k, vs := args, n, [];
      assert forall ws: seq<int> :: [] + ws == ws;
      while k > 0
        invariant 0 <= k <= n
        invariant EvalFixed(c, args, n, env, old(cells), fuel) == Prepend(vs, EvalFixed(c, l, k, env, cells, fuel))
      {
        var a := Car(cells, l);
        if !a.Val? {
          return a.PropagateFailure();
        }
        var v := Leval(a.v, env, fuel);
        if !v.Val? {
          return v.PropagateFailure();
        }
        var rest := Cdr(cells, l);
        if !rest.Val? {
          return rest.PropagateFailure();
        }
        ghost var tail := EvalFixed(c, rest.v, k - 1, env, cells, fuel);
        PrependTwice(vs, v.v, tail);
        l, k, vs := rest.v, k - 1, vs + [v.v];
      }
      assert vs + [] == vs;
      return Val(vs, cells);
    }

    /** The loop of tc_subr_2n: fold the built-in over the remaining arguments. */
    method FoldArgs(id: int, acc0: int, rest: int, env: int, fuel: nat) returns (r: Out)
      requires fuel > 0
      modifies this`cells
      ensures Agrees(r, EvalFold(c, id, acc0, rest, env, old(cells), fuel, fuel - 1))
      decreases fuel, 0, 0
    {
      var acc, l, k := acc0, rest, fuel;
      while k > 0 && At(cells, l).Cons?
        invariant k <= fuel
        invariant EvalFold(c, id, acc0, rest, env, old(cells), fuel, fuel - 1)
               == EvalFold(c, id, acc, l, env, cells, k, fuel - 1)
      {
        var v := Leval(At(cells, l).car, env, fuel - 1);
        if !v.Val? {
          return v;
        }
        var o := c.builtin(id, [acc, v.v], cells);
        if !o.Val? {
          return o;
        }
        var next := Cdr(o.st, l);
        if !next.Val? {
          return next;
        }
        cells := o.st;
        acc, l, k := o.v, next.v, k - 1;
      }
      if k == 0 {
        return NoFuel;
      }
      return Val(acc, cells);
    }

    /** The second switch of leval: what the operator value f makes of the call x. */
    method Call(f: int, x: int, env: int, fuel: nat) returns (t: Tail)
      requires fuel > 0
      modifies this`cells
      ensures Resume(c, t, cells, fuel) == Apply(c, f, x, env, old(cells), fuel)
      decreases fuel, 1, 0
    {
      var args := Cdr(cells, x);
      if !args.Val? {
        return Failed(args);
      }
      match At(cells, f)
      case Subr(kind, id) =>
        t := CallSubr(kind, id, args.v, env, fuel);
      case Closure(cenv, code) =>
        if !At(cells, code).Cons? {
          return Raise;
        }
        var vs := LevalArgs(args.v, env, fuel);
        if !vs.Val? {
          return Failed(vs);
        }
        var formals := Car(cells, code);
        if !formals.Val? {
          return Failed(formals);
        }
        var env2 := ExtendEnv(vs.v, formals.v, cenv, cells);
        cells := env2.st;
        var body := Cdr(cells, code);
        if !body.Val? {
          return Failed(body);
        }
        return Jump(body.v, env2.v);
      case Sym(_) =>
        var form := MacroCall(c, f, x, cells);
        cells := form.st;
        var x2 := Leval(form.v, NIL, fuel - 1);
        if !x2.Val? {
          return Failed(x2);
        }
        return Jump(x2.v, env);
      case _ =>
        return Raise;
    }

    method CallSubr(kind: Kind, id: int, args: int, env: int, fuel: nat) returns (t: Tail)
      requires fuel > 0
      modifies this`cells
      ensures Resume(c, t, cells, fuel) == Special(c, kind, id, args, env, old(cells), fuel)
      decreases fuel, 0, 3
    {
      match kind
      case Begin => t := LevalProgn(args, env, fuel);
      case Or => t := LevalOr(args, env, fuel);
      case And => t := LevalAnd(args, env, fuel);
      case If => t := LevalIf(args, env, fuel);
      case Let => t := LevalLet(args, env, fuel);
      case TheEnv => t := Return(env);
      case _ =>
        var r := CallValue(kind, id, args, env, fuel);
        if !r.Val? {
          return Failed(r);
        }
        t := Return(r.v);
    }

    /** leval_if. */
    method LevalIf(args: int, env: int, fuel: nat) returns (t: Tail)
      requires fuel > 0
      modifies this`cells
      ensures Resume(c, t, cells, fuel) == Special(c, If, 0, args, env, old(cells), fuel)
      decreases fuel, 0, 2
    {
      var test := Car(cells, args);
      if !test.Val? {
        return Failed(test);
      }
      var v := Leval(test.v, env, fuel - 1);
      if !v.Val? {
        return Failed(v);
      }
      var branch := if v.v != NIL then Cadr(cells, args) else Caddr(cells, args);
      t := if branch.Val? then Jump(branch.v, env) else Failed(branch);
    }

    /** leval_let. */
    method LevalLet(args: int, env: int, fuel: nat) returns (t: Tail)
      requires fuel > 0
      modifies this`cells
      ensures Resume(c, t, cells, fuel) == Special(c, Let, 0, args, env, old(cells), fuel)
      decreases fuel, 0, 2
    {
      var actuals := Cadr(cells, args);
      if !actuals.Val? {
        return Failed(actuals);
      }
      var vs := LevalArgs(actuals.v, env, fuel);
      if !vs.Val? {
        return Failed(vs);
      }
      var formals := Car(cells, args);
      if !formals.Val? {
        return Failed(formals);
      }
      var env2 := ExtendEnv(vs.v, formals.v, env, cells);
      cells := env2.st;
      var body := Caddr(cells, args);
      t := if body.Val? then Jump(body.v, env2.v) else Failed(body);
    }

    /** The built-ins that return a value. */
    method CallValue(kind: Kind, id: int, args: int, env: int, fuel: nat) returns (r: Out)
      requires fuel > 0 && kind !in {If, Begin, Or, And, Let, TheEnv}
      modifies this`cells
      ensures Agrees(r, Special(c, kind, id, args, env, old(cells), fuel))
      decreases fuel, 0, 2
    {
      match kind {
      case Fixed(n) =>
        var vs := FixedArgs(args, n, env, fuel - 1);
        r := if vs.Val? then c.builtin(id, vs.v, cells) else vs.PropagateFailure();
      case Folded =>
        var vs := FixedArgs(args, 2, env, fuel - 1);
        if !vs.Val? {
          return vs.PropagateFailure();
        }
        var acc := c.builtin(id, vs.v, cells);
        if !acc.Val? {
          return acc;
        }
        var rest := Cddr(acc.st, args);
        if !rest.Val? {
          return rest;
        }
        cells := acc.st;
        r := FoldArgs(id, acc.v, rest.v, env, fuel);
      case ListArgs =>
        var l := LevalArgs(args, env, fuel);
        r := if l.Val? then c.builtin(id, [l.v], cells) else l;
      case SetQ =>
        r := LevalSetq(args, env, fuel);
        return;
      case Define =>
        r := LevalDefine(args, env, fuel);
        return;
      case Quote => r := Car(cells, args);
      case Lambda => r := MakeLambda(c, args, env, cells);
      }
      Commit(r);
    }

    /** leval_setq. */
    method LevalSetq(args: int, env: int, fuel: nat) returns (r: Out)
      requires fuel > 0
      modifies this`cells
      ensures Agrees(r, Special(c, SetQ, 0, args, env, old(cells), fuel))
      decreases fuel, 0, 0
    {
      var form := Cadr(cells, args);
      if !form.Val? {
        return form;
      }
      var v := Leval(form.v, env, fuel - 1);
      if !v.Val? {
        return v;
      }
      var x := Car(cells, args);
      if !x.Val? {
        return x;
      }
      r := SetVarInPlace(x.v, v.v, env, fuel);
    }

    /** leval_define: change the binding there is, or add one to the first frame. */
    method LevalDefine(args: int, env: int, fuel: nat) returns (r: Out)
      requires fuel > 0
      modifies this`cells
      ensures Agrees(r, Special(c, Define, 0, args, env, old(cells), fuel))
      decreases fuel, 0, 0
    {
      var tmp := SyntaxDefine(c, args, cells, fuel);
      if !tmp.Val? {
        return tmp;
      }
      cells := tmp.st;
      var x := Car(cells, tmp.v);
      if !x.Val? {
        return x;
      }
      if !At(cells, x.v).Sym? {
        return Error;
      }
      var form := Cadr(cells, tmp.v);
      if !form.Val? {
        return form;
      }
      var v := Leval(form.v, env, fuel - 1);
      if !v.Val? {
        return v;
      }
      r := Bind(x.v, v.v, env, cells, fuel);
      Commit(r);
    }
  }
}
