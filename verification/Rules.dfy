/** What the forms of the embedded Lisp mean (src/lib/siod/slib.c): one rule for each kind of form, on the cells of the form and
    the store before and after it.  RulesDecide proves that leval gives exactly what the rules derive. */
module Rules {

  import opened Evaluator

  /** The list p without its first i elements, NIL behind its end. */
  function Behind(st: Store, p: int, i: nat): int
    decreases i
  {
    if i == 0 then p else if At(st, p).Cons? then Behind(st, At(st, p).cdr, i - 1) else NIL
  }

  /** Element i of the list p, NIL behind its end. */
  function Item(st: Store, p: int, i: nat): int {
    var q := Behind(st, p, i);
    if At(st, q).Cons? then At(st, q).car else NIL
  }

  /** p can be followed as a list for i steps. */
  predicate Listed(st: Store, p: int, i: nat)
    decreases i
  {
    i == 0 || p == NIL || (At(st, p).Cons? && Listed(st, At(st, p).cdr, i - 1))
  }

  /** env2 is env with a frame in front that binds the formals to the actuals; a symbol as formals takes all actuals. */
  predicate Framed(actuals: int, formals: int, env: int, st: Store, env2: int, st2: Store) {
    var k := |st|;
    if At(st, formals).Sym? then
      env2 == k + 4 && st2 == st + [Cons(formals, NIL), Cons(actuals, NIL), Cons(k + 1, k + 2), Cons(k + 3, env)]
    else env2 == k + 2 && st2 == st + [Cons(formals, actuals), Cons(k + 1, env)]
  }

  /** The variable x has the value v; a dotted formal conses it up. */
  predicate Reads(x: int, env: int, st: Store, n: nat, v: int, st2: Store) {
    match BindingOf(x, env, st, n)
    case InCar(cell) => At(st, cell).Cons? && v == At(st, cell).car && st2 == st
    case DottedTail(actuals) => v == actuals && st2 == st + [Cons(actuals, NIL)]
    case Unbound => At(st, x) == Sym(v) && st2 == st
    case _ => false
  }

  /** v goes where the variable is bound, into a cons of its own for a dotted formal, and is the global value of one not bound. */
  predicate Assigns(x: int, v: int, env: int, st: Store, n: nat, st2: Store) {
    match BindingOf(x, env, st, n)
    case InCar(cell) => At(st, cell).Cons? && st2 == Put(st, cell, Cons(v, At(st, cell).cdr))
    case DottedTail(_) => st2 == st + [Cons(v, NIL)]
    case Unbound => st2 == Put(st, x, Sym(v))
    case _ => false
  }

  /** define puts a variable not bound in front of the first frame. */
  predicate Binds(x: int, v: int, env: int, st: Store, n: nat, st2: Store) {
    if BindingOf(x, env, st, n) == Unbound && env != NIL then
      var k, frame := |st|, Item(st, env, 0);
      && At(st, frame).Cons?
      && st2 == Put(st + [Cons(x, At(st, frame).car), Cons(v, At(st, frame).cdr)], frame, Cons(k + 1, k + 2))
    else Assigns(x, v, env, st, n, st2)
  }

  /** (define (f . formals) . body) is (define f (lambda formals . body)), on so many levels. */
  predicate Sugar(c: Names, args: int, st: Store, levels: nat, args2: int, st2: Store)
    decreases levels
  {
    var a, k := Item(st, args, 0), |st|;
    Listed(st, args, 1) &&
      if levels == 0 then At(st, a).Sym? && args2 == args && st2 == st
      else
        && !At(st, a).Sym? && Listed(st, a, 1)
        && Sugar(c, k + 4,
                 st + [Cons(Behind(st, a, 1), Behind(st, args, 1)), Cons(c.lambda, k + 1), Cons(k + 2, NIL), Cons(Item(st, a, 0), k + 3)],
                 levels - 1, args2, st2)
  }

  /** lambda: the closure of the environment, the formals and one body form, several of them under a progn. */
  predicate Closes(c: Names, args: int, env: int, st: Store, v: int, st2: Store) {
    var k, formals := |st|, Item(st, args, 0);
    Listed(st, args, 2) &&
      if Behind(st, args, 2) == NIL then v == k + 2 && st2 == st + [Cons(formals, Item(st, args, 1)), Closure(env, k + 1)]
      else v == k + 3 && st2 == st + [Cons(c.progn, Behind(st, args, 1)), Cons(formals, k + 1), Closure(env, k + 2)]
  }

  // A derivation says which rule gives a value, with what its parts gave.

  datatype Tree = Constant | Name(n: nat) | Form(head: Head, f: int, st1: Store, body: Body)

  datatype Head = Named(n: nat) | Computed(t: Tree) | Itself

  datatype Body =
    | BuiltIn(args: Parts, vs: seq<int>, st2: Store)
    | Folding(args: Parts, vs: seq<int>, st2: Store, more: Parts)
    | OfList(args: Parts, list: int, st2: Store)
    | Alone
    | Setting(value: Tree, st2: Store, n: nat)
    | Defining(levels: nat, args2: int, st2: Store, value: Tree, st3: Store, n: nat)
    | Choosing(test: Tree, tested: int, st2: Store, branch: Tree)
    | InTurn(forms: Parts)
    | Letting(args: Parts, list: int, st2: Store, env2: int, st3: Store, body: Tree)
    | Calling(args: Parts, list: int, st2: Store, env2: int, st3: Store, body: Tree)
    | Expanding(expansion: Tree, form: int, st2: Store, value: Tree)

  datatype Parts = Done | Part(t: Tree, v: int, st1: Store, rest: Parts)

  /** The form x gives v in env. */
  predicate Gives(t: Tree, c: Names, x: int, env: int, st: Store, v: int, st2: Store)
    decreases t
  {
    match t
    case Constant => !At(st, x).Sym? && !At(st, x).Cons? && v == x && st2 == st
    case Name(n) => At(st, x).Sym? && Reads(x, env, st, n, v, st2)
    case Form(head, f, st1, body) =>
      At(st, x).Cons? && HeadGives(head, c, At(st, x).car, env, st, f, st1) && BodyGives(body, c, f, x, env, st1, v, st2)
  }

  /** What stands in front of a form: a variable with a value, a form, or the thing itself. */
  predicate HeadGives(t: Head, c: Names, h: int, env: int, st: Store, f: int, st2: Store)
    decreases t
  {
    match t
    case Named(n) => At(st, h).Sym? && Reads(h, env, st, n, f, st2) && (BindingOf(h, env, st, n) == Unbound ==> f != c.unbound)
    case Computed(t1) => At(st, h).Cons? && Gives(t1, c, h, env, st, f, st2)
    case Itself => !At(st, h).Sym? && !At(st, h).Cons? && f == h && st2 == st
  }

  /** The form x with f in front gives v: a closure is called, a symbol names a macro, and a built-in is of some kind. */
  predicate BodyGives(t: Body, c: Names, f: int, x: int, env: int, st: Store, v: int, st2: Store)
    decreases t, 2
  {
    Listed(st, x, 1) &&
      match At(st, f)
      case Closure(cenv, code) => t.Calling? && CallRule(t, c, cenv, code, Behind(st, x, 1), env, st, v, st2)
      case Sym(_) => t.Expanding? && MacroRule(t, c, f, x, env, st, v, st2)
      case Subr(kind, id) => KindGives(t, c, kind, id, Behind(st, x, 1), env, st, v, st2)
      case _ => false
  }

  predicate KindGives(t: Body, c: Names, kind: Kind, id: int, args: int, env: int, st: Store, v: int, st2: Store)
    decreases t, 1
  {
    match kind
    case Fixed(n) => t.BuiltIn? && EachGives(t.args, c, args, n, env, st, t.vs, t.st2) && c.builtin(id, t.vs, t.st2) == Val(v, st2)
    case Folded => t.Folding? && FoldRule(t, c, id, args, env, st, v, st2)
    case ListArgs => t.OfList? && ListGives(t.args, c, args, env, st, t.list, t.st2) && c.builtin(id, [t.list], t.st2) == Val(v, st2)
    case Quote => Listed(st, args, 1) && v == Item(st, args, 0) && st2 == st
    case Lambda => Closes(c, args, env, st, v, st2)
    case TheEnv => v == env && st2 == st
    case SetQ => t.Setting? && SetRule(t, c, args, env, st, v, st2)
    case Define => t.Defining? && DefineRule(t, c, args, env, st, v, st2)
    case If => t.Choosing? && IfRule(t, c, args, env, st, v, st2)
    case Begin => t.InTurn? && TurnGives(t.forms, c, args, env, st, v, st2)
    case Or => t.InTurn? && AnyGives(t.forms, c, args, env, st, v, st2)
    case And => if args == NIL then v == c.t && st2 == st else t.InTurn? && AllGives(t.forms, c, args, env, st, v, st2)
    case Let => t.Letting? && LetRule(t, c, args, env, st, v, st2)
  }

  /** A built-in of two arguments is given the rest one by one. */
  predicate FoldRule(t: Body, c: Names, id: int, args: int, env: int, st: Store, v: int, st2: Store)
    requires t.Folding?
    decreases t, 0
  {
    EachGives(t.args, c, args, 2, env, st, t.vs, t.st2) &&
      var r := c.builtin(id, t.vs, t.st2);
      r.Val? && Listed(r.st, args, 2) && FoldGives(t.more, c, id, r.v, Behind(r.st, args, 2), env, r.st, v, st2)
  }

  /** (set! name form) */
  predicate SetRule(t: Body, c: Names, args: int, env: int, st: Store, v: int, st2: Store)
    requires t.Setting?
    decreases t, 0
  {
    && Listed(st, args, 2) && Gives(t.value, c, Item(st, args, 1), env, st, v, t.st2)
    && Listed(t.st2, args, 1) && At(t.st2, Item(t.st2, args, 0)).Sym? && Assigns(Item(t.st2, args, 0), v, env, t.st2, t.n, st2)
  }

  /** (define name form), or its other writing */
  predicate DefineRule(t: Body, c: Names, args: int, env: int, st: Store, v: int, st2: Store)
    requires t.Defining?
    decreases t, 0
  {
    && Sugar(c, args, st, t.levels, t.args2, t.st2) && Listed(t.st2, t.args2, 2)
    && Gives(t.value, c, Item(t.st2, t.args2, 1), env, t.st2, v, t.st3) && Binds(Item(t.st2, t.args2, 0), v, env, t.st3, t.n, st2)
  }

  /** (if test then else) */
  predicate IfRule(t: Body, c: Names, args: int, env: int, st: Store, v: int, st2: Store)
    requires t.Choosing?
    decreases t, 0
  {
    && Listed(st, args, 1) && Gives(t.test, c, Item(st, args, 0), env, st, t.tested, t.st2)
    && if t.tested != NIL then Listed(t.st2, args, 2) && Gives(t.branch, c, Item(t.st2, args, 1), env, t.st2, v, st2)
       else Listed(t.st2, args, 3) && Gives(t.branch, c, Item(t.st2, args, 2), env, t.st2, v, st2)
  }

  /** let after let_macro: the formals, the forms of their values, the body. */
  predicate LetRule(t: Body, c: Names, args: int, env: int, st: Store, v: int, st2: Store)
    requires t.Letting?
    decreases t, 0
  {
    && Listed(st, args, 2) && ListGives(t.args, c, Item(st, args, 1), env, st, t.list, t.st2)
    && Listed(t.st2, args, 1) && Framed(t.list, Item(t.st2, args, 0), env, t.st2, t.env2, t.st3)
    && Listed(t.st3, args, 3) && Gives(t.body, c, Item(t.st3, args, 2), t.env2, t.st3, v, st2)
  }

  /** The body of a closure, in a frame of the arguments in front of the closure's own environment. */
  predicate CallRule(t: Body, c: Names, cenv: int, code: int, args: int, env: int, st: Store, v: int, st2: Store)
    requires t.Calling?
    decreases t, 0
  {
    && At(st, code).Cons? && ListGives(t.args, c, args, env, st, t.list, t.st2)
    && Listed(t.st2, code, 1) && Framed(t.list, Item(t.st2, code, 0), cenv, t.st2, t.env2, t.st3)
    && Listed(t.st3, code, 1) && Gives(t.body, c, Behind(t.st3, code, 1), t.env2, t.st3, v, st2)
  }

  /** What (f (quote x)) gives at the top level is evaluated in place of x. */
  predicate MacroRule(t: Body, c: Names, f: int, x: int, env: int, st: Store, v: int, st2: Store)
    requires t.Expanding?
    decreases t, 0
  {
    var k := |st|;
    && Gives(t.expansion, c, k + 4, NIL, st + [Cons(x, NIL), Cons(c.quote, k + 1), Cons(k + 2, NIL), Cons(f, k + 3)], t.form, t.st2)
    && Gives(t.value, c, t.form, env, t.st2, v, st2)
  }

  /** The first n elements of l, NIL for missing ones, give vs. */
  predicate EachGives(t: Parts, c: Names, l: int, n: nat, env: int, st: Store, vs: seq<int>, st2: Store)
    decreases t
  {
    |vs| == n &&
      if n == 0 then st2 == st
      else
        && t.Part? && Listed(st, l, 1) && Gives(t.t, c, Item(st, l, 0), env, st, t.v, t.st1) && vs[0] == t.v
        && Listed(t.st1, l, 1) && EachGives(t.rest, c, Behind(t.st1, l, 1), n - 1, env, t.st1, vs[1..], st2)
  }

  /** A built-in of two arguments, over the elements of l from acc on. */
  predicate FoldGives(t: Parts, c: Names, id: int, acc: int, l: int, env: int, st: Store, v: int, st2: Store)
    decreases t
  {
    if !At(st, l).Cons? then v == acc && st2 == st
    else
      && t.Part? && Gives(t.t, c, At(st, l).car, env, st, t.v, t.st1)
      && var r := c.builtin(id, [acc, t.v], t.st1);
         r.Val? && Listed(r.st, l, 1) && FoldGives(t.rest, c, id, r.v, Behind(r.st, l, 1), env, r.st, v, st2)
  }

  /** list is a new list of what the elements of l give. */
  predicate ListGives(t: Parts, c: Names, l: int, env: int, st: Store, list: int, st2: Store)
    decreases t
  {
    if l == NIL then list == NIL && st2 == st
    else
      && At(st, l).Cons? && t.Part? && Gives(t.t, c, At(st, l).car, env, st, t.v, t.st1) && list == |t.st1| + 1
      && var st3 := t.st1 + [Cons(t.v, NIL)];
         Listed(st3, l, 1) && MoreGives(t.rest, c, list, Behind(st3, l, 1), env, st3, st2)
  }

  /** The same behind the cons last. */
  predicate MoreGives(t: Parts, c: Names, last: int, l: int, env: int, st: Store, st2: Store)
    decreases t, 1
  {
    if l == NIL then st2 == st
    else
      && At(st, l).Cons? && t.Part? && Gives(t.t, c, At(st, l).car, env, st, t.v, t.st1)
      && var st3 := t.st1 + [Cons(t.v, NIL)];
         At(st3, last).Cons? && Linked(t, c, l, env, Put(st3, last, Cons(At(st3, last).car, |st3|)), |st3|, st2)
  }

  predicate Linked(t: Parts, c: Names, l: int, env: int, st: Store, cell: int, st2: Store)
    requires t.Part?
    decreases t, 0
  {
    Listed(st, l, 1) && MoreGives(t.rest, c, cell, Behind(st, l, 1), env, st, st2)
  }

  /** begin: each form of l, and the value of the last. */
  predicate TurnGives(t: Parts, c: Names, l: int, env: int, st: Store, v: int, st2: Store)
    decreases t
  {
    && t.Part? && Listed(st, l, 1) && Gives(t.t, c, Item(st, l, 0), env, st, t.v, t.st1)
    && if Behind(st, l, 1) == NIL then v == t.v && st2 == t.st1 else TurnGives(t.rest, c, Behind(st, l, 1), env, t.st1, v, st2)
  }

  /** or: the value of the first form of l that is not NIL, or of the last. */
  predicate AnyGives(t: Parts, c: Names, l: int, env: int, st: Store, v: int, st2: Store)
    decreases t
  {
    && t.Part? && Listed(st, l, 1) && Gives(t.t, c, Item(st, l, 0), env, st, t.v, t.st1)
    && if Behind(st, l, 1) == NIL || t.v != NIL then v == t.v && st2 == t.st1 else AnyGives(t.rest, c, Behind(st, l, 1), env, t.st1, v, st2)
  }

  /** and: NIL from the first form of l that gives it, or the value of the last. */
  predicate AllGives(t: Parts, c: Names, l: int, env: int, st: Store, v: int, st2: Store)
    decreases t
  {
    && t.Part? && Listed(st, l, 1) && Gives(t.t, c, Item(st, l, 0), env, st, t.v, t.st1)
    && if Behind(st, l, 1) == NIL || t.v == NIL then v == t.v && st2 == t.st1 else AllGives(t.rest, c, Behind(st, l, 1), env, t.st1, v, st2)
  }
}
