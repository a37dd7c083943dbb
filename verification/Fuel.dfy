/** Fuel only decides whether a program finishes, never how. */
module Fuel {
  import opened Michelson
  import opened Rules

  /** g gives the same answer as f unless f ran out of fuel. */
  predicate Settles(f: Outcome, g: Outcome) { f == OutOfFuel || g == f }

  lemma {:induction false} RunSettles(e: Env, f: nat, g: nat, c: Code, s: Stack)
    requires f <= g
    ensures Settles(Run(e, f, c, s), Run(e, g, c, s))
    decreases f, 0, c, 0
  {
    hide Step;
    match c
    case Done =>
    case Do(i, next) =>
      StepSettles(e, f, g, i, s);
      var o := Step(e, f, i, s);
      if o.Ok? { RunSettles(e, f, g, next, o.stack); }
  }

  lemma {:induction false} StepSettles(e: Env, f: nat, g: nat, i: Instr, s: Stack)
    requires f <= g
    ensures Settles(Step(e, f, i, s), Step(e, g, i, s))
    decreases f, 0, i, 1
  {
    hide Run, Call, CallView, Basic;
    match i
    case BLOCK(c) => RunSettles(e, f, g, c, s);
    case DIP(c) => if s.Push? { RunSettles(e, f, g, c, s.rest); }
    case DIPN(n, c) => UnderSettles(e, f, g, n, c, s);
    case ITER(c) => if s.Push? && s.top.VList? { IterSettles(e, f, g, c, s.top.elems, s.rest); }
    case MAP(c) => if s.Push? && s.top.VList? { MapSettles(e, f, g, c, s.top.elems, [], s.rest); }
    case EXEC => if s.Push? && s.rest.Push? && f > 0 { CallSettles(e, f - 1, g - 1, s.rest.top, s.top); }
    case VIEW(name) =>
      if s.Push? && s.rest.Push? && s.rest.top.VAddr? && HasView(e, s.rest.top.a, name) && f > 0 {
        ViewSettles(e, f - 1, g - 1, s.rest.top.a, name, s.top);
      }
    case IF(_, _) => BranchSettles(e, f, g, i, s);
    case IF_NONE(_, _) => BranchSettles(e, f, g, i, s);
    case IF_LEFT(_, _) => BranchSettles(e, f, g, i, s);
    case IF_CONS(_, _) => BranchSettles(e, f, g, i, s);
    case _ =>
  }

  lemma {:induction false} BranchSettles(e: Env, f: nat, g: nat, i: Instr, s: Stack)
    requires f <= g && (i.IF? || i.IF_NONE? || i.IF_LEFT? || i.IF_CONS?)
    ensures Settles(Step(e, f, i, s), Step(e, g, i, s))
    decreases f, 0, i, 0
  {
    hide Run, Basic;
    if s.Push? {
      var t :=
        if s.top.VSome? then Push(s.top.v, s.rest)
        else if s.top.VLeft? then Push(s.top.left, s.rest)
        else if s.top.VRight? then Push(s.top.right, s.rest)
        else if s.top.VList? && s.top.elems != [] then Push(s.top.elems[0], Push(VList(s.top.elems[1..]), s.rest))
        else s.rest;
      RunSettles(e, f, g, i.c, t);
      RunSettles(e, f, g, i.d, t);
    }
  }

  lemma {:induction false} UnderSettles(e: Env, f: nat, g: nat, n: nat, c: Code, s: Stack)
    requires f <= g
    ensures Settles(RunUnder(e, f, n, c, s), RunUnder(e, g, n, c, s))
    decreases f, 0, c, n + 1
  {
    hide Run;
    if n == 0 { RunSettles(e, f, g, c, s); } else if s.Push? { UnderSettles(e, f, g, n - 1, c, s.rest); }
  }

  lemma {:induction false} IterSettles(e: Env, f: nat, g: nat, c: Code, xs: seq<Value>, s: Stack)
    requires f <= g
    ensures Settles(Iter(e, f, c, xs, s), Iter(e, g, c, xs, s))
    decreases f, 0, c, |xs| + 1
  {
    hide Run;
    if xs != [] {
      IterCons(e, f, c, xs, s);
      IterCons(e, g, c, xs, s);
      RunSettles(e, f, g, c, Push(xs[0], s));
      var o := Run(e, f, c, Push(xs[0], s));
      if o.Ok? { IterSettles(e, f, g, c, xs[1..], o.stack); }
    }
  }

  lemma {:induction false} MapSettles(e: Env, f: nat, g: nat, c: Code, xs: seq<Value>, done: seq<Value>, s: Stack)
    requires f <= g
    ensures Settles(MapList(e, f, c, xs, done, s), MapList(e, g, c, xs, done, s))
    decreases f, 0, c, |xs| + 1
  {
    hide Run;
    if xs != [] {
      MapCons(e, f, c, xs, done, s);
      MapCons(e, g, c, xs, done, s);
      RunSettles(e, f, g, c, Push(xs[0], s));
      var o := Run(e, f, c, Push(xs[0], s));
      if o.Ok? && o.stack.Push? { MapSettles(e, f, g, c, xs[1..], done + [o.stack.top], o.stack.rest); }
    }
  }

  lemma {:induction false} CallSettles(e: Env, f: nat, g: nat, l: Value, arg: Value)
    requires f <= g
    ensures Settles(Call(e, f, l, arg), Call(e, g, l, arg))
    decreases f, 1
  {
    hide Run;
    match l
    case VLam(c) => RunSettles(e, f, g, c, Push(arg, Empty));
    case VLamRec(c) => RunSettles(e, f, g, c, Push(arg, Push(l, Empty)));
    case _ =>
  }

  lemma {:induction false} ViewSettles(e: Env, f: nat, g: nat, at: Account, name: string, arg: Value)
    requires f <= g && HasView(e, at, name)
    ensures Settles(CallView(e, f, at, name, arg), CallView(e, g, at, name, arg))
    decreases f, 1
  {
    hide Run;
    RunSettles(e.(self := at, sender := e.self, amount := 0), f, g,
      e.world[at].views[name], Push(VPair(arg, e.world[at].storage), Empty));
  }

  /** A program that finishes with some fuel finishes the same way with any larger amount. */
  lemma MoreFuelSameResult(e: Env, f: nat, g: nat, c: Code, s: Stack)
    requires f <= g && Run(e, f, c, s) != OutOfFuel
    ensures Run(e, g, c, s) == Run(e, f, c, s)
  {
    hide Run;
    RunSettles(e, f, g, c, s);
  }
}
