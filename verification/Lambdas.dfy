/** Recursive lambdas that compute factorials, and a map built from two reductions. */
module Lambdas {
  import opened Michelson
  import opened Rules
  import opened Runs
  import opened Fuel

  const ASSERT_RIGHT: Code := Seq1(IF_LEFT(Seq1(BLOCK(Seq2(UNIT, FAILWITH))), Done))

  const RECURSIVE_LAMBDA: Code :=
    Seq4(DUP, EQ, IF(Seq1(PUSH(VInt(1))), Seq7(DUP, DUPN(3), PUSH(VInt(1)), DUPN(4), SUB, EXEC, MUL)),
    DIP(Seq1(DROPN(2))))

  const STORED_FACTORIAL: Code :=
    Seq5(UNPAIR, DUPN(2), EQ, IF(Seq1(PUSH(VInt(1))), Do8(DUPN(2), DUPN(4), DUPN(3), APPLY, PUSH(VInt(1)), DUPN(3),
    SUB, EXEC, Seq1(MUL))), DIP(Seq1(DROPN(3))))

  const FACTORY: Code :=
    Seq4(UNPAIR, IF_LEFT(Seq5(DROPN(2), LAMBDA_REC(STORED_FACTORIAL), UNIT, APPLY, RIGHT),
    Seq3(DIP(Seq1(BLOCK(ASSERT_RIGHT))), EXEC, LEFT)), NIL, PAIR)

  const APPLY_AND_PUSH: Code :=
    Seq5(PAIR, DUP, BLOCK(Seq2(CDR, CAR)), DIP(Seq7(DUP, DIP(Seq1(BLOCK(Seq2(CDR, CAR)))), DUP, CAR,
    DIP(Seq2(BLOCK(Seq2(CDR, CDR)), SWAP)), EXEC, CONS)), PAIR)

  const REDUCE_MAP: Code :=
    Do8(DIP(Seq1(NIL)), CAR, DUP, DIP(Seq2(CAR, PAIR)), CDR, ITER(APPLY_AND_PUSH), CDR, DIP(Seq1(NIL)),
    Seq3(ITER(Seq1(CONS)), NIL, PAIR))

  function Factorial(n: nat): nat { if n == 0 then 1 else n * Factorial(n - 1) }

  // ---------------------------------------------------------------- recursion without APPLY

  /** One step of the recursion, whatever function g stands for the lambda itself. */
  lemma RecursiveStep(e: Env, f: nat, n: int, g: Value, m: int)
    ensures var o := Run(e, f, RECURSIVE_LAMBDA, Push(VInt(n), Push(g, Empty)));
      && (n == 0 ==> o == Ok(Push(VInt(1), Empty)))
      && (n != 0 && f == 0 ==> o == OutOfFuel)
      && (n != 0 && f > 0 && Michelson.Call(e, f - 1, g, VInt(n - 1)) == Ok(Push(VInt(m), Empty)) ==>
            o == Ok(Push(VInt(n * m), Empty)))
      && (n != 0 && f > 0 && Michelson.Call(e, f - 1, g, VInt(n - 1)) == OutOfFuel ==> o == OutOfFuel)
  {
    hide Run, Then, Step, Basic, Michelson.Call;
    StackMachine(); DataMachine();
  }

  lemma {:induction false} RecursiveBody(e: Env, f: nat, n: int)
    ensures Run(e, f, RECURSIVE_LAMBDA, Push(VInt(n), Push(VLamRec(RECURSIVE_LAMBDA), Empty))) ==
      if 0 <= n <= f then Ok(Push(VInt(Factorial(n)), Empty)) else OutOfFuel
  {
    hide Run, RECURSIVE_LAMBDA;
    RecursiveStep(e, f, n, VLamRec(RECURSIVE_LAMBDA), if n > 0 then Factorial(n - 1) else 0);
    if f > 0 && n != 0 { RecursiveBody(e, f - 1, n - 1); }
  }

  /** Executing the lambda on n leaves n! on the untouched rest of the stack as soon as the fuel
      exceeds n; no amount of fuel is enough for a negative n. */
  lemma RecursiveLambdaIsFactorial(e: Env, f: nat, n: int, s: Stack)
    ensures Run(e, f, Seq1(EXEC), Push(VInt(n), Push(VLamRec(RECURSIVE_LAMBDA), s))) ==
      if 0 <= n < f then Ok(Push(VInt(Factorial(n)), s)) else OutOfFuel
  {
    hide Run, Then, Step, Basic, RECURSIVE_LAMBDA;
    StackMachine();
    if f > 0 { RecursiveBody(e, f - 1, n); }
  }

  // ---------------------------------------------------------------- the stored lambda

  /** What `gen` stores: the recursive lambda with its unit component applied. */
  function Generated(): Value { Fixed(STORED_FACTORIAL) }

  /** A recursive lambda on pairs, applied to unit. */
  function Fixed(g: Code): Value { VLam(Do2(PUSH(VUnit), PAIR, Seq3(LAMBDA_REC(g), SWAP, EXEC))) }

  /** One step, for any recursive lambda g in the place of the factorial itself. */
  lemma StoredStep(e: Env, f: nat, n: int, g: Code, m: int)
    ensures var o := Run(e, f, STORED_FACTORIAL, Push(VPair(VUnit, VInt(n)), Push(VLamRec(g), Empty)));
      && (n == 0 ==> o == Ok(Push(VInt(1), Empty)))
      && (n != 0 && f == 0 ==> o == OutOfFuel)
      && (n != 0 && f > 0 && Michelson.Call(e, f - 1, Fixed(g), VInt(n - 1)) == Ok(Push(VInt(m), Empty)) ==>
            o == Ok(Push(VInt(n * m), Empty)))
      && (n != 0 && f > 0 && Michelson.Call(e, f - 1, Fixed(g), VInt(n - 1)) == OutOfFuel ==> o == OutOfFuel)
  {
    hide Run, Then, Step, Basic, Michelson.Call;
    StackMachine(); DataMachine();
  }

  /** The applied lambda calls the recursive one with (unit, n), one call deeper. */
  lemma FixedCalls(e: Env, f: nat, g: Code, n: int)
    ensures Michelson.Call(e, f, Fixed(g), VInt(n)) ==
      if f == 0 then OutOfFuel
      else Return(Run(e, f - 1, g, Push(VPair(VUnit, VInt(n)), Push(VLamRec(g), Empty))), Empty)
  {
    hide Run, Then, Step, Basic;
    StackMachine();
  }

  lemma {:induction false} StoredBody(e: Env, f: nat, n: int)
    ensures Run(e, f, STORED_FACTORIAL, Push(VPair(VUnit, VInt(n)), Push(VLamRec(STORED_FACTORIAL), Empty))) ==
      if 0 <= 2 * n <= f then Ok(Push(VInt(Factorial(n)), Empty)) else OutOfFuel
    decreases f
  {
    hide Run, STORED_FACTORIAL, Michelson.Call, Fixed;
    StoredStep(e, f, n, STORED_FACTORIAL, if n > 0 then Factorial(n - 1) else 0);
    if f > 0 && n != 0 {
      FixedCalls(e, f - 1, STORED_FACTORIAL, n - 1);
      if f > 1 { StoredBody(e, f - 2, n - 1); }
    }
  }

  lemma GeneratedCall(e: Env, f: nat, n: int)
    ensures Michelson.Call(e, f, Generated(), VInt(n)) ==
      if 0 <= 2 * n < f then Ok(Push(VInt(Factorial(n)), Empty)) else OutOfFuel
  {
    hide Run, STORED_FACTORIAL, Michelson.Call, Fixed;
    FixedCalls(e, f, STORED_FACTORIAL, n);
    if f > 0 { StoredBody(e, f - 1, n); }
  }

  /** The stored lambda computes n! too; applying and executing it costs two calls a step. */
  lemma GeneratedIsFactorial(e: Env, f: nat, n: int, s: Stack)
    ensures Run(e, f, Seq1(EXEC), Push(VInt(n), Push(Generated(), s))) ==
      if 0 <= 2 * n < f - 1 then Ok(Push(VInt(Factorial(n)), s)) else OutOfFuel
  {
    hide Run, Then, Step, Basic, Generated;
    StackMachine();
    if f > 0 { GeneratedCall(e, f - 1, n); }
  }

  datatype Call = Generate | Execute(n: int)

  datatype Cell = Result(v: Value) | Stored(lambda: Value)

  function EncodeCall(c: Call): Value { if c.Generate? then VLeft(VUnit) else VRight(VInt(c.n)) }

  function EncodeCell(c: Cell): Value { if c.Result? then VLeft(c.v) else VRight(c.lambda) }

  /** The outcome of a call on a cell: a new cell, or the reason of the failure. */
  datatype Effect = Becomes(cell: Cell) | Fails(why: Outcome)

  /** Whatever lambda is stored is executed and used up. */
  function Called(e: Env, f: nat, c: Cell, call: Call): (r: Effect)
    ensures r.Fails? ==> !r.why.Ok?
  {
    match call
    case Generate => Becomes(Stored(Generated()))
    case Execute(n) =>
      if c.Result? then Fails(Failed(VUnit))
      else if f == 0 then Fails(OutOfFuel)
      else
        match Return(Michelson.Call(e, f - 1, c.lambda, VInt(n)), Empty)
        case Ok(Push(v, _)) => Becomes(Result(v))
        case Ok(Empty) => Fails(Stuck)
        case o => Fails(o)
  }

  function EncodeEffect(r: Effect): Outcome {
    match r
    case Becomes(c) => Ok(Push(VPair(VList([]), EncodeCell(c)), Empty))
    case Fails(why) => why
  }

  /** The whole script, on every storage: `gen` stores the lambda, `exec` uses up whichever is stored. */
  lemma FactoryRefines(e: Env, f: nat, c: Cell, call: Call)
    ensures Run(e, f, FACTORY, Push(VPair(EncodeCall(call), EncodeCell(c)), Empty)) ==
      EncodeEffect(Called(e, f, c, call))
  {
    hide Run, Then, Step, Basic, STORED_FACTORIAL, Michelson.Call;
    StackMachine(); DataMachine();
  }

  /** The environment and the fuel of a call, and the call. */
  type Turn = (Env, nat, Call)

  function Stepped(c: Cell, d: Turn): Cell {
    match Called(d.0, d.1, c, d.2)
    case Becomes(c') => c'
    case Fails(_) => c
  }

  predicate Executes(c: Cell, d: Turn) { d.2.Execute? && Called(d.0, d.1, c, d.2).Becomes? }

  /** If a lambda is stored, it is the one `gen` stores. */
  predicate Usable(c: Cell) { c.Stored? ==> c.lambda == Generated() }

  lemma UsableStays(c: Cell, run: seq<Turn>)
    requires Usable(c)
    ensures Usable(After(Stepped, c, run))
  {
    hide Michelson.Call, Generated;
    RunInvariant(Stepped, (d: Turn) => true, Usable, c, run);
  }

  lemma ExecLeaves(c: Cell, d: Turn)
    requires Usable(c) && Executes(c, d)
    ensures d.2.n >= 0 && Stepped(c, d) == Result(VInt(Factorial(d.2.n)))
  {
    hide Michelson.Call, Generated;
    GeneratedCall(d.0, d.1 - 1, d.2.n);
  }

  /** An accepted `exec` leaves the factorial of its argument, unless it uses up a lambda of another
      origin that was stored before the run: a `gen` at any earlier point of the run rules that out. */
  lemma ExecLeavesFactorial(c: Cell, run: seq<Turn>, i: nat)
    requires i < |run| && Executes(After(Stepped, c, run[..i]), run[i])
    requires Usable(c) || exists k :: 0 <= k < i && run[k].2 == Generate
    ensures run[i].2.n >= 0 && After(Stepped, c, run[..i + 1]) == Result(VInt(Factorial(run[i].2.n)))
  {
    hide Called, Factorial;
    if Usable(c) {
      UsableStays(c, run[..i]);
    } else {
      var k :| 0 <= k < i && run[k].2 == Generate;
      GenStores(After(Stepped, c, run[..k]), run[k]);
      AfterNext(Stepped, c, run, k);
      AfterSplit(Stepped, c, run, k + 1, i);
      UsableStays(After(Stepped, c, run[..k + 1]), run[k + 1..i]);
    }
    AfterNext(Stepped, c, run, i);
    ExecLeaves(After(Stepped, c, run[..i]), run[i]);
  }

  lemma GenStores(c: Cell, d: Turn)
    requires d.2.Generate?
    ensures Stepped(c, d) == Stored(Generated())
  {}

  lemma ExecUsesUp(c: Cell, d: Turn)
    ensures Executes(c, d) ==> c.Stored? && Stepped(c, d).Result?
    ensures !d.2.Generate? && c.Result? ==> Stepped(c, d).Result?
  {}

  /** From any storage, between two accepted `exec`s of one run there is a `gen`, and so the second
      of them leaves the factorial of its argument. */
  lemma EachExecNeedsItsGen(c: Cell, run: seq<Turn>, i: nat, j: nat)
    requires i < j < |run|
    requires Executes(After(Stepped, c, run[..i]), run[i]) && Executes(After(Stepped, c, run[..j]), run[j])
    ensures exists k :: i < k < j && run[k].2 == Generate
    ensures run[j].2.n >= 0 && After(Stepped, c, run[..j + 1]) == Result(VInt(Factorial(run[j].2.n)))
  {
    hide Stepped, Executes, Factorial;
    ExecUsesUp(After(Stepped, c, run[..i]), run[i]);
    ExecUsesUp(After(Stepped, c, run[..j]), run[j]);
    AfterNext(Stepped, c, run, i);
    AfterSplit(Stepped, c, run, i + 1, j);
    var between := run[i + 1..j];
    var legal := (d: Turn) => !d.2.Generate?;
    if forall k :: 0 <= k < |between| ==> legal(between[k]) {
      forall d: Cell, t: Turn | d.Result? && legal(t) ensures Stepped(d, t).Result? { ExecUsesUp(d, t); }
      RunInvariant(Stepped, legal, (d: Cell) => d.Result?, After(Stepped, c, run[..i + 1]), between);
      assert false;
    }
    var k :| 0 <= k < |between| && !legal(between[k]);
    assert run[i + 1 + k] == between[k];
    ExecLeavesFactorial(c, run, j);
  }

  /** That condition is needed: a storage may hold another lambda, and then `exec` leaves what it makes. */
  lemma ForeignLambda(e: Env, f: nat, n: int)
    requires f > 0
    ensures var c := Stored(VLam(Done));
      !Usable(c) && Executes(c, (e, f, Execute(n))) && Stepped(c, (e, f, Execute(n))) == Result(VInt(n))
  {
    hide Run;
    Endings(e, f - 1, Push(VInt(n), Empty));
  }

  lemma Endings(e: Env, f: nat, s: Stack)
    ensures Run(e, f, Done, s) == Ok(s)
  {}

  // ---------------------------------------------------------------- reduceMap

  datatype Mapped = Images(ys: seq<Value>) | Fault(why: Outcome)

  /** The images under the lambda l, in order, or the outcome of the first call that has none. */
  function MapAll(e: Env, f: nat, l: Value, xs: seq<Value>): (m: Mapped)
    ensures m.Fault? ==> !m.why.Ok?
  {
    if xs == [] then Images([])
    else if f == 0 then Fault(OutOfFuel)
    else
      match Return(Michelson.Call(e, f - 1, l, xs[0]), Empty)
      case Ok(Push(y, _)) =>
        (match MapAll(e, f, l, xs[1..])
         case Images(ys) => Images([y] + ys)
         case fault => fault)
      case Ok(Empty) => Fault(Stuck)
      case o => Fault(o)
  }

  /** MapAll succeeds exactly when every call does, and then holds each result at its place. */
  lemma {:induction false} MapAllIsPointwise(e: Env, f: nat, l: Value, xs: seq<Value>)
    requires f > 0
    ensures MapAll(e, f, l, xs).Images? <==>
      forall i :: 0 <= i < |xs| ==> exists y :: Michelson.Call(e, f - 1, l, xs[i]) == Ok(Push(y, Empty))
    ensures MapAll(e, f, l, xs).Images? ==> |MapAll(e, f, l, xs).ys| == |xs|
    ensures MapAll(e, f, l, xs).Images? ==>
      forall i :: 0 <= i < |xs| ==> Michelson.Call(e, f - 1, l, xs[i]) == Ok(Push(MapAll(e, f, l, xs).ys[i], Empty))
  {
    hide Michelson.Call;
    if xs != [] {
      MapAllIsPointwise(e, f, l, xs[1..]);
      assert forall i :: 1 <= i < |xs| ==> xs[i] == xs[1..][i - 1];
      if MapAll(e, f, l, xs[1..]).Fault? {
        var i :| 0 <= i < |xs[1..]| && !exists y :: Michelson.Call(e, f - 1, l, xs[1..][i]) == Ok(Push(y, Empty));
        assert xs[i + 1] == xs[1..][i];
      }
    }
  }

  function Reverse(xs: seq<Value>): seq<Value> { if xs == [] then [] else Reverse(xs[1..]) + [xs[0]] }

  lemma {:induction false} ReverseAppends(xs: seq<Value>, x: Value)
    ensures Reverse(xs + [x]) == [x] + Reverse(xs)
  {
    if xs == [] {
      assert (xs + [x])[1..] == [];
    } else {
      assert (xs + [x])[1..] == xs[1..] + [x];
      ReverseAppends(xs[1..], x);
    }
  }

  lemma {:induction false} ReverseTwice(xs: seq<Value>)
    ensures Reverse(Reverse(xs)) == xs
  {
    if xs != [] {
      ReverseTwice(xs[1..]);
      ReverseAppends(Reverse(xs[1..]), xs[0]);
    }
  }

  lemma ApplyAndPushRuns(e: Env, f: nat, l: Value, x: Value, acc: seq<Value>)
    ensures Run(e, f, APPLY_AND_PUSH, Push(x, Push(VPair(l, VList(acc)), Empty))) ==
      if f == 0 then OutOfFuel
      else match Return(Michelson.Call(e, f - 1, l, x), Empty)
        case Ok(Push(y, _)) => Ok(Push(VPair(l, VList([y] + acc)), Empty))
        case Ok(Empty) => Stuck
        case o => o
  {
    hide Run, Then, Step, Basic, Michelson.Call;
    StackMachine(); DataMachine();
  }

  lemma {:induction false} FirstLoop(e: Env, f: nat, l: Value, xs: seq<Value>, acc: seq<Value>)
    ensures Iter(e, f, APPLY_AND_PUSH, xs, Push(VPair(l, VList(acc)), Empty)) ==
      var m := MapAll(e, f, l, xs);
      if m.Fault? then m.why else Ok(Push(VPair(l, VList(Reverse(m.ys) + acc)), Empty))
    decreases |xs|
  {
    hide Run, Then, Step, Basic, Michelson.Call, APPLY_AND_PUSH;
    assert [] + acc == acc;
    if xs != [] {
      IterCons(e, f, APPLY_AND_PUSH, xs, Push(VPair(l, VList(acc)), Empty));
      ApplyAndPushRuns(e, f, l, xs[0], acc);
      if f > 0 {
        match Return(Michelson.Call(e, f - 1, l, xs[0]), Empty)
        case Ok(Push(y, _)) =>
          FirstLoop(e, f, l, xs[1..], [y] + acc);
          var m := MapAll(e, f, l, xs[1..]);
          if m.Images? {
            assert ([y] + m.ys)[1..] == m.ys;
            assert Reverse(m.ys) + ([y] + acc) == Reverse([y] + m.ys) + acc;
          }
        case _ =>
      }
    }
  }

  lemma {:induction false} SecondLoop(e: Env, f: nat, xs: seq<Value>, acc: seq<Value>)
    ensures Iter(e, f, Seq1(CONS), xs, Push(VList(acc), Empty)) == Ok(Push(VList(Reverse(xs) + acc), Empty))
    decreases |xs|
  {
    hide Run, Then, Step, Basic;
    StackMachine();
    assert [] + acc == acc;
    if xs != [] {
      IterCons(e, f, Seq1(CONS), xs, Push(VList(acc), Empty));
      SecondLoop(e, f, xs[1..], [xs[0]] + acc);
      assert Reverse(xs[1..]) + ([xs[0]] + acc) == Reverse(xs) + acc;
    }
  }

  /** The two reductions together are a map: for every lambda, list and fuel the script stores the
      images in order, or fails as the first failing call does. */
  lemma ReduceMapMaps(e: Env, f: nat, l: Value, xs: seq<Value>, was: Value)
    ensures Run(e, f, REDUCE_MAP, Push(VPair(VPair(l, VList(xs)), was), Empty)) ==
      var m := MapAll(e, f, l, xs);
      if m.Fault? then m.why else Ok(Push(VPair(VList([]), VList(m.ys)), Empty))
  {
    hide Run, Then, Step, Basic, APPLY_AND_PUSH;
    StackMachine();
    FirstLoop(e, f, l, xs, []);
    var m := MapAll(e, f, l, xs);
    if m.Images? {
      assert Reverse(m.ys) + [] == Reverse(m.ys);
      SecondLoop(e, f, Reverse(m.ys), []);
      ReverseTwice(m.ys);
      assert m.ys + [] == m.ys;
    }
  }

  /** For every terminating lambda, the calls however long: if each element has its image with some
      fuel of its own, then from some fuel on the script stores exactly the images, in order. */
  lemma ReduceMapTerminates(e: Env, l: Value, xs: seq<Value>, ys: seq<Value>, was: Value, fuels: seq<nat>)
      returns (enough: nat)
    requires |ys| == |xs| == |fuels|
    requires forall i :: 0 <= i < |xs| ==> Michelson.Call(e, fuels[i], l, xs[i]) == Ok(Push(ys[i], Empty))
    ensures forall f: nat :: f >= enough ==>
      Run(e, f, REDUCE_MAP, Push(VPair(VPair(l, VList(xs)), was), Empty)) ==
        Ok(Push(VPair(VList([]), VList(ys)), Empty))
  {
    hide Run, Michelson.Call, REDUCE_MAP;
    var most := Most(fuels);
    MostIsMost(fuels);
    enough := most + 1;
    forall i | 0 <= i < |xs| ensures Michelson.Call(e, most, l, xs[i]) == Ok(Push(ys[i], Empty)) {
      CallSettles(e, fuels[i], most, l, xs[i]);
    }
    MapAllIsPointwise(e, enough, l, xs);
    var m := MapAll(e, enough, l, xs);
    assert m.Images? && m.ys == ys by {
      forall i | 0 <= i < |xs| ensures exists y :: Michelson.Call(e, most, l, xs[i]) == Ok(Push(y, Empty)) {
        assert Michelson.Call(e, most, l, xs[i]) == Ok(Push(ys[i], Empty));
      }
    }
    ReduceMapMaps(e, enough, l, xs, was);
    forall f: nat | f >= enough ensures
      Run(e, f, REDUCE_MAP, Push(VPair(VPair(l, VList(xs)), was), Empty)) ==
        Ok(Push(VPair(VList([]), VList(ys)), Empty))
    {
      MoreFuelSameResult(e, enough, f, REDUCE_MAP, Push(VPair(VPair(l, VList(xs)), was), Empty));
    }
  }

  lemma {:induction false} MostIsMost(fuels: seq<nat>)
    ensures forall i :: 0 <= i < |fuels| ==> fuels[i] <= Most(fuels)
  {
    if fuels != [] {
      MostIsMost(fuels[1..]);
      assert forall i :: 1 <= i < |fuels| ==> fuels[i] == fuels[1..][i - 1];
    }
  }

  function Most(fuels: seq<nat>): nat {
    if fuels == [] then 0 else if fuels[0] < Most(fuels[1..]) then Most(fuels[1..]) else fuels[0]
  }
}
