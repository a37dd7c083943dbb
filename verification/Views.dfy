/** On-chain views that call themselves and each other. */
module Views {
  import opened Michelson
  import opened Rules

  const FIB_SECOND: Code :=
    Do8(SWAP, PUSH(VInt(2)), SWAP, SUB, ABS, SELF_ADDRESS, SWAP, VIEW("fib"),
    Seq1(BLOCK(Seq1(IF_NONE(Seq1(BLOCK(Seq2(UNIT, FAILWITH))), Seq1(ADD))))))

  const FIB_CALLS: Code :=
    Do8(DUP, PUSH(VInt(1)), SWAP, SUB, ABS, SELF_ADDRESS, SWAP, VIEW("fib"),
    Seq1(BLOCK(Seq1(IF_NONE(Seq1(BLOCK(Seq2(UNIT, FAILWITH))), FIB_SECOND)))))

  const FIB: Code :=
    Seq6(CAR, DUP, PUSH(VInt(0)), COMPARE, EQ, IF(Done, Seq5(DUP, PUSH(VInt(1)), COMPARE, EQ, IF(Done, FIB_CALLS))))

  const IS_TWENTY: Code :=
    Seq7(CAR, DUP, CAR, PUSH(VInt(20)), COMPARE, EQ, IF(Seq1(CAR), Seq5(DUP, CDR, SWAP, VIEW("succ"),
    BLOCK(Seq1(IF_NONE(Seq1(BLOCK(Seq2(UNIT, FAILWITH))), Done))))))

  const SUCC: Code :=
    Do8(CAR, UNPAIR, PUSH(VInt(1)), ADD, PAIR, DUP, CDR, SWAP, Seq2(VIEW("is_twenty"),
    BLOCK(Seq1(IF_NONE(Seq1(BLOCK(Seq2(UNIT, FAILWITH))), Done)))))

  lemma ViewRules()
    ensures forall e, f: nat, n, t, a, x, s {:trigger Run(e, f, Do(VIEW(t), n), Push(a, Push(VAddr(x), s)))} ::
      HasView(e, x, t) && f > 0 ==>
        Run(e, f, Do(VIEW(t), n), Push(a, Push(VAddr(x), s))) ==
          Then(e, f, ReturnSome(CallView(e, f - 1, x, t, a), s), n)
    ensures forall e, n, t, a, x, s {:trigger Run(e, 0, Do(VIEW(t), n), Push(a, Push(VAddr(x), s)))} ::
      HasView(e, x, t) ==> Run(e, 0, Do(VIEW(t), n), Push(a, Push(VAddr(x), s))) == OutOfFuel
    ensures forall e, f: nat, n, t, a, x, s {:trigger Run(e, f, Do(VIEW(t), n), Push(a, Push(VAddr(x), s)))} ::
      !HasView(e, x, t) ==> Run(e, f, Do(VIEW(t), n), Push(a, Push(VAddr(x), s))) == Run(e, f, n, Push(VNone, s))
    ensures forall e, f: nat, n, a, s {:trigger Then(e, f, ReturnSome(Ok(Push(a, Empty)), s), n)} ::
      Then(e, f, ReturnSome(Ok(Push(a, Empty)), s), n) == Run(e, f, n, Push(VSome(a), s))
  {
    hide Run;
    forall e, f: nat, n, t, a, x, s { ViewStep(e, f, n, t, a, x, s); }
  }

  lemma ViewStep(e: Env, f: nat, n: Code, t: string, a: Value, x: Account, s: Stack)
    ensures Run(e, f, Do(VIEW(t), n), Push(a, Push(VAddr(x), s))) ==
      if !HasView(e, x, t) then Run(e, f, n, Push(VNone, s))
      else if f == 0 then OutOfFuel
      else Then(e, f, ReturnSome(CallView(e, f - 1, x, t, a), s), n)
  {}

  function Fibonacci(n: nat): nat { if n <= 1 then n else Fibonacci(n - 1) + Fibonacci(n - 2) }

  /** The contract with these views is deployed at `at`. */
  predicate HasViews(e: Env, at: Account) {
    && HasView(e, at, "fib") && e.world[at].views["fib"] == FIB
    && HasView(e, at, "succ") && e.world[at].views["succ"] == SUCC
    && HasView(e, at, "is_twenty") && e.world[at].views["is_twenty"] == IS_TWENTY
  }

  lemma FibGuards(e: Env, f: nat, n: nat, storage: Value)
    ensures Run(e, f, FIB, Push(VPair(VInt(n), storage), Empty)) ==
      if n <= 1 then Ok(Push(VInt(n), Empty))
      else Run(e, f, FIB_CALLS, Push(VInt(n), Empty))
  {
    hide Run, Then, Step, Basic, FIB_CALLS;
    StackMachine(); DataMachine();
    var o := Run(e, f, FIB_CALLS, Push(VInt(n), Empty));
    assert o.Ok? ==> o == Ok(o.stack);
  }

  lemma FibSecond(e: Env, f: nat, n: nat, a: int, b: int)
    requires HasView(e, e.self, "fib") && f > 0 && n > 1
    ensures var o := Run(e, f, FIB_SECOND, Push(VInt(a), Push(VInt(n), Empty)));
      var y := CallView(e, f - 1, e.self, "fib", VInt(n - 2));
      && (y == OutOfFuel ==> o == OutOfFuel)
      && (y == Ok(Push(VInt(b), Empty)) ==> o == Ok(Push(VInt(b + a), Empty)))
  {
    hide Run, Then, Step, Basic, CallView;
    StackMachine(); DataMachine(); WorldMachine(); ViewRules();
  }

  /** The view's code above 1, in terms of what its two recursive calls answer. */
  lemma FibCalls(e: Env, f: nat, n: nat, a: int, b: int)
    requires HasView(e, e.self, "fib") && n > 1
    ensures var o := Run(e, f, FIB_CALLS, Push(VInt(n), Empty));
      if f == 0 then o == OutOfFuel
      else
        var x := CallView(e, f - 1, e.self, "fib", VInt(n - 1));
        var y := CallView(e, f - 1, e.self, "fib", VInt(n - 2));
        && (x == OutOfFuel ==> o == OutOfFuel)
        && (x == Ok(Push(VInt(a), Empty)) && y == OutOfFuel ==> o == OutOfFuel)
        && (x == Ok(Push(VInt(a), Empty)) && y == Ok(Push(VInt(b), Empty)) ==> o == Ok(Push(VInt(b + a), Empty)))
  {
    hide Run, Then, Step, Basic, CallView, FIB_SECOND;
    StackMachine(); DataMachine(); WorldMachine(); ViewRules();
    if f > 0 { FibSecond(e, f, n, a, b); }
  }

  lemma {:induction false} FibBody(e: Env, f: nat, n: nat, storage: Value)
    requires HasViews(e, e.self)
    ensures Run(e, f, FIB, Push(VPair(VInt(n), storage), Empty)) ==
      if n <= f + 1 then Ok(Push(VInt(Fibonacci(n)), Empty)) else OutOfFuel
    decreases f
  {
    hide Run, FIB, SUCC, IS_TWENTY, FIB_CALLS;
    FibGuards(e, f, n, storage);
    if n > 1 {
      FibCalls(e, f, n, Fibonacci(n - 1), Fibonacci(n - 2));
      if f > 0 {
        var d := e.(sender := e.self, amount := 0);
        FibBody(d, f - 1, n - 1, e.world[e.self].storage);
        FibBody(d, f - 1, n - 2, e.world[e.self].storage);
      }
    }
  }

  /** Whoever calls the view gets the n-th Fibonacci number once the fuel reaches max(1, n). */
  lemma FibViewIsFibonacci(e: Env, f: nat, n: nat, at: Account, s: Stack)
    requires HasViews(e, at)
    ensures Run(e, f, Seq1(VIEW("fib")), Push(VInt(n), Push(VAddr(at), s))) ==
      if f > 0 && n <= f then Ok(Push(VSome(VInt(Fibonacci(n))), s)) else OutOfFuel
  {
    hide Run, Then, Step, Basic, FIB, SUCC, IS_TWENTY;
    StackMachine(); ViewRules();
    if f > 0 { FibBody(e.(self := at, sender := e.self, amount := 0), f - 1, n, e.world[at].storage); }
  }

  // ---------------------------------------------------------------- is_twenty and succ

  lemma SuccStep(e: Env, f: nat, n: nat, at: Account, storage: Value)
    requires HasViews(e, at)
    ensures var o := Run(e, f, SUCC, Push(VPair(VPair(VInt(n), VAddr(at)), storage), Empty));
      var d := e.(self := at, sender := e.self, amount := 0);
      if f == 0 then o == OutOfFuel
      else var r := Run(d, f - 1, IS_TWENTY, Push(VPair(VPair(VInt(n + 1), VAddr(at)), e.world[at].storage), Empty));
        && (r.OutOfFuel? ==> o == OutOfFuel)
        && (r == Ok(Push(VInt(20), Empty)) ==> o == Ok(Push(VInt(20), Empty)))
  {
    hide Run, Then, Step, Basic, IS_TWENTY, FIB;
    StackMachine(); DataMachine(); ViewRules();
  }

  lemma IsTwentyStep(e: Env, f: nat, n: nat, at: Account, storage: Value)
    requires HasViews(e, at)
    ensures var o := Run(e, f, IS_TWENTY, Push(VPair(VPair(VInt(n), VAddr(at)), storage), Empty));
      var d := e.(self := at, sender := e.self, amount := 0);
      if n == 20 then o == Ok(Push(VInt(20), Empty))
      else if f == 0 then o == OutOfFuel
      else var r := Run(d, f - 1, SUCC, Push(VPair(VPair(VInt(n), VAddr(at)), e.world[at].storage), Empty));
        && (r.OutOfFuel? ==> o == OutOfFuel)
        && (r == Ok(Push(VInt(20), Empty)) ==> o == Ok(Push(VInt(20), Empty)))
  {
    hide Run, Then, Step, Basic, SUCC, FIB;
    StackMachine(); DataMachine(); ViewRules();
  }

  /** The two views call each other 20 - n times each and answer 20; above 20 they never stop. */
  lemma {:induction false} IsTwentyBody(e: Env, f: nat, n: nat, at: Account, storage: Value)
    requires HasViews(e, at)
    ensures Run(e, f, IS_TWENTY, Push(VPair(VPair(VInt(n), VAddr(at)), storage), Empty)) ==
      if n <= 20 && 2 * (20 - n) <= f then Ok(Push(VInt(20), Empty)) else OutOfFuel
    decreases f
  {
    hide Run, FIB, SUCC, IS_TWENTY;
    IsTwentyStep(e, f, n, at, storage);
    if n != 20 && f > 0 {
      var d := e.(self := at, sender := e.self, amount := 0);
      SuccStep(d, f - 1, n, at, e.world[at].storage);
      if f > 1 { IsTwentyBody(d.(sender := at), f - 2, n + 1, at, e.world[at].storage); }
    }
  }

  lemma IsTwentyView(e: Env, f: nat, n: nat, at: Account, s: Stack)
    requires HasViews(e, at)
    ensures Run(e, f, Seq1(VIEW("is_twenty")), Push(VPair(VInt(n), VAddr(at)), Push(VAddr(at), s))) ==
      if n <= 20 && 2 * (20 - n) < f then Ok(Push(VSome(VInt(20)), s)) else OutOfFuel
  {
    hide Run, Then, Step, Basic, FIB, SUCC, IS_TWENTY;
    StackMachine(); ViewRules();
    if f > 0 { IsTwentyBody(e.(self := at, sender := e.self, amount := 0), f - 1, n, at, e.world[at].storage); }
  }
}
