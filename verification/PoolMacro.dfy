/** The pool's script as it is written, with the ASSERT_SOME macro: what it expands to is the script
    that spells the assertion out. */
module PoolMacro {
  import opened Michelson
  import opened Chains
  import opened Macros
  import Deposit

  // ---------------------------------------------------------------- programs around one macro

  /** Code in front of code. */
  function Joined(c: Code, d: Code): Code { if c.Done? then d else Do(c.first, Joined(c.next, d)) }

  /** Code without macros in front of a program. */
  function Before(c: Code, p: Program): Program { if c.Done? then p else Next(Plain(c.first), Before(c.next, p)) }

  lemma {:induction false} BeforeExpands(c: Code, p: Program)
    ensures Expand(Before(c, p)) == Joined(c, Expand(p))
  {
    if c.Do? { BeforeExpands(c.next, p); }
  }

  lemma JoinRules()
    ensures forall d {:trigger Joined(Done, d)} :: Joined(Done, d) == d
    ensures forall i, c, d {:trigger Joined(Do(i, c), d)} :: Joined(Do(i, c), d) == Do(i, Joined(c, d))
    ensures forall n: nat, c, d {:trigger Joined(Fetch(n, c), d)} :: Joined(Fetch(n, c), d) == Fetch(n, Joined(c, d))
    ensures forall n: nat, c, d {:trigger Joined(Poke(n, c), d)} :: Joined(Poke(n, c), d) == Poke(n, Joined(c, d))
    ensures forall c, p {:trigger Expand(Before(c, p))} :: Expand(Before(c, p)) == Joined(c, Expand(p))
  {
    forall c, p { BeforeExpands(c, p); }
  }

  // ---------------------------------------------------------------- the script

  const PAY_AMOUNT: Program :=
    Before(Seq3(CDR, DIP(Fetch(1, Done)), SUB_MUTEZ),
      Next(ASSERT_SOME, Before(Do3(DIP(Fetch(6, Seq1(CAR))), SWAP, PAIR, Deposit.PAY_STORE), End)))

  const PAY_OUT: Program :=
    Before(Fetch(5, Do(CAR, Fetch(5, Do7(DIP(Seq2(DUP, NONE)), UPDATE, SWAP, DROP, DUP, DIP(Fetch(6, Seq1(CDR))), PAIR,
      Poke(6, Done))))), PAY_AMOUNT)

  const CLAIM: Program :=
    Before(Do4(DUP, CAR, NOW, SUB, Fetch(1, Seq7(CDR, DIP(Seq3(DUP, DIP(Fetch(5, Done)), EXEC)), ADD, DUP,
      DIP(Fetch(5, Seq1(CDR))), COMPARE, GT))),
      Next(If(Before(Seq2(PUSH(VStr("No tez to withdraw!")), FAILWITH), End), PAY_OUT),
        Before(Deposit.RETURN_WITHDRAWAL, End)))

  const WITHDRAW: Program :=
    Before(Do8(DUP, CDR, SWAP, CAR, DIP(Do4(DUP, CDR, SWAP, CAR, Fetch(1, Done))), SWAP, PUSH(VBool(false)), EXEC,
      Seq6(DUP, NIL, SWAP, DIP(Fetch(2, Seq1(CAR))), GET,
        IF_NONE(Seq2(PUSH(VStr("GET_FORCE")), FAILWITH), Done))), CLAIM)

  const POOL: Program :=
    Before(Do8(NIL, DUP, LAMBDA(Deposit.ADDRESS_OF), DUP, DIP(Seq1(PAIR)), SWAP, LAMBDA(Deposit.INTEREST), DUP,
      Seq6(DIP(Seq1(PAIR)), SWAP, LAMBDA(Deposit.DEPOSIT), PAIR,
        DIP(Seq4(DIP(Seq1(DUP)), DUP, DIP(Seq1(PAIR)), SWAP)), SWAP)),
      Next(Lambda(WITHDRAW), Before(Do(PAIR, Fetch(5, Do(CAR, Fetch(6, Do(CDR, Fetch(1, Deposit.DISPATCH)))))), End)))

  lemma {:induction false} JoinedDone(c: Code)
    ensures Joined(c, Done) == c
  {
    if c.Do? { JoinedDone(c.next); }
  }

  lemma WithdrawExpands()
    ensures Expand(WITHDRAW) == Deposit.WITHDRAW
  {
    hide Joined, Before, Expand, Fetch, Poke, Deposit.PAY_STORE, Deposit.RETURN_WITHDRAWAL;
    JoinRules(); ExpandRules();
    JoinedDone(Deposit.PAY_STORE);
    JoinedDone(Deposit.RETURN_WITHDRAWAL);
  }

  /** The two copies of the pool in the repository are one: expanding the macro in the first gives
      the second, instruction by instruction. */
  lemma PoolExpands()
    ensures Expand(POOL) == Deposit.POOL
  {
    hide Joined, Before, Expand, Fetch, Poke, WITHDRAW, Deposit.WITHDRAW, Deposit.DISPATCH, Deposit.DEPOSIT,
      Deposit.INTEREST, Deposit.ADDRESS_OF;
    JoinRules(); ExpandRules();
    JoinedDone(Deposit.DISPATCH);
    WithdrawExpands();
  }

  /** The lambda around the macro, by the direct meaning of its own phrases: called on the pool, as
      the script calls it, it computes the specification of withdraw. */
  lemma WithdrawMeans(e: Env, f: nat, p: Deposit.Pool)
    requires f > 0
    ensures var arg := VPair(Deposit.EncodePool(p), VPair(VLam(Deposit.INTEREST), VLam(Deposit.ADDRESS_OF)));
      && Means(e, f, WITHDRAW, Push(arg, Empty)) == Deposit.EncodeResult(e, Deposit.Withdraw, Deposit.Withdrawn(e, p))
      && Michelson.Call(e, f, VLam(Expand(WITHDRAW)), arg) == Means(e, f, WITHDRAW, Push(arg, Empty))
  {
    hide Run, Means, Expand, WITHDRAW, Deposit.WITHDRAW, Deposit.EncodeResult, Deposit.EncodePool;
    WithdrawExpands();
    LambdaMeans(e, f, WITHDRAW, VPair(Deposit.EncodePool(p), VPair(VLam(Deposit.INTEREST), VLam(Deposit.ADDRESS_OF))));
    Deposit.WithdrawRuns(e, f, p);
  }

  /** So the macro form computes the pool's specification as well. */
  lemma PoolMeans(e: Env, f: nat, p: Deposit.Pool, call: Deposit.Call)
    requires f >= 2
    ensures Means(e, f, POOL, Push(VPair(Deposit.EncodeCall(call), Deposit.EncodePool(p)), Empty)) ==
      Deposit.EncodeResult(e, call, Deposit.Called(e, p, call))
  {
    hide Run, Means, POOL, Deposit.POOL, Deposit.EncodeResult, Deposit.EncodePool;
    PoolExpands();
    ExpansionKeepsMeaning(e, f, POOL, Push(VPair(Deposit.EncodeCall(call), Deposit.EncodePool(p)), Empty));
    Deposit.PoolRefines(e, f, p, call);
  }
}
