/** What every run of the deposit pool keeps. Interest is credited but funded by nobody, so the
    stored claims drift away from the liquidity by an exact amount. */
module PoolRuns {
  import opened Michelson
  import opened Contracts
  import opened Deposit
  import opened Sums
  import opened Runs

  /** The pool and the contract's tez balance; transfers are debited in the step that emits them. */
  datatype Bank = Bank(pool: Pool, balance: int)

  type Step = (Env, Call)

  function Stepped(b: Bank, c: Step): Bank {
    match Called(c.0, b.pool, c.1)
    case Accepted(p, paid) => Bank(p, b.balance + c.0.amount - paid)
    case Refused(_) => b
  }

  predicate Accepts(b: Bank, c: Step) { Called(c.0, b.pool, c.1).Accepted? }

  function TezOf(a: Account, d: Entry): int { d.tez }

  /** What the pool has promised beyond the tez it has set aside. */
  ghost function Gap(b: Bank): int { Sum(b.pool.deposits, TezOf) - b.pool.liquidity }

  /** How far the balance is ahead of the liquidity. */
  function Lead(b: Bank): int { b.balance - b.pool.liquidity }

  /** The caller's entry has waited long enough to earn interest. */
  predicate EarnsInterest(e: Env, p: Pool) {
    e.sender in p.deposits && e.now - p.deposits[e.sender].since >= 100
  }

  function Earning(b: Bank, c: Step): int { if Accepts(b, c) && EarnsInterest(c.0, b.pool) then 1000000 else 0 }

  /** Tez attached to an accepted withdrawal: the pool keeps them without recording them. */
  function Unrecorded(b: Bank, c: Step): int { if Accepts(b, c) && c.1.Withdraw? then c.0.amount else 0 }

  // ---------------------------------------------------------------- what each call asks and does

  /** What an account has in the pool now, interest included: one tez for an entry of 100 seconds. */
  function Due(e: Env, p: Pool, a: Account): nat {
    if a !in p.deposits then 0
    else if e.now < p.deposits[a].since + 100 then p.deposits[a].tez
    else p.deposits[a].tez + 1000000
  }

  /** A deposit needs tez, and sums below 2 to the power 63. The caller's entry is worth what it was
      worth with interest plus the tez attached, and starts anew; the liquidity gets the tez alone. */
  lemma DepositAcceptedIff(e: Env, p: Pool, a: Account)
    ensures var r := Called(e, p, Call.Deposit);
      && (r.Accepted? <==>
            && e.amount > 0 && Due(e, p, e.sender) + e.amount < 0x8000_0000_0000_0000
            && p.liquidity + e.amount < 0x8000_0000_0000_0000)
      && (r.Accepted? ==>
            && r.ops == 0 && r.storage.liquidity == p.liquidity + e.amount
            && r.storage.deposits.Keys == p.deposits.Keys + {e.sender}
            && r.storage.deposits[e.sender] == Entry(e.now, Due(e, p, e.sender) + e.amount)
            && (a in p.deposits && a != e.sender ==> r.storage.deposits[a] == p.deposits[a]))
  {}

  /** A withdrawal needs an entry whose worth is a mutez amount and within the liquidity, and an
      address that can be paid. It pays that worth, takes it off the liquidity, and removes the entry. */
  lemma WithdrawAcceptedIff(e: Env, p: Pool, a: Account)
    ensures var r := Called(e, p, Withdraw); var due := Due(e, p, e.sender);
      && (r.Accepted? <==>
            && e.sender in p.deposits && due < 0x8000_0000_0000_0000 && due <= p.liquidity
            && e.entrypoints(e.sender, ""))
      && (r.Accepted? ==>
            && r.ops == due && r.storage.liquidity == p.liquidity - due
            && r.storage.deposits.Keys == p.deposits.Keys - {e.sender}
            && (a in p.deposits && a != e.sender ==> r.storage.deposits[a] == p.deposits[a]))
  {}

  // ---------------------------------------------------------------- the gap

  lemma StepGap(b: Bank, c: Step)
    ensures Gap(Stepped(b, c)) == Gap(b) + Earning(b, c)
    ensures Lead(Stepped(b, c)) == Lead(b) + Unrecorded(b, c)
  {
    var e, p := c.0, b.pool;
    match Called(e, p, c.1)
    case Refused(_) =>
    case Accepted(p', paid) =>
      if c.1.Deposit? { SumPut(p.deposits, TezOf, e.sender, p'.deposits[e.sender]); }
      else { SumRemove(p.deposits, TezOf, e.sender); }
  }

  /** Every interest payment widens the gap by exactly one tez, and nothing else moves it; the
      balance stays ahead of the liquidity by its initial lead plus the unrecorded tez. */
  lemma GapIsExact(b: Bank, run: seq<Step>)
    ensures var b' := After(Stepped, b, run);
      && Gap(b') == Gap(b) + Total(Stepped, Earning, b, run)
      && Lead(b') == Lead(b) + Total(Stepped, Unrecorded, b, run)
      && Lead(b') >= Lead(b)
  {
    hide Stepped, Gap, Lead, Earning, Accepts;
    var any, all := (c: Step) => true, (d: Bank) => true;
    forall d, c
      ensures Gap(Stepped(d, c)) == Gap(d) + Earning(d, c) && Lead(Stepped(d, c)) == Lead(d) + Unrecorded(d, c) {
      StepGap(d, c);
    }
    RunKeeps(Stepped, any, all, Gap, Earning, b, run);
    RunKeeps(Stepped, any, all, Lead, Unrecorded, b, run);
    TotalIsNat(Stepped, Unrecorded, b, run);
  }

  /** A pool that starts with its liquidity in its balance can always make the transfer it emits. */
  lemma EveryPayoutIsCovered(b: Bank, run: seq<Step>, c: Step)
    requires Lead(b) >= 0 && Accepts(After(Stepped, b, run), c)
    ensures Called(c.0, After(Stepped, b, run).pool, c.1).ops <= After(Stepped, b, run).balance
  {
    GapIsExact(b, run);
  }

  /** A depositor is turned away for want of tez exactly when the gap, together with the interest
      due now, is more than all the others have in the pool. */
  lemma WithdrawalIsShort(e: Env, b: Bank)
    ensures Called(e, b.pool, Withdraw) == Refused(Failed(VStr("No tez to withdraw!"))) <==>
      && e.sender in b.pool.deposits && Due(e, b.pool, e.sender) < 0x8000_0000_0000_0000
      && Gap(b) + (if EarnsInterest(e, b.pool) then 1000000 else 0) > Sum(b.pool.deposits - {e.sender}, TezOf)
  {
    if e.sender in b.pool.deposits { SumRemove(b.pool.deposits, TezOf, e.sender); }
  }

  /** The storage the pool is originated with: it owes five tez and has none. */
  const ORIGINATED: Pool := Pool(map["tz1bwsEWCwSEXdRvnJxvegQZKeX5dj6oKEys" := Entry(1572022854, 5000000)], 0)

  /** From that storage the gap never closes: whatever is called, some entry is left, and whoever
      withdraws while the others have less than five tez in the pool is turned away. The depositor
      it starts with is turned away at once. */
  lemma OriginatedIsShort(balance: int, run: seq<Step>, e: Env)
    ensures var b := After(Stepped, Bank(ORIGINATED, balance), run);
      Gap(b) >= 5000000 && b.pool.deposits != map[]
    ensures var p := After(Stepped, Bank(ORIGINATED, balance), run).pool;
      e.sender in p.deposits && Due(e, p, e.sender) < 0x8000_0000_0000_0000
        && Sum(p.deposits - {e.sender}, TezOf) < 5000000 ==>
        Called(e, p, Withdraw) == Refused(Failed(VStr("No tez to withdraw!")))
    ensures e.sender in ORIGINATED.deposits ==>
      Called(e, ORIGINATED, Withdraw) == Refused(Failed(VStr("No tez to withdraw!")))
  {
    var start := Bank(ORIGINATED, balance);
    SumRemove(ORIGINATED.deposits, TezOf, "tz1bwsEWCwSEXdRvnJxvegQZKeX5dj6oKEys");
    GapIsExact(start, run);
    TotalIsNat(Stepped, Earning, start, run);
    WithdrawalIsShort(e, After(Stepped, start, run));
  }

  /** A pool with one depositor of five tez, all of it still there, turns the depositor away from the
      hundredth second on; one more tez of somebody else lets the withdrawal through. */
  lemma LoneDepositor(e: Env)
    requires e.sender == "alice" && e.now == 100 && e.entrypoints("alice", "")
    ensures Called(e, Pool(map["alice" := Entry(0, 5000000)], 5000000), Withdraw) ==
      Refused(Failed(VStr("No tez to withdraw!")))
    ensures Called(e.(now := 99), Pool(map["alice" := Entry(0, 5000000)], 5000000), Withdraw) ==
      Accepted(Pool(map[], 0), 5000000)
    ensures Called(e, Pool(map["alice" := Entry(0, 5000000), "bob" := Entry(0, 1000000)], 6000000), Withdraw) ==
      Accepted(Pool(map["bob" := Entry(0, 1000000)], 0), 6000000)
  {
    assert map["alice" := Entry(0, 5000000)] - {"alice"} == map[];
    assert map["alice" := Entry(0, 5000000), "bob" := Entry(0, 1000000)] - {"alice"} == map["bob" := Entry(0, 1000000)];
  }

  /** The assertion after SUB_MUTEZ never fails: no call on any pool ends with its failure value. */
  lemma AssertionNeverFails(e: Env, f: nat, p: Pool, call: Call)
    requires f >= 2
    ensures Run(e, f, POOL, Push(VPair(EncodeCall(call), EncodePool(p)), Empty)) != Failed(VUnit)
  {
    hide Run, POOL, EncodeCall, EncodePool;
    PoolRefines(e, f, p, call);
  }
}
