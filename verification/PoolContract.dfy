/** The deposit pool as the contract works: the caller's entry and the liquidity, overwritten in place. */
module PoolContract {
  import opened Michelson
  import opened Contracts
  import opened Deposit
  import opened Runs
  import PoolRuns

  type Reply = Contracts.Reply<nat>

  class DepositPool {
    var deposits: map<Account, Entry>
    var liquidity: nat

    function State(): (p: Pool)
      reads this
    {
      Pool(deposits, liquidity)
    }

    constructor (p: Pool)
      ensures State() == p
    {
      deposits, liquidity := p.deposits, p.liquidity;
    }

    method Deposit(e: Env) returns (reply: Reply)
      modifies this
      ensures Follows(old(State()), Deposited(e, old(State())), State(), reply)
    {
      if e.amount == 0 { return Failing("No tez transferred!"); }
      var claim := e.amount;
      if e.sender in deposits {
        var d := deposits[e.sender];
        claim := claim + d.tez;
        if e.now - d.since >= 100 { claim := claim + 1000000; }
      }
      if claim > MAX_MUTEZ || liquidity + e.amount > MAX_MUTEZ { return Reverted(Overflow); }
      deposits := deposits[e.sender := Entry(e.now, claim)];
      liquidity := liquidity + e.amount;
      return Emitted(0);
    }

    method Withdraw(e: Env) returns (reply: Reply)
      modifies this
      ensures Follows(old(State()), Withdrawn(e, old(State())), State(), reply)
    {
      if e.sender !in deposits { return Failing("GET_FORCE"); }
      var d := deposits[e.sender];
      var claim := d.tez;
      if e.now - d.since >= 100 { claim := claim + 1000000; }
      if claim > MAX_MUTEZ { return Reverted(Overflow); }
      if claim > liquidity { return Failing("No tez to withdraw!"); }
      if !e.entrypoints(e.sender, "") { return Failing("bad address for get_contract"); }
      deposits := deposits - {e.sender};
      liquidity := liquidity - claim;
      return Emitted(claim);
    }

    /** A whole run of calls; `balance` follows the tez attached and paid out. */
    method Serve(run: seq<PoolRuns.Step>, before: int) returns (balance: int)
      modifies this
      ensures PoolRuns.Bank(State(), balance) == After(PoolRuns.Stepped, PoolRuns.Bank(old(State()), before), run)
      ensures balance - liquidity >= before - old(liquidity)
    {
      balance := before;
      ghost var start := PoolRuns.Bank(State(), before);
      for i := 0 to |run|
        invariant After(PoolRuns.Stepped, start, run) ==
          After(PoolRuns.Stepped, PoolRuns.Bank(State(), balance), run[i..])
      {
        AfterRest(PoolRuns.Stepped, PoolRuns.Bank(State(), balance), run, i);
        var (e, call) := run[i];
        var reply;
        if call.Deposit? { reply := Deposit(e); } else { reply := Withdraw(e); }
        if reply.Emitted? { balance := balance + e.amount - reply.ops; }
      }
      PoolRuns.GapIsExact(start, run);
    }
  }
}
