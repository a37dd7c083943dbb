/** Tickets are neither made nor lost by the wallet, over every run. */
module TicketWalletRuns {
  import opened Michelson
  import opened Contracts
  import opened TicketWallet
  import opened Runs

  type Step = (Env, Call)

  function Stepped(s: Storage, c: Step): Storage {
    Next(s, Called(c.0, s, c.1))
  }

  /** Every coin lies under its own ticketer. */
  predicate Sorted(s: Storage) {
    forall t | t in s.coins :: s.coins[t].ticketer == t
  }

  function Held(s: Storage, t: Account): int { if t in s.coins then s.coins[t].amount else 0 }

  function Amount(coins: seq<Coin>, t: Account): int {
    if coins == [] then 0 else (if coins[0].ticketer == t then coins[0].amount else 0) + Amount(coins[1..], t)
  }

  /** What comes in with an accepted call minus what goes out, of one ticketer's tickets. */
  function Net(t: Account): (Storage, Step) -> int {
    (s: Storage, c: Step) =>
      match Called(c.0, s, c.1)
      case Refused(_) => 0
      case Accepted(_, sent) => Amount(if c.1.Receive? then [c.1.coin] else [], t) - Amount(sent, t)
  }

  lemma StepConserves(s: Storage, c: Step, t: Account)
    requires Sorted(s)
    ensures Sorted(Stepped(s, c)) && Stepped(s, c).manager == s.manager
    ensures Held(Stepped(s, c), t) == Held(s, t) + Net(t)(s, c)
  {
    var r := Called(c.0, s, c.1);
    if r.Accepted? {
      if c.1.Receive? { AmountOne(c.1.coin, t); } else { AmountOne(r.ops[0], t); }
    }
  }

  lemma AmountOne(c: Coin, t: Account)
    ensures Amount([c], t) == if c.ticketer == t then c.amount else 0
  {
    assert [c][1..] == [];
  }

  /** The tickets of each ticketer after a run are those at the start plus those received minus
      those sent, and each coin still lies under its own ticketer; the manager stays. */
  lemma TicketsAreConserved(s: Storage, run: seq<Step>, t: Account)
    requires Sorted(s)
    ensures var s' := After(Stepped, s, run);
      Sorted(s') && s'.manager == s.manager && Held(s', t) == Held(s, t) + Total(Stepped, Net(t), s, run)
  {
    hide Stepped, Sorted, Held, Net;
    var inv := (u: Storage) => Sorted(u) && u.manager == s.manager;
    forall u, c | inv(u) ensures inv(Stepped(u, c)) && Held(Stepped(u, c), t) == Held(u, t) + Net(t)(u, c) {
      StepConserves(u, c, t);
    }
    RunKeeps(Stepped, (c: Step) => true, inv, (u: Storage) => Held(u, t), Net(t), s, run);
  }

  /** In every reachable state a call without tez fails only for its own fault: receiving always
      succeeds, so joining cannot fail, and sending fails only for a stranger or an amount that is
      not held, so neither splitting nor storing the rest can fail. What leaves is what was asked for. */
  lemma OnlyCallersFail(s: Storage, run: seq<Step>, e: Env, call: Call)
    requires Sorted(s)
    ensures var s' := After(Stepped, s, run); var r := Called(e, s', call);
      && (r.Accepted? <==> e.amount == 0 && (call.Send? ==>
            e.sender == s.manager && call.ticketer in s'.coins && call.amount <= Held(s', call.ticketer)))
      && (r.Accepted? ==> r.ops == if call.Send? then [Coin(call.ticketer, call.amount)] else [])
  {
    TicketsAreConserved(s, run, "");
  }

  // ---------------------------------------------------------------- the contract, step by step

  type Reply = Contracts.Reply<seq<Coin>>

  const REVERTED: Reply := Reverted(Failed(VUnit))

  class Wallet {
    const manager: Account
    var coins: map<Account, Coin>

    function State(): (s: Storage)
      reads this
    {
      Storage(manager, coins)
    }

    constructor (s: Storage)
      ensures State() == s
    {
      manager, coins := s.manager, s.coins;
    }

    method Receive(e: Env, coin: Coin) returns (reply: Reply)
      modifies this
      ensures Follows(old(State()), Called(e, old(State()), Call.Receive(coin)), State(), reply)
    {
      if e.amount != 0 { return REVERTED; }
      var joined := coin;
      if coin.ticketer in coins {
        var held := coins[coin.ticketer];
        if held.ticketer != coin.ticketer { return REVERTED; }
        joined := Coin(coin.ticketer, held.amount + coin.amount);
      }
      coins := coins[coin.ticketer := joined];
      return Emitted([]);
    }

    /** The coin is taken out of the map before it is split, and the rest is put back. */
    method Send(e: Env, to: Account, at: string, amount: nat, ticketer: Account) returns (reply: Reply)
      modifies this
      ensures Follows(old(State()), Called(e, old(State()), Call.Send(to, at, amount, ticketer)), State(), reply)
    {
      if e.amount != 0 || e.sender != manager || ticketer !in coins { return REVERTED; }
      var held := coins[ticketer];
      if held.amount < amount { return REVERTED; }
      ghost var was := coins;
      coins := coins - {ticketer};
      coins := coins[ticketer := held.(amount := held.amount - amount)];
      assert coins == was[ticketer := held.(amount := held.amount - amount)];
      return Emitted([held.(amount := amount)]);
    }

    /** A whole run of calls, one after the other. */
    method Serve(run: seq<Step>)
      modifies this
      ensures State() == After(Stepped, old(State()), run)
      ensures Sorted(old(State())) ==> Sorted(State())
      ensures Sorted(old(State())) ==> forall t ::
        Held(State(), t) == Held(old(State()), t) + Total(Stepped, Net(t), old(State()), run)
    {
      ghost var start := State();
      for i := 0 to |run|
        invariant After(Stepped, start, run) == After(Stepped, State(), run[i..])
      {
        AfterRest(Stepped, State(), run, i);
        var e := run[i].0;
        var reply;
        match run[i].1 {
          case Receive(coin) => reply := Receive(e, coin);
          case Send(to, at, amount, ticketer) => reply := Send(e, to, at, amount, ticketer);
        }
      }
      if Sorted(start) {
        TicketsAreConserved(start, run, "");
        forall t { TicketsAreConserved(start, run, t); }
      }
    }
  }
}
