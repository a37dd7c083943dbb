/** The multi-asset ledger as the contract works: one storage, rewritten field by field. A failing
    call reverts, so each method writes its fields only once nothing can fail any more. */
module Fa2Contract {
  import opened Michelson
  import opened Contracts
  import opened Fa2
  import opened Runs
  import Fa2Runs

  type Reply = Contracts.Reply<seq<Op>>

  function FailingAt(line: int): Reply { Reverted(Failed(VInt(line))) }

  class TokenContract {
    var administrator: Account
    var allTokens: nat
    var ledger: map<Holding, nat>
    var metadata: map<string, string>
    var operators: set<Permission>
    var paused: bool
    var tokens: map<nat, Token>

    function State(): (s: Storage)
      reads this
    {
      Storage(administrator, allTokens, ledger, metadata, operators, paused, tokens)
    }

    constructor (s: Storage)
      ensures State() == s
    {
      administrator, allTokens, ledger := s.administrator, s.allTokens, s.ledger;
      metadata, operators, paused, tokens := s.metadata, s.operators, s.paused, s.tokens;
    }

    method BalanceOf(e: Env, requests: seq<Holding>, callback: Account, at: string) returns (reply: Reply)
      ensures Follows(State(), Called(e, State(), Call.BalanceOf(requests, callback, at)), State(), reply)
    {
      if paused { return FailingAt(438); }
      var answers: seq<(Holding, nat)> := [];
      ghost var s := State();
      var i := 0;
      while i < |requests|
        invariant 0 <= i <= |requests|
        invariant forall j :: 0 <= j < i ==> requests[j].1 in tokens
        invariant answers + Balances(s, requests[i..]) == Balances(s, requests)
      {
        var h := requests[i];
        if h.1 !in tokens { return Failing("FA2_TOKEN_UNDEFINED"); }
        assert Balances(s, requests[i..]) == [(h, Owned(s.ledger, h))] + Balances(s, requests[i + 1..]);
        answers := answers + [(h, if h in ledger then ledger[h] else 0)];
        i := i + 1;
      }
      assert answers == Balances(s, requests) by { assert requests[i..] == []; }
      return Emitted([Report(callback, at, answers)]);
    }

    method Mint(e: Env, to: Account, amount: nat, about: map<string, string>, id: nat) returns (reply: Reply)
      modifies this
      ensures Follows(old(State()), Called(e, old(State()), Call.Mint(to, amount, about, id)), State(), reply)
    {
      if e.sender != administrator { return FailingAt(539); }
      if id != allTokens { return Failing("Token-IDs should be consecutive"); }
      if allTokens < id + 1 { allTokens := id + 1; }
      if (to, id) in ledger {
        ledger := ledger[(to, id) := ledger[(to, id)] + amount];
      } else {
        ledger := ledger[(to, id) := amount];
      }
      if id !in tokens { tokens := tokens[id := Token(about, amount)]; }
      return Emitted([]);
    }

    method TransferAll(e: Env, transfers: seq<Transfer>) returns (reply: Reply)
      modifies this
      ensures Follows(old(State()), Called(e, old(State()), Call.TransferAll(transfers)), State(), reply)
    {
      if paused { return FailingAt(395); }
      ghost var s := State();
      var moving: map<Holding, nat> := ledger;
      var i := 0;
      while i < |transfers|
        invariant 0 <= i <= |transfers|
        invariant State() == s
        invariant Transferred(e, s, transfers) == Transferred(e, s.(ledger := moving), transfers[i..])
      {
        var moved, refusal := Send(e, moving, transfers[i].from, transfers[i].txs);
        if refusal.VSome? { return Reverted(Failed(refusal.v)); }
        moving := moved;
        i := i + 1;
      }
      ledger := moving;
      return Emitted([]);
    }

    /** The inner loop: the transfers of one sender, on the ledger as the batch has left it. */
    method Send(e: Env, start: map<Holding, nat>, from: Account, txs: seq<Tx>)
      returns (moving: map<Holding, nat>, refusal: Value)
      ensures refusal.VNone? || refusal.VSome?
      ensures SentAll(e, State().(ledger := start), from, txs) ==
        if refusal.VNone? then Accepted(State().(ledger := moving), []) else Refused(Failed(refusal.v))
    {
      moving := start;
      var j := 0;
      while j < |txs|
        invariant 0 <= j <= |txs|
        invariant SentAll(e, State().(ledger := start), from, txs) ==
          SentAll(e, State().(ledger := moving), from, txs[j..])
      {
        var tx := txs[j];
        if e.sender != administrator && e.sender != from && Permission(from, e.sender, tx.token) !in operators {
          return moving, VSome(VStr("FA2_NOT_OPERATOR"));
        }
        if tx.token !in tokens { return moving, VSome(VStr("FA2_TOKEN_UNDEFINED")); }
        if tx.amount > 0 {
          if (from, tx.token) !in moving { return moving, VSome(VInt(423)); }
          if moving[(from, tx.token)] < tx.amount { return moving, VSome(VStr("FA2_INSUFFICIENT_BALANCE")); }
          moving := moving[(from, tx.token) := moving[(from, tx.token)] - tx.amount];
          if (tx.to, tx.token) in moving {
            moving := moving[(tx.to, tx.token) := moving[(tx.to, tx.token)] + tx.amount];
          } else {
            moving := moving[(tx.to, tx.token) := tx.amount];
          }
        }
        j := j + 1;
      }
      return moving, VNone;
    }

    method UpdateOperators(e: Env, updates: seq<OperatorUpdate>) returns (reply: Reply)
      modifies this
      ensures Follows(old(State()), Called(e, old(State()), Call.UpdateOperators(updates)), State(), reply)
    {
      ghost var s := State();
      var granted := operators;
      var i := 0;
      while i < |updates|
        invariant 0 <= i <= |updates|
        invariant State() == s
        invariant UpdatedAll(e, s, updates) == UpdatedAll(e, s.(operators := granted), updates[i..])
      {
        match updates[i] {
          case AddOperator(p) =>
            if p.owner != e.sender && administrator != e.sender { return FailingAt(489); }
            granted := granted + {p};
          case RemoveOperator(p) =>
            if p.owner != e.sender && administrator != e.sender { return FailingAt(496); }
            granted := granted - {p};
        }
        i := i + 1;
      }
      operators := granted;
      return Emitted([]);
    }

    /** The entrypoints that only the administrator may call, mint apart. */
    method Administer(e: Env, call: Call) returns (reply: Reply)
      requires call.MutezTransfer? || call.SetAdministrator? || call.SetMetadata? || call.SetPause?
      modifies this
      ensures Follows(old(State()), Called(e, old(State()), call), State(), reply)
    {
      var refused := match call {
        case MutezTransfer(_, _) => 346
        case SetAdministrator(_) => 518
        case SetMetadata(_, _) => 533
        case _ => 527
      };
      if e.sender != administrator { return FailingAt(refused); }
      match call {
        case MutezTransfer(tez, destination) =>
          if !e.entrypoints(destination, "") { return FailingAt(349); }
          return Emitted([Pay(destination, tez)]);
        case SetAdministrator(a) => administrator := a;
        case SetMetadata(k, v) => metadata := metadata[k := v];
        case SetPause(p) => paused := p;
      }
      return Emitted([]);
    }

    /** A whole run of calls, one after the other. */
    method Serve(run: seq<Fa2Runs.Step>)
      modifies this
      ensures State() == After(Fa2Runs.Stepped, old(State()), run)
      ensures Fa2Runs.WellFormed(old(State())) ==> Fa2Runs.WellFormed(State())
    {
      ghost var start := State();
      for i := 0 to |run|
        invariant After(Fa2Runs.Stepped, start, run) == After(Fa2Runs.Stepped, State(), run[i..])
      {
        AfterRest(Fa2Runs.Stepped, State(), run, i);
        var e := run[i].0;
        var reply;
        match run[i].1 {
          case BalanceOf(requests, callback, at) => reply := BalanceOf(e, requests, callback, at);
          case Mint(to, amount, about, id) => reply := Mint(e, to, amount, about, id);
          case TransferAll(transfers) => reply := TransferAll(e, transfers);
          case UpdateOperators(updates) => reply := UpdateOperators(e, updates);
          case _ => reply := Administer(e, run[i].1);
        }
      }
      if Fa2Runs.WellFormed(start) { Fa2Runs.SupplyIsHeld(start, run); }
    }
  }
}
