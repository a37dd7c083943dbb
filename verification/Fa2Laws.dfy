/** What each entrypoint of the ledger asks of its caller and does, said over the storage alone. A
    batch is read as one list of moves; whether it is accepted can be read off before it starts. */
module Fa2Laws {
  import opened Michelson
  import opened Contracts
  import opened Fa2

  // ---------------------------------------------------------------- batches as lists of moves

  datatype Move = Move(from: Account, to: Account, token: nat, amount: nat)

  function MovesOf(from: Account, txs: seq<Tx>): seq<Move> {
    if txs == [] then [] else [Move(from, txs[0].to, txs[0].token, txs[0].amount)] + MovesOf(from, txs[1..])
  }

  function Flat(transfers: seq<Transfer>): seq<Move> {
    if transfers == [] then [] else MovesOf(transfers[0].from, transfers[0].txs) + Flat(transfers[1..])
  }

  /** What moves add to a holding. */
  function Gain(moves: seq<Move>, h: Holding): int {
    if moves == [] then 0
    else
      (if (moves[0].to, moves[0].token) == h then moves[0].amount else 0)
      - (if (moves[0].from, moves[0].token) == h then moves[0].amount else 0)
      + Gain(moves[1..], h)
  }

  /** The caller is the owner, the administrator, or an operator of the owner for this token. */
  predicate Entitled(e: Env, s: Storage, m: Move) {
    e.sender == m.from || e.sender == s.administrator || Permission(m.from, e.sender, m.token) in s.operators
  }

  /** The sender of move k still has the amount after the moves before it. */
  predicate CanPay(s: Storage, moves: seq<Move>, k: nat)
    requires k < |moves|
  {
    var h := (moves[k].from, moves[k].token);
    moves[k].amount <= Owned(s.ledger, h) + Gain(moves[..k], h)
  }

  predicate Sound(e: Env, s: Storage, moves: seq<Move>, k: nat)
    requires k < |moves|
  {
    Entitled(e, s, moves[k]) && moves[k].token in s.tokens && CanPay(s, moves, k)
  }

  /** The moves made one after the other. */
  function Replayed(e: Env, s: Storage, moves: seq<Move>): (r: Result)
    ensures r.Refused? ==> !r.why.Ok?
    decreases |moves|
  {
    if moves == [] then Accepted(s, [])
    else
      match Sent(e, s, moves[0].from, Tx(moves[0].to, moves[0].token, moves[0].amount))
      case Accepted(s', _) => Replayed(e, s', moves[1..])
      case refused => refused
  }

  lemma {:induction false} ReplayedAfter(e: Env, s: Storage, a: seq<Move>, b: seq<Move>)
    ensures Replayed(e, s, a + b) ==
      var r := Replayed(e, s, a); if r.Accepted? then Replayed(e, r.storage, b) else r
    decreases |a|
  {
    hide Sent;
    if a == [] {
      assert a + b == b;
    } else {
      assert (a + b)[0] == a[0] && (a + b)[1..] == a[1..] + b;
      var r := Sent(e, s, a[0].from, Tx(a[0].to, a[0].token, a[0].amount));
      if r.Accepted? { ReplayedAfter(e, r.storage, a[1..], b); }
    }
  }

  lemma {:induction false} SentAllIsReplay(e: Env, s: Storage, from: Account, txs: seq<Tx>)
    ensures SentAll(e, s, from, txs) == Replayed(e, s, MovesOf(from, txs))
    decreases |txs|
  {
    hide Sent;
    if txs != [] {
      var r := Sent(e, s, from, txs[0]);
      assert MovesOf(from, txs)[1..] == MovesOf(from, txs[1..]);
      if r.Accepted? { SentAllIsReplay(e, r.storage, from, txs[1..]); }
    }
  }

  lemma {:induction false} BatchIsReplay(e: Env, s: Storage, transfers: seq<Transfer>)
    ensures Transferred(e, s, transfers) == Replayed(e, s, Flat(transfers))
    decreases |transfers|
  {
    hide Sent, SentAll, Replayed, MovesOf;
    if transfers == [] {
      ReplayedNothing(e, s);
    } else {
      var a, b := MovesOf(transfers[0].from, transfers[0].txs), Flat(transfers[1..]);
      SentAllIsReplay(e, s, transfers[0].from, transfers[0].txs);
      ReplayedAfter(e, s, a, b);
      var r := Replayed(e, s, a);
      if r.Accepted? { BatchIsReplay(e, r.storage, transfers[1..]); }
    }
  }

  lemma ReplayedNothing(e: Env, s: Storage)
    ensures Replayed(e, s, []) == Accepted(s, [])
  {}

  // ---------------------------------------------------------------- when a batch is accepted

  /** One move: who may make it, when it can be paid, and what it does to every holding. */
  lemma MoveEffect(e: Env, s: Storage, m: Move, h: Holding)
    ensures var r := Sent(e, s, m.from, Tx(m.to, m.token, m.amount));
      && (r.Accepted? <==> Entitled(e, s, m) && m.token in s.tokens && m.amount <= Owned(s.ledger, (m.from, m.token)))
      && (r.Accepted? ==>
            && r.storage == s.(ledger := r.storage.ledger)
            && Owned(r.storage.ledger, h) == Owned(s.ledger, h) + Gain([m], h))
      && (!Entitled(e, s, m) ==> r == Fail("FA2_NOT_OPERATOR"))
      && (Entitled(e, s, m) && m.token !in s.tokens ==> r == Fail("FA2_TOKEN_UNDEFINED"))
  {
    assert [m][1..] == [];
    assert Gain([m], h) ==
      (if (m.to, m.token) == h then m.amount else 0) - (if (m.from, m.token) == h then m.amount else 0);
  }

  lemma {:induction false} GainAdds(a: seq<Move>, b: seq<Move>, h: Holding)
    ensures Gain(a + b, h) == Gain(a, h) + Gain(b, h)
    decreases |a|
  {
    if a == [] {
      assert a + b == b;
    } else {
      assert (a + b)[0] == a[0] && (a + b)[1..] == a[1..] + b;
      GainAdds(a[1..], b, h);
    }
  }

  /** After an accepted first move the rest is as sound as it was at its place in the whole. */
  lemma SoundLater(e: Env, s: Storage, moves: seq<Move>, k: nat)
    requires k + 1 < |moves|
    requires Sent(e, s, moves[0].from, Tx(moves[0].to, moves[0].token, moves[0].amount)).Accepted?
    ensures var s' := Sent(e, s, moves[0].from, Tx(moves[0].to, moves[0].token, moves[0].amount)).storage;
      && (Sound(e, s', moves[1..], k) <==> Sound(e, s, moves, k + 1))
      && (Entitled(e, s', moves[k + 1]) <==> Entitled(e, s, moves[k + 1])) && s'.tokens == s.tokens
  {
    hide Sent;
    var h := (moves[k + 1].from, moves[k + 1].token);
    MoveEffect(e, s, moves[0], h);
    assert moves[..k + 1] == [moves[0]] + moves[1..][..k];
    GainAdds([moves[0]], moves[1..][..k], h);
  }

  lemma SoundFirst(e: Env, s: Storage, moves: seq<Move>)
    requires moves != []
    ensures Sound(e, s, moves, 0) <==>
      Sent(e, s, moves[0].from, Tx(moves[0].to, moves[0].token, moves[0].amount)).Accepted?
  {
    hide Sent;
    var h := (moves[0].from, moves[0].token);
    MoveEffect(e, s, moves[0], h);
    assert moves[..0] == [] && Gain([], h) == 0;
  }

  lemma {:induction false} ReplayedIff(e: Env, s: Storage, moves: seq<Move>)
    ensures Replayed(e, s, moves).Accepted? <==> forall k :: 0 <= k < |moves| ==> Sound(e, s, moves, k)
    decreases |moves|
  {
    hide Sent, Sound;
    if moves != [] {
      SoundFirst(e, s, moves);
      var r := Sent(e, s, moves[0].from, Tx(moves[0].to, moves[0].token, moves[0].amount));
      if r.Accepted? {
        ReplayedIff(e, r.storage, moves[1..]);
        forall k | 0 <= k < |moves[1..]| ensures Sound(e, r.storage, moves[1..], k) <==> Sound(e, s, moves, k + 1) {
          SoundLater(e, s, moves, k);
        }
        if forall k :: 0 <= k < |moves[1..]| ==> Sound(e, r.storage, moves[1..], k) {
          forall k | 0 <= k < |moves| ensures Sound(e, s, moves, k) {
            if k > 0 { assert Sound(e, r.storage, moves[1..], k - 1); }
          }
        } else {
          var k :| 0 <= k < |moves[1..]| && !Sound(e, r.storage, moves[1..], k);
          assert !Sound(e, s, moves, k + 1);
        }
      }
    }
  }

  lemma {:induction false} ReplayedGains(e: Env, s: Storage, moves: seq<Move>, h: Holding)
    requires Replayed(e, s, moves).Accepted?
    ensures var s' := Replayed(e, s, moves).storage;
      s' == s.(ledger := s'.ledger) && Owned(s'.ledger, h) == Owned(s.ledger, h) + Gain(moves, h)
    decreases |moves|
  {
    hide Sent;
    if moves != [] {
      MoveEffect(e, s, moves[0], h);
      ReplayedGains(e, Sent(e, s, moves[0].from, Tx(moves[0].to, moves[0].token, moves[0].amount)).storage,
        moves[1..], h);
      assert moves == [moves[0]] + moves[1..];
      GainAdds([moves[0]], moves[1..], h);
    }
  }

  /** The transfer entrypoint is accepted exactly when the contract is not paused and every move of
      the batch is made by its owner, the administrator or an operator of the owner for that token, in
      a token that is defined, out of what the owner has then; and it changes holdings alone, each by
      what the batch gives it minus what it takes. */
  lemma TransferAcceptedIff(e: Env, s: Storage, transfers: seq<Transfer>, h: Holding)
    ensures var r := Called(e, s, TransferAll(transfers)); var moves := Flat(transfers);
      && (r.Accepted? <==> !s.paused && forall k :: 0 <= k < |moves| ==>
            && (e.sender == moves[k].from || e.sender == s.administrator
                || Permission(moves[k].from, e.sender, moves[k].token) in s.operators)
            && moves[k].token in s.tokens
            && CanPay(s, moves, k))
      && (r.Accepted? ==>
            && r.storage == s.(ledger := r.storage.ledger) && r.ops == []
            && Owned(r.storage.ledger, h) == Owned(s.ledger, h) + Gain(moves, h))
  {
    hide Transferred, Replayed, CanPay;
    var moves := Flat(transfers);
    BatchIsReplay(e, s, transfers);
    ReplayedIff(e, s, moves);
    if Replayed(e, s, moves).Accepted? { ReplayedGains(e, s, moves, h); }
    assert forall k :: 0 <= k < |moves| ==> (Sound(e, s, moves, k) <==>
      (e.sender == moves[k].from || e.sender == s.administrator
       || Permission(moves[k].from, e.sender, moves[k].token) in s.operators)
      && moves[k].token in s.tokens && CanPay(s, moves, k));
    hide Sound, Flat;
  }

  lemma {:induction false} FirstFault(e: Env, s: Storage, moves: seq<Move>, k: nat)
    requires k < |moves| && forall i :: 0 <= i < k ==> Sound(e, s, moves, i)
    ensures !Entitled(e, s, moves[k]) ==> Replayed(e, s, moves) == Fail("FA2_NOT_OPERATOR")
    ensures Entitled(e, s, moves[k]) && moves[k].token !in s.tokens ==>
      Replayed(e, s, moves) == Fail("FA2_TOKEN_UNDEFINED")
    decreases |moves|
  {
    hide Sent, Sound;
    var r := Sent(e, s, moves[0].from, Tx(moves[0].to, moves[0].token, moves[0].amount));
    if k == 0 {
      MoveEffect(e, s, moves[0], (moves[0].from, moves[0].token));
    } else {
      assert Sound(e, s, moves, 0);
      SoundFirst(e, s, moves);
      forall i | 0 <= i < k - 1 ensures Sound(e, r.storage, moves[1..], i) {
        assert Sound(e, s, moves, i + 1);
        SoundLater(e, s, moves, i);
      }
      SoundLater(e, s, moves, k - 1);
      FirstFault(e, r.storage, moves[1..], k - 1);
    }
  }

  /** The first move that is not sound decides the failure: nobody's operator is told so before
      anything else, and on every storage. */
  lemma StrangersAreRefused(e: Env, s: Storage, transfers: seq<Transfer>, k: nat)
    requires !s.paused && k < |Flat(transfers)|
    requires forall i :: 0 <= i < k ==> Sound(e, s, Flat(transfers), i)
    ensures var m := Flat(transfers)[k];
      var entitled :=
        e.sender == m.from || e.sender == s.administrator || Permission(m.from, e.sender, m.token) in s.operators;
      && (!entitled ==> Called(e, s, TransferAll(transfers)) == Fail("FA2_NOT_OPERATOR"))
      && (entitled && m.token !in s.tokens ==> Called(e, s, TransferAll(transfers)) == Fail("FA2_TOKEN_UNDEFINED"))
  {
    hide Transferred, Replayed, Sound;
    BatchIsReplay(e, s, transfers);
    FirstFault(e, s, Flat(transfers), k);
  }

  // ---------------------------------------------------------------- operators

  /** Some update (or the start, at -1) makes p an operator and no later one takes it back. */
  predicate Granted(s: Storage, updates: seq<OperatorUpdate>, p: Permission) {
    exists i :: -1 <= i < |updates| && GrantedBy(s, updates, p, i)
  }

  predicate GrantedBy(s: Storage, updates: seq<OperatorUpdate>, p: Permission, i: int)
    requires -1 <= i < |updates|
  {
    && (if i == -1 then p in s.operators else updates[i] == AddOperator(p))
    && forall j :: i < j < |updates| ==> updates[j] != RemoveOperator(p)
  }

  /** update_operators is accepted exactly when every update comes from its owner or the administrator,
      and the last update of a permission decides. */
  lemma UpdatesAcceptedIff(e: Env, s: Storage, updates: seq<OperatorUpdate>, p: Permission)
    ensures var r := Called(e, s, UpdateOperators(updates));
      && (r.Accepted? <==> forall i :: 0 <= i < |updates| ==>
            e.sender == updates[i].permission.owner || e.sender == s.administrator)
      && (r.Accepted? ==>
            && r.storage == s.(operators := r.storage.operators) && r.ops == []
            && (p in r.storage.operators <==> Granted(s, updates, p)))
  {
    hide UpdatedAll, Granted;
    UpdatedAllIff(e, s, updates, p);
  }

  lemma {:induction false} UpdatedAllIff(e: Env, s: Storage, updates: seq<OperatorUpdate>, p: Permission)
    ensures var r := UpdatedAll(e, s, updates);
      && (r.Accepted? <==> forall i :: 0 <= i < |updates| ==>
            e.sender == updates[i].permission.owner || e.sender == s.administrator)
      && (r.Accepted? ==>
            && r.storage == s.(operators := r.storage.operators) && r.ops == []
            && (p in r.storage.operators <==> Granted(s, updates, p)))
    decreases |updates|
  {
    hide Granted;
    if updates == [] {
      GrantedNone(s, p);
    } else {
      var r, tail := UpdatedOne(e, s, updates[0]), updates[1..];
      if r.Accepted? {
        UpdatedAllIff(e, r.storage, tail, p);
        GrantedLater(s, r.storage, updates, p);
        assert forall i :: 0 < i < |updates| ==> updates[i] == tail[i - 1];
      }
    }
  }

  lemma GrantedNone(s: Storage, p: Permission)
    ensures Granted(s, [], p) <==> p in s.operators
  {
    if p in s.operators { assert GrantedBy(s, [], p, -1); }
  }

  lemma GrantedLater(s: Storage, t: Storage, updates: seq<OperatorUpdate>, p: Permission)
    requires updates != []
    requires p in t.operators <==> updates[0] == AddOperator(p) || (p in s.operators && updates[0] != RemoveOperator(p))
    ensures Granted(t, updates[1..], p) <==> Granted(s, updates, p)
  {
    var tail := updates[1..];
    if i :| -1 <= i < |updates| && GrantedBy(s, updates, p, i) {
      var j := if i == -1 then -1 else i - 1;
      assert forall k :: j < k < |tail| ==> tail[k] == updates[k + 1];
      assert GrantedBy(t, tail, p, j);
    }
    if i :| -1 <= i < |tail| && GrantedBy(t, tail, p, i) {
      var j := if i >= 0 || updates[0] == AddOperator(p) then i + 1 else -1;
      assert forall k :: i + 1 < k < |updates| ==> updates[k] == tail[k - 1];
      assert GrantedBy(s, updates, p, j);
    }
  }

  // ---------------------------------------------------------------- the administrator, and asking for balances

  /** mint needs the administrator and the next id. It adds the amount to one holding, moves the
      counter on by one, and defines the token with that supply unless it is defined already. */
  lemma MintAcceptedIff(e: Env, s: Storage, to: Account, amount: nat, about: map<string, string>, id: nat,
      h: Holding, t: nat)
    ensures var r := Called(e, s, Mint(to, amount, about, id));
      && (r.Accepted? <==> e.sender == s.administrator && id == s.allTokens)
      && (r.Accepted? ==>
            && r.storage == s.(allTokens := s.allTokens + 1, ledger := r.storage.ledger, tokens := r.storage.tokens)
            && Owned(r.storage.ledger, h) == Owned(s.ledger, h) + (if h == (to, id) then amount else 0)
            && (t in r.storage.tokens <==> t in s.tokens || t == id)
            && (t in s.tokens ==> r.storage.tokens[t] == s.tokens[t])
            && (id !in s.tokens ==> r.storage.tokens[id] == Token(about, amount)))
  {}

  /** The other entrypoints of the administrator change the one field they name, or pay out. */
  lemma AdministratorActs(e: Env, s: Storage, a: Account, k: string, v: string, p: bool, tez: nat)
    ensures Called(e, s, SetAdministrator(a)).Accepted? <==> e.sender == s.administrator
    ensures Called(e, s, SetMetadata(k, v)).Accepted? <==> e.sender == s.administrator
    ensures Called(e, s, SetPause(p)).Accepted? <==> e.sender == s.administrator
    ensures Called(e, s, MutezTransfer(tez, a)).Accepted? <==> e.sender == s.administrator && e.entrypoints(a, "")
    ensures e.sender == s.administrator ==>
      && Called(e, s, SetAdministrator(a)) == Accepted(s.(administrator := a), [])
      && Called(e, s, SetMetadata(k, v)) == Accepted(s.(metadata := s.metadata[k := v]), [])
      && Called(e, s, SetPause(p)) == Accepted(s.(paused := p), [])
      && (e.entrypoints(a, "") ==> Called(e, s, MutezTransfer(tez, a)) == Accepted(s, [Pay(a, tez)]))
  {}

  /** balance_of answers every request with what is held, in order, unless the contract is paused or a
      token is not defined; it changes nothing. */
  lemma BalancesAnswered(e: Env, s: Storage, requests: seq<Holding>, callback: Account, at: string)
    ensures var r := Called(e, s, BalanceOf(requests, callback, at));
      && (r.Accepted? <==> !s.paused && forall i :: 0 <= i < |requests| ==> requests[i].1 in s.tokens)
      && (r.Accepted? ==> exists answers ::
            && r == Accepted(s, [Report(callback, at, answers)]) && |answers| == |requests|
            && forall i :: 0 <= i < |requests| ==> answers[i] == (requests[i], Owned(s.ledger, requests[i])))
  {
    BalancesInOrder(s, requests);
  }

  lemma {:induction false} BalancesInOrder(s: Storage, requests: seq<Holding>)
    ensures |Balances(s, requests)| == |requests|
    ensures forall i :: 0 <= i < |requests| ==> Balances(s, requests)[i] == (requests[i], Owned(s.ledger, requests[i]))
    decreases |requests|
  {
    if requests != [] { BalancesInOrder(s, requests[1..]); }
  }
}
