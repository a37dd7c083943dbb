/** When the multisig acts, and why no signed payload acts twice. */
module MultisigRuns {
  import opened Michelson
  import opened Contracts
  import opened Multisig
  import opened Runs
  import opened Encoding

  function Present(slots: seq<Slot>): nat {
    if slots == [] then 0 else (if slots[0].Signed? then 1 else 0) + Present(slots[1..])
  }

  /** Every signature that is present is valid for the key at its own position. */
  predicate SignedBy(e: Env, message: Bytes, keys: seq<string>, slots: seq<Slot>) {
    forall i :: 0 <= i < |slots| && i < |keys| && slots[i].Signed? ==> e.verify(keys[i], slots[i].sig, message)
  }

  lemma {:induction false} WalkCounts(e: Env, message: Bytes, keys: seq<string>, slots: seq<Slot>, valid: nat)
    ensures var w := Walk(e, message, keys, slots, valid);
      && (w.Counted? <==> |keys| <= |slots| && SignedBy(e, message, keys, slots))
      && (w.Counted? ==> w == Counted(valid + Present(slots[..|keys|]), slots[|keys|..]))
    decreases |keys|
  {
    if keys == [] {
      assert slots[..0] == [] && slots[0..] == slots;
    } else if slots != [] {
      var n := if slots[0].Signed? then valid + 1 else valid;
      WalkCounts(e, message, keys[1..], slots[1..], n);
      if |keys| <= |slots| {
        assert slots[..|keys|][1..] == slots[1..][..|keys| - 1];
        assert slots[|keys|..] == slots[1..][|keys| - 1..];
      }
      var tail := SignedBy(e, message, keys[1..], slots[1..]);
      assert SignedBy(e, message, keys, slots) <==>
        tail && (slots[0].Signed? ==> e.verify(keys[0], slots[0].sig, message))
      by {
        if tail {
          forall i | 0 < i < |slots| && i < |keys| && slots[i].Signed?
            ensures e.verify(keys[i], slots[i].sig, message) {
            assert keys[i] == keys[1..][i - 1] && slots[i] == slots[1..][i - 1];
          }
        } else {
          var i :| 0 <= i < |slots[1..]| && i < |keys[1..]| && slots[1..][i].Signed?
                   && !e.verify(keys[1..][i], slots[1..][i].sig, message);
          assert keys[i + 1] == keys[1..][i] && slots[i + 1] == slots[1..][i];
        }
      }
    }
  }

  /** The call ends well, with one value. */
  predicate LeavesOne(o: Outcome) { o.Ok? && o.stack.Push? && o.stack.rest.Empty? }

  /** An accepted `main` moves the counter on by one; it replaces threshold and keys by those named, or
      leaves them and emits what the lambda answers to unit. */
  lemma MainEffect(e: Env, f: nat, s: Storage, counter: nat, action: Action, slots: seq<Slot>)
    requires Called(e, f, s, Main(counter, action, slots)).Accepted?
    ensures var r := Called(e, f, s, Main(counter, action, slots));
      && r.storage.counter == s.counter + 1
      && (action.ChangeKeys? ==>
            r.storage.threshold == action.threshold && r.storage.keys == action.keys && r.ops == VList([]))
      && (action.Operate? ==>
            && r.storage.threshold == s.threshold && r.storage.keys == s.keys && f > 0
            && Michelson.Call(e, f - 1, action.code, VUnit) == Ok(Push(r.ops, Empty)))
  {
    hide Run;
  }

  /** `main` is accepted exactly when no tez are attached, the counter is the stored one, there is
      one slot a key, every signature present is right for its key, they reach the threshold, and
      the lambda to execute (if any) does not fail. */
  lemma MainAcceptsIff(e: Env, f: nat, s: Storage, counter: nat, action: Action, slots: seq<Slot>)
    ensures Called(e, f, s, Main(counter, action, slots)).Accepted? <==>
      && e.amount == 0 && counter == s.counter && |slots| == |s.keys|
      && SignedBy(e, Packed(VPair(VAddr(e.self), VPair(VInt(counter), EncodeAction(action)))), s.keys, slots)
      && s.threshold <= Present(slots)
      && (action.Operate? ==> f > 0 && LeavesOne(Michelson.Call(e, f - 1, action.code, VUnit)))
  {
    hide Run;
    WalkCounts(e, Message(e, counter, action), s.keys, slots, 0);
    if |slots| == |s.keys| { assert slots[..|s.keys|] == slots && slots[|s.keys|..] == []; }
  }

  /** The environment, the fuel its lambda may use, and the call. */
  type Step = (Env, nat, Call)

  function Stepped(s: Storage, c: Step): Storage {
    Next(s, Called(c.0, c.1, s, c.2))
  }

  /** An accepted `main`. */
  predicate Acts(s: Storage, c: Step) { c.2.Main? && Called(c.0, c.1, s, c.2).Accepted? }

  function Acting(s: Storage, c: Step): int { One(Acts(s, c)) }

  lemma StepCounts(s: Storage, c: Step)
    ensures Stepped(s, c).counter == s.counter + Acting(s, c)
    ensures Acts(s, c) ==> c.2.Main? && c.2.counter == s.counter
  {
    hide Walk, Proposed;
  }

  /** The stored counter is its start plus the number of accepted `main` calls. */
  lemma CounterCounts(s: Storage, run: seq<Step>)
    ensures After(Stepped, s, run).counter == s.counter + Total(Stepped, Acting, s, run)
  {
    hide Stepped, Acts;
    forall t, c ensures Stepped(t, c).counter == t.counter + Acting(t, c) { StepCounts(t, c); }
    RunKeeps(Stepped, (c: Step) => true, (t: Storage) => true, (t: Storage) => t.counter, Acting, s, run);
  }

  /** No payload acts twice: two accepted `main` calls of one run carry different counters, so
      the bytes their signers signed differ too. */
  lemma NoPayloadActsTwice(s: Storage, run: seq<Step>, i: nat, j: nat)
    requires i < j < |run| && Acts(After(Stepped, s, run[..i]), run[i]) && Acts(After(Stepped, s, run[..j]), run[j])
    ensures run[i].2.counter < run[j].2.counter
    ensures Message(run[i].0, run[i].2.counter, run[i].2.action) != Message(run[j].0, run[j].2.counter, run[j].2.action)
  {
    hide Stepped, Acts, Message;
    forall t, c ensures Stepped(t, c).counter == t.counter + Acting(t, c) { StepCounts(t, c); }
    StepCounts(After(Stepped, s, run[..i]), run[i]);
    StepCounts(After(Stepped, s, run[..j]), run[j]);
    LaterIsMore(Stepped, (t: Storage) => true, (t: Storage) => t.counter, Acting, s, run, i, j);
    MessagesDiffer(run[i].0, run[j].0, run[i].2.counter, run[j].2.counter, run[i].2.action, run[j].2.action);
  }

  /** Equal messages are for the same contract, counter and action. */
  lemma MessagesDiffer(d: Env, e: Env, m: nat, n: nat, a: Action, b: Action)
    ensures Message(d, m, a) == Message(e, n, b) <==> d.self == e.self && m == n && a == b
  {
    if a.ChangeKeys? && b.ChangeKeys? && EncodeAction(a) == EncodeAction(b) { SameKeys(a.keys, b.keys); }
  }

  lemma SameKeys(a: seq<string>, b: seq<string>)
    requires EncodeSeq(a, EncodeKey) == EncodeSeq(b, EncodeKey)
    ensures a == b
  {
    forall i | 0 <= i < |a| ensures a[i] == b[i] {
      assert EncodeSeq(a, EncodeKey)[i] == EncodeSeq(b, EncodeKey)[i];
    }
  }

  // ---------------------------------------------------------------- the contract, step by step

  type Reply = Contracts.Reply<Value>

  class MultisigContract {
    var storedCounter: nat
    var threshold: nat
    var keys: seq<string>

    function State(): (s: Storage)
      reads this
    {
      Storage(storedCounter, threshold, keys)
    }

    constructor (s: Storage)
      ensures State() == s
    {
      storedCounter, threshold, keys := s.counter, s.threshold, s.keys;
    }

    method Act(e: Env, f: nat, counter: nat, action: Action, slots: seq<Slot>) returns (reply: Reply)
      modifies this
      ensures Follows(old(State()), Called(e, f, old(State()), Call.Main(counter, action, slots)), State(), reply)
    {
      if e.amount != 0 || counter != storedCounter { return Reverted(Failed(VUnit)); }
      var message := Message(e, counter, action);
      var valid, left := 0, slots;
      for i := 0 to |keys|
        invariant Walk(e, message, keys, slots, 0) == Walk(e, message, keys[i..], left, valid)
      {
        if left == [] { return Reverted(Failed(VUnit)); }
        if left[0].Signed? {
          if !e.verify(keys[i], left[0].sig, message) { return Reverted(Failed(VBytes(message))); }
          valid := valid + 1;
        }
        left := left[1..];
      }
      if valid < threshold || left != [] { return Reverted(Failed(VUnit)); }
      var proposal := Proposed(e, f, action);
      match proposal {
        case Ok(Push(ops, _)) =>
          storedCounter := storedCounter + 1;
          if action.ChangeKeys? { threshold, keys := action.threshold, action.keys; }
          return Emitted(ops);
        case Ok(Empty) => return Reverted(Stuck);
        case _ => return Reverted(proposal);
      }
    }

    /** A whole run of calls, one after the other; the counter goes up by the number of actions. */
    method Serve(run: seq<Step>) returns (acted: nat)
      modifies this
      ensures State() == After(Stepped, old(State()), run)
      ensures acted == Total(Stepped, Acting, old(State()), run) && storedCounter == old(storedCounter) + acted
    {
      ghost var start := State();
      var was := storedCounter;
      for i := 0 to |run|
        invariant After(Stepped, start, run) == After(Stepped, State(), run[i..])
      {
        AfterRest(Stepped, State(), run, i);
        var (e, f, call) := run[i];
        if call.Main? { var reply := Act(e, f, call.counter, call.action, call.slots); }
      }
      CounterCounts(start, run);
      TotalIsNat(Stepped, Acting, start, run);
      acted := storedCounter - was;
    }
  }
}
