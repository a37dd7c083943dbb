/** How often single-use permits can be used, over every run. */
module PermitSetRuns {
  import opened Michelson
  import opened Contracts
  import opened PermitSet
  import opened Runs

  type Step = (Env, Call)

  function Stepped(s: Storage, c: Step): Storage {
    Next(s, Called(c.0, s, c.1))
  }

  predicate Accepts(s: Storage, c: Step) { Called(c.0, s, c.1).Accepted? }

  /** The administrator's key has a permit for `wrapped` pending. */
  predicate Ready(s: Storage) { HashOf(42) in PermitsOf(s, s.admin) }

  function Signing(s: Storage, c: Step): int { One(Accepts(s, c) && c.1.Permit?) }

  function Using(s: Storage, c: Step): int { One(Accepts(s, c) && c.1.Wrapped?) }

  /** An accepted permit by the administrator's key for `wrapped`, when none is pending. */
  function Renewing(s: Storage, c: Step): int {
    One(Accepts(s, c) && c.1.Permit? && c.0.hashKey(c.1.key) == s.admin && c.1.hash == HashOf(42) && !Ready(s))
  }

  lemma StepCounts(s: Storage, c: Step)
    ensures Stepped(s, c).admin == s.admin
    ensures Stepped(s, c).counter == s.counter + Signing(s, c)
    ensures One(Ready(Stepped(s, c))) == One(Ready(s)) + Renewing(s, c) - Using(s, c)
  {}

  /** The counter is its start plus the accepted permits, and every use of `wrapped` spends either
      the permit pending at the start or one the administrator's key has submitted since. */
  lemma UsesArePaidFor(s: Storage, run: seq<Step>)
    ensures var s' := After(Stepped, s, run);
      && s'.counter == s.counter + Total(Stepped, Signing, s, run)
      && Total(Stepped, Using, s, run) + One(Ready(s')) == Total(Stepped, Renewing, s, run) + One(Ready(s))
  {
    hide Stepped, Ready, Signing, Using, Renewing;
    var any, all := (c: Step) => true, (t: Storage) => true;
    var spent := (t: Storage, c: Step) => Renewing(t, c) - Using(t, c);
    forall t, c ensures Stepped(t, c).counter == t.counter + Signing(t, c)
                && One(Ready(Stepped(t, c))) == One(Ready(t)) + spent(t, c) { StepCounts(t, c); }
    RunKeeps(Stepped, any, all, (t: Storage) => t.counter, Signing, s, run);
    RunKeeps(Stepped, any, all, (t: Storage) => One(Ready(t)), spent, s, run);
    TotalOfDifference(s, run);
  }

  lemma {:induction false} TotalOfDifference(s: Storage, run: seq<Step>)
    ensures Total(Stepped, (t: Storage, c: Step) => Renewing(t, c) - Using(t, c), s, run) ==
      Total(Stepped, Renewing, s, run) - Total(Stepped, Using, s, run)
    decreases |run|
  {
    hide Stepped, Renewing, Using;
    if run != [] { TotalOfDifference(Stepped(s, run[0]), run[1..]); }
  }

  /** Between two accepted uses of `wrapped` the administrator's key has had a new permit accepted. */
  lemma UseNeedsNewPermit(s: Storage, run: seq<Step>, i: nat, j: nat)
    requires i < j < |run| && run[i].1.Wrapped? && run[j].1.Wrapped?
    requires Accepts(After(Stepped, s, run[..i]), run[i]) && Accepts(After(Stepped, s, run[..j]), run[j])
    ensures exists k :: i < k < j && Renewing(After(Stepped, s, run[..k]), run[k]) == 1
  {
    hide Stepped, Called, Ready, PermitsOf;
    var t, u := After(Stepped, s, run[..i + 1]), After(Stepped, s, run[..j]);
    UseSpends(After(Stepped, s, run[..i]), run[i]);
    UseSpends(u, run[j]);
    AfterNext(Stepped, s, run, i);
    AfterSplit(Stepped, s, run, i + 1, j);
    UsesArePaidFor(t, run[i + 1..j]);
    TotalIsNat(Stepped, Using, t, run[i + 1..j]);
    var k := GainBetween(Stepped, Renewing, s, run, i + 1, j);
  }

  lemma UseSpends(s: Storage, c: Step)
    requires Accepts(s, c) && c.1.Wrapped?
    ensures Ready(s) && !Ready(Stepped(s, c))
  {}

  // ---------------------------------------------------------------- what each call asks and does

  /** A permit is accepted exactly when its signature fits the chain, this contract, the counter and the
      hash. It is added to those of the key's account, and the counter moves on by one. */
  lemma PermitAcceptedIff(e: Env, s: Storage, key: string, sig: string, hash: Bytes, v: Account, h: Bytes)
    ensures var r := Called(e, s, Permit(key, sig, hash));
      var message := Packed(VPair(VPair(VStr(e.chain), VAddr(e.self)), VPair(VInt(s.counter), VBytes(hash))));
      && (r.Accepted? <==> e.verify(key, sig, message))
      && (r.Accepted? ==>
            && r.storage.counter == s.counter + 1 && r.storage.admin == s.admin
            && (h in PermitsOf(r.storage, v) <==> h in PermitsOf(s, v) || (v, h) == (e.hashKey(key), hash)))
  {}

  /** `wrapped` is accepted, whoever calls it, exactly for 42 with a permit of the administrator for 42;
      that permit is gone afterwards and no other. */
  lemma WrappedAcceptedIff(e: Env, s: Storage, n: nat, v: Account, h: Bytes)
    ensures var needed := Hashed(Packed(VInt(42))); var r := Called(e, s, Wrapped(n));
      && (r.Accepted? <==> n == 42 && s.admin in s.permits && needed in s.permits[s.admin])
      && (r.Accepted? ==>
            && r.storage == s.(permits := r.storage.permits)
            && (h in PermitsOf(r.storage, v) <==> h in PermitsOf(s, v) && (v, h) != (s.admin, needed)))
  {}

  /** Equal messages are for the same chain, contract, counter and hash. */
  lemma MessagesDiffer(d: Env, e: Env, m: nat, n: nat, g: Bytes, h: Bytes)
    ensures Message(d, m, g) == Message(e, n, h) <==> d.chain == e.chain && d.self == e.self && m == n && g == h
  {}

  // ---------------------------------------------------------------- messages

  /** No signed message is accepted twice: the counter inside the signed bytes has moved on. */
  lemma NoMessageTwice(s: Storage, run: seq<Step>, i: nat, j: nat)
    requires i < j < |run| && run[i].1.Permit? && run[j].1.Permit?
    requires Accepts(After(Stepped, s, run[..i]), run[i])
    ensures Message(run[i].0, After(Stepped, s, run[..i]).counter, run[i].1.hash) !=
            Message(run[j].0, After(Stepped, s, run[..j]).counter, run[j].1.hash)
  {
    hide Stepped, Called;
    forall t, c ensures Stepped(t, c).counter == t.counter + Signing(t, c) { StepCounts(t, c); }
    LaterIsMore(Stepped, (t: Storage) => true, (t: Storage) => t.counter, Signing, s, run, i, j);
  }

  // ---------------------------------------------------------------- the contract, step by step

  type Reply = Contracts.Reply<()>

  class PermitContract {
    var permits: map<Account, set<Bytes>>
    var counter: nat
    var admin: Account

    function State(): (s: Storage)
      reads this
    {
      Storage(permits, counter, admin)
    }

    constructor (s: Storage)
      ensures State() == s
    {
      permits, counter, admin := s.permits, s.counter, s.admin;
    }

    method Permit(e: Env, key: string, sig: string, hash: Bytes) returns (reply: Reply)
      modifies this
      ensures Follows(old(State()), Called(e, old(State()), Call.Permit(key, sig, hash)), State(), reply)
    {
      var message := Message(e, counter, hash);
      if !e.verify(key, sig, message) { return Reverted(Failed(VPair(VStr("missigned"), VBytes(message)))); }
      var user := e.hashKey(key);
      counter := counter + 1;
      var held := {};
      if user in permits { held := permits[user]; }
      permits := permits[user := held + {hash}];
      return Emitted(());
    }

    method Wrapped(n: nat) returns (reply: Reply)
      modifies this
      ensures Follows(old(State()), Used(old(State()), n), State(), reply)
    {
      if n != 42 { return Reverted(Failed(VStr("not 42"))); }
      var hash := HashOf(n);
      if admin !in permits { return Reverted(Failed(VPair(VBytes(hash), VAddr(admin)))); }
      if hash !in permits[admin] { return Reverted(Failed(EncodeSet(permits[admin]))); }
      permits := permits[admin := permits[admin] - {hash}];
      return Emitted(());
    }

    /** A whole run of calls, one after the other. */
    method Serve(run: seq<Step>)
      modifies this
      ensures State() == After(Stepped, old(State()), run)
    {
      ghost var start := State();
      for i := 0 to |run|
        invariant After(Stepped, start, run) == After(Stepped, State(), run[i..])
      {
        AfterRest(Stepped, State(), run, i);
        var e := run[i].0;
        var reply;
        match run[i].1 {
          case Permit(key, sig, hash) => reply := Permit(e, key, sig, hash);
          case Wrapped(n) => reply := Wrapped(n);
        }
      }
    }
  }
}
