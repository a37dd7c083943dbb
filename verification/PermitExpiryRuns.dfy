/** How often and how long expiring permits can be used, over every run. */
module PermitExpiryRuns {
  import opened Michelson
  import opened Contracts
  import opened PermitExpiry
  import opened Runs

  type Step = (Env, Call)

  function Stepped(s: Storage, c: Step): Storage {
    Next(s, Called(c.0, s, c.1))
  }

  predicate Accepts(s: Storage, c: Step) { Called(c.0, s, c.1).Accepted? }

  predicate Present(s: Storage, user: Account, hash: Bytes) { user in s.users && hash in s.users[user].grants }

  /** An accepted call that needed the permit `hash` of `user`. */
  predicate Uses(s: Storage, c: Step, user: Account, hash: Bytes) {
    && Accepts(s, c)
    && match c.1
       case SetExpiry(scope, u, seconds) =>
         c.0.sender != u && user == u && hash == HashOf(EncodeExpiryArgs(scope, u, seconds))
       case Wrapped(n) => c.0.sender != s.admin && user == s.admin && hash == HashOf(EncodeCall(Wrapped(n)))
       case _ => false
  }

  predicate Submits(s: Storage, c: Step, user: Account, hash: Bytes) {
    Accepts(s, c) && c.1.Permit? && c.0.hashKey(c.1.key) == user && c.1.hash == hash
  }

  function Using(user: Account, hash: Bytes): (Storage, Step) -> int {
    (s: Storage, c: Step) => One(Uses(s, c, user, hash))
  }

  /** Submissions that find no such permit pending. */
  function Renewing(user: Account, hash: Bytes): (Storage, Step) -> int {
    (s: Storage, c: Step) => One(Submits(s, c, user, hash) && !Present(s, user, hash))
  }

  /** The permit's time has not come: strictly before its creation plus its own expiry, or plus the
      default when it has none of its own. */
  predicate InTime(e: Env, s: Storage, user: Account, hash: Bytes)
    requires Present(s, user, hash)
  {
    match s.users[user].grants[hash]
    case Grant(since, Within(seconds)) => e.now < since + seconds
    case Grant(since, Unset) => e.now < since + s.defaultExpiry
  }

  lemma SpentRemoves(e: Env, s: Storage, user: Account, hash: Bytes, v: Account, h: Bytes)
    requires Spent(e, s, user, hash).Accepted?
    ensures var s' := Spent(e, s, user, hash).storage;
      && Present(s, user, hash) && InTime(e, s, user, hash)
      && s' == s.(users := s'.users)
      && (Present(s', v, h) <==> Present(s, v, h) && (v, h) != (user, hash))
      && (Present(s', v, h) ==> s'.users[v].grants[h] == s.users[v].grants[h])
  {}

  lemma AppliedKeeps(s: Storage, scope: Scope, user: Account, seconds: nat, v: Account, h: Bytes)
    requires ExpiryApplied(s, scope, user, seconds).Accepted?
    ensures var s' := ExpiryApplied(s, scope, user, seconds).storage;
      && s' == s.(users := s'.users)
      && (Present(s', v, h) <==> Present(s, v, h))
      && (Present(s', v, h) ==> s'.users[v].grants[h].since == s.users[v].grants[h].since)
  {}

  /** A use removes the one permit it needs, which was live; a submission adds one; no other call
      changes which permits there are, and no permit that survives changes its creation time
      unless it is submitted anew. */
  lemma StepKeeps(s: Storage, c: Step, v: Account, h: Bytes)
    ensures var s' := Stepped(s, c);
      && s'.counter == s.counter && s'.admin == s.admin
      && (Uses(s, c, v, h) ==> Present(s, v, h) && !Present(s', v, h))
      && (Uses(s, c, v, h) && s.users[v].grants[h].expiry.Within? ==>
            c.0.now < s.users[v].grants[h].since + s.users[v].grants[h].expiry.seconds)
      && (Uses(s, c, v, h) && s.users[v].grants[h].expiry.Unset? ==>
            c.0.now < s.users[v].grants[h].since + s.defaultExpiry)
      && (Submits(s, c, v, h) ==> Present(s', v, h) && s'.users[v].grants[h] == Grant(c.0.now, Unset))
      && (!Uses(s, c, v, h) && !Submits(s, c, v, h) ==> (Present(s', v, h) <==> Present(s, v, h)))
      && (!Submits(s, c, v, h) && Present(s', v, h) ==> s'.users[v].grants[h].since == s.users[v].grants[h].since)
  {
    hide Spent, ExpiryApplied;
    if Accepts(s, c) {
      match c.1
      case SetExpiry(scope, user, seconds) =>
        var hash := HashOf(EncodeExpiryArgs(scope, user, seconds));
        var spent := if c.0.sender == user then Accepted(s, ()) else Spent(c.0, s, user, hash);
        if c.0.sender != user { SpentRemoves(c.0, s, user, hash, v, h); }
        AppliedKeeps(spent.storage, scope, user, seconds, v, h);
      case Wrapped(n) =>
        if c.0.sender != s.admin { SpentRemoves(c.0, s, s.admin, HashOf(EncodeCall(c.1)), v, h); }
      case _ =>
    }
  }

  /** Every use of a permit spends either the one present at the start or one submitted since when
      none was pending: uses and what is left balance submissions and what was there. */
  lemma UsesArePaidFor(s: Storage, run: seq<Step>, user: Account, hash: Bytes)
    ensures var s' := After(Stepped, s, run);
      Total(Stepped, Using(user, hash), s, run) + One(Present(s', user, hash)) ==
      Total(Stepped, Renewing(user, hash), s, run) + One(Present(s, user, hash))
  {
    hide Stepped, Uses, Submits, Present;
    var measure := (t: Storage) => One(Present(t, user, hash));
    var net := (t: Storage, c: Step) => Renewing(user, hash)(t, c) - Using(user, hash)(t, c);
    forall t, c ensures measure(Stepped(t, c)) == measure(t) + net(t, c) { StepBalances(t, c, user, hash); }
    RunKeeps(Stepped, (c: Step) => true, (t: Storage) => true, measure, net, s, run);
    TotalOfDifference(s, run, user, hash);
  }

  lemma StepBalances(s: Storage, c: Step, user: Account, hash: Bytes)
    ensures One(Present(Stepped(s, c), user, hash)) ==
      One(Present(s, user, hash)) + Renewing(user, hash)(s, c) - Using(user, hash)(s, c)
  {
    hide Stepped, Accepts, Present;
    StepKeeps(s, c, user, hash);
  }

  lemma {:induction false} TotalOfDifference(s: Storage, run: seq<Step>, user: Account, hash: Bytes)
    ensures Total(Stepped, (t: Storage, c: Step) => Renewing(user, hash)(t, c) - Using(user, hash)(t, c), s, run) ==
      Total(Stepped, Renewing(user, hash), s, run) - Total(Stepped, Using(user, hash), s, run)
    decreases |run|
  {
    hide Stepped, Uses, Submits, Present;
    if run != [] { TotalOfDifference(Stepped(s, run[0]), run[1..], user, hash); }
  }

  /** The counter is signed but stands still, so a signed message is never used up: after any run a
      submission is accepted exactly when its signature fits the message of the first day. */
  lemma PermitsCanBeReplayed(s: Storage, run: seq<Step>, e: Env, key: string, sig: string, hash: Bytes)
    ensures Accepts(After(Stepped, s, run), (e, Permit(key, sig, hash))) <==>
      e.verify(key, sig, Message(e, s.counter, hash))
  {
    hide Stepped;
    forall t, c ensures Stepped(t, c).counter == t.counter { StepKeeps(t, c, "", Raw("")); }
    RunKeeps(Stepped, (c: Step) => true, (t: Storage) => t.counter == s.counter,
      (t: Storage) => 0, (t: Storage, c: Step) => 0, s, run);
  }

  // ---------------------------------------------------------------- what each call asks and does

  /** A stranger's `wrapped` is accepted exactly for 42 and with a permit of the administrator, for just
      this call, that is there and in time; it is used up. The administrator needs none. */
  lemma WrappedAcceptedIff(e: Env, s: Storage, n: nat)
    ensures var hash := Hashed(Packed(VRight(VRight(VRight(VInt(n))))));
      var needed := s.admin in s.users && hash in s.users[s.admin].grants;
      var r := Called(e, s, Wrapped(n));
      && (e.sender == s.admin ==> (r.Accepted? <==> n == 42) && (n == 42 ==> r.storage == s))
      && (e.sender != s.admin && needed && s.users[s.admin].grants[hash].expiry.Within? ==>
            (r.Accepted? <==>
              && n == 42
              && e.now < s.users[s.admin].grants[hash].since + s.users[s.admin].grants[hash].expiry.seconds))
      && (e.sender != s.admin && needed && s.users[s.admin].grants[hash].expiry.Unset? ==>
            (r.Accepted? <==> n == 42 && e.now < s.users[s.admin].grants[hash].since + s.defaultExpiry))
      && (e.sender != s.admin && !needed ==> r.Refused?)
  {}

  /** A permit is accepted exactly when its signature fits the chain, this contract, the counter and the
      hash; it is entered under the key's account with the current time and no expiry of its own. */
  lemma PermitAcceptedIff(e: Env, s: Storage, key: string, sig: string, hash: Bytes, v: Account, h: Bytes)
    ensures var r := Called(e, s, Permit(key, sig, hash));
      var message := Packed(VPair(VPair(VStr(e.chain), VAddr(e.self)), VPair(VInt(s.counter), VBytes(hash))));
      && (r.Accepted? <==> e.verify(key, sig, message))
      && (r.Accepted? ==>
            && (Present(r.storage, v, h) <==> Present(s, v, h) || (v, h) == (e.hashKey(key), hash))
            && (Present(r.storage, v, h) && (v, h) == (e.hashKey(key), hash) ==>
                  r.storage.users[v].grants[h] == Grant(e.now, Unset))
            && (Present(r.storage, v, h) && (v, h) != (e.hashKey(key), hash) ==>
                  r.storage.users[v].grants[h] == s.users[v].grants[h]))
  {}

  /** Equal messages are for the same chain, contract, counter and hash. */
  lemma MessagesDiffer(d: Env, e: Env, m: nat, n: nat, g: Bytes, h: Bytes)
    ensures Message(d, m, g) == Message(e, n, h) <==> d.chain == e.chain && d.self == e.self && m == n && g == h
  {}

  /** The default expiry is the administrator's to set; permits stay as they are. */
  lemma DefaultAcceptedIff(e: Env, s: Storage, seconds: nat)
    ensures var r := Called(e, s, DefaultExpiry(seconds));
      && (r.Accepted? <==> e.sender == s.admin)
      && (r.Accepted? ==> r.storage == s.(defaultExpiry := seconds))
  {}

  /** The expiry of one permit: its owner sets it freely, anybody else by spending a permit of the owner
      for this very call, and the permit must be there (and not be the one spent). Zero seconds take
      its own expiry away. Nothing happens to any other permit but the spent one. */
  lemma ExpiryAcceptedIff(e: Env, s: Storage, hash: Bytes, user: Account, seconds: nat, v: Account, h: Bytes)
    ensures var spent := Hashed(Packed(VPair(VSome(VBytes(hash)), VPair(VAddr(user), VInt(seconds)))));
      var r := Called(e, s, SetExpiry(Single(hash), user, seconds));
      && (r.Accepted? <==>
            && Present(s, user, hash)
            && (e.sender == user || (Present(s, user, spent) && hash != spent && InTime(e, s, user, spent))))
      && (r.Accepted? ==>
            && (Present(r.storage, v, h) <==> Present(s, v, h) && (e.sender == user || (v, h) != (user, spent)))
            && (Present(r.storage, v, h) ==>
                  && r.storage.users[v].grants[h].since == s.users[v].grants[h].since
                  && r.storage.users[v].grants[h].expiry ==
                       if (v, h) != (user, hash) then s.users[v].grants[h].expiry
                       else if seconds == 0 then Unset else Within(seconds)))
  {
    var spent := HashOf(EncodeExpiryArgs(Single(hash), user, seconds));
    if e.sender != user && Spent(e, s, user, spent).Accepted? { SpentRemoves(e, s, user, spent, user, hash); }
  }

  // ---------------------------------------------------------------- the expiry of a user

  /** Equal but for the expiries stored with the users themselves. */
  predicate SamePermits(s: Storage, t: Storage) {
    && t == s.(users := t.users) && s.users.Keys == t.users.Keys
    && forall u | u in s.users :: s.users[u].grants == t.users[u].grants
  }

  lemma SpentAlike(e: Env, s: Storage, t: Storage, user: Account, hash: Bytes)
    requires SamePermits(s, t)
    ensures Spent(e, s, user, hash).Accepted? <==> Spent(e, t, user, hash).Accepted?
    ensures Spent(e, s, user, hash).Accepted? ==>
      SamePermits(Spent(e, s, user, hash).storage, Spent(e, t, user, hash).storage)
  {}

  lemma AppliedAlike(s: Storage, t: Storage, scope: Scope, user: Account, seconds: nat)
    requires SamePermits(s, t)
    ensures ExpiryApplied(s, scope, user, seconds).Accepted? <==> ExpiryApplied(t, scope, user, seconds).Accepted?
    ensures ExpiryApplied(s, scope, user, seconds).Accepted? ==>
      SamePermits(ExpiryApplied(s, scope, user, seconds).storage, ExpiryApplied(t, scope, user, seconds).storage)
  {}

  lemma StepAlike(s: Storage, t: Storage, c: Step)
    requires SamePermits(s, t)
    ensures Accepts(s, c) <==> Accepts(t, c)
    ensures SamePermits(Stepped(s, c), Stepped(t, c))
  {
    hide Spent, ExpiryApplied;
    match c.1
    case SetExpiry(scope, user, seconds) =>
      var hash := HashOf(EncodeExpiryArgs(scope, user, seconds));
      SpentAlike(c.0, s, t, user, hash);
      var a := if c.0.sender == user then Accepted(s, ()) else Spent(c.0, s, user, hash);
      var b := if c.0.sender == user then Accepted(t, ()) else Spent(c.0, t, user, hash);
      if a.Accepted? { AppliedAlike(a.storage, b.storage, scope, user, seconds); }
    case Wrapped(n) => SpentAlike(c.0, s, t, s.admin, HashOf(EncodeCall(c.1)));
    case _ =>
  }

  /** The expiry a user sets for all of their permits is stored but never read: from two storages
      that differ in nothing else, every run accepts the same calls and leaves the same permits. */
  lemma {:induction false} UserExpiryIsNeverRead(s: Storage, t: Storage, run: seq<Step>, c: Step)
    requires SamePermits(s, t)
    ensures var s', t' := After(Stepped, s, run), After(Stepped, t, run);
      SamePermits(s', t') && (Accepts(s', c) <==> Accepts(t', c))
    decreases |run|
  {
    hide Stepped, Accepts, SamePermits;
    if run == [] { StepAlike(s, t, c); } else {
      StepAlike(s, t, run[0]);
      UserExpiryIsNeverRead(Stepped(s, run[0]), Stepped(t, run[0]), run[1..], c);
    }
  }

  // ---------------------------------------------------------------- the contract, step by step

  type Reply = Contracts.Reply<()>

  const REVERTED: Reply := Reverted(Failed(VUnit))

  class ExpiringPermits {
    const spare: Account
    const admin: Account
    var defaultExpiry: int
    var users: map<Account, User>
    var counter: nat

    function State(): (s: Storage)
      reads this
    {
      Storage(defaultExpiry, users, counter, spare, admin)
    }

    constructor (s: Storage)
      ensures State() == s
    {
      spare, admin, defaultExpiry, users, counter := s.spare, s.admin, s.defaultExpiry, s.users, s.counter;
    }

    method Permit(e: Env, key: string, sig: string, hash: Bytes) returns (reply: Reply)
      modifies this
      ensures Follows(old(State()), Called(e, old(State()), Call.Permit(key, sig, hash)), State(), reply)
    {
      if !e.verify(key, sig, Message(e, counter, hash)) { return REVERTED; }
      var user := e.hashKey(key);
      var u := User(Unset, map[]);
      if user in users { u := users[user]; }
      users := users[user := u.(grants := u.grants[hash := Grant(e.now, Unset)])];
      return Emitted(());
    }

    /** Use up the permit `hash` of `user`, if it is there and still live. */
    method Spend(e: Env, user: Account, hash: Bytes) returns (reply: Reply)
      modifies this
      ensures Follows(old(State()), Spent(e, old(State()), user, hash), State(), reply)
    {
      if user !in users || hash !in users[user].grants { return REVERTED; }
      var u := users[user];
      var g := u.grants[hash];
      if g.expiry.Within? {
        if e.now >= g.since + g.expiry.seconds { return REVERTED; }
      } else {
        if e.now >= g.since + defaultExpiry { return REVERTED; }
      }
      users := users[user := u.(grants := u.grants - {hash})];
      return Emitted(());
    }

    method SetExpiry(e: Env, scope: Scope, user: Account, seconds: nat) returns (reply: Reply)
      modifies this
      ensures Follows(old(State()), Called(e, old(State()), Call.SetExpiry(scope, user, seconds)), State(), reply)
    {
      var was := users;
      if e.sender != user {
        reply := Spend(e, user, HashOf(EncodeExpiryArgs(scope, user, seconds)));
        if reply.Reverted? { return; }
      }
      match scope {
        case Everything =>
          var u := User(Unset, map[]);
          if user in users { u := users[user]; }
          users := users[user := u.(expiry := OfSeconds(seconds))];
        case Single(hash) =>
          if user !in users || hash !in users[user].grants {
            users := was;
            return REVERTED;
          }
          var u := users[user];
          users := users[user := u.(grants := u.grants[hash := u.grants[hash].(expiry := OfSeconds(seconds))])];
      }
      return Emitted(());
    }

    method DefaultExpiry(e: Env, seconds: nat) returns (reply: Reply)
      modifies this
      ensures Follows(old(State()), Called(e, old(State()), Call.DefaultExpiry(seconds)), State(), reply)
    {
      if e.sender != admin { return REVERTED; }
      defaultExpiry := seconds;
      return Emitted(());
    }

    method Wrapped(e: Env, n: nat) returns (reply: Reply)
      modifies this
      ensures Follows(old(State()), Called(e, old(State()), Call.Wrapped(n)), State(), reply)
    {
      if n != 42 { return REVERTED; }
      if e.sender == admin { return Emitted(()); }
      reply := Spend(e, admin, HashOf(EncodeCall(Call.Wrapped(n))));
    }

    /** A whole run of calls, one after the other. */
    method Serve(run: seq<Step>)
      modifies this
      ensures State() == After(Stepped, old(State()), run)
    {
      ghost var start := State();
      for i := 0 to |run|
        invariant After(Stepped, start, run) == After(Stepped, State(), run[i..])
      {
        AfterRest(Stepped, State(), run, i);
        var e := run[i].0;
        var reply;
        match run[i].1 {
          case Permit(key, sig, hash) => reply := Permit(e, key, sig, hash);
          case SetExpiry(scope, user, seconds) => reply := SetExpiry(e, scope, user, seconds);
          case DefaultExpiry(seconds) => reply := DefaultExpiry(e, seconds);
          case Wrapped(n) => reply := Wrapped(e, n);
        }
      }
    }
  }
}
