/** Permits that expire: each user has a map of granted hashes with their creation times. */
module PermitExpiry {
  import opened Michelson
  import opened Contracts
  import opened Rules
  import opened Encoding

  const TAKE_GRANT: Code :=
    Do8(GET, IF_NONE(Seq2(UNIT, FAILWITH), Done), DUP, CDR, IF_NONE(Seq2(CAR, SOME), Do8(SWAP, CAR, SWAP, ADD, NOW,
    COMPARE, LT, IF(Done, Seq2(UNIT, FAILWITH)), Seq1(NONE))), SWAP, DUP, CDR, Seq2(DIP(Seq1(CAR)), NONE))

  const TAKE_USER: Code :=
    Seq6(DIG(2), DUP, DIP(Seq5(CDR, GET, IF_NONE(Seq2(UNIT, FAILWITH), Done), DUP, CDR)), DUP, DIP(Seq7(CAR, DUP,
    DIP(TAKE_GRANT), UPDATE, SWAP, PAIR, SOME)), CDR)

  const CONSUME: Code :=
    Do8(CDR, DUP, CAR, DIP(Seq1(CDR)), DUP, CDR, DIP(Seq5(CAR, DUP, DIP(TAKE_USER), DUG(2), UPDATE)), SWAP, Seq2(PAIR,
    SWAP))

  const CHECK_DEFAULT: Code :=
    Seq3(SWAP, IF_NONE(Seq1(DROP), Seq6(SWAP, ADD, NOW, COMPARE, LT, IF(Done, Seq2(UNIT, FAILWITH)))), PAIR)

  const NEW_RECORD: Code :=
    Seq3(GET, IF_NONE(Seq5(SWAP, INT, DUP, EQ, IF(Seq4(DROP, EMPTY_MAP, NONE, PAIR), Seq4(SOME, EMPTY_MAP, SWAP,
    PAIR))), Seq6(DIG(2), INT, DUP, EQ, IF(Seq3(DROP, CDR, NONE), Seq2(SOME, DIP(Seq1(CDR)))), PAIR)), SOME)

  const STORE_RECORD: Code :=
    Seq6(DIP(NEW_RECORD), UPDATE, PAIR, DIG(2), DIP(Seq1(PAIR)), PAIR)

  const SET_USER: Code :=
    Do5(DIP(Do8(DUP, DIP(Seq1(CAR)), CDR, DUP, CAR, DIP(Seq1(CDR)), DUP, CAR, Seq1(DIP(Seq1(CDR))))), DUP,
    DIP(Seq3(CDR, SWAP, DUP)), CAR, DUP, STORE_RECORD)

  const NEW_GRANT: Code :=
    Do8(GET, IF_NONE(Seq2(UNIT, FAILWITH), Done), CAR, SWAP, INT, DUP, EQ, IF(Seq2(DROP, NONE), Seq1(SOME)),
    Seq3(SWAP, PAIR, SOME))

  const STORE_GRANT: Code :=
    Do8(DIP(Seq5(CDR, DUP, DIP(Seq3(SWAP, DUP, DIP(NEW_GRANT))), DUG(2), UPDATE)), PAIR, SOME, SWAP, UPDATE, PAIR,
    DIG(2), DIP(Seq1(PAIR)), Seq1(PAIR))

  const SET_GRANT: Code :=
    Do4(DIP(Seq4(DIP(Do8(DUP, DIP(Seq1(CAR)), CDR, DUP, CAR, DIP(Seq1(CDR)), DUP, CAR, Seq2(DIP(Seq1(CDR)), DUP))),
    DUP, CDR, DIP(Seq4(CAR, DUP, DIP(Seq2(GET, IF_NONE(Seq2(UNIT, FAILWITH), Done))), SWAP)))), DIG(2), DUP, CAR,
    STORE_GRANT)

  const SPEND: Code :=
    Seq6(DUP, CAR, DIP(CONSUME), DUP, DIP(CHECK_DEFAULT), PAIR)

  const SPEND_FOR: Code :=
    Do8(SWAP, PACK, BLAKE2B, PAIR, SWAP, DUP, CAR, DIP(Seq1(CDR)), Seq2(DIP(SPEND), PAIR))

  const APPLY_EXPIRY: Code :=
    Seq3(IF_NONE(SET_USER, SET_GRANT), NIL, PAIR)

  const SET_EXPIRY: Code :=
    Do3(DUP, CAR, DIP(Seq4(DUP, CDR, DUP, DIP(Seq7(CAR, DUP, SENDER, COMPARE, EQ, IF(Seq2(DROP, DROP), SPEND_FOR),
    CDR)))), APPLY_EXPIRY)

  const ADD_GRANT: Code :=
    Seq8(DUP, DIP(Seq8(CDR, DIP(Seq1(DUP)), GET, IF_NONE(Seq2(NONE, EMPTY_MAP), Seq3(DUP, CDR, DIP(Seq1(CAR)))), NONE,
    NOW, PAIR, SOME)), DUP, CDR, DIP(Seq5(CAR, UPDATE, SWAP, PAIR, SOME)), UPDATE, PAIR, PAIR)

  const ADD_PERMIT: Code :=
    Seq7(SWAP, DIP(Seq3(DUP, CAR, DIP(Seq7(CDR, DUP, CAR, DIP(Seq1(CDR)), DUP, CAR, DIP(Seq1(CDR)))))), SWAP,
    DIP(ADD_GRANT), PAIR, NIL, PAIR)

  const CHECK_PERMIT: Code :=
    Do2(CHECK_SIGNATURE, IF(Seq1(DROP), Seq4(PUSH(VStr("missigned")), PAIR, UNIT, FAILWITH)), ADD_PERMIT)

  const PERMIT: Code :=
    Do5(DUP, CAR, DUP, DIP(Seq5(SWAP, CDR, DUP, CAR, DIP(Do8(CDR, DUP, DIP(Seq3(DIP(Seq3(HASH_KEY, IMPLICIT_ACCOUNT,
    ADDRESS)), PAIR, SWAP)), SWAP, CDR, DUP, CDR, CAR, Do8(CDR, CAR, DIP(Seq1(SWAP)), PAIR, SELF, ADDRESS, CHAIN_ID,
    PAIR, Seq2(PAIR, PACK)))))), DIP(Seq1(DIP(Seq1(DUP)))), CHECK_PERMIT)

  const SPEND_ADMIN: Code :=
    Do5(DIG(2), PACK, BLAKE2B, PAIR, SWAP, SPEND)

  const WRAPPED: Code :=
    Do8(PUSH(VInt(42)), COMPARE, EQ, IF(Done, Seq2(UNIT, FAILWITH)), DUP, DIP(Seq1(CAR)), CDR, DUP, Do8(CDR, CDR, DUP,
    SENDER, COMPARE, EQ, IF(Seq3(DROP, SWAP, DROP), SPEND_ADMIN), NIL, Seq1(PAIR)))

  const DEFAULT_EXPIRY: Code :=
    Do8(DIP(Seq1(CDR)), SWAP, DUP, CDR, CDR, SENDER, COMPARE, EQ, Seq7(IF(Done, Seq2(UNIT, FAILWITH)), SWAP, INT,
    DIP(Seq1(CDR)), PAIR, NIL, PAIR))

  const PERMIT_EXPIRY: Code :=
    Seq3(DUP, CAR, IF_LEFT(PERMIT, Seq1(IF_LEFT(SET_EXPIRY, Seq1(IF_LEFT(DEFAULT_EXPIRY, WRAPPED))))))

  // ---------------------------------------------------------------- specification

  datatype Expiry = Unset | Within(seconds: int)

  datatype Grant = Grant(since: int, expiry: Expiry)

  datatype User = User(expiry: Expiry, grants: map<Bytes, Grant>)

  /** `spare` is stored next to the counter and never used. */
  datatype Storage = Storage(defaultExpiry: int, users: map<Account, User>, counter: nat, spare: Account,
    admin: Account)

  /** A permit is set by hash; without a hash the expiry is the user's. */
  datatype Scope = Everything | Single(hash: Bytes)

  datatype Call =
    | Permit(key: string, sig: string, hash: Bytes)
    | SetExpiry(scope: Scope, user: Account, seconds: nat)
    | DefaultExpiry(seconds: nat)
    | Wrapped(n: nat)

  type Result = Answer<Storage, ()>

  const FAILURE: Result := Refused(Failed(VUnit))

  function UserOf(s: Storage, user: Account): User {
    if user in s.users then s.users[user] else User(Unset, map[])
  }

  function Message(e: Env, counter: nat, hash: Bytes): Bytes {
    Packed(VPair(VPair(VStr(e.chain), VAddr(e.self)), VPair(VInt(counter), VBytes(hash))))
  }

  /** The hash of the parameter a permit stands for. */
  function HashOf(parameter: Value): Bytes { Hashed(Packed(parameter)) }

  /** The counter is signed but never advanced. */
  function Permitted(e: Env, s: Storage, key: string, sig: string, hash: Bytes): Result {
    if !e.verify(key, sig, Message(e, s.counter, hash)) then FAILURE
    else
      var user := e.hashKey(key);
      var u := UserOf(s, user);
      Accepted(s.(users := s.users[user := u.(grants := u.grants[hash := Grant(e.now, Unset)])]), ())
  }

  /** A grant is live before its own expiry if it has one, and before the default otherwise. */
  predicate Live(g: Grant, defaultExpiry: int, now: int) {
    now < g.since + (if g.expiry.Within? then g.expiry.seconds else defaultExpiry)
  }

  function Spent(e: Env, s: Storage, user: Account, hash: Bytes): (r: Result)
    ensures r.Refused? ==> r == FAILURE
  {
    if user !in s.users || hash !in s.users[user].grants
      || !Live(s.users[user].grants[hash], s.defaultExpiry, e.now) then FAILURE
    else
      var u := s.users[user];
      Accepted(s.(users := s.users[user := u.(grants := u.grants - {hash})]), ())
  }

  function OfSeconds(n: nat): Expiry { if n == 0 then Unset else Within(n) }

  function ExpiryApplied(s: Storage, scope: Scope, user: Account, seconds: nat): (r: Result)
    ensures r.Refused? ==> r == FAILURE
  {
    match scope
    case Everything => Accepted(s.(users := s.users[user := UserOf(s, user).(expiry := OfSeconds(seconds))]), ())
    case Single(hash) =>
      if user !in s.users || hash !in s.users[user].grants then FAILURE
      else
        var u := s.users[user];
        Accepted(s.(users :=
          s.users[user := u.(grants := u.grants[hash := u.grants[hash].(expiry := OfSeconds(seconds))])]), ())
  }

  /** The user sets expiries freely, anybody else by spending a permit of the user for this call. */
  function ExpirySet(e: Env, s: Storage, scope: Scope, user: Account, seconds: nat): Result {
    var spent :=
      if e.sender == user then Accepted(s, ()) else Spent(e, s, user, HashOf(EncodeExpiryArgs(scope, user, seconds)));
    match spent
    case Accepted(s', _) => ExpiryApplied(s', scope, user, seconds)
    case refused => refused
  }

  function Wrap(e: Env, s: Storage, n: nat): Result {
    if n != 42 then FAILURE
    else if e.sender == s.admin then Accepted(s, ())
    else Spent(e, s, s.admin, HashOf(EncodeCall(Wrapped(n))))
  }

  function Called(e: Env, s: Storage, call: Call): (r: Result)
    ensures r.Refused? ==> !r.why.Ok?
  {
    match call
    case Permit(key, sig, hash) => Permitted(e, s, key, sig, hash)
    case SetExpiry(scope, user, seconds) => ExpirySet(e, s, scope, user, seconds)
    case DefaultExpiry(seconds) => if e.sender != s.admin then FAILURE else Accepted(s.(defaultExpiry := seconds), ())
    case Wrapped(n) => Wrap(e, s, n)
  }

  // ---------------------------------------------------------------- encoding

  function EncodeExpiryArgs(scope: Scope, user: Account, seconds: nat): Value {
    VPair(if scope.Everything? then VNone else VSome(VBytes(scope.hash)), VPair(VAddr(user), VInt(seconds)))
  }

  function EncodeCall(call: Call): Value {
    match call
    case Permit(key, sig, hash) => VLeft(VPair(VKey(key), VPair(VSig(sig), VBytes(hash))))
    case SetExpiry(scope, user, seconds) => VRight(VLeft(EncodeExpiryArgs(scope, user, seconds)))
    case DefaultExpiry(seconds) => VRight(VRight(VLeft(VInt(seconds))))
    case Wrapped(n) => VRight(VRight(VRight(VInt(n))))
  }

  function EncodeExpiry(x: Expiry): Value { if x.Unset? then VNone else VSome(VInt(x.seconds)) }

  function EncodeGrant(g: Grant): Value { VPair(VInt(g.since), EncodeExpiry(g.expiry)) }

  function BytesKey(b: Bytes): Value { VBytes(b) }

  ghost function GrantsMap(m: map<Bytes, Grant>): map<Value, Value> { EncodeMap(m, BytesKey, EncodeGrant) }

  ghost function EncodeUser(u: User): Value { VPair(EncodeExpiry(u.expiry), VMap(GrantsMap(u.grants))) }

  ghost function UsersMap(m: map<Account, User>): map<Value, Value> { EncodeMap(m, AccountKey, EncodeUser) }

  lemma GrantsAt(m: map<Bytes, Grant>, h: Bytes, g: Grant)
    ensures Lookup(VBytes(h), GrantsMap(m)) == if h in m then VSome(EncodeGrant(m[h])) else VNone
    ensures GrantsMap(m)[VBytes(h) := EncodeGrant(g)] == GrantsMap(m[h := g])
    ensures GrantsMap(m) - {VBytes(h)} == GrantsMap(m - {h})
  {
    EncodedAt(m, BytesKey, EncodeGrant, h, g);
  }

  lemma UsersAt(m: map<Account, User>, a: Account, u: User)
    ensures Lookup(VAddr(a), UsersMap(m)) == if a in m then VSome(EncodeUser(m[a])) else VNone
    ensures UsersMap(m)[VAddr(a) := EncodeUser(u)] == UsersMap(m[a := u])
  {
    EncodedAt(m, AccountKey, EncodeUser, a, u);
  }

  ghost function Inner(s: Storage): Value { VPair(VMap(UsersMap(s.users)), VPair(VInt(s.counter), VAddr(s.spare))) }

  ghost function EncodeStorage(s: Storage): Value { VPair(VInt(s.defaultExpiry), VPair(Inner(s), VAddr(s.admin))) }

  ghost function EncodeResult(r: Result): Outcome {
    match r
    case Accepted(s, _) => Ok(Push(VPair(VList([]), EncodeStorage(s)), Empty))
    case Refused(why) => why
  }

  // ---------------------------------------------------------------- spending a permit

  /** Left behind by a grant: its creation time if the default expiry is still to be checked. */
  function Mark(g: Grant): Value { if g.expiry.Unset? then VSome(VInt(g.since)) else VNone }

  predicate OwnExpired(g: Grant, now: int) { g.expiry.Within? && now >= g.since + g.expiry.seconds }

  lemma TakeGrantRuns(e: Env, f: nat, u: User, hash: Bytes, rest: Stack)
    ensures Run(e, f, TAKE_GRANT, Push(VBytes(hash), Push(VMap(GrantsMap(u.grants)), Push(EncodeUser(u), rest)))) ==
      if hash !in u.grants || OwnExpired(u.grants[hash], e.now) then Failed(VUnit)
      else Ok(Push(VNone,
        Push(VMap(GrantsMap(u.grants)), Push(EncodeExpiry(u.expiry), Push(Mark(u.grants[hash]), rest)))))
  {
    hide Run, Then, Step, Basic, GrantsMap;
    StackMachine(); DataMachine(); WorldMachine();
    GrantsAt(u.grants, hash, Grant(0, Unset));
  }

  lemma TakeUserRuns(e: Env, f: nat, s: Storage, user: Account, hash: Bytes, rest: Stack)
    ensures var who := VPair(VBytes(hash), VAddr(user));
      Run(e, f, TAKE_USER, Push(VMap(UsersMap(s.users)), Push(VAddr(s.admin), Push(who, rest)))) ==
      if user !in s.users || hash !in s.users[user].grants || OwnExpired(s.users[user].grants[hash], e.now) then
        Failed(VUnit)
      else
        var u := s.users[user];
        Ok(Push(VAddr(user), Push(VSome(EncodeUser(u.(grants := u.grants - {hash}))),
          Push(Mark(u.grants[hash]), Push(VAddr(s.admin), rest)))))
  {
    hide Run, Then, Step, Basic, GrantsMap, UsersMap, TAKE_GRANT, EncodeExpiry, OwnExpired, Mark;
    StackMachine(); DataMachine();
    UsersAt(s.users, user, User(Unset, map[]));
    if user in s.users {
      var u := s.users[user];
      TakeGrantRuns(e, f, u, hash, Push(VAddr(s.admin), rest));
      GrantsAt(u.grants, hash, Grant(0, Unset));
    }
  }

  lemma ConsumeRuns(e: Env, f: nat, s: Storage, user: Account, hash: Bytes)
    ensures var who := VPair(VBytes(hash), VAddr(user));
      Run(e, f, CONSUME, Push(EncodeStorage(s), Push(who, Empty))) ==
      if user !in s.users || hash !in s.users[user].grants || OwnExpired(s.users[user].grants[hash], e.now) then
        Failed(VUnit)
      else
        var u := s.users[user];
        Ok(Push(Mark(u.grants[hash]), Push(Inner(s.(users := s.users[user := u.(grants := u.grants - {hash})])),
          Push(VAddr(s.admin), Empty))))
  {
    hide Run, Then, Step, Basic, GrantsMap, UsersMap, TAKE_USER, OwnExpired, Mark, EncodeUser;
    StackMachine(); DataMachine();
    TakeUserRuns(e, f, s, user, hash, Empty);
    if user in s.users {
      var u := s.users[user];
      UsersAt(s.users, user, u.(grants := u.grants - {hash}));
    }
  }

  lemma CheckDefaultRuns(e: Env, f: nat, g: Grant, defaultExpiry: int, x: Value, y: Value)
    requires !OwnExpired(g, e.now)
    ensures Run(e, f, CHECK_DEFAULT, Push(VInt(defaultExpiry), Push(Mark(g), Push(x, Push(y, Empty))))) ==
      if Live(g, defaultExpiry, e.now) then Ok(Push(VPair(x, y), Empty)) else Failed(VUnit)
  {
    hide Run, Then, Step, Basic;
    StackMachine(); DataMachine(); WorldMachine();
  }

  /** What both uses leave: the new storage, or the failure. */
  ghost function AfterSpending(r: Result): Outcome {
    match r
    case Accepted(s, _) => Ok(Push(EncodeStorage(s), Empty))
    case Refused(why) => why
  }

  lemma SpendRuns(e: Env, f: nat, s: Storage, user: Account, hash: Bytes)
    ensures Run(e, f, SPEND, Push(EncodeStorage(s), Push(VPair(VBytes(hash), VAddr(user)), Empty))) ==
      AfterSpending(Spent(e, s, user, hash))
  {
    hide Run, Then, Step, Basic, CONSUME, CHECK_DEFAULT, Inner, Mark;
    StackMachine();
    ConsumeRuns(e, f, s, user, hash);
    if user in s.users && hash in s.users[user].grants && !OwnExpired(s.users[user].grants[hash], e.now) {
      var u := s.users[user];
      CheckDefaultRuns(e, f, u.grants[hash], s.defaultExpiry,
        Inner(s.(users := s.users[user := u.(grants := u.grants - {hash})])), VAddr(s.admin));
    }
  }

  lemma WrappedRuns(e: Env, f: nat, s: Storage, n: nat)
    ensures Run(e, f, WRAPPED, Push(VInt(n), Push(VPair(EncodeCall(Wrapped(n)), EncodeStorage(s)), Empty))) ==
      EncodeResult(Wrap(e, s, n))
  {
    hide Run, Then, Step, Basic, SPEND, Inner;
    StackMachine(); DataMachine(); WorldMachine();
    SpendRuns(e, f, s, s.admin, HashOf(EncodeCall(Wrapped(n))));
    hide Spent;
  }

  // ---------------------------------------------------------------- the other entrypoints

  lemma NewRecordRuns(e: Env, f: nat, m: map<Account, User>, user: Account, seconds: nat, rest: Stack)
    ensures var was := if user in m then m[user] else User(Unset, map[]);
      Run(e, f, NEW_RECORD,
        Push(VAddr(user), Push(VMap(UsersMap(m)), Push(VMap(UsersMap(m)), Push(VInt(seconds), rest))))) ==
      Ok(Push(VSome(EncodeUser(was.(expiry := OfSeconds(seconds)))), Push(VMap(UsersMap(m)), rest)))
  {
    hide Run, Then, Step, Basic, UsersMap, GrantsMap;
    StackMachine(); DataMachine();
    UsersAt(m, user, User(Unset, map[]));
    assert GrantsMap(map[]) == map[] by { NoGrants(); }
  }

  lemma NoGrants()
    ensures GrantsMap(map[]) == map[]
  {}

  lemma SetUserRuns(e: Env, f: nat, s: Storage, user: Account, seconds: nat)
    ensures Run(e, f, SET_USER, Push(VPair(VAddr(user), VInt(seconds)), Push(EncodeStorage(s), Empty))) ==
      AfterSpending(ExpiryApplied(s, Everything, user, seconds))
  {
    hide Run, Then, Step, Basic, UsersMap, STORE_RECORD;
    StackMachine();
    StoreRecordRuns(e, f, s, user, seconds);
  }

  lemma StoreRecordRuns(e: Env, f: nat, s: Storage, user: Account, seconds: nat)
    ensures var m := VMap(UsersMap(s.users));
      Run(e, f, STORE_RECORD, Push(VAddr(user), Push(VAddr(user), Push(m, Push(m, Push(VInt(seconds),
        Push(VPair(VInt(s.counter), VAddr(s.spare)), Push(VAddr(s.admin), Push(VInt(s.defaultExpiry), Empty))))))))) ==
      AfterSpending(ExpiryApplied(s, Everything, user, seconds))
  {
    hide Run, Then, Step, Basic, UsersMap, EncodeUser, NEW_RECORD;
    StackMachine(); DataMachine();
    var rest := Push(VPair(VInt(s.counter), VAddr(s.spare)), Push(VAddr(s.admin), Push(VInt(s.defaultExpiry), Empty)));
    NewRecordRuns(e, f, s.users, user, seconds, rest);
    UsersAt(s.users, user, UserOf(s, user).(expiry := OfSeconds(seconds)));
  }

  lemma NewGrantRuns(e: Env, f: nat, u: User, hash: Bytes, seconds: nat, rest: Stack)
    ensures Run(e, f, NEW_GRANT, Push(VBytes(hash), Push(VMap(GrantsMap(u.grants)), Push(VInt(seconds), rest)))) ==
      if hash !in u.grants then Failed(VUnit)
      else Ok(Push(VSome(EncodeGrant(u.grants[hash].(expiry := OfSeconds(seconds)))), rest))
  {
    hide Run, Then, Step, Basic, GrantsMap;
    StackMachine(); DataMachine();
    GrantsAt(u.grants, hash, Grant(0, Unset));
  }

  lemma SetGrantRuns(e: Env, f: nat, s: Storage, hash: Bytes, user: Account, seconds: nat)
    ensures Run(e, f, SET_GRANT,
      Push(VBytes(hash), Push(VPair(VAddr(user), VInt(seconds)), Push(EncodeStorage(s), Empty)))) ==
      AfterSpending(ExpiryApplied(s, Single(hash), user, seconds))
  {
    hide Run, Then, Step, Basic, UsersMap, GrantsMap, STORE_GRANT;
    StackMachine(); DataMachine();
    UsersAt(s.users, user, User(Unset, map[]));
    if user in s.users { StoreGrantRuns(e, f, s, hash, user, seconds); }
  }

  lemma StoreGrantRuns(e: Env, f: nat, s: Storage, hash: Bytes, user: Account, seconds: nat)
    requires user in s.users
    ensures Run(e, f, STORE_GRANT,
      Push(EncodeExpiry(s.users[user].expiry), Push(EncodeUser(s.users[user]), Push(VBytes(hash),
        Push(VInt(seconds), Push(VAddr(user), Push(VMap(UsersMap(s.users)), Push(VPair(VInt(s.counter), VAddr(s.spare)),
          Push(VAddr(s.admin), Push(VInt(s.defaultExpiry), Empty)))))))))) ==
      AfterSpending(ExpiryApplied(s, Single(hash), user, seconds))
  {
    hide Run, Then, Step, Basic, UsersMap, GrantsMap, EncodeExpiry, EncodeGrant, NEW_GRANT;
    StackMachine(); DataMachine();
    var u := s.users[user];
    var rest := Push(VAddr(user), Push(VMap(UsersMap(s.users)), Push(VPair(VInt(s.counter), VAddr(s.spare)),
      Push(VAddr(s.admin), Push(VInt(s.defaultExpiry), Empty)))));
    NewGrantRuns(e, f, u, hash, seconds, rest);
    if hash in u.grants {
      var g := u.grants[hash].(expiry := OfSeconds(seconds));
      GrantsAt(u.grants, hash, g);
      UsersAt(s.users, user, u.(grants := u.grants[hash := g]));
    }
  }

  lemma SpendForRuns(e: Env, f: nat, s: Storage, user: Account, arg: Value, parameter: Value)
    ensures Run(e, f, SPEND_FOR, Push(VAddr(user), Push(arg, Push(VPair(parameter, EncodeStorage(s)), Empty)))) ==
      match Spent(e, s, user, HashOf(arg))
      case Accepted(s', _) => Ok(Push(VPair(parameter, EncodeStorage(s')), Empty))
      case Refused(why) => why
  {
    hide Run, Then, Step, Basic, SPEND, Inner, Spent;
    StackMachine(); WorldMachine();
    SpendRuns(e, f, s, user, HashOf(arg));
  }

  lemma SetExpirySpends(e: Env, f: nat, s: Storage, scope: Scope, user: Account, seconds: nat)
    ensures var arg := EncodeExpiryArgs(scope, user, seconds);
      var spent := if e.sender == user then Accepted(s, ()) else Spent(e, s, user, HashOf(arg));
      Run(e, f, SET_EXPIRY, Push(arg, Push(VPair(VRight(VLeft(arg)), EncodeStorage(s)), Empty))) ==
      if spent.Refused? then spent.why
      else Run(e, f, APPLY_EXPIRY, Push(arg.fst, Push(arg.snd, Push(EncodeStorage(spent.storage), Empty))))
  {
    hide Run, Then, Step, Basic, SPEND_FOR, APPLY_EXPIRY, EncodeStorage, Spent, HashOf;
    StackMachine(); DataMachine(); WorldMachine();
    var arg := EncodeExpiryArgs(scope, user, seconds);
    SpendForRuns(e, f, s, user, arg, VRight(VLeft(arg)));
  }

  lemma ApplyExpiryRuns(e: Env, f: nat, s: Storage, scope: Scope, user: Account, seconds: nat)
    ensures var arg := EncodeExpiryArgs(scope, user, seconds);
      Run(e, f, APPLY_EXPIRY, Push(arg.fst, Push(arg.snd, Push(EncodeStorage(s), Empty)))) ==
        EncodeResult(ExpiryApplied(s, scope, user, seconds))
  {
    hide Run, Then, Step, Basic, SET_USER, SET_GRANT, EncodeStorage, ExpiryApplied;
    StackMachine();
    if scope.Everything? {
      SetUserRuns(e, f, s, user, seconds);
    } else {
      SetGrantRuns(e, f, s, scope.hash, user, seconds);
    }
  }

  lemma PermitPacks(e: Env, f: nat, s: Storage, key: string, sig: string, hash: Bytes)
    ensures var arg := VPair(VKey(key), VPair(VSig(sig), VBytes(hash)));
      var message := VBytes(Message(e, s.counter, hash));
      Run(e, f, PERMIT, Push(arg, Push(VPair(VLeft(arg), EncodeStorage(s)), Empty))) ==
      Run(e, f, CHECK_PERMIT, Push(VKey(key), Push(VSig(sig), Push(message, Push(message,
        Push(EncodeStorage(s), Push(VPair(VBytes(hash), VAddr(e.hashKey(key))), Empty)))))))
  {
    hide Run, Then, Step, Basic, CHECK_PERMIT, UsersMap;
    StackMachine(); WorldMachine();
  }

  lemma CheckPermitRuns(e: Env, f: nat, key: string, sig: string, message: Bytes, rest: Stack)
    ensures Run(e, f, CHECK_PERMIT,
      Push(VKey(key), Push(VSig(sig), Push(VBytes(message), Push(VBytes(message), rest))))) ==
      if !e.verify(key, sig, message) then Failed(VUnit) else Run(e, f, ADD_PERMIT, rest)
  {
    hide Run, Then, Step, Basic, ADD_PERMIT;
    StackMachine(); WorldMachine();
  }

  lemma AddGrantRuns(e: Env, f: nat, s: Storage, user: Account, hash: Bytes)
    ensures var u := UserOf(s, user);
      var t := s.(users := s.users[user := u.(grants := u.grants[hash := Grant(e.now, Unset)])]);
      Run(e, f, ADD_GRANT, Push(VPair(VBytes(hash), VAddr(user)), Push(VMap(UsersMap(s.users)),
        Push(VPair(VInt(s.counter), VAddr(s.spare)), Push(VAddr(s.admin), Empty))))) ==
      Ok(Push(VPair(Inner(t), VAddr(s.admin)), Empty))
  {
    hide Run, Then, Step, Basic, UsersMap, GrantsMap;
    StackMachine(); DataMachine(); WorldMachine();
    var u := UserOf(s, user);
    var g := Grant(e.now, Unset);
    NoGrants();
    GrantsAt(u.grants, hash, g);
    UsersAt(s.users, user, u.(grants := u.grants[hash := g]));
  }

  lemma AddPermitRuns(e: Env, f: nat, s: Storage, user: Account, hash: Bytes)
    ensures var u := UserOf(s, user);
      Run(e, f, ADD_PERMIT, Push(EncodeStorage(s), Push(VPair(VBytes(hash), VAddr(user)), Empty))) ==
      EncodeResult(Accepted(s.(users := s.users[user := u.(grants := u.grants[hash := Grant(e.now, Unset)])]), ()))
  {
    hide Run, Then, Step, Basic, UsersMap, ADD_GRANT;
    StackMachine();
    AddGrantRuns(e, f, s, user, hash);
  }

  lemma DefaultExpiryRuns(e: Env, f: nat, s: Storage, seconds: nat)
    ensures Run(e, f, DEFAULT_EXPIRY,
      Push(VInt(seconds), Push(VPair(EncodeCall(DefaultExpiry(seconds)), EncodeStorage(s)), Empty))) ==
      EncodeResult(Called(e, s, DefaultExpiry(seconds)))
  {
    hide Run, Then, Step, Basic, UsersMap;
    StackMachine(); DataMachine(); WorldMachine();
  }

  /** The whole script computes the specification, for every call, storage, moment and oracle. */
  lemma PermitExpiryRefines(e: Env, f: nat, s: Storage, call: Call)
    ensures Run(e, f, PERMIT_EXPIRY, Push(VPair(EncodeCall(call), EncodeStorage(s)), Empty)) ==
      EncodeResult(Called(e, s, call))
  {
    hide Run, Then, Step, Basic, PERMIT, CHECK_PERMIT, ADD_PERMIT, SET_EXPIRY, APPLY_EXPIRY, DEFAULT_EXPIRY, WRAPPED,
      EncodeStorage, EncodeExpiryArgs, Message, Spent, ExpiryApplied, Wrap, HashOf;
    StackMachine();
    match call
    case Permit(key, sig, hash) =>
      PermitPacks(e, f, s, key, sig, hash);
      CheckPermitRuns(e, f, key, sig, Message(e, s.counter, hash),
        Push(EncodeStorage(s), Push(VPair(VBytes(hash), VAddr(e.hashKey(key))), Empty)));
      AddPermitRuns(e, f, s, e.hashKey(key), hash);
    case SetExpiry(scope, user, seconds) =>
      SetExpirySpends(e, f, s, scope, user, seconds);
      var arg := EncodeExpiryArgs(scope, user, seconds);
      var spent := if e.sender == user then Accepted(s, ()) else Spent(e, s, user, HashOf(arg));
      if spent.Accepted? { ApplyExpiryRuns(e, f, spent.storage, scope, user, seconds); }
    case DefaultExpiry(seconds) => DefaultExpiryRuns(e, f, s, seconds);
    case Wrapped(n) => WrappedRuns(e, f, s, n);
  }
}
