/** Single-use permits: signed in advance, counted, kept in a set until they are used. */
module PermitSet {
  import opened Michelson
  import opened Contracts
  import opened Rules
  import opened Encoding

  const REMOVE_PERMIT: Code :=
    Seq8(DIP(Seq5(DUP, CAR, DIP(Seq1(CDR)), DUP, CAR)), SWAP, DIP(Seq1(PUSH(VBool(false)))), UPDATE, SOME, SWAP, CDR,
    UPDATE)

  const ADD_PERMIT: Code :=
    Do8(SWAP, DUP, CAR, DIP(Seq7(DIP(Do8(DUP, CDR, DUP, CAR, PUSH(VInt(1)), ADD, DIP(Seq1(CDR)), PAIR, Seq3(SWAP, CAR,
    DUP))), CDR, DUP, DIP(Seq1(SWAP)), GET, IF_NONE(Seq1(EMPTY_SET), Done), PUSH(VBool(true)))), UPDATE, SOME, SWAP,
    UPDATE, Seq3(PAIR, NIL, PAIR))

  const CHECK_PERMIT: Code :=
    Do2(CHECK_SIGNATURE, IF(Seq1(DROP), Seq3(PUSH(VStr("missigned")), PAIR, FAILWITH)), ADD_PERMIT)

  const PERMIT: Code :=
    Do5(DUP, CAR, DUP, DIP(Seq5(SWAP, CDR, DUP, CAR, DIP(Do8(CDR, DUP, DIP(Seq3(DIP(Seq3(HASH_KEY, IMPLICIT_ACCOUNT,
    ADDRESS)), PAIR, SWAP)), SWAP, CDR, DUP, CDR, CAR, Seq8(DIP(Seq1(SWAP)), PAIR, SELF, ADDRESS, CHAIN_ID, PAIR,
    PAIR, PACK))))), DIP(Seq1(DIP(Seq1(DUP)))), CHECK_PERMIT)

  const USE_PERMIT: Code :=
    Do8(DUP, DUP, CAR, DIP(Seq1(CDR)), DUP, CDR, DIP(Seq1(SWAP)), GET, Seq4(IF_NONE(Seq1(FAILWITH), Seq5(SWAP,
    DIP(Seq1(DUP)), CAR, MEM, IF(REMOVE_PERMIT, Seq1(FAILWITH)))), PAIR, NIL, PAIR))

  const WRAPPED: Code :=
    Do8(DUP, PUSH(VInt(42)), COMPARE, EQ, IF(Done, Seq2(PUSH(VStr("not 42")), FAILWITH)), PACK, BLAKE2B, DIP(Seq4(CDR,
    DUP, CAR, DIP(Seq3(CDR, DUP, CDR)))), Do4(SWAP, DIP(Seq1(PAIR)), SWAP, PAIR, USE_PERMIT))

  const PERMIT_SET: Code :=
    Seq3(DUP, CAR, IF_LEFT(PERMIT, WRAPPED))

  // ---------------------------------------------------------------- specification

  datatype Storage = Storage(permits: map<Account, set<Bytes>>, counter: nat, admin: Account)

  datatype Call = Permit(key: string, sig: string, hash: Bytes) | Wrapped(n: nat)

  type Result = Answer<Storage, ()>

  function PermitsOf(s: Storage, user: Account): set<Bytes> {
    if user in s.permits then s.permits[user] else {}
  }

  /** The bytes a permit's signer signs. */
  function Message(e: Env, counter: nat, hash: Bytes): Bytes {
    Packed(VPair(VPair(VStr(e.chain), VAddr(e.self)), VPair(VInt(counter), VBytes(hash))))
  }

  function HashOf(n: nat): Bytes { Hashed(Packed(VInt(n))) }

  function Permitted(e: Env, s: Storage, key: string, sig: string, hash: Bytes): Result {
    var message := Message(e, s.counter, hash);
    var user := e.hashKey(key);
    if !e.verify(key, sig, message) then Refused(Failed(VPair(VStr("missigned"), VBytes(message))))
    else Accepted(s.(permits := s.permits[user := PermitsOf(s, user) + {hash}], counter := s.counter + 1), ())
  }

  function Used(s: Storage, n: nat): Result {
    if n != 42 then Refused(Failed(VStr("not 42")))
    else if s.admin !in s.permits then Refused(Failed(VPair(VBytes(HashOf(n)), VAddr(s.admin))))
    else if HashOf(n) !in s.permits[s.admin] then Refused(Failed(EncodeSet(s.permits[s.admin])))
    else Accepted(s.(permits := s.permits[s.admin := s.permits[s.admin] - {HashOf(n)}]), ())
  }

  function Called(e: Env, s: Storage, call: Call): (r: Result)
    ensures r.Refused? ==> !r.why.Ok?
  {
    match call
    case Permit(key, sig, hash) => Permitted(e, s, key, sig, hash)
    case Wrapped(n) => Used(s, n)
  }

  // ---------------------------------------------------------------- encoding

  function EncodeSet(s: set<Bytes>): Value { VSet(set b | b in s :: VBytes(b)) }

  lemma SetAt(s: set<Bytes>, b: Bytes)
    ensures VBytes(b) in EncodeSet(s).members <==> b in s
    ensures EncodeSet(s + {b}) == VSet(EncodeSet(s).members + {VBytes(b)})
    ensures EncodeSet(s - {b}) == VSet(EncodeSet(s).members - {VBytes(b)})
  {
    assert EncodeSet(s + {b}).members == EncodeSet(s).members + {VBytes(b)};
    assert EncodeSet(s - {b}).members == EncodeSet(s).members - {VBytes(b)};
  }

  ghost function PermitsMap(m: map<Account, set<Bytes>>): map<Value, Value> { EncodeMap(m, AccountKey, EncodeSet) }

  lemma PermitsAt(m: map<Account, set<Bytes>>, a: Account, p: set<Bytes>)
    ensures Lookup(VAddr(a), PermitsMap(m)) == if a in m then VSome(EncodeSet(m[a])) else VNone
    ensures PermitsMap(m)[VAddr(a) := EncodeSet(p)] == PermitsMap(m[a := p])
  {
    EncodedAt(m, AccountKey, EncodeSet, a, p);
  }

  ghost function EncodeStorage(s: Storage): Value {
    VPair(VMap(PermitsMap(s.permits)), VPair(VInt(s.counter), VAddr(s.admin)))
  }

  function EncodeCall(call: Call): Value {
    match call
    case Permit(key, sig, hash) => VLeft(VPair(VKey(key), VPair(VSig(sig), VBytes(hash))))
    case Wrapped(n) => VRight(VInt(n))
  }

  ghost function EncodeResult(r: Result): Outcome {
    match r
    case Accepted(s, _) => Ok(Push(VPair(VList([]), EncodeStorage(s)), Empty))
    case Refused(why) => why
  }

  // ---------------------------------------------------------------- the script refines the specification

  /** The stack when the signature has been checked. */
  ghost function Checked(e: Env, s: Storage, key: string, hash: Bytes): Stack {
    Push(EncodeStorage(s), Push(VPair(VBytes(hash), VAddr(e.hashKey(key))), Empty))
  }

  lemma PermitPacks(e: Env, f: nat, s: Storage, key: string, sig: string, hash: Bytes)
    ensures var arg := VPair(VKey(key), VPair(VSig(sig), VBytes(hash)));
      var message := VBytes(Message(e, s.counter, hash));
      Run(e, f, PERMIT, Push(arg, Push(VPair(VLeft(arg), EncodeStorage(s)), Empty))) ==
      Run(e, f, CHECK_PERMIT, Push(VKey(key), Push(VSig(sig), Push(message, Push(message, Checked(e, s, key, hash))))))
  {
    hide Run, Then, Step, Basic, CHECK_PERMIT, PermitsMap;
    StackMachine(); WorldMachine();
  }

  lemma CheckPermitRuns(e: Env, f: nat, s: Storage, key: string, sig: string, hash: Bytes)
    ensures var message := Message(e, s.counter, hash);
      Run(e, f, CHECK_PERMIT,
        Push(VKey(key), Push(VSig(sig), Push(VBytes(message), Push(VBytes(message), Checked(e, s, key, hash)))))) ==
      if !e.verify(key, sig, message) then Failed(VPair(VStr("missigned"), VBytes(message)))
      else Run(e, f, ADD_PERMIT, Checked(e, s, key, hash))
  {
    hide Run, Then, Step, Basic, ADD_PERMIT, Message, Checked;
    StackMachine(); WorldMachine();
  }

  lemma AddPermitRuns(e: Env, f: nat, s: Storage, key: string, hash: Bytes)
    ensures var user := e.hashKey(key);
      Run(e, f, ADD_PERMIT, Checked(e, s, key, hash)) == EncodeResult(Accepted(
        s.(permits := s.permits[user := PermitsOf(s, user) + {hash}], counter := s.counter + 1), ()))
  {
    hide Run, Then, Step, Basic, PermitsMap;
    StackMachine(); DataMachine();
    var user := e.hashKey(key);
    PermitsAt(s.permits, user, PermitsOf(s, user) + {hash});
    SetAt(PermitsOf(s, user), hash);
    SetAt({}, hash);
    assert EncodeSet({}).members == {};
    hide EncodeSet;
  }

  lemma RemovePermitRuns(e: Env, f: nat, p: set<Bytes>, hash: Bytes, a: Account, m: map<Value, Value>, rest: Stack)
    ensures Run(e, f, REMOVE_PERMIT, Push(EncodeSet(p), Push(VPair(VPair(VBytes(hash), VAddr(a)), VMap(m)), rest))) ==
      Ok(Push(VMap(m[VAddr(a) := EncodeSet(p - {hash})]), rest))
  {
    hide Run, Then, Step, Basic;
    StackMachine(); DataMachine();
    SetAt(p, hash);
  }

  lemma UsePermitRuns(e: Env, f: nat, s: Storage, n: nat)
    requires n == 42
    ensures Run(e, f, USE_PERMIT, Push(VPair(VPair(VBytes(HashOf(n)), VAddr(s.admin)), VMap(PermitsMap(s.permits))),
      Push(VPair(VInt(s.counter), VAddr(s.admin)), Empty))) == EncodeResult(Used(s, n))
  {
    hide Run, Then, Step, Basic, PermitsMap, REMOVE_PERMIT, HashOf;
    StackMachine(); DataMachine();
    var p := PermitsOf(s, s.admin);
    PermitsAt(s.permits, s.admin, p - {HashOf(n)});
    SetAt(p, HashOf(n));
    RemovePermitRuns(e, f, p, HashOf(n), s.admin, PermitsMap(s.permits),
      Push(VPair(VInt(s.counter), VAddr(s.admin)), Empty));
  }

  lemma WrappedRuns(e: Env, f: nat, s: Storage, n: nat)
    ensures Run(e, f, WRAPPED, Push(VInt(n), Push(VPair(VRight(VInt(n)), EncodeStorage(s)), Empty))) ==
      EncodeResult(Used(s, n))
  {
    hide Run, Then, Step, Basic, PermitsMap, USE_PERMIT;
    StackMachine(); DataMachine(); WorldMachine();
    if n == 42 { UsePermitRuns(e, f, s, n); }
  }

  /** The whole script computes the specification, for every call, storage and oracle. */
  lemma PermitSetRefines(e: Env, f: nat, s: Storage, call: Call)
    ensures Run(e, f, PERMIT_SET, Push(VPair(EncodeCall(call), EncodeStorage(s)), Empty)) ==
      EncodeResult(Called(e, s, call))
  {
    hide Run, Then, Step, Basic, PERMIT, CHECK_PERMIT, ADD_PERMIT, WRAPPED, EncodeStorage, Message, Used, PermitsOf;
    StackMachine();
    match call
    case Permit(key, sig, hash) =>
      PermitPacks(e, f, s, key, sig, hash);
      CheckPermitRuns(e, f, s, key, sig, hash);
      AddPermitRuns(e, f, s, key, hash);
    case Wrapped(n) => WrappedRuns(e, f, s, n);
  }
}
