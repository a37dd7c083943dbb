/** The multi-asset ledger's script, and the proof that it computes the specification in Fa2. */
module Fa2Script {
  import opened Michelson
  import opened Contracts
  import opened Rules
  import opened Chains
  import opened Encoding
  import opened Fa2

  const CREDIT_STORE: Code :=
    Do8(SOME, SWAP, UPDATE, SWAP, PAIR, SWAP, PAIR, PAIR, Seq1(DUG(2)))

  const CREDIT_ADD: Code :=
    Copy(5, Do8(BLOCK(Rest(2, Done)), DIG(9), BLOCK(Do(CAR, Rest(2, Done))), DIG(7), DUP, BLOCK(Seq2(CDR, CAR)), SWAP,
    CAR, Do4(PAIR, GET, BLOCK(Seq1(IF_NONE(Seq2(PUSH(VInt(429)), FAILWITH), Done))), ADD, CREDIT_STORE)))

  const CREDIT_KEY: Code :=
    Do8(DUP, BLOCK(Seq2(CDR, CAR)), SWAP, DUP, DUG(7), CAR, PAIR, DUP, Do3(DUG(2), GET,
    BLOCK(Seq1(IF_NONE(Seq2(PUSH(VInt(429)), FAILWITH), Seq1(DROP)))), CREDIT_ADD))

  const CREDIT_MORE: Code :=
    Copy(3, Do8(DUP, CDR, SWAP, CAR, DUP, CAR, SWAP, CDR, Do6(DUP, CAR, SWAP, CDR, DUP, DIG(5), CREDIT_KEY)))

  const CREDIT_FIRST: Code :=
    Do8(DIG(3), DUP, CDR, SWAP, CAR, DUP, CAR, SWAP, Do8(CDR, DUP, CAR, SWAP, CDR, DIG(4), DUP, BLOCK(Seq2(CDR, CAR)),
    Do7(SWAP, DUP, DUG(6), CAR, PAIR, DIG(5), BLOCK(Rest(2, Done)), CREDIT_STORE)))

  const MOVE_CREDIT: Code :=
    Do8(DUP, DUG(4), BLOCK(Do(CAR, Rest(2, Done))), SWAP, DUP, BLOCK(Seq2(CDR, CAR)), SWAP, DUP, Seq5(DUG(3), CAR,
    PAIR, MEM, IF(CREDIT_MORE, CREDIT_FIRST)))

  const MOVE_STORE: Code :=
    Do8(SOME, SWAP, UPDATE, SWAP, PAIR, SWAP, PAIR, PAIR, MOVE_CREDIT)

  const MOVE_LESS: Code :=
    Copy(5, Do3(BLOCK(Rest(2, Done)), DIG(9), BLOCK(Do(CAR, Rest(2, Done))), Copy(7, Do(BLOCK(Seq2(CDR, CAR)), Copy(9,
    Do7(CAR, PAIR, GET, BLOCK(Seq1(IF_NONE(Seq2(PUSH(VInt(427)), FAILWITH), Done))), SUB, ISNAT,
    BLOCK(Seq1(IF_NONE(Seq2(PUSH(VInt(427)), FAILWITH), Done))), MOVE_STORE))))))

  const MOVE_KEY: Code :=
    Do(DUP, Copy(5, Do(BLOCK(Seq2(CDR, CAR)), Copy(7, Do6(CAR, PAIR, DUP, DUG(2), GET,
    BLOCK(Seq1(IF_NONE(Seq2(PUSH(VInt(427)), FAILWITH), Seq1(DROP)))), MOVE_LESS)))))

  const MOVE_OPEN: Code :=
    Copy(3, Do8(DUP, CDR, SWAP, CAR, DUP, CAR, SWAP, CDR, Do4(DUP, CAR, SWAP, CDR, MOVE_KEY)))

  const MOVE: Code :=
    Do2(DUP, BLOCK(Rest(2, Done)), Copy(4, Do(BLOCK(Do(CAR, Rest(2, Done))), Copy(2, Do(BLOCK(Seq2(CDR, CAR)), Copy(4,
    Do7(CAR, PAIR, GET, BLOCK(Seq1(IF_NONE(Seq2(PUSH(VInt(423)), FAILWITH), Done))), COMPARE, GE, IF(Done,
    Seq2(PUSH(VStr("FA2_INSUFFICIENT_BALANCE")), FAILWITH)), MOVE_OPEN)))))))

  const OPERATOR: Code :=
    Copy(3, Do(BLOCK(Seq3(CDR, CAR, CDR)), Copy(1, Do3(BLOCK(Seq2(CDR, CAR)), SENDER, PAIR, Copy(3, Seq3(CAR, PAIR,
    MEM))))))

  const SEND_AMOUNT: Code :=
    Seq6(DUP, BLOCK(Rest(2, Done)), PUSH(VInt(0)), COMPARE, LT, IF(MOVE, Seq1(DROP)))

  const SEND_TOKEN: Code :=
    Copy(3, Do(BLOCK(Rest(3, Done)), Copy(1, Do3(BLOCK(Seq2(CDR, CAR)), MEM, IF(Done, Seq2(PUSH(VStr(
    "FA2_TOKEN_UNDEFINED")), FAILWITH)), SEND_AMOUNT))))

  const SEND: Code :=
    Copy(3, Do7(BLOCK(Seq2(CAR, CAR)), SENDER, COMPARE, EQ, IF(Seq1(PUSH(VBool(true))), Do(SENDER, Copy(2, Seq3(CAR,
    COMPARE, EQ)))), IF(Seq1(PUSH(VBool(true))), OPERATOR), IF(Done, Seq2(PUSH(VStr("FA2_NOT_OPERATOR")), FAILWITH)),
    SEND_TOKEN))

  const SEND_ALL: Code :=
    Seq4(DUP, CDR, ITER(SEND), DROP)

  const TRANSFER: Code :=
    Copy(1, Seq5(BLOCK(Rest(2, Seq1(CAR))), IF(Seq2(PUSH(VInt(395)), FAILWITH), Done), DUP, ITER(SEND_ALL), DROP))

  const ADD_STORE: Code :=
    Do8(DIG(5), CAR, PAIR, PUSH(VSome(VUnit)), SWAP, UPDATE, SWAP, PAIR, Seq4(PAIR, SWAP, PAIR, SWAP))

  const ADD_PERMISSION: Code :=
    Do8(DIG(2), DUP, CAR, SWAP, CDR, DUP, CDR, SWAP, Do8(CAR, DUP, CAR, SWAP, CDR, DIG(4), DUP, BLOCK(Rest(2, Done)),
    Do5(SWAP, DUP, DUG(6), BLOCK(Seq2(CDR, CAR)), PAIR, ADD_STORE)))

  const ADD_OPERATOR: Code :=
    Do7(DUP, CAR, SENDER, COMPARE, EQ, IF(Seq1(PUSH(VBool(true))), Copy(3, Seq4(BLOCK(Seq2(CAR, CAR)), SENDER,
    COMPARE, EQ))), IF(Seq2(SWAP, DROP), Seq2(PUSH(VInt(489)), FAILWITH)), ADD_PERMISSION)

  const REMOVE_STORE: Code :=
    Do8(DIG(6), CAR, PAIR, UPDATE, SWAP, PAIR, PAIR, SWAP, Seq2(PAIR, SWAP))

  const REMOVE_PERMISSION: Code :=
    Do8(DIG(2), DUP, CAR, SWAP, CDR, DUP, CDR, SWAP, Do8(CAR, DUP, CAR, SWAP, CDR, NONE, DIG(5), DUP,
    Do6(BLOCK(Rest(2, Done)), SWAP, DUP, DUG(7), BLOCK(Seq2(CDR, CAR)), PAIR, REMOVE_STORE)))

  const REMOVE_OPERATOR: Code :=
    Do7(DUP, CAR, SENDER, COMPARE, EQ, IF(Seq1(PUSH(VBool(true))), Copy(3, Seq4(BLOCK(Seq2(CAR, CAR)), SENDER,
    COMPARE, EQ))), IF(Seq2(SWAP, DROP), Seq2(PUSH(VInt(496)), FAILWITH)), REMOVE_PERMISSION)

  const UPDATE_ONE: Code :=
    Seq2(DUP, IF_LEFT(ADD_OPERATOR, REMOVE_OPERATOR))

  const UPDATE_OPERATORS: Code :=
    Seq3(DUP, ITER(UPDATE_ONE), DROP)

  const BALANCE_PAIR: Code :=
    Seq7(SWAP, DUP, CDR, SWAP, CAR, PAIR, PAIR)

  const BALANCE_FOUND: Code :=
    Copy(2, Do8(BLOCK(Do(CAR, Rest(2, Done))), SWAP, DUP, CDR, SWAP, DUP, DUG(3), CAR, Do3(PAIR, GET,
    BLOCK(Seq1(IF_NONE(Seq2(PUSH(VInt(445)), FAILWITH), Done))), BALANCE_PAIR)))

  const BALANCE_NONE: Code :=
    Do(PUSH(VInt(0)), BALANCE_PAIR)

  const BALANCE_KNOWN: Code :=
    Copy(2, Do8(BLOCK(Do(CAR, Rest(2, Done))), SWAP, DUP, CDR, SWAP, DUP, DUG(3), CAR, Seq3(PAIR, MEM,
    IF(BALANCE_FOUND, BALANCE_NONE))))

  const BALANCE_ONE: Code :=
    Copy(2, Do(BLOCK(Rest(3, Done)), Copy(1, Do3(CDR, MEM, IF(Done, Seq2(PUSH(VStr("FA2_TOKEN_UNDEFINED")),
    FAILWITH)), BALANCE_KNOWN))))

  const BALANCE_OF: Code :=
    Copy(1, Do8(BLOCK(Rest(2, Seq1(CAR))), IF(Seq2(PUSH(VInt(438)), FAILWITH), Done), DUP, CAR, MAP(BALANCE_ONE), NIL,
    DIG(2), CDR, Seq4(PUSH(VMutez(0)), DIG(3), TRANSFER_TOKENS, CONS)))

  const MINT_STORE: Code :=
    Do8(SOME, SWAP, UPDATE, SWAP, PAIR, SWAP, PAIR, PAIR, Seq1(SWAP))

  const MINT_ADD: Code :=
    Copy(5, Do8(BLOCK(Seq2(CAR, CDR)), DIG(7), BLOCK(Do(CAR, Rest(2, Done))), DIG(7), DUP, BLOCK(Rest(2, Done)), SWAP,
    DUP, Do6(DUG(9), BLOCK(Seq2(CAR, CAR)), PAIR, GET, BLOCK(Seq1(IF_NONE(Seq2(PUSH(VInt(551)), FAILWITH), Done))),
    ADD, MINT_STORE)))

  const MINT_KEY: Code :=
    Do8(DUP, DIG(5), DUP, BLOCK(Rest(2, Done)), SWAP, DUP, DUG(7), BLOCK(Seq2(CAR, CAR)), Do5(PAIR, DUP, DUG(2), GET,
    BLOCK(Seq1(IF_NONE(Seq2(PUSH(VInt(551)), FAILWITH), Seq1(DROP)))), MINT_ADD))

  const MINT_MORE: Code :=
    Copy(1, Do8(DUP, CDR, SWAP, CAR, DUP, CAR, SWAP, CDR, Do4(DUP, CAR, SWAP, CDR, MINT_KEY)))

  const MINT_FIRST: Code :=
    Do8(SWAP, DUP, CDR, SWAP, CAR, DUP, CAR, SWAP, Do8(CDR, DUP, CAR, SWAP, CDR, DIG(4), DUP, BLOCK(Rest(2, Done)),
    Do5(SWAP, DUP, DUG(6), BLOCK(Seq2(CAR, CAR)), PAIR, Copy(5, Do(BLOCK(Seq2(CAR, CDR)), MINT_STORE)))))

  const MINT_TOKEN_STORE: Code :=
    Do8(DIG(4), DUP, BLOCK(Rest(2, Done)), SWAP, DUP, BLOCK(Seq2(CAR, CDR)), SWAP, BLOCK(Seq2(CDR, CAR)), Do8(PAIR,
    SOME, SWAP, UPDATE, SWAP, PAIR, SWAP, PAIR, Seq2(SWAP, PAIR)))

  const MINT_TOKEN: Code :=
    Do8(SWAP, DUP, CAR, SWAP, CDR, DUP, CAR, SWAP, Do5(CDR, DUP, CAR, SWAP, CDR, MINT_TOKEN_STORE))

  const MINT_TOKENS: Code :=
    Copy(1, Do(BLOCK(Rest(3, Done)), Copy(1, Seq4(BLOCK(Rest(2, Done)), MEM, IF(Seq1(DROP), MINT_TOKEN), NIL))))

  const MINT_LEDGER: Code :=
    Do8(DUP, DUG(2), BLOCK(Do(CAR, Rest(2, Done))), SWAP, DUP, BLOCK(Rest(2, Done)), SWAP, DUP, Do5(DUG(3),
    BLOCK(Seq2(CAR, CAR)), PAIR, MEM, IF(MINT_MORE, MINT_FIRST), MINT_TOKENS))

  const MINT_NEXT: Code :=
    Do2(DUP, PUSH(VInt(1)), Copy(6, Do8(BLOCK(Rest(2, Done)), ADD, DUP, DUG(2), COMPARE, LE, IF(Seq1(DROP), Seq2(SWAP,
    DROP)), PAIR, Do3(SWAP, PAIR, PAIR, MINT_LEDGER))))

  const MINT_COUNT: Code :=
    Copy(1, Do8(DUP, CDR, SWAP, CAR, DUP, CAR, SWAP, BLOCK(Rest(2, Done)), Do2(DIG(4), BLOCK(Seq3(CAR, CDR, CAR)),
    MINT_NEXT)))

  const MINT_ID: Code :=
    Do2(DUP, BLOCK(Rest(2, Done)), Copy(2, Do4(BLOCK(Seq3(CAR, CDR, CAR)), COMPARE, EQ, IF(Done, Seq2(PUSH(VStr(
    "Token-IDs should be consecutive")), FAILWITH)), MINT_COUNT)))

  const MINT: Code :=
    Copy(1, Do5(BLOCK(Seq2(CAR, CAR)), SENDER, COMPARE, EQ, IF(Done, Seq2(PUSH(VInt(539)), FAILWITH)), MINT_ID))

  const MUTEZ_PAY: Code :=
    Do8(DUP, CDR, CONTRACT(""), NIL, SWAP, BLOCK(Seq1(IF_NONE(Seq2(PUSH(VInt(349)), FAILWITH), Done))), DIG(2), CAR,
    Seq3(UNIT, TRANSFER_TOKENS, CONS))

  const MUTEZ_TRANSFER: Code :=
    Copy(1, Do5(BLOCK(Seq2(CAR, CAR)), SENDER, COMPARE, EQ, IF(Done, Seq2(PUSH(VInt(346)), FAILWITH)), MUTEZ_PAY))

  const ADMINISTRATOR_STORE: Code :=
    Do8(SWAP, DUP, CDR, SWAP, BLOCK(Seq2(CAR, CDR)), DIG(2), PAIR, PAIR, Seq1(NIL))

  const SET_ADMINISTRATOR: Code :=
    Copy(1, Do5(BLOCK(Seq2(CAR, CAR)), SENDER, COMPARE, EQ, IF(Done, Seq2(PUSH(VInt(518)), FAILWITH)),
    ADMINISTRATOR_STORE))

  const METADATA_STORE: Code :=
    Do8(DIG(4), DUP, CAR, SWAP, CDR, SOME, SWAP, UPDATE, Seq4(PAIR, PAIR, SWAP, PAIR))

  const METADATA_OPEN: Code :=
    Do8(SWAP, DUP, CAR, SWAP, CDR, DUP, CDR, SWAP, Do5(CAR, DUP, CDR, SWAP, CAR, METADATA_STORE))

  const SET_METADATA: Code :=
    Copy(1, Do5(BLOCK(Seq2(CAR, CAR)), SENDER, COMPARE, EQ, IF(Done, Seq2(PUSH(VInt(533)), FAILWITH)), METADATA_OPEN))

  const PAUSE_STORE: Code :=
    Do8(SWAP, DUP, CAR, SWAP, CDR, DUP, CAR, SWAP, Seq7(BLOCK(Rest(2, Done)), DIG(3), PAIR, SWAP, PAIR, SWAP, PAIR))

  const SET_PAUSE: Code :=
    Copy(1, Do5(BLOCK(Seq2(CAR, CAR)), SENDER, COMPARE, EQ, IF(Done, Seq2(PUSH(VInt(527)), FAILWITH)), PAUSE_STORE))

  const FA2_LEFT: Code :=
    Seq1(IF_LEFT(Seq1(IF_LEFT(BALANCE_OF, MINT)), Seq1(IF_LEFT(MUTEZ_TRANSFER, SET_ADMINISTRATOR))))

  const FA2_RIGHT: Code :=
    Seq2(IF_LEFT(Seq1(IF_LEFT(SET_METADATA, SET_PAUSE)), Seq1(IF_LEFT(TRANSFER, UPDATE_OPERATORS))), NIL)

  const FA2: Code :=
    Seq6(DUP, CDR, SWAP, CAR, IF_LEFT(FA2_LEFT, FA2_RIGHT), PAIR)

  // ---------------------------------------------------------------- encoding

  function EncodeNat(n: nat): Value { VInt(n) }
  function TextKey(t: string): Value { VStr(t) }
  function EncodeText(t: string): Value { VBytes(Raw(t)) }
  function HoldingKey(h: Holding): Value { VPair(VAddr(h.0), VInt(h.1)) }
  function PermissionKey(p: Permission): Value { VPair(VAddr(p.owner), VPair(VAddr(p.operator), VInt(p.token))) }

  ghost function TextMap(m: map<string, string>): map<Value, Value> { EncodeMap(m, TextKey, EncodeText) }

  ghost function EncodeToken(t: Token): Value { VPair(VMap(TextMap(t.metadata)), VInt(t.supply)) }

  ghost function LedgerMap(m: map<Holding, nat>): map<Value, Value> { EncodeMap(m, HoldingKey, EncodeNat) }

  ghost function TokensMap(m: map<nat, Token>): map<Value, Value> { EncodeMap(m, NatKey, EncodeToken) }

  /** The operators are a map to unit. */
  ghost function PermissionsMap(s: set<Permission>): map<Value, Value> {
    EncodeMap(Marks(s), PermissionKey, Itself)
  }

  function Marks(s: set<Permission>): map<Permission, Value> { map p | p in s :: VUnit }

  function Itself(v: Value): Value { v }

  lemma MarksAt(s: set<Permission>, p: Permission)
    ensures p in Marks(s) <==> p in s
    ensures Marks(s)[p := VUnit] == Marks(s + {p}) && Marks(s) - {p} == Marks(s - {p})
  {}

  ghost function Others(s: Storage): Value {
    VPair(VPair(VMap(TextMap(s.metadata)), VMap(PermissionsMap(s.operators))),
      VPair(VBool(s.paused), VMap(TokensMap(s.tokens))))
  }

  ghost function EncodeStorage(s: Storage): Value {
    VPair(VPair(VAddr(s.administrator), VPair(VInt(s.allTokens), VMap(LedgerMap(s.ledger)))), Others(s))
  }

  lemma TextAt(m: map<string, string>, k: string, v: string)
    ensures TextMap(m)[VStr(k) := VBytes(Raw(v))] == TextMap(m[k := v])
  {
    EncodedAt(m, TextKey, EncodeText, k, v);
  }

  lemma LedgerAt(m: map<Holding, nat>, h: Holding, n: nat)
    ensures Lookup(HoldingKey(h), LedgerMap(m)) == if h in m then VSome(VInt(m[h])) else VNone
    ensures HoldingKey(h) in LedgerMap(m) <==> h in m
    ensures LedgerMap(m)[HoldingKey(h) := VInt(n)] == LedgerMap(m[h := n])
  {
    EncodedAt(m, HoldingKey, EncodeNat, h, n);
  }

  lemma TokensAt(m: map<nat, Token>, id: nat, t: Token)
    ensures VInt(id) in TokensMap(m) <==> id in m
    ensures TokensMap(m)[VInt(id) := EncodeToken(t)] == TokensMap(m[id := t])
  {
    EncodedAt(m, NatKey, EncodeToken, id, t);
  }

  lemma PermissionsAt(s: set<Permission>, p: Permission)
    ensures PermissionKey(p) in PermissionsMap(s) <==> p in s
    ensures PermissionsMap(s)[PermissionKey(p) := VUnit] == PermissionsMap(s + {p})
    ensures PermissionsMap(s) - {PermissionKey(p)} == PermissionsMap(s - {p})
  {
    hide Marks;
    MarksAt(s, p);
    EncodedAt(Marks(s), PermissionKey, Itself, p, VUnit);
    EncodedIn(Marks(s), PermissionKey, Itself);
  }

  function EncodeTx(t: Tx): Value { VPair(VAddr(t.to), VPair(VInt(t.token), VInt(t.amount))) }

  function EncodeTransfer(t: Transfer): Value { VPair(VAddr(t.from), VList(EncodeSeq(t.txs, EncodeTx))) }

  // ---------------------------------------------------------------- transfer

  /** The stack of the inner loop under the transfer at hand. */
  ghost function Sending(from: Account, txs: Value, batch: Value, s: Storage): Stack {
    Push(VPair(VAddr(from), txs), Push(batch, Push(EncodeStorage(s), Empty)))
  }

  lemma OperatorRuns(e: Env, f: nat, s: Storage, from: Account, tx: Tx, txs: Value, batch: Value)
    ensures Run(e, f, OPERATOR, Push(EncodeTx(tx), Sending(from, txs, batch, s))) ==
      Ok(Push(VBool(Permission(from, e.sender, tx.token) in s.operators),
        Push(EncodeTx(tx), Sending(from, txs, batch, s))))
  {
    hide Run, Then, Step, Basic, Copy, Rest, PermissionsMap, LedgerMap, TokensMap, TextMap;
    StackMachine(); DataMachine(); WorldMachine(); AccessRules();
    PermissionsAt(s.operators, Permission(from, e.sender, tx.token));
  }

  lemma SendRuns(e: Env, f: nat, s: Storage, from: Account, tx: Tx, txs: Value, batch: Value)
    ensures Run(e, f, SEND, Push(EncodeTx(tx), Sending(from, txs, batch, s))) ==
      if !MaySend(e, s, from, tx.token) then Failed(VStr("FA2_NOT_OPERATOR"))
      else Run(e, f, SEND_TOKEN, Push(EncodeTx(tx), Sending(from, txs, batch, s)))
  {
    hide Run, Then, Step, Basic, Copy, Rest, LedgerMap, Others, EncodeTx, OPERATOR, SEND_TOKEN;
    StackMachine(); DataMachine(); WorldMachine(); AccessRules();
    OperatorRuns(e, f, s, from, tx, txs, batch);
  }

  lemma SendTokenRuns(e: Env, f: nat, s: Storage, from: Account, tx: Tx, txs: Value, batch: Value)
    ensures Run(e, f, SEND_TOKEN, Push(EncodeTx(tx), Sending(from, txs, batch, s))) ==
      if tx.token !in s.tokens then Failed(VStr("FA2_TOKEN_UNDEFINED"))
      else Run(e, f, SEND_AMOUNT, Push(EncodeTx(tx), Sending(from, txs, batch, s)))
  {
    hide Run, Then, Step, Basic, Copy, Rest, LedgerMap, TokensMap, PermissionsMap, TextMap, SEND_AMOUNT;
    StackMachine(); DataMachine(); AccessRules();
    TokensAt(s.tokens, tx.token, Token(map[], 0));
  }

  lemma SendAmountRuns(e: Env, f: nat, s: Storage, from: Account, tx: Tx, txs: Value, batch: Value)
    ensures Run(e, f, SEND_AMOUNT, Push(EncodeTx(tx), Sending(from, txs, batch, s))) ==
      if tx.amount == 0 then Ok(Sending(from, txs, batch, s))
      else Run(e, f, MOVE, Push(EncodeTx(tx), Sending(from, txs, batch, s)))
  {
    hide Run, Then, Step, Basic, Copy, Rest, Sending, MOVE;
    StackMachine(); DataMachine(); AccessRules();
    var o := Run(e, f, MOVE, Push(EncodeTx(tx), Sending(from, txs, batch, s)));
    assert o.Ok? ==> o == Ok(o.stack);
  }

  lemma MoveRuns(e: Env, f: nat, s: Storage, from: Account, tx: Tx, txs: Value, batch: Value)
    ensures Run(e, f, MOVE, Push(EncodeTx(tx), Sending(from, txs, batch, s))) ==
      if (from, tx.token) !in s.ledger then Failed(VInt(423))
      else if s.ledger[(from, tx.token)] < tx.amount then Failed(VStr("FA2_INSUFFICIENT_BALANCE"))
      else Run(e, f, MOVE_OPEN, Push(EncodeTx(tx), Sending(from, txs, batch, s)))
  {
    hide Run, Then, Step, Basic, Copy, Rest, LedgerMap, Others, MOVE_OPEN;
    StackMachine(); DataMachine(); AccessRules();
    LedgerAt(s.ledger, (from, tx.token), 0);
  }

  /** The storage taken apart on the stack, above the loop's own values. */
  ghost function Opened(s: Storage, rest: Stack): Stack {
    Push(VMap(LedgerMap(s.ledger)), Push(VInt(s.allTokens), Push(VAddr(s.administrator), Push(Others(s), rest))))
  }

  lemma MoveOpens(e: Env, f: nat, s: Storage, from: Account, tx: Tx, txs: Value, batch: Value)
    ensures Run(e, f, MOVE_OPEN, Push(EncodeTx(tx), Sending(from, txs, batch, s))) ==
      Run(e, f, MOVE_KEY, Opened(s, Push(EncodeTx(tx), Sending(from, txs, batch, s))))
  {
    hide Run, Then, Step, Basic, Copy, Rest, LedgerMap, Others, EncodeTx, MOVE_KEY;
    StackMachine(); AccessRules();
  }

  lemma MoveFindsKey(e: Env, f: nat, s: Storage, from: Account, tx: Tx, txs: Value, batch: Value)
    requires (from, tx.token) in s.ledger
    ensures Run(e, f, MOVE_KEY, Opened(s, Push(EncodeTx(tx), Sending(from, txs, batch, s)))) ==
      Run(e, f, MOVE_LESS,
        Push(HoldingKey((from, tx.token)), Opened(s, Push(EncodeTx(tx), Sending(from, txs, batch, s)))))
  {
    hide Run, Then, Step, Basic, Copy, Rest, LedgerMap, Others, EncodeStorage, MOVE_LESS;
    StackMachine(); DataMachine(); AccessRules();
    LedgerAt(s.ledger, (from, tx.token), 0);
  }

  lemma MoveTakes(e: Env, f: nat, s: Storage, from: Account, tx: Tx, txs: Value, batch: Value)
    requires (from, tx.token) in s.ledger && tx.amount <= s.ledger[(from, tx.token)]
    ensures Run(e, f, MOVE_LESS,
      Push(HoldingKey((from, tx.token)), Opened(s, Push(EncodeTx(tx), Sending(from, txs, batch, s))))) ==
      Run(e, f, MOVE_STORE, Push(VInt(s.ledger[(from, tx.token)] - tx.amount), Push(HoldingKey((from, tx.token)),
        Opened(s, Push(EncodeTx(tx), Push(VPair(VAddr(from), txs), Push(batch, Empty)))))))
  {
    hide Run, Then, Step, Basic, Copy, Rest, LedgerMap, Others, MOVE_STORE;
    StackMachine(); DataMachine(); AccessRules();
    LedgerAt(s.ledger, (from, tx.token), 0);
  }

  lemma MoveStores(e: Env, f: nat, s: Storage, h: Holding, n: nat, x: Value, t: Value, batch: Value)
    ensures Run(e, f, MOVE_STORE,
      Push(VInt(n), Push(HoldingKey(h), Opened(s, Push(x, Push(t, Push(batch, Empty))))))) ==
      Run(e, f, MOVE_CREDIT, Push(EncodeStorage(s.(ledger := s.ledger[h := n])), Push(x, Push(t, Push(batch, Empty)))))
  {
    hide Run, Then, Step, Basic, Copy, Rest, LedgerMap, MOVE_CREDIT, HoldingKey;
    StackMachine(); DataMachine(); AccessRules();
    LedgerAt(s.ledger, h, n);
    hide TextMap, PermissionsMap, TokensMap;
  }

  lemma MoveCredits(e: Env, f: nat, s: Storage, tx: Tx, t: Value, batch: Value)
    ensures var x := EncodeTx(tx); var h := (tx.to, tx.token);
      Run(e, f, MOVE_CREDIT, Push(EncodeStorage(s), Push(x, Push(t, Push(batch, Empty))))) ==
      Run(e, f, if h in s.ledger then CREDIT_MORE else CREDIT_FIRST,
        Push(x, Push(t, Push(batch, Push(EncodeStorage(s), Empty)))))
  {
    hide Run, Then, Step, Basic, Copy, Rest, LedgerMap, Others, CREDIT_MORE, CREDIT_FIRST;
    StackMachine(); DataMachine(); AccessRules();
    var h := (tx.to, tx.token);
    LedgerAt(s.ledger, h, 0);
    var o := Run(e, f, if h in s.ledger then CREDIT_MORE else CREDIT_FIRST,
      Push(EncodeTx(tx), Push(t, Push(batch, Push(EncodeStorage(s), Empty)))));
    assert o.Ok? ==> o == Ok(o.stack);
  }

  lemma CreditStoreRuns(e: Env, f: nat, s: Storage, h: Holding, n: nat, t: Value, batch: Value)
    ensures Run(e, f, CREDIT_STORE, Push(VInt(n), Push(HoldingKey(h), Opened(s, Push(t, Push(batch, Empty)))))) ==
      Ok(Push(t, Push(batch, Push(EncodeStorage(s.(ledger := s.ledger[h := n])), Empty))))
  {
    hide Run, Then, Step, Basic, LedgerMap, HoldingKey, TextMap, PermissionsMap, TokensMap;
    StackMachine(); DataMachine();
    LedgerAt(s.ledger, h, n);
  }

  lemma CreditFirstRuns(e: Env, f: nat, s: Storage, tx: Tx, t: Value, batch: Value)
    ensures Run(e, f, CREDIT_FIRST, Push(EncodeTx(tx), Push(t, Push(batch, Push(EncodeStorage(s), Empty))))) ==
      Ok(Push(t, Push(batch, Push(EncodeStorage(s.(ledger := s.ledger[(tx.to, tx.token) := tx.amount])), Empty))))
  {
    hide Run, Then, Step, Basic, Copy, Rest, LedgerMap, Others, CREDIT_STORE;
    StackMachine(); AccessRules();
    CreditStoreRuns(e, f, s, (tx.to, tx.token), tx.amount, t, batch);
  }

  lemma CreditMoreOpens(e: Env, f: nat, s: Storage, tx: Tx, t: Value, batch: Value)
    ensures Run(e, f, CREDIT_MORE, Push(EncodeTx(tx), Push(t, Push(batch, Push(EncodeStorage(s), Empty))))) ==
      Run(e, f, CREDIT_KEY, Push(EncodeTx(tx), Push(VMap(LedgerMap(s.ledger)),
        Opened(s, Push(t, Push(batch, Push(EncodeStorage(s), Empty)))))))
  {
    hide Run, Then, Step, Basic, Copy, Rest, LedgerMap, Others, EncodeTx, CREDIT_KEY;
    StackMachine(); AccessRules();
  }

  lemma CreditFindsKey(e: Env, f: nat, s: Storage, tx: Tx, t: Value, batch: Value)
    requires (tx.to, tx.token) in s.ledger
    ensures Run(e, f, CREDIT_KEY, Push(EncodeTx(tx), Push(VMap(LedgerMap(s.ledger)),
        Opened(s, Push(t, Push(batch, Push(EncodeStorage(s), Empty))))))) ==
      Run(e, f, CREDIT_ADD, Push(HoldingKey((tx.to, tx.token)),
        Opened(s, Push(EncodeTx(tx), Push(t, Push(batch, Push(EncodeStorage(s), Empty)))))))
  {
    hide Run, Then, Step, Basic, Copy, Rest, LedgerMap, Others, EncodeStorage, CREDIT_ADD;
    StackMachine(); DataMachine(); AccessRules();
    LedgerAt(s.ledger, (tx.to, tx.token), 0);
  }

  lemma CreditAddRuns(e: Env, f: nat, s: Storage, tx: Tx, t: Value, batch: Value)
    requires (tx.to, tx.token) in s.ledger
    ensures var h := (tx.to, tx.token);
      Run(e, f, CREDIT_ADD,
        Push(HoldingKey(h), Opened(s, Push(EncodeTx(tx), Push(t, Push(batch, Push(EncodeStorage(s), Empty))))))) ==
      Ok(Push(t, Push(batch, Push(EncodeStorage(s.(ledger := s.ledger[h := s.ledger[h] + tx.amount])), Empty))))
  {
    hide Run, Then, Step, Basic, Copy, Rest, LedgerMap, Others, CREDIT_STORE;
    StackMachine(); DataMachine(); AccessRules();
    LedgerAt(s.ledger, (tx.to, tx.token), 0);
    CreditStoreRuns(e, f, s, (tx.to, tx.token), s.ledger[(tx.to, tx.token)] + tx.amount, t, batch);
  }

  /** The part of the loop body that moves tokens is a debit followed by a credit. */
  lemma MoveRefines(e: Env, f: nat, s: Storage, from: Account, tx: Tx, txs: Value, batch: Value)
    requires (from, tx.token) in s.ledger && tx.amount <= s.ledger[(from, tx.token)]
    ensures var debited := Debited(s.ledger, (from, tx.token), tx.amount);
      Run(e, f, MOVE_OPEN, Push(EncodeTx(tx), Sending(from, txs, batch, s))) ==
      Ok(Sending(from, txs, batch, s.(ledger := Credited(debited, (tx.to, tx.token), tx.amount))))
  {
    hide Run, MOVE_OPEN, MOVE_KEY, MOVE_LESS, MOVE_STORE, MOVE_CREDIT, CREDIT_MORE, CREDIT_FIRST, CREDIT_KEY,
      CREDIT_ADD, Opened, EncodeStorage, EncodeTx, HoldingKey;
    var t := VPair(VAddr(from), txs);
    var s' := s.(ledger := Debited(s.ledger, (from, tx.token), tx.amount));
    MoveOpens(e, f, s, from, tx, txs, batch);
    MoveFindsKey(e, f, s, from, tx, txs, batch);
    MoveTakes(e, f, s, from, tx, txs, batch);
    MoveStores(e, f, s, (from, tx.token), s.ledger[(from, tx.token)] - tx.amount, EncodeTx(tx), t, batch);
    MoveCredits(e, f, s', tx, t, batch);
    if (tx.to, tx.token) in s'.ledger {
      CreditMoreOpens(e, f, s', tx, t, batch);
      CreditFindsKey(e, f, s', tx, t, batch);
      CreditAddRuns(e, f, s', tx, t, batch);
    } else {
      CreditFirstRuns(e, f, s', tx, t, batch);
    }
  }

  /** One pass of the inner loop. */
  lemma SendRefines(e: Env, f: nat, s: Storage, from: Account, tx: Tx, txs: Value, batch: Value)
    ensures var r := Sent(e, s, from, tx);
      Run(e, f, SEND, Push(EncodeTx(tx), Sending(from, txs, batch, s))) ==
      if r.Accepted? then Ok(Sending(from, txs, batch, r.storage)) else r.why
  {
    hide Run, SEND, SEND_TOKEN, SEND_AMOUNT, MOVE, MOVE_OPEN, Sending, EncodeTx, MaySend, Credited;
    SendRuns(e, f, s, from, tx, txs, batch);
    SendTokenRuns(e, f, s, from, tx, txs, batch);
    SendAmountRuns(e, f, s, from, tx, txs, batch);
    MoveRuns(e, f, s, from, tx, txs, batch);
    if (from, tx.token) in s.ledger && tx.amount <= s.ledger[(from, tx.token)] {
      MoveRefines(e, f, s, from, tx, txs, batch);
    }
  }

  lemma {:induction false} InnerLoop(e: Env, f: nat, s: Storage, from: Account, txs: seq<Tx>, all: Value, batch: Value)
    ensures var r := SentAll(e, s, from, txs);
      Iter(e, f, SEND, EncodeSeq(txs, EncodeTx), Sending(from, all, batch, s)) ==
      if r.Accepted? then Ok(Sending(from, all, batch, r.storage)) else r.why
    decreases |txs|
  {
    hide Run, SEND, Sending, Sent;
    if txs != [] {
      EncodeTail(txs, EncodeTx);
      IterCons(e, f, SEND, EncodeSeq(txs, EncodeTx), Sending(from, all, batch, s));
      SendRefines(e, f, s, from, txs[0], all, batch);
      var r := Sent(e, s, from, txs[0]);
      if r.Accepted? { InnerLoop(e, f, r.storage, from, txs[1..], all, batch); }
    }
  }

  lemma SendAllRuns(e: Env, f: nat, s: Storage, t: Transfer, batch: Value)
    ensures var r := SentAll(e, s, t.from, t.txs);
      Run(e, f, SEND_ALL, Push(EncodeTransfer(t), Push(batch, Push(EncodeStorage(s), Empty)))) ==
      if r.Accepted? then Ok(Push(batch, Push(EncodeStorage(r.storage), Empty))) else r.why
  {
    hide Run, Then, Step, Basic, SEND, EncodeStorage, SentAll;
    StackMachine(); AccessRules();
    InnerLoop(e, f, s, t.from, t.txs, VList(EncodeSeq(t.txs, EncodeTx)), batch);
  }

  lemma {:induction false} OuterLoop(e: Env, f: nat, s: Storage, transfers: seq<Transfer>, batch: Value)
    ensures var r := Transferred(e, s, transfers);
      Iter(e, f, SEND_ALL, EncodeSeq(transfers, EncodeTransfer), Push(batch, Push(EncodeStorage(s), Empty))) ==
      if r.Accepted? then Ok(Push(batch, Push(EncodeStorage(r.storage), Empty))) else r.why
    decreases |transfers|
  {
    hide Run, SEND_ALL, EncodeStorage, SentAll;
    if transfers != [] {
      var t := transfers[0];
      EncodeTail(transfers, EncodeTransfer);
      IterCons(e, f, SEND_ALL, EncodeSeq(transfers, EncodeTransfer), Push(batch, Push(EncodeStorage(s), Empty)));
      SendAllRuns(e, f, s, t, batch);
      var r := SentAll(e, s, t.from, t.txs);
      if r.Accepted? { OuterLoop(e, f, r.storage, transfers[1..], batch); }
    }
  }

  lemma TransferRuns(e: Env, f: nat, s: Storage, transfers: seq<Transfer>)
    ensures var r := Called(e, s, TransferAll(transfers));
      Run(e, f, TRANSFER, Push(VList(EncodeSeq(transfers, EncodeTransfer)), Push(EncodeStorage(s), Empty))) ==
      if r.Accepted? then Ok(Push(EncodeStorage(r.storage), Empty)) else r.why
  {
    hide Run, Then, Step, Basic, Copy, Rest, SEND_ALL, LedgerMap, TextMap, PermissionsMap, TokensMap, EncodeTransfer,
      Transferred;
    StackMachine(); AccessRules();
    OuterLoop(e, f, s, transfers, VList(EncodeSeq(transfers, EncodeTransfer)));
  }

  // ---------------------------------------------------------------- update_operators

  function EncodeUpdate(u: OperatorUpdate): Value {
    if u.AddOperator? then VLeft(PermissionKey(u.permission)) else VRight(PermissionKey(u.permission))
  }

  lemma AddChecks(e: Env, f: nat, s: Storage, p: Permission, w: Value, batch: Value)
    ensures Run(e, f, ADD_OPERATOR, Push(PermissionKey(p), Push(w, Push(batch, Push(EncodeStorage(s), Empty))))) ==
      if p.owner != e.sender && s.administrator != e.sender then Failed(VInt(489))
      else Run(e, f, ADD_PERMISSION, Push(PermissionKey(p), Push(batch, Push(EncodeStorage(s), Empty))))
  {
    hide Run, Then, Step, Basic, Copy, Rest, LedgerMap, Others, ADD_PERMISSION;
    StackMachine(); DataMachine(); WorldMachine(); AccessRules();
  }

  ghost function First(s: Storage): Value {
    VPair(VAddr(s.administrator), VPair(VInt(s.allTokens), VMap(LedgerMap(s.ledger))))
  }

  /** The storage taken apart around its operators. */
  ghost function Unfolded(s: Storage, rest: Stack): Stack {
    Push(VMap(PermissionsMap(s.operators)), Push(VMap(TextMap(s.metadata)),
      Push(VPair(VBool(s.paused), VMap(TokensMap(s.tokens))), Push(First(s), rest))))
  }

  function Role(p: Permission): Value { VPair(VAddr(p.operator), VInt(p.token)) }

  lemma AddRuns(e: Env, f: nat, s: Storage, p: Permission, batch: Value)
    ensures Run(e, f, ADD_PERMISSION, Push(PermissionKey(p), Push(batch, Push(EncodeStorage(s), Empty)))) ==
      Ok(Push(batch, Push(EncodeStorage(s.(operators := s.operators + {p})), Empty)))
  {
    hide Run, Then, Step, Basic, Copy, Rest, LedgerMap, TextMap, PermissionsMap, TokensMap, ADD_STORE;
    StackMachine(); AccessRules();
    AddStoreRuns(e, f, s, p, batch);
  }

  lemma AddStoreRuns(e: Env, f: nat, s: Storage, p: Permission, batch: Value)
    ensures Run(e, f, ADD_STORE, Push(Role(p), Unfolded(s, Push(PermissionKey(p), Push(batch, Empty))))) ==
      Ok(Push(batch, Push(EncodeStorage(s.(operators := s.operators + {p})), Empty)))
  {
    hide Run, Then, Step, Basic, Copy, Rest, LedgerMap, TextMap, PermissionsMap, TokensMap;
    StackMachine(); DataMachine();
    PermissionsAt(s.operators, p);
  }

  lemma RemoveChecks(e: Env, f: nat, s: Storage, p: Permission, w: Value, batch: Value)
    ensures Run(e, f, REMOVE_OPERATOR, Push(PermissionKey(p), Push(w, Push(batch, Push(EncodeStorage(s), Empty))))) ==
      if p.owner != e.sender && s.administrator != e.sender then Failed(VInt(496))
      else Run(e, f, REMOVE_PERMISSION, Push(PermissionKey(p), Push(batch, Push(EncodeStorage(s), Empty))))
  {
    hide Run, Then, Step, Basic, Copy, Rest, LedgerMap, Others, REMOVE_PERMISSION;
    StackMachine(); DataMachine(); WorldMachine(); AccessRules();
  }

  lemma RemoveRuns(e: Env, f: nat, s: Storage, p: Permission, batch: Value)
    ensures Run(e, f, REMOVE_PERMISSION, Push(PermissionKey(p), Push(batch, Push(EncodeStorage(s), Empty)))) ==
      Ok(Push(batch, Push(EncodeStorage(s.(operators := s.operators - {p})), Empty)))
  {
    hide Run, Then, Step, Basic, Copy, Rest, LedgerMap, TextMap, PermissionsMap, TokensMap, REMOVE_STORE;
    StackMachine(); AccessRules();
    RemoveStoreRuns(e, f, s, p, batch);
  }

  lemma RemoveStoreRuns(e: Env, f: nat, s: Storage, p: Permission, batch: Value)
    ensures Run(e, f, REMOVE_STORE,
      Push(Role(p), Push(VNone, Unfolded(s, Push(PermissionKey(p), Push(batch, Empty)))))) ==
      Ok(Push(batch, Push(EncodeStorage(s.(operators := s.operators - {p})), Empty)))
  {
    hide Run, Then, Step, Basic, Copy, Rest, LedgerMap, TextMap, PermissionsMap, TokensMap;
    StackMachine(); DataMachine();
    PermissionsAt(s.operators, p);
  }

  lemma UpdateRefines(e: Env, f: nat, s: Storage, u: OperatorUpdate, batch: Value)
    ensures var r := UpdatedOne(e, s, u);
      Run(e, f, UPDATE_ONE, Push(EncodeUpdate(u), Push(batch, Push(EncodeStorage(s), Empty)))) ==
      if r.Accepted? then Ok(Push(batch, Push(EncodeStorage(r.storage), Empty))) else r.why
  {
    hide Run, Then, Step, Basic, ADD_OPERATOR, REMOVE_OPERATOR, ADD_PERMISSION, REMOVE_PERMISSION, EncodeStorage,
      PermissionKey;
    StackMachine();
    var p := u.permission;
    if u.AddOperator? {
      AddChecks(e, f, s, p, EncodeUpdate(u), batch);
      AddRuns(e, f, s, p, batch);
    } else {
      RemoveChecks(e, f, s, p, EncodeUpdate(u), batch);
      RemoveRuns(e, f, s, p, batch);
    }
  }

  lemma {:induction false} UpdateLoop(e: Env, f: nat, s: Storage, updates: seq<OperatorUpdate>, batch: Value)
    ensures var r := UpdatedAll(e, s, updates);
      Iter(e, f, UPDATE_ONE, EncodeSeq(updates, EncodeUpdate), Push(batch, Push(EncodeStorage(s), Empty))) ==
      if r.Accepted? then Ok(Push(batch, Push(EncodeStorage(r.storage), Empty))) else r.why
    decreases |updates|
  {
    hide Run, UPDATE_ONE, EncodeStorage;
    if updates != [] {
      EncodeTail(updates, EncodeUpdate);
      IterCons(e, f, UPDATE_ONE, EncodeSeq(updates, EncodeUpdate), Push(batch, Push(EncodeStorage(s), Empty)));
      UpdateRefines(e, f, s, updates[0], batch);
      var r := UpdatedOne(e, s, updates[0]);
      if r.Accepted? { UpdateLoop(e, f, r.storage, updates[1..], batch); }
    }
  }

  lemma UpdateOperatorsRuns(e: Env, f: nat, s: Storage, updates: seq<OperatorUpdate>)
    ensures var r := UpdatedAll(e, s, updates);
      Run(e, f, UPDATE_OPERATORS, Push(VList(EncodeSeq(updates, EncodeUpdate)), Push(EncodeStorage(s), Empty))) ==
      if r.Accepted? then Ok(Push(EncodeStorage(r.storage), Empty)) else r.why
  {
    hide Run, Then, Step, Basic, UPDATE_ONE, EncodeStorage, EncodeUpdate, UpdatedAll;
    StackMachine();
    UpdateLoop(e, f, s, updates, VList(EncodeSeq(updates, EncodeUpdate)));
  }

  // ---------------------------------------------------------------- balance_of

  function EncodeBalance(b: (Holding, nat)): Value { VPair(HoldingKey(b.0), VInt(b.1)) }

  lemma BalanceOneRuns(e: Env, f: nat, s: Storage, h: Holding, arg: Value)
    ensures var rest := Push(arg, Push(EncodeStorage(s), Empty));
      Run(e, f, BALANCE_ONE, Push(HoldingKey(h), rest)) ==
      if h.1 !in s.tokens then Failed(VStr("FA2_TOKEN_UNDEFINED"))
      else Run(e, f, BALANCE_KNOWN, Push(HoldingKey(h), rest))
  {
    hide Run, Then, Step, Basic, Copy, Rest, LedgerMap, TextMap, PermissionsMap, TokensMap, BALANCE_KNOWN;
    StackMachine(); DataMachine(); AccessRules();
    TokensAt(s.tokens, h.1, Token(map[], 0));
  }

  lemma BalanceKnownRuns(e: Env, f: nat, s: Storage, h: Holding, arg: Value)
    ensures var rest := Push(arg, Push(EncodeStorage(s), Empty));
      Run(e, f, BALANCE_KNOWN, Push(HoldingKey(h), rest)) == Ok(Push(EncodeBalance((h, Owned(s.ledger, h))), rest))
  {
    hide Run, Then, Step, Basic, Copy, Rest, LedgerMap, Others, BALANCE_FOUND, BALANCE_NONE;
    StackMachine(); DataMachine(); AccessRules();
    LedgerAt(s.ledger, h, 0);
    BalanceBranches(e, f, s, h, arg);
  }

  lemma BalancePairs(e: Env, f: nat, h: Holding, n: nat, rest: Stack)
    ensures Run(e, f, BALANCE_PAIR, Push(VInt(n), Push(HoldingKey(h), rest))) == Ok(Push(EncodeBalance((h, n)), rest))
  {
    hide Run, Then, Step, Basic;
    StackMachine();
  }

  lemma BalanceBranches(e: Env, f: nat, s: Storage, h: Holding, arg: Value)
    ensures var rest := Push(arg, Push(EncodeStorage(s), Empty));
      && (h in s.ledger ==>
           Run(e, f, BALANCE_FOUND, Push(HoldingKey(h), rest)) == Ok(Push(EncodeBalance((h, s.ledger[h])), rest)))
      && Run(e, f, BALANCE_NONE, Push(HoldingKey(h), rest)) == Ok(Push(EncodeBalance((h, 0)), rest))
  {
    hide Run, Then, Step, Basic, Copy, Rest, LedgerMap, Others, BALANCE_PAIR, EncodeBalance;
    StackMachine(); DataMachine(); AccessRules();
    LedgerAt(s.ledger, h, 0);
    var rest := Push(arg, Push(EncodeStorage(s), Empty));
    BalancePairs(e, f, h, Owned(s.ledger, h), rest);
    BalancePairs(e, f, h, 0, rest);
  }

  lemma {:induction false} BalanceLoop(e: Env, f: nat, s: Storage, requests: seq<Holding>, done: seq<(Holding, nat)>,
      arg: Value)
    ensures var rest := Push(arg, Push(EncodeStorage(s), Empty));
      MapList(e, f, BALANCE_ONE, EncodeSeq(requests, HoldingKey), EncodeSeq(done, EncodeBalance), rest) ==
      if exists i :: 0 <= i < |requests| && requests[i].1 !in s.tokens then Failed(VStr("FA2_TOKEN_UNDEFINED"))
      else Ok(Push(VList(EncodeSeq(done + Balances(s, requests), EncodeBalance)), rest))
    decreases |requests|
  {
    hide Run, BALANCE_ONE, BALANCE_KNOWN, EncodeStorage, HoldingKey, EncodeBalance;
    var rest := Push(arg, Push(EncodeStorage(s), Empty));
    if requests == [] {
      assert done + [] == done;
    } else {
      var h := requests[0];
      EncodeTail(requests, HoldingKey);
      MapCons(e, f, BALANCE_ONE, EncodeSeq(requests, HoldingKey), EncodeSeq(done, EncodeBalance), rest);
      BalanceOneRuns(e, f, s, h, arg);
      BalanceKnownRuns(e, f, s, h, arg);
      var more := done + [(h, Owned(s.ledger, h))];
      assert EncodeSeq(more, EncodeBalance) ==
        EncodeSeq(done, EncodeBalance) + [EncodeBalance((h, Owned(s.ledger, h)))];
      if h.1 in s.tokens {
        BalanceLoop(e, f, s, requests[1..], more, arg);
        assert more + Balances(s, requests[1..]) == done + Balances(s, requests);
        TailHasUnknown(s, requests);
      } else {
        assert requests[0].1 !in s.tokens;
      }
    }
  }

  lemma TailHasUnknown(s: Storage, requests: seq<Holding>)
    requires requests != [] && requests[0].1 in s.tokens
    ensures (exists i :: 0 <= i < |requests| && requests[i].1 !in s.tokens) <==>
      (exists i :: 0 <= i < |requests[1..]| && requests[1..][i].1 !in s.tokens)
  {
    var tail := requests[1..];
    if i :| 0 <= i < |requests| && requests[i].1 !in s.tokens { assert tail[i - 1] == requests[i]; }
    if i :| 0 <= i < |tail| && tail[i].1 !in s.tokens { assert requests[i + 1] == tail[i]; }
  }

  lemma BalanceOfRuns(e: Env, f: nat, s: Storage, requests: seq<Holding>, to: Account, at: string)
    ensures var arg := VPair(VList(EncodeSeq(requests, HoldingKey)), VContract(to, at));
      var r := Reported(s, requests, to, at);
      Run(e, f, BALANCE_OF, Push(arg, Push(EncodeStorage(s), Empty))) ==
      if r.Accepted? then Ok(Push(VList(EncodeSeq(r.ops, EncodeOp)), Push(EncodeStorage(s), Empty))) else r.why
  {
    hide Run, Then, Step, Basic, Copy, Rest, BALANCE_ONE, LedgerMap, TextMap, PermissionsMap, TokensMap,
      EncodeBalance, Balances;
    StackMachine(); WorldMachine(); AccessRules();
    BalanceLoop(e, f, s, requests, [], VPair(VList(EncodeSeq(requests, HoldingKey)), VContract(to, at)));
    assert [] + Balances(s, requests) == Balances(s, requests);
    var op := Report(to, at, Balances(s, requests));
    EncodeFew(op, op, EncodeOp);
    assert [EncodeOp(op)] + [] == [EncodeOp(op)];
    assert EncodeSeq<(Holding, nat)>([], EncodeBalance) == [];
  }

  function EncodeOp(op: Op): Value {
    match op
    case Report(to, at, balances) => VTransfer(VList(EncodeSeq(balances, EncodeBalance)), 0, to, at)
    case Pay(destination, tez) => VTransfer(VUnit, tez, destination, "")
  }

  // ---------------------------------------------------------------- mint

  ghost function MintArg(to: Account, amount: nat, about: map<string, string>, id: nat): Value {
    VPair(VPair(VAddr(to), VInt(amount)), VPair(VMap(TextMap(about)), VInt(id)))
  }

  lemma MintChecks(e: Env, f: nat, s: Storage, arg: Value)
    ensures Run(e, f, MINT, Push(arg, Push(EncodeStorage(s), Empty))) ==
      if e.sender != s.administrator then Failed(VInt(539))
      else Run(e, f, MINT_ID, Push(arg, Push(EncodeStorage(s), Empty)))
  {
    hide Run, Then, Step, Basic, Copy, Rest, LedgerMap, Others, MINT_ID;
    StackMachine(); DataMachine(); WorldMachine(); AccessRules();
  }

  lemma MintIdRuns(e: Env, f: nat, s: Storage, to: Account, amount: nat, about: map<string, string>, id: nat)
    ensures var frame := Push(MintArg(to, amount, about, id), Push(EncodeStorage(s), Empty));
      Run(e, f, MINT_ID, frame) ==
      if id != s.allTokens then Failed(VStr("Token-IDs should be consecutive")) else Run(e, f, MINT_COUNT, frame)
  {
    hide Run, Then, Step, Basic, Copy, Rest, LedgerMap, TextMap, Others, MINT_COUNT;
    StackMachine(); DataMachine(); AccessRules();
  }

  lemma MintCountOpens(e: Env, f: nat, s: Storage, arg: Value)
    ensures Run(e, f, MINT_COUNT, Push(arg, Push(EncodeStorage(s), Empty))) ==
      Run(e, f, MINT_NEXT, Push(VInt(s.allTokens), Push(VMap(LedgerMap(s.ledger)),
        Push(VAddr(s.administrator), Push(Others(s), Push(arg, Empty))))))
  {
    hide Run, Then, Step, Basic, Copy, Rest, LedgerMap, Others, MINT_NEXT;
    StackMachine(); AccessRules();
  }

  lemma MintNextRuns(e: Env, f: nat, s: Storage, to: Account, amount: nat, about: map<string, string>, id: nat)
    ensures var arg := MintArg(to, amount, about, id);
      Run(e, f, MINT_NEXT, Push(VInt(s.allTokens), Push(VMap(LedgerMap(s.ledger)),
        Push(VAddr(s.administrator), Push(Others(s), Push(arg, Empty)))))) ==
      Run(e, f, MINT_LEDGER,
        Push(EncodeStorage(s.(allTokens := if id + 1 <= s.allTokens then s.allTokens else id + 1)), Push(arg, Empty)))
  {
    hide Run, Then, Step, Basic, Copy, Rest, LedgerMap, TextMap, PermissionsMap, TokensMap, MINT_LEDGER;
    StackMachine(); DataMachine(); AccessRules();
  }

  lemma MintLedgerRuns(e: Env, f: nat, s: Storage, to: Account, amount: nat, about: map<string, string>, id: nat)
    ensures var arg := MintArg(to, amount, about, id); var h := (to, id);
      Run(e, f, MINT_LEDGER, Push(EncodeStorage(s), Push(arg, Empty))) ==
      Then(e, f, Run(e, f, if h in s.ledger then MINT_MORE else MINT_FIRST, Push(arg, Push(EncodeStorage(s), Empty))),
        MINT_TOKENS)
  {
    hide Run, Then, Step, Basic, Copy, Rest, LedgerMap, TextMap, Others, MINT_MORE, MINT_FIRST, MINT_TOKENS;
    StackMachine(); DataMachine(); AccessRules();
    LedgerAt(s.ledger, (to, id), 0);
  }

  lemma MintStoreRuns(e: Env, f: nat, s: Storage, h: Holding, n: nat, arg: Value)
    ensures Run(e, f, MINT_STORE, Push(VInt(n), Push(HoldingKey(h), Opened(s, Push(arg, Empty))))) ==
      Ok(Push(arg, Push(EncodeStorage(s.(ledger := s.ledger[h := n])), Empty)))
  {
    hide Run, Then, Step, Basic, LedgerMap, HoldingKey, TextMap, PermissionsMap, TokensMap;
    StackMachine(); DataMachine();
    LedgerAt(s.ledger, h, n);
  }

  lemma MintFirstRuns(e: Env, f: nat, s: Storage, to: Account, amount: nat, about: map<string, string>, id: nat)
    ensures var arg := MintArg(to, amount, about, id);
      Run(e, f, MINT_FIRST, Push(arg, Push(EncodeStorage(s), Empty))) ==
      Ok(Push(arg, Push(EncodeStorage(s.(ledger := s.ledger[(to, id) := amount])), Empty)))
  {
    hide Run, Then, Step, Basic, Copy, Rest, LedgerMap, TextMap, Others, MINT_STORE;
    StackMachine(); AccessRules();
    MintStoreRuns(e, f, s, (to, id), amount, MintArg(to, amount, about, id));
  }

  lemma MintMoreRuns(e: Env, f: nat, s: Storage, to: Account, amount: nat, about: map<string, string>, id: nat)
    requires (to, id) in s.ledger
    ensures var arg := MintArg(to, amount, about, id); var h := (to, id);
      Run(e, f, MINT_MORE, Push(arg, Push(EncodeStorage(s), Empty))) ==
      Ok(Push(arg, Push(EncodeStorage(s.(ledger := s.ledger[h := s.ledger[h] + amount])), Empty)))
  {
    hide Run, Then, Step, Basic, Copy, Rest, LedgerMap, TextMap, Others, MINT_KEY;
    StackMachine(); AccessRules();
    MintKeyRuns(e, f, s, to, amount, about, id);
  }

  lemma MintKeyRuns(e: Env, f: nat, s: Storage, to: Account, amount: nat, about: map<string, string>, id: nat)
    requires (to, id) in s.ledger
    ensures var arg := MintArg(to, amount, about, id); var h := (to, id);
      Run(e, f, MINT_KEY, Opened(s, Push(arg, Push(EncodeStorage(s), Empty)))) ==
      Ok(Push(arg, Push(EncodeStorage(s.(ledger := s.ledger[h := s.ledger[h] + amount])), Empty)))
  {
    hide Run, Then, Step, Basic, Copy, Rest, LedgerMap, TextMap, Others, EncodeStorage, MINT_ADD;
    StackMachine(); DataMachine(); AccessRules();
    LedgerAt(s.ledger, (to, id), 0);
    MintAddRuns(e, f, s, to, amount, about, id);
  }

  lemma MintAddRuns(e: Env, f: nat, s: Storage, to: Account, amount: nat, about: map<string, string>, id: nat)
    requires (to, id) in s.ledger
    ensures var arg := MintArg(to, amount, about, id); var h := (to, id);
      Run(e, f, MINT_ADD, Push(HoldingKey(h), Opened(s, Push(arg, Push(EncodeStorage(s), Empty))))) ==
      Ok(Push(arg, Push(EncodeStorage(s.(ledger := s.ledger[h := s.ledger[h] + amount])), Empty)))
  {
    hide Run, Then, Step, Basic, Copy, Rest, LedgerMap, TextMap, Others, MINT_STORE;
    StackMachine(); DataMachine(); AccessRules();
    LedgerAt(s.ledger, (to, id), 0);
    MintStoreRuns(e, f, s, (to, id), s.ledger[(to, id)] + amount, MintArg(to, amount, about, id));
  }

  lemma MintTokensRuns(e: Env, f: nat, s: Storage, to: Account, amount: nat, about: map<string, string>, id: nat)
    ensures var t := s.(tokens := if id in s.tokens then s.tokens else s.tokens[id := Token(about, amount)]);
      Run(e, f, MINT_TOKENS, Push(MintArg(to, amount, about, id), Push(EncodeStorage(s), Empty))) ==
      Ok(Push(VList([]), Push(EncodeStorage(t), Empty)))
  {
    hide Run, Then, Step, Basic, Copy, Rest, LedgerMap, TextMap, PermissionsMap, TokensMap, MINT_TOKEN;
    StackMachine(); DataMachine(); AccessRules();
    TokensAt(s.tokens, id, Token(about, amount));
    MintTokenRuns(e, f, s, to, amount, about, id);
  }

  lemma MintTokenRuns(e: Env, f: nat, s: Storage, to: Account, amount: nat, about: map<string, string>, id: nat)
    ensures Run(e, f, MINT_TOKEN, Push(MintArg(to, amount, about, id), Push(EncodeStorage(s), Empty))) ==
      Ok(Push(EncodeStorage(s.(tokens := s.tokens[id := Token(about, amount)])), Empty))
  {
    hide Run, Then, Step, Basic, LedgerMap, TextMap, PermissionsMap, TokensMap, MintArg, MINT_TOKEN_STORE;
    StackMachine();
    MintTokenStores(e, f, s, to, amount, about, id);
  }

  lemma MintTokenStores(e: Env, f: nat, s: Storage, to: Account, amount: nat, about: map<string, string>, id: nat)
    ensures Run(e, f, MINT_TOKEN_STORE, Push(VMap(TokensMap(s.tokens)), Push(VBool(s.paused),
        Push(VPair(VMap(TextMap(s.metadata)), VMap(PermissionsMap(s.operators))), Push(First(s),
          Push(MintArg(to, amount, about, id), Empty)))))) ==
      Ok(Push(EncodeStorage(s.(tokens := s.tokens[id := Token(about, amount)])), Empty))
  {
    hide Run, Then, Step, Basic, Copy, Rest, LedgerMap, TextMap, PermissionsMap, TokensMap;
    StackMachine(); DataMachine(); AccessRules();
    TokensAt(s.tokens, id, Token(about, amount));
  }

  lemma MintRefines(e: Env, f: nat, s: Storage, to: Account, amount: nat, about: map<string, string>, id: nat)
    ensures var r := Minted(e, s, to, amount, about, id);
      Run(e, f, MINT, Push(MintArg(to, amount, about, id), Push(EncodeStorage(s), Empty))) ==
      if r.Accepted? then Ok(Push(VList([]), Push(EncodeStorage(r.storage), Empty))) else r.why
  {
    hide Run, MINT, MINT_ID, MINT_COUNT, MINT_NEXT, MINT_LEDGER, MINT_MORE, MINT_FIRST, MINT_TOKENS, MintArg,
      EncodeStorage, LedgerMap, Others, Then;
    StackMachine();
    var arg := MintArg(to, amount, about, id);
    MintChecks(e, f, s, arg);
    if e.sender == s.administrator {
      MintIdRuns(e, f, s, to, amount, about, id);
      if id == s.allTokens {
        var t := s.(allTokens := id + 1);
        var u := t.(ledger := t.ledger[(to, id) := Owned(t.ledger, (to, id)) + amount]);
        MintCountOpens(e, f, s, arg);
        MintNextRuns(e, f, s, to, amount, about, id);
        MintLedgerRuns(e, f, t, to, amount, about, id);
        if (to, id) in t.ledger {
          MintMoreRuns(e, f, t, to, amount, about, id);
        } else {
          MintFirstRuns(e, f, t, to, amount, about, id);
        }
        MintTokensRuns(e, f, u, to, amount, about, id);
      }
    }
  }

  // ---------------------------------------------------------------- the administrator's entrypoints

  lemma MutezTransferChecks(e: Env, f: nat, s: Storage, arg: Value)
    ensures Run(e, f, MUTEZ_TRANSFER, Push(arg, Push(EncodeStorage(s), Empty))) ==
      if e.sender != s.administrator then Failed(VInt(346))
      else Run(e, f, MUTEZ_PAY, Push(arg, Push(EncodeStorage(s), Empty)))
  {
    hide Run, Then, Step, Basic, Copy, Rest, LedgerMap, Others, MUTEZ_PAY;
    StackMachine(); DataMachine(); WorldMachine(); AccessRules();
  }

  lemma SetAdministratorChecks(e: Env, f: nat, s: Storage, arg: Value)
    ensures Run(e, f, SET_ADMINISTRATOR, Push(arg, Push(EncodeStorage(s), Empty))) ==
      if e.sender != s.administrator then Failed(VInt(518))
      else Run(e, f, ADMINISTRATOR_STORE, Push(arg, Push(EncodeStorage(s), Empty)))
  {
    hide Run, Then, Step, Basic, Copy, Rest, LedgerMap, Others, ADMINISTRATOR_STORE;
    StackMachine(); DataMachine(); WorldMachine(); AccessRules();
  }

  lemma SetMetadataChecks(e: Env, f: nat, s: Storage, arg: Value)
    ensures Run(e, f, SET_METADATA, Push(arg, Push(EncodeStorage(s), Empty))) ==
      if e.sender != s.administrator then Failed(VInt(533))
      else Run(e, f, METADATA_OPEN, Push(arg, Push(EncodeStorage(s), Empty)))
  {
    hide Run, Then, Step, Basic, Copy, Rest, LedgerMap, Others, METADATA_OPEN;
    StackMachine(); DataMachine(); WorldMachine(); AccessRules();
  }

  lemma SetPauseChecks(e: Env, f: nat, s: Storage, arg: Value)
    ensures Run(e, f, SET_PAUSE, Push(arg, Push(EncodeStorage(s), Empty))) ==
      if e.sender != s.administrator then Failed(VInt(527))
      else Run(e, f, PAUSE_STORE, Push(arg, Push(EncodeStorage(s), Empty)))
  {
    hide Run, Then, Step, Basic, Copy, Rest, LedgerMap, Others, PAUSE_STORE;
    StackMachine(); DataMachine(); WorldMachine(); AccessRules();
  }

  lemma MutezTransferRuns(e: Env, f: nat, s: Storage, tez: nat, to: Account)
    ensures var r := Called(e, s, MutezTransfer(tez, to));
      Run(e, f, MUTEZ_TRANSFER, Push(VPair(VMutez(tez), VAddr(to)), Push(EncodeStorage(s), Empty))) ==
      if r.Accepted? then Ok(Push(VList(EncodeSeq(r.ops, EncodeOp)), Push(EncodeStorage(s), Empty))) else r.why
  {
    hide Run, Then, Step, Basic, EncodeStorage, MUTEZ_TRANSFER;
    StackMachine(); WorldMachine();
    MutezTransferChecks(e, f, s, VPair(VMutez(tez), VAddr(to)));
    EncodeFew(Pay(to, tez), Pay(to, tez), EncodeOp);
    assert [VTransfer(VUnit, tez, to, "")] + [] == [VTransfer(VUnit, tez, to, "")];
  }

  lemma SetAdministratorRuns(e: Env, f: nat, s: Storage, a: Account)
    ensures var r := Called(e, s, SetAdministrator(a));
      Run(e, f, SET_ADMINISTRATOR, Push(VAddr(a), Push(EncodeStorage(s), Empty))) ==
      if r.Accepted? then Ok(Push(VList([]), Push(EncodeStorage(r.storage), Empty))) else r.why
  {
    hide Run, Then, Step, Basic, LedgerMap, TextMap, PermissionsMap, TokensMap, SET_ADMINISTRATOR;
    StackMachine();
    SetAdministratorChecks(e, f, s, VAddr(a));
  }

  lemma SetMetadataRuns(e: Env, f: nat, s: Storage, k: string, v: string)
    ensures var r := Called(e, s, SetMetadata(k, v));
      Run(e, f, SET_METADATA, Push(VPair(VStr(k), VBytes(Raw(v))), Push(EncodeStorage(s), Empty))) ==
      if r.Accepted? then Ok(Push(EncodeStorage(r.storage), Empty)) else r.why
  {
    hide Run, Then, Step, Basic, LedgerMap, TextMap, PermissionsMap, TokensMap, SET_METADATA, METADATA_STORE;
    StackMachine();
    SetMetadataChecks(e, f, s, VPair(VStr(k), VBytes(Raw(v))));
    MetadataStores(e, f, s, k, v);
  }

  lemma MetadataStores(e: Env, f: nat, s: Storage, k: string, v: string)
    ensures Run(e, f, METADATA_STORE, Push(VMap(TextMap(s.metadata)), Push(VMap(PermissionsMap(s.operators)),
        Push(VPair(VBool(s.paused), VMap(TokensMap(s.tokens))),
          Push(First(s), Push(VPair(VStr(k), VBytes(Raw(v))), Empty)))))) ==
      Ok(Push(EncodeStorage(s.(metadata := s.metadata[k := v])), Empty))
  {
    hide Run, Then, Step, Basic, LedgerMap, TextMap, PermissionsMap, TokensMap;
    StackMachine(); DataMachine();
    TextAt(s.metadata, k, v);
  }

  lemma SetPauseRuns(e: Env, f: nat, s: Storage, p: bool)
    ensures var r := Called(e, s, SetPause(p));
      Run(e, f, SET_PAUSE, Push(VBool(p), Push(EncodeStorage(s), Empty))) ==
      if r.Accepted? then Ok(Push(EncodeStorage(r.storage), Empty)) else r.why
  {
    hide Run, Then, Step, Basic, Copy, Rest, LedgerMap, TextMap, PermissionsMap, TokensMap, SET_PAUSE;
    StackMachine(); AccessRules();
    SetPauseChecks(e, f, s, VBool(p));
  }

  // ---------------------------------------------------------------- the whole script

  ghost function EncodeCall(call: Call): Value {
    match call
    case BalanceOf(requests, callback, at) =>
      VLeft(VLeft(VLeft(VPair(VList(EncodeSeq(requests, HoldingKey)), VContract(callback, at)))))
    case Mint(to, amount, about, id) => VLeft(VLeft(VRight(MintArg(to, amount, about, id))))
    case MutezTransfer(tez, to) => VLeft(VRight(VLeft(VPair(VMutez(tez), VAddr(to)))))
    case SetAdministrator(a) => VLeft(VRight(VRight(VAddr(a))))
    case SetMetadata(k, v) => VRight(VLeft(VLeft(VPair(VStr(k), VBytes(Raw(v))))))
    case SetPause(p) => VRight(VLeft(VRight(VBool(p))))
    case TransferAll(transfers) => VRight(VRight(VLeft(VList(EncodeSeq(transfers, EncodeTransfer)))))
    case UpdateOperators(updates) => VRight(VRight(VRight(VList(EncodeSeq(updates, EncodeUpdate)))))
  }

  ghost function EncodeResult(r: Result): Outcome {
    match r
    case Accepted(s, ops) => Ok(Push(VPair(VList(EncodeSeq(ops, EncodeOp)), EncodeStorage(s)), Empty))
    case Refused(why) => why
  }

  /** An entrypoint's operations above the new storage, before they are paired. */
  ghost function Unpaired(r: Result): Outcome {
    match r
    case Accepted(s, ops) => Ok(Push(VList(EncodeSeq(ops, EncodeOp)), Push(EncodeStorage(s), Empty)))
    case Refused(why) => why
  }

  lemma LeftRefines(e: Env, f: nat, s: Storage, call: Call)
    requires EncodeCall(call).VLeft?
    ensures Run(e, f, FA2_LEFT, Push(EncodeCall(call).left, Push(EncodeStorage(s), Empty))) ==
      Unpaired(Called(e, s, call))
  {
    hide Run, Then, Step, Basic, BALANCE_OF, MINT, MUTEZ_TRANSFER, SET_ADMINISTRATOR, SET_METADATA, SET_PAUSE, TRANSFER,
      UPDATE_OPERATORS, EncodeStorage, MintArg, Transferred, UpdatedAll, EncodeSeq, EncodeOp, Minted, Reported,
      EncodeTransfer, EncodeUpdate, HoldingKey;
    StackMachine();
    EncodeFew(Pay("", 0), Pay("", 0), EncodeOp);
    match call
    case BalanceOf(requests, callback, at) => BalanceOfRuns(e, f, s, requests, callback, at);
    case Mint(to, amount, about, id) => MintRefines(e, f, s, to, amount, about, id);
    case MutezTransfer(tez, to) => MutezTransferRuns(e, f, s, tez, to);
    case SetAdministrator(a) => SetAdministratorRuns(e, f, s, a);
  }

  lemma RightRefines(e: Env, f: nat, s: Storage, call: Call)
    requires EncodeCall(call).VRight?
    ensures Run(e, f, FA2_RIGHT, Push(EncodeCall(call).right, Push(EncodeStorage(s), Empty))) ==
      Unpaired(Called(e, s, call))
  {
    hide Run, Then, Step, Basic, BALANCE_OF, MINT, MUTEZ_TRANSFER, SET_ADMINISTRATOR, SET_METADATA, SET_PAUSE, TRANSFER,
      UPDATE_OPERATORS, EncodeStorage, MintArg, Transferred, UpdatedAll, EncodeSeq, EncodeOp, Minted, Reported,
      EncodeTransfer, EncodeUpdate, HoldingKey;
    StackMachine();
    EncodeFew(Pay("", 0), Pay("", 0), EncodeOp);
    match call
    case SetMetadata(k, v) => SetMetadataRuns(e, f, s, k, v);
    case SetPause(p) => SetPauseRuns(e, f, s, p);
    case TransferAll(transfers) => TransferRuns(e, f, s, transfers);
    case UpdateOperators(updates) => UpdateOperatorsRuns(e, f, s, updates);
  }

  /** The whole script computes the specification, for every call and storage: nested loops over
      any batch, every failure with its own value, operations and the new storage. */
  lemma Fa2Refines(e: Env, f: nat, s: Storage, call: Call)
    ensures Run(e, f, FA2, Push(VPair(EncodeCall(call), EncodeStorage(s)), Empty)) == EncodeResult(Called(e, s, call))
  {
    hide Run, Then, Step, Basic, FA2_LEFT, FA2_RIGHT, EncodeStorage, EncodeCall, EncodeSeq, Called;
    StackMachine();
    var arg := EncodeCall(call);
    if arg.VLeft? {
      LeftRefines(e, f, s, call);
    } else {
      assert arg.VRight? by { Halves(call); }
      RightRefines(e, f, s, call);
    }
  }

  lemma Halves(call: Call)
    ensures EncodeCall(call).VLeft? || EncodeCall(call).VRight?
  {}
}
