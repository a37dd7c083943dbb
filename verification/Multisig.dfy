/** Generic multisig: a counter, a threshold and a list of keys that authorise lambdas and key rotations. */
module Multisig {
  import opened Michelson
  import opened Contracts
  import opened Rules
  import opened Encoding

  const CHECK_KEY: Code :=
    Seq4(DIP(Seq1(SWAP)), SWAP, IF_CONS(Seq1(BLOCK(Seq1(IF_NONE(Seq2(SWAP, DROP), Seq2(SWAP, DIP(Seq5(SWAP, DIPN(2,
    Seq1(BLOCK(Seq2(DIP(Seq1(DUP)), SWAP)))), BLOCK(Seq4(BLOCK(Seq2(DIPN(2, Seq1(DUP)), DIG(3))),
    DIP(Seq1(CHECK_SIGNATURE)), SWAP, IF(Seq1(DROP), Seq1(FAILWITH)))), PUSH(VInt(1)), ADD))))))),
    Seq1(BLOCK(Seq2(UNIT, FAILWITH)))), SWAP)

  const COUNT_VALID: Code :=
    Seq3(PUSH(VInt(0)), SWAP, ITER(CHECK_KEY))

  const DECIDE: Code :=
    Seq6(BLOCK(Seq2(BLOCK(Seq2(COMPARE, LE)), IF(Done, Seq1(BLOCK(Seq2(UNIT, FAILWITH)))))),
    IF_CONS(Seq1(BLOCK(Seq2(UNIT, FAILWITH))), Done), DROP, DIP(Seq4(BLOCK(Seq1(BLOCK(Seq3(DUP, CAR,
    DIP(Seq1(CDR)))))), PUSH(VInt(1)), ADD, PAIR)), IF_LEFT(Seq2(UNIT, EXEC), Seq4(DIP(Seq1(CAR)), SWAP, PAIR, NIL)),
    PAIR)

  const COUNTED: Code :=
    Do(DIP(COUNT_VALID), DECIDE)

  const SAME_COUNTER: Code :=
    Do5(BLOCK(Seq1(BLOCK(Seq3(DUP, CAR, DIP(Seq1(CDR)))))), DIP(Seq1(SWAP)), BLOCK(Seq2(BLOCK(Seq2(COMPARE, EQ)),
    IF(Done, Seq1(BLOCK(Seq2(UNIT, FAILWITH)))))), DIP(Seq1(SWAP)), BLOCK(Seq1(BLOCK(Seq3(DUP, CAR,
    DIP(Seq1(CDR)))))), COUNTED)

  const MAIN: Code :=
    Do7(PUSH(VMutez(0)), AMOUNT, BLOCK(Seq2(BLOCK(Seq2(COMPARE, EQ)), IF(Done, Seq1(BLOCK(Seq2(UNIT, FAILWITH)))))),
    SWAP, DUP, DIP(Seq1(SWAP)), DIP(Seq8(BLOCK(Seq1(BLOCK(Seq3(DUP, CAR, DIP(Seq1(CDR)))))), DUP, SELF, ADDRESS, PAIR,
    PACK, DIP(Seq2(BLOCK(Seq1(BLOCK(Seq3(DUP, CAR, DIP(Seq1(CDR)))))), DIP(Seq1(SWAP)))), SWAP)), SAME_COUNTER)

  const MULTISIG: Code :=
    Seq2(BLOCK(Seq1(BLOCK(Seq3(DUP, CAR, DIP(Seq1(CDR)))))), IF_LEFT(Seq3(DROP, NIL, PAIR), MAIN))

  // ---------------------------------------------------------------- specification

  datatype Storage = Storage(counter: nat, threshold: nat, keys: seq<string>)

  /** One slot a key, in the order of the keys. */
  datatype Slot = Absent | Signed(sig: string)

  datatype Action = Operate(code: Value) | ChangeKeys(threshold: nat, keys: seq<string>)

  datatype Call = Default | Main(counter: nat, action: Action, slots: seq<Slot>)

  type Result = Answer<Storage, Value>

  datatype Walked = Counted(valid: nat, left: seq<Slot>) | Rejected(value: Value)

  function Walk(e: Env, message: Bytes, keys: seq<string>, slots: seq<Slot>, valid: nat): Walked {
    if keys == [] then Counted(valid, slots)
    else if slots == [] then Rejected(VUnit)
    else if slots[0].Absent? then Walk(e, message, keys[1..], slots[1..], valid)
    else if !e.verify(keys[0], slots[0].sig, message) then Rejected(VBytes(message))
    else Walk(e, message, keys[1..], slots[1..], valid + 1)
  }

  /** The bytes to sign: this contract, the counter and the action. */
  function Message(e: Env, counter: nat, action: Action): Bytes {
    Packed(VPair(VAddr(e.self), VPair(VInt(counter), EncodeAction(action))))
  }

  /** The lambda's operations, or its failure. */
  function Proposed(e: Env, f: nat, action: Action): Outcome {
    if action.ChangeKeys? then Ok(Push(VList([]), Empty))
    else if f == 0 then OutOfFuel
    else Return(Michelson.Call(e, f - 1, action.code, VUnit), Empty)
  }

  function Authorised(s: Storage, action: Action): Storage {
    match action
    case Operate(_) => s.(counter := s.counter + 1)
    case ChangeKeys(threshold, keys) => Storage(s.counter + 1, threshold, keys)
  }

  function Called(e: Env, f: nat, s: Storage, call: Call): (r: Result)
    ensures r.Refused? ==> !r.why.Ok?
  {
    match call
    case Default => Accepted(s, VList([]))
    case Main(counter, action, slots) =>
      if e.amount != 0 || counter != s.counter then Refused(Failed(VUnit))
      else
        match Walk(e, Message(e, counter, action), s.keys, slots, 0)
        case Rejected(v) => Refused(Failed(v))
        case Counted(valid, left) =>
          if valid < s.threshold || left != [] then Refused(Failed(VUnit))
          else
            match Proposed(e, f, action)
            case Ok(Push(ops, _)) => Accepted(Authorised(s, action), ops)
            case Ok(Empty) => Refused(Stuck)
            case o => Refused(o)
  }

  // ---------------------------------------------------------------- encoding

  function EncodeSlot(s: Slot): Value { if s.Absent? then VNone else VSome(VSig(s.sig)) }

  function EncodeKey(k: string): Value { VKey(k) }

  function EncodeAction(a: Action): Value {
    match a
    case Operate(code) => VLeft(code)
    case ChangeKeys(threshold, keys) => VRight(VPair(VInt(threshold), VList(EncodeSeq(keys, EncodeKey))))
  }

  function EncodeCall(c: Call): Value {
    match c
    case Default => VLeft(VUnit)
    case Main(counter, action, slots) =>
      VRight(VPair(VPair(VInt(counter), EncodeAction(action)), VList(EncodeSeq(slots, EncodeSlot))))
  }

  function EncodeStorage(s: Storage): Value {
    VPair(VInt(s.counter), VPair(VInt(s.threshold), VList(EncodeSeq(s.keys, EncodeKey))))
  }

  function EncodeResult(r: Result): Outcome {
    match r
    case Accepted(s, ops) => Ok(Push(VPair(ops, EncodeStorage(s)), Empty))
    case Refused(why) => why
  }

  // ---------------------------------------------------------------- the script refines the specification

  /** The stack at the body of the loop over the keys. */
  function Checking(key: string, valid: nat, slots: seq<Value>, message: Bytes, rest: Stack): Stack {
    Push(VKey(key), Push(VInt(valid), Push(VList(slots), Push(VBytes(message), rest))))
  }

  lemma CheckKeySigned(e: Env, f: nat, key: string, valid: nat, slots: seq<Value>, message: Bytes, rest: Stack)
    requires slots != [] && slots[0].VSome? && slots[0].v.VSig?
    ensures Run(e, f, CHECK_KEY, Checking(key, valid, slots, message, rest)) ==
      if !e.verify(key, slots[0].v.sig, message) then Failed(VBytes(message))
      else Ok(Push(VInt(1 + valid), Push(VList(slots[1..]), Push(VBytes(message), rest))))
  {
    hide Run, Then, Step, Basic;
    StackMachine(); DataMachine(); WorldMachine();
    assert slots[0] == VSome(VSig(slots[0].v.sig));
  }

  lemma CheckKeyUnsigned(e: Env, f: nat, key: string, valid: nat, slots: seq<Value>, message: Bytes, rest: Stack)
    requires slots != [] ==> slots[0].VNone?
    ensures Run(e, f, CHECK_KEY, Checking(key, valid, slots, message, rest)) ==
      if slots == [] then Failed(VUnit) else Ok(Push(VInt(valid), Push(VList(slots[1..]), Push(VBytes(message), rest))))
  {
    hide Run, Then, Step, Basic;
    StackMachine(); DataMachine(); WorldMachine();
  }

  /** The loop over the keys, in step with the slots, is Walk. */
  lemma {:induction false} LoopWalks(e: Env, f: nat, keys: seq<string>, slots: seq<Slot>, valid: nat, message: Bytes,
      rest: Stack)
    ensures Iter(e, f, CHECK_KEY, EncodeSeq(keys, EncodeKey),
        Push(VInt(valid), Push(VList(EncodeSeq(slots, EncodeSlot)), Push(VBytes(message), rest)))) ==
      var w := Walk(e, message, keys, slots, valid);
      if w.Rejected? then Failed(w.value)
      else Ok(Push(VInt(w.valid), Push(VList(EncodeSeq(w.left, EncodeSlot)), Push(VBytes(message), rest))))
    decreases |keys|
  {
    hide Run, Then, Step, Basic, CHECK_KEY;
    if keys != [] {
      var encoded := EncodeSeq(slots, EncodeSlot);
      EncodeTail(keys, EncodeKey);
      if slots != [] && slots[0].Signed? { CheckKeySigned(e, f, keys[0], valid, encoded, message, rest); }
      else { CheckKeyUnsigned(e, f, keys[0], valid, encoded, message, rest); }
      if slots != [] {
        EncodeTail(slots, EncodeSlot);
        LoopWalks(e, f, keys[1..], slots[1..], if slots[0].Absent? then valid else valid + 1, message, rest);
      }
    }
  }

  /** The stack after the counter has been checked. */
  function Counting(e: Env, s: Storage, action: Action, slots: seq<Slot>): Stack {
    Push(VInt(s.threshold), Push(VList(EncodeSeq(s.keys, EncodeKey)), Push(VList(EncodeSeq(slots, EncodeSlot)),
      Push(VBytes(Message(e, s.counter, action)), Push(EncodeAction(action), Push(EncodeStorage(s), Empty))))))
  }

  /** The stack once the message has been packed. */
  function Packing(e: Env, s: Storage, counter: nat, action: Action, slots: seq<Slot>): Stack {
    Push(EncodeStorage(s), Push(VInt(counter), Push(VBytes(Message(e, counter, action)),
      Push(VList(EncodeSeq(slots, EncodeSlot)), Push(EncodeAction(action), Push(EncodeStorage(s), Empty))))))
  }

  lemma MainPacks(e: Env, f: nat, s: Storage, counter: nat, action: Action, slots: seq<Slot>)
    ensures Run(e, f, MAIN, Push(EncodeCall(Main(counter, action, slots)).right, Push(EncodeStorage(s), Empty))) ==
      if e.amount != 0 then Failed(VUnit)
      else Run(e, f, SAME_COUNTER, Packing(e, s, counter, action, slots))
  {
    hide Run, Then, Step, Basic, SAME_COUNTER, EncodeSeq, EncodeAction, EncodeStorage;
    StackMachine(); DataMachine(); WorldMachine();
  }

  lemma SameCounterRuns(e: Env, f: nat, s: Storage, counter: nat, action: Action, slots: seq<Slot>)
    ensures Run(e, f, SAME_COUNTER, Packing(e, s, counter, action, slots)) ==
      if counter != s.counter then Failed(VUnit)
      else Run(e, f, COUNTED, Counting(e, s, action, slots))
  {
    hide Run, Then, Step, Basic, COUNTED, EncodeSeq, EncodeAction, Message;
    StackMachine(); DataMachine();
  }

  lemma CountedRuns(e: Env, f: nat, s: Storage, action: Action, slots: seq<Slot>)
    ensures var rest := Push(EncodeAction(action), Push(EncodeStorage(s), Empty));
      var message := Message(e, s.counter, action);
      var w := Walk(e, message, s.keys, slots, 0);
      Run(e, f, COUNTED, Counting(e, s, action, slots)) ==
      if w.Rejected? then Failed(w.value)
      else Run(e, f, DECIDE, Push(VInt(s.threshold), Push(VInt(w.valid),
        Push(VList(EncodeSeq(w.left, EncodeSlot)), Push(VBytes(message), rest)))))
  {
    hide Run, Then, Step, Basic, DECIDE, CHECK_KEY, EncodeSeq, EncodeAction, EncodeStorage, Message, Walk;
    StackMachine(); DataMachine();
    LoopWalks(e, f, s.keys, slots, 0, Message(e, s.counter, action),
      Push(EncodeAction(action), Push(EncodeStorage(s), Empty)));
  }

  lemma DecideRuns(e: Env, f: nat, s: Storage, action: Action, n: nat, left: seq<Slot>, message: Value)
    ensures Run(e, f, DECIDE, Push(VInt(s.threshold), Push(VInt(n),
        Push(VList(EncodeSeq(left, EncodeSlot)),
          Push(message, Push(EncodeAction(action), Push(EncodeStorage(s), Empty))))))) ==
      if n < s.threshold || left != [] then Failed(VUnit)
      else match Proposed(e, f, action)
        case Ok(Push(ops, _)) => Ok(Push(VPair(ops, EncodeStorage(Authorised(s, action))), Empty))
        case Ok(Empty) => Stuck
        case o => o
  {
    hide Run, Then, Step, Basic;
    StackMachine(); DataMachine();
  }

  /** The whole script computes the specification, for every call, storage and oracle. */
  lemma MultisigRefines(e: Env, f: nat, s: Storage, call: Call)
    ensures Run(e, f, MULTISIG, Push(VPair(EncodeCall(call), EncodeStorage(s)), Empty)) ==
      EncodeResult(Called(e, f, s, call))
  {
    hide Run, Then, Step, Basic, MAIN, SAME_COUNTER, COUNTED, DECIDE, Packing, Counting, EncodeSeq, EncodeAction, Walk,
      Message, Proposed, Authorised;
    StackMachine();
    if call.Main? {
      MainPacks(e, f, s, call.counter, call.action, call.slots);
      SameCounterRuns(e, f, s, call.counter, call.action, call.slots);
      if e.amount == 0 && call.counter == s.counter {
        CountedRuns(e, f, s, call.action, call.slots);
        var w := Walk(e, Message(e, s.counter, call.action), s.keys, call.slots, 0);
        if w.Counted? { DecideRuns(e, f, s, call.action, w.valid, w.left, VBytes(Message(e, s.counter, call.action))); }
      }
    }
  }
}
