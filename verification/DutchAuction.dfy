/** Dutch auction of a single ticket: the price only moves when the administrator drops it. */
module DutchAuction {
  import opened Michelson
  import opened Contracts
  import opened Rules
  import opened Chains
  import opened Encoding

  const BUY_EMIT: Code :=
    Seq6(NIL, DIG(2), CONS, DIG(2), CONS, PAIR)

  const BUY_GIVE: Code :=
    Do5(DIG(3), PUSH(VMutez(0)), DIG(2), TRANSFER_TOKENS, SWAP, Copy(3, Rest(4, Do2(PUSH(VBool(false)), PAIR, Copy(4,
    Rest(2, Do2(CAR, PAIR, Copy(4, Do7(CDR, CAR, PAIR, DIG(4), CAR, PAIR, PAIR, BUY_EMIT)))))))))

  const BUY_TAKE: Code :=
    Seq1(IF_NONE(Seq3(DROPN(4), PUSH(VStr("ticket does not exist")), FAILWITH), BUY_GIVE))

  const BUY_TICKET: Code :=
    Do7(SWAP, PUSH(VUnit), TRANSFER_TOKENS, DIG(3), NONE, PUSH(VInt(0)), GET_AND_UPDATE, BUY_TAKE)

  const BUY_PAY: Code :=
    Copy(2, Seq3(CAR, CONTRACT(""), IF_NONE(Seq3(DROPN(4), PUSH(VStr("contract does not match")), FAILWITH),
    BUY_TICKET)))

  const BUY_TIME: Code :=
    Copy(3, Rest(5, Copy(4, Rest(4, Do6(CAR, ADD, DIG(2), COMPARE, LE, IF(Done, Seq2(PUSH(VStr("failed assertion")),
    FAILWITH)), BUY_PAY)))))

  const BUY_PRICE: Code :=
    Do(PUSH(VMutez(1)), Copy(4, Do3(CDR, CAR, MUL, Copy(1, Do3(COMPARE, EQ, IF(Done, Seq2(PUSH(VStr("failed assertion"
    )), FAILWITH)), BUY_TIME)))))

  const BUY: Code :=
    Do2(NOW, AMOUNT, Copy(3, Do5(CAR, SENDER, COMPARE, NEQ, IF(Done, Seq2(PUSH(VStr("failed assertion")), FAILWITH)),
    Copy(3, Rest(3, Do2(CAR, IF(Done, Seq2(PUSH(VStr("failed assertion")), FAILWITH)), BUY_PRICE))))))

  const CANCEL_GIVE: Code :=
    Do5(DIG(2), PUSH(VMutez(0)), DIG(2), TRANSFER_TOKENS, SWAP, Copy(2, Rest(4, Do2(PUSH(VBool(false)), PAIR, Copy(3,
    Rest(2, Do2(CAR, PAIR, Copy(3, Do8(CDR, CAR, PAIR, DIG(3), CAR, PAIR, PAIR, NIL, Seq3(DIG(2), CONS, PAIR))))))))))

  const CANCEL_TAKE: Code :=
    Seq1(IF_NONE(Seq3(DROPN(3), PUSH(VStr("ticket does not exist")), FAILWITH), CANCEL_GIVE))

  const CANCEL: Code :=
    Copy(1, Do5(CAR, SENDER, COMPARE, EQ, IF(Done, Seq2(PUSH(VStr("failed assertion")), FAILWITH)), Copy(1, Rest(3,
    Do6(CAR, IF(Done, Seq2(PUSH(VStr("failed assertion")), FAILWITH)), DIG(2), NONE, PUSH(VInt(0)), GET_AND_UPDATE,
    CANCEL_TAKE)))))

  const CONFIGURE_REBUILD: Code :=
    Do8(SWAP, DIG(2), PAIR, PUSH(VBool(false)), PAIR, DIG(2), PAIR, DIG(2), Seq7(PAIR, DIG(2), CAR, PAIR, PAIR, NIL,
    PAIR))

  const CONFIGURE_SET: Code :=
    Do8(UNPAIR, SWAP, UNPAIR, SWAP, UNPAIR, SWAP, UNPAIR, DIG(6), Do4(DIG(2), SOME, PUSH(VInt(0)), UPDATE,
    CONFIGURE_REBUILD))

  const CONFIGURE: Code :=
    Copy(1, Do5(CAR, SOURCE, COMPARE, EQ, IF(Done, Seq2(PUSH(VStr("failed assertion")), FAILWITH)), Copy(1, Rest(3,
    Do3(CAR, NOT, IF(Done, Seq2(PUSH(VStr("failed assertion")), FAILWITH)), CONFIGURE_SET)))))

  const DROP_REBUILD: Code :=
    Copy(1, Rest(3, Do2(CAR, PAIR, Copy(1, Rest(2, Do2(CAR, PAIR, Copy(1, Do8(CDR, CAR, PAIR, SWAP, CAR, PAIR, PAIR,
    NIL, Seq1(PAIR)))))))))

  const DROP_SET: Code :=
    Do(DIG(3), Copy(3, Rest(2, Do6(DIG(3), PAIR, DIG(3), CAR, PAIR, DUP, Rest(5, Do2(DIG(3), PAIR, DROP_REBUILD))))))

  const DROP_TIME: Code :=
    Copy(2, Rest(5, Copy(3, Rest(4, Do2(CAR, ADD, Copy(1, Do3(COMPARE, GT, IF(Done, Seq2(PUSH(VStr("failed assertion"
    )), FAILWITH)), DROP_SET)))))))

  const DROP_RESERVE: Code :=
    Copy(2, Rest(2, Do(CAR, Copy(2, Do3(COMPARE, GE, IF(Done, Seq2(PUSH(VStr("failed assertion")), FAILWITH)),
    DROP_TIME)))))

  const DROP_PRICE: Code :=
    Do(NOW, Copy(2, Do5(CAR, SENDER, COMPARE, EQ, IF(Done, Seq2(PUSH(VStr("failed assertion")), FAILWITH)), Copy(2,
    Rest(3, Do2(CAR, IF(Done, Seq2(PUSH(VStr("failed assertion")), FAILWITH)), DROP_RESERVE))))))

  const START_CLOCK: Code :=
    Do(DUP, Rest(5, Do2(DIG(3), PAIR, Copy(1, Rest(3, Do2(CAR, PAIR, Copy(1, Rest(2, Do2(CAR, PAIR, Copy(1, Do8(CDR,
    CAR, PAIR, SWAP, CAR, PAIR, PAIR, NIL, Seq1(PAIR))))))))))))

  const START_REBUILD: Code :=
    Copy(2, Rest(4, Do2(PUSH(VBool(true)), PAIR, Copy(3, Rest(2, Do2(CAR, PAIR, Copy(3, Do6(CDR, CAR, PAIR, DIG(3),
    CAR, PAIR, START_CLOCK))))))))

  const START_OPEN: Code :=
    Do3(SOME, PUSH(VInt(0)), UPDATE, START_REBUILD)

  const START_TAKE: Code :=
    Seq1(IF_NONE(Seq3(DROPN(3), PUSH(VStr("no ticket")), FAILWITH), START_OPEN))

  const START: Code :=
    Do2(DROP, NOW, Copy(1, Do5(CAR, SOURCE, COMPARE, EQ, IF(Done, Seq2(PUSH(VStr("failed assertion")), FAILWITH)),
    Copy(1, Rest(3, Do3(CAR, NOT, IF(Done, Seq2(PUSH(VStr("failed assertion")), FAILWITH)), Copy(1, Rest(4, Do(CAR,
    Copy(1, Do7(COMPARE, GE, IF(Done, Seq2(PUSH(VStr("failed assertion")), FAILWITH)), DIG(2), NONE, PUSH(VInt(0)),
    GET_AND_UPDATE, START_TAKE)))))))))))

  const DUTCH: Code :=
    Seq5(UNPAIR, SWAP, UNPAIR, DIG(2), IF_LEFT(Seq1(IF_LEFT(Seq1(IF_LEFT(BUY, CANCEL)), Seq1(IF_LEFT(CONFIGURE,
    DROP_PRICE)))), START))

  // ---------------------------------------------------------------- specification

  datatype Ticket = Ticket(ticketer: Account, content: nat, amount: nat)

  datatype Storage = Storage(
    admin: Account, price: nat, reserve: nat, inProgress: bool, start: int, round: int, tickets: map<nat, Ticket>)

  datatype Call =
    | Buy(to: Account, at: string)
    | Cancel(to: Account, at: string)
    | Configure(opening: nat, reserve: nat, start: int, round: int, ticket: Ticket)
    | DropPrice(price: nat)
    | Start

  datatype Op = Pay(to: Account, tez: nat) | Give(ticket: Ticket, to: Account, at: string)

  type Result = Answer<Storage, seq<Op>>

  function Bought(e: Env, s: Storage, to: Account, at: string): Result {
    if e.sender == s.admin || !s.inProgress then Fail("failed assertion")
    else if s.price > MAX_MUTEZ then Refused(Overflow)
    else if e.amount != s.price || e.now > s.start + s.round then Fail("failed assertion")
    else if !e.entrypoints(s.admin, "") then Fail("contract does not match")
    else if 0 !in s.tickets then Fail("ticket does not exist")
    else Accepted(s.(inProgress := false, tickets := s.tickets - {0}),
      [Pay(s.admin, e.amount), Give(s.tickets[0], to, at)])
  }

  function Cancelled(e: Env, s: Storage, to: Account, at: string): Result {
    if e.sender != s.admin || !s.inProgress then Fail("failed assertion")
    else if 0 !in s.tickets then Fail("ticket does not exist")
    else Accepted(s.(inProgress := false, tickets := s.tickets - {0}), [Give(s.tickets[0], to, at)])
  }

  function Configured(e: Env, s: Storage, opening: nat, reserve: nat, start: int, round: int, ticket: Ticket): Result {
    if e.source != s.admin || s.inProgress then Fail("failed assertion")
    else Accepted(Storage(s.admin, opening, reserve, false, start, round, s.tickets[0 := ticket]), [])
  }

  /** The new price is compared with the reserve only, not with the current price. */
  function Lowered(e: Env, s: Storage, price: nat): Result {
    if e.sender != s.admin || !s.inProgress || price < s.reserve || e.now <= s.start + s.round then
      Fail("failed assertion")
    else Accepted(s.(price := price, start := e.now), [])
  }

  function Started(e: Env, s: Storage): Result {
    if e.source != s.admin || s.inProgress || e.now < s.start then Fail("failed assertion")
    else if 0 !in s.tickets then Fail("no ticket")
    else Accepted(s.(inProgress := true, start := e.now), [])
  }

  function Called(e: Env, s: Storage, call: Call): (r: Result)
    ensures r.Refused? ==> !r.why.Ok?
  {
    match call
    case Buy(to, at) => Bought(e, s, to, at)
    case Cancel(to, at) => Cancelled(e, s, to, at)
    case Configure(opening, reserve, start, round, ticket) => Configured(e, s, opening, reserve, start, round, ticket)
    case DropPrice(price) => Lowered(e, s, price)
    case Start => Started(e, s)
  }

  // ---------------------------------------------------------------- encoding

  function EncodeTicket(t: Ticket): Value { VTicket(t.ticketer, VInt(t.content), t.amount) }

  ghost function TicketsMap(m: map<nat, Ticket>): map<Value, Value> { EncodeMap(m, NatKey, EncodeTicket) }

  lemma TicketsAt(m: map<nat, Ticket>, t: Ticket)
    ensures Lookup(VInt(0), TicketsMap(m)) == if 0 in m then VSome(EncodeTicket(m[0])) else VNone
    ensures TicketsMap(m)[VInt(0) := EncodeTicket(t)] == TicketsMap(m[0 := t])
    ensures TicketsMap(m) - {VInt(0)} == TicketsMap(m - {0})
  {
    EncodedAt(m, NatKey, EncodeTicket, 0, t);
  }

  function Data(s: Storage): Value {
    VPair(VAddr(s.admin),
      VPair(VInt(s.price), VPair(VInt(s.reserve), VPair(VBool(s.inProgress), VPair(VInt(s.start), VInt(s.round))))))
  }

  ghost function EncodeStorage(s: Storage): Value { VPair(Data(s), VMap(TicketsMap(s.tickets))) }

  function EncodeCall(call: Call): Value {
    match call
    case Buy(to, at) => VLeft(VLeft(VLeft(VContract(to, at))))
    case Cancel(to, at) => VLeft(VLeft(VRight(VContract(to, at))))
    case Configure(opening, reserve, start, round, ticket) =>
      VLeft(VRight(VLeft(VPair(VInt(opening),
        VPair(VInt(reserve), VPair(VInt(start), VPair(VInt(round), EncodeTicket(ticket))))))))
    case DropPrice(price) => VLeft(VRight(VRight(VInt(price))))
    case Start => VRight(VUnit)
  }

  function EncodeOp(op: Op): Value {
    match op
    case Pay(to, tez) => VTransfer(VUnit, tez, to, "")
    case Give(ticket, to, at) => VTransfer(EncodeTicket(ticket), 0, to, at)
  }

  ghost function EncodeResult(r: Result): Outcome {
    match r
    case Accepted(s, ops) => Ok(Push(VPair(VList(EncodeSeq(ops, EncodeOp)), EncodeStorage(s)), Empty))
    case Refused(why) => why
  }

  // ---------------------------------------------------------------- the script refines the specification

  ghost function Frame(s: Storage): Stack { Push(Data(s), Push(VMap(TicketsMap(s.tickets)), Empty)) }

  function Assertion(): Outcome { Failed(VStr("failed assertion")) }

  lemma BuyRuns(e: Env, f: nat, s: Storage, to: Value)
    ensures Run(e, f, BUY, Push(to, Frame(s))) ==
      if e.sender == s.admin || !s.inProgress then Assertion()
      else Run(e, f, BUY_PRICE, Push(VMutez(e.amount), Push(VInt(e.now), Push(to, Frame(s)))))
  {
    hide Run, Then, Step, Basic, Copy, Rest, BUY_PRICE, TicketsMap;
    StackMachine(); DataMachine(); WorldMachine(); AccessRules();
  }

  lemma BuyPriceRuns(e: Env, f: nat, s: Storage, to: Value)
    ensures Run(e, f, BUY_PRICE, Push(VMutez(e.amount), Push(VInt(e.now), Push(to, Frame(s))))) ==
      if s.price > MAX_MUTEZ then Overflow
      else if e.amount != s.price then Assertion()
      else Run(e, f, BUY_TIME, Push(VMutez(e.amount), Push(VInt(e.now), Push(to, Frame(s)))))
  {
    hide Run, Then, Step, Basic, Copy, Rest, BUY_TIME, TicketsMap;
    StackMachine(); DataMachine(); AccessRules();
  }

  lemma BuyTimeRuns(e: Env, f: nat, s: Storage, to: Value)
    ensures Run(e, f, BUY_TIME, Push(VMutez(e.amount), Push(VInt(e.now), Push(to, Frame(s))))) ==
      if e.now > s.start + s.round then Assertion()
      else Run(e, f, BUY_PAY, Push(VMutez(e.amount), Push(to, Frame(s))))
  {
    hide Run, Then, Step, Basic, Copy, Rest, BUY_PAY, TicketsMap;
    StackMachine(); DataMachine(); AccessRules();
  }

  lemma BuyPayRuns(e: Env, f: nat, s: Storage, to: Account, at: string)
    ensures Run(e, f, BUY_PAY, Push(VMutez(e.amount), Push(VContract(to, at), Frame(s)))) ==
      if !e.entrypoints(s.admin, "") then Failed(VStr("contract does not match"))
      else if 0 !in s.tickets then Failed(VStr("ticket does not exist"))
      else Run(e, f, BUY_GIVE, Push(EncodeTicket(s.tickets[0]), Push(VMap(TicketsMap(s.tickets - {0})),
        Push(VTransfer(VUnit, e.amount, s.admin, ""), Push(VContract(to, at), Push(Data(s), Empty))))))
  {
    hide Run, Then, Step, Basic, Copy, Rest, BUY_GIVE, TicketsMap;
    StackMachine(); DataMachine(); WorldMachine(); AccessRules();
    TicketsAt(s.tickets, Ticket("", 0, 0));
  }

  lemma BuyGiveRuns(e: Env, f: nat, s: Storage, ticket: Value, m: Value, pay: Value, to: Account, at: string)
    ensures Run(e, f, BUY_GIVE, Push(ticket, Push(m, Push(pay, Push(VContract(to, at), Push(Data(s), Empty)))))) ==
      Ok(Push(VPair(VList([pay, VTransfer(ticket, 0, to, at)]), VPair(Data(s.(inProgress := false)), m)), Empty))
  {
    hide Run, Then, Step, Basic, Copy, Rest, BUY_EMIT;
    StackMachine(); WorldMachine(); AccessRules();
    BuyEmitRuns(e, f, VPair(Data(s.(inProgress := false)), m), pay, VTransfer(ticket, 0, to, at));
  }

  lemma BuyEmitRuns(e: Env, f: nat, storage: Value, pay: Value, give: Value)
    ensures Run(e, f, BUY_EMIT, Push(storage, Push(give, Push(pay, Empty)))) ==
      Ok(Push(VPair(VList([pay, give]), storage), Empty))
  {
    hide Run, Then, Step, Basic;
    StackMachine();
    assert [give] + [] == [give] && [pay] + [give] == [pay, give];
  }

  lemma BuyRefines(e: Env, f: nat, s: Storage, to: Account, at: string)
    ensures Run(e, f, BUY, Push(VContract(to, at), Frame(s))) == EncodeResult(Bought(e, s, to, at))
  {
    hide Run, BUY, BUY_PRICE, BUY_TIME, BUY_PAY, BUY_GIVE, Frame, TicketsMap, EncodeTicket;
    BuyRuns(e, f, s, VContract(to, at));
    BuyPriceRuns(e, f, s, VContract(to, at));
    BuyTimeRuns(e, f, s, VContract(to, at));
    BuyPayRuns(e, f, s, to, at);
    if 0 in s.tickets {
      BuyGiveRuns(e, f, s, EncodeTicket(s.tickets[0]), VMap(TicketsMap(s.tickets - {0})),
        VTransfer(VUnit, e.amount, s.admin, ""), to, at);
      EncodeFew(Pay(s.admin, e.amount), Give(s.tickets[0], to, at), EncodeOp);
    }
  }

  lemma CancelRuns(e: Env, f: nat, s: Storage, to: Account, at: string)
    ensures Run(e, f, CANCEL, Push(VContract(to, at), Frame(s))) ==
      if e.sender != s.admin || !s.inProgress then Assertion()
      else Run(e, f, CANCEL_TAKE, Push(Lookup(VInt(0), TicketsMap(s.tickets)), Push(VMap(TicketsMap(s.tickets - {0})),
        Push(VContract(to, at), Push(Data(s), Empty)))))
  {
    hide Run, Then, Step, Basic, Copy, Rest, CANCEL_TAKE, TicketsMap;
    StackMachine(); DataMachine(); WorldMachine(); AccessRules();
    TicketsAt(s.tickets, Ticket("", 0, 0));
  }

  lemma CancelTakeRuns(e: Env, f: nat, s: Storage, m: Value, to: Account, at: string)
    ensures Run(e, f, CANCEL_TAKE,
      Push(Lookup(VInt(0), TicketsMap(s.tickets)), Push(m, Push(VContract(to, at), Push(Data(s), Empty))))) ==
      if 0 !in s.tickets then Failed(VStr("ticket does not exist"))
      else Ok(Push(VPair(VList(EncodeSeq([Give(s.tickets[0], to, at)], EncodeOp)),
        VPair(Data(s.(inProgress := false)), m)), Empty))
  {
    hide Run, Then, Step, Basic, Copy, Rest, TicketsMap, CANCEL_GIVE, EncodeTicket, Data;
    StackMachine();
    TicketsAt(s.tickets, Ticket("", 0, 0));
    if 0 in s.tickets {
      CancelGiveRuns(e, f, s, EncodeTicket(s.tickets[0]), m, to, at);
      EncodeFew(Give(s.tickets[0], to, at), Give(s.tickets[0], to, at), EncodeOp);
    }
  }

  lemma CancelGiveRuns(e: Env, f: nat, s: Storage, ticket: Value, m: Value, to: Account, at: string)
    ensures Run(e, f, CANCEL_GIVE, Push(ticket, Push(m, Push(VContract(to, at), Push(Data(s), Empty))))) ==
      Ok(Push(VPair(VList([VTransfer(ticket, 0, to, at)]), VPair(Data(s.(inProgress := false)), m)), Empty))
  {
    hide Run, Then, Step, Basic, Copy, Rest;
    StackMachine(); WorldMachine(); AccessRules();
    assert [VTransfer(ticket, 0, to, at)] + [] == [VTransfer(ticket, 0, to, at)];
  }

  lemma ConfigureRuns(e: Env, f: nat, s: Storage, arg: Value)
    ensures Run(e, f, CONFIGURE, Push(arg, Frame(s))) ==
      if e.source != s.admin || s.inProgress then Assertion() else Run(e, f, CONFIGURE_SET, Push(arg, Frame(s)))
  {
    hide Run, Then, Step, Basic, Copy, Rest, CONFIGURE_SET, TicketsMap;
    StackMachine(); DataMachine(); WorldMachine(); AccessRules();
  }

  lemma ConfigureSetRuns(e: Env, f: nat, s: Storage, call: Call)
    requires call.Configure?
    ensures var t :=
      Storage(s.admin, call.opening, call.reserve, false, call.start, call.round, s.tickets[0 := call.ticket]);
      Run(e, f, CONFIGURE_SET, Push(EncodeCall(call).left.right.left, Frame(s))) == EncodeResult(Accepted(t, []))
  {
    hide Run, Then, Step, Basic, Copy, Rest, TicketsMap, CONFIGURE_REBUILD;
    StackMachine(); DataMachine();
    TicketsAt(s.tickets, call.ticket);
    EncodeFew(Pay("", 0), Pay("", 0), EncodeOp);
    ConfigureRebuildRuns(e, f, s, call, VMap(TicketsMap(s.tickets[0 := call.ticket])));
    hide EncodeTicket;
  }

  lemma ConfigureRebuildRuns(e: Env, f: nat, s: Storage, call: Call, m: Value)
    requires call.Configure?
    ensures var t := Storage(s.admin, call.opening, call.reserve, false, call.start, call.round, map[]);
      Run(e, f, CONFIGURE_REBUILD, Push(m, Push(VInt(call.round), Push(VInt(call.start), Push(VInt(call.reserve),
        Push(VInt(call.opening), Push(Data(s), Empty))))))) == Ok(Push(VPair(VList([]), VPair(Data(t), m)), Empty))
  {
    hide Run, Then, Step, Basic, Copy, Rest;
    StackMachine(); AccessRules();
  }

  lemma DropRuns(e: Env, f: nat, s: Storage, price: nat)
    ensures Run(e, f, DROP_PRICE, Push(VInt(price), Frame(s))) ==
      if e.sender != s.admin || !s.inProgress then Assertion()
      else Run(e, f, DROP_RESERVE, Push(VInt(e.now), Push(VInt(price), Frame(s))))
  {
    hide Run, Then, Step, Basic, Copy, Rest, DROP_RESERVE, TicketsMap;
    StackMachine(); DataMachine(); WorldMachine(); AccessRules();
  }

  lemma DropReserveRuns(e: Env, f: nat, s: Storage, price: nat)
    ensures Run(e, f, DROP_RESERVE, Push(VInt(e.now), Push(VInt(price), Frame(s)))) ==
      if price < s.reserve then Assertion() else Run(e, f, DROP_TIME, Push(VInt(e.now), Push(VInt(price), Frame(s))))
  {
    hide Run, Then, Step, Basic, Copy, Rest, DROP_TIME, TicketsMap;
    StackMachine(); DataMachine(); AccessRules();
  }

  lemma DropTimeRuns(e: Env, f: nat, s: Storage, price: nat)
    ensures Run(e, f, DROP_TIME, Push(VInt(e.now), Push(VInt(price), Frame(s)))) ==
      if e.now <= s.start + s.round then Assertion()
      else Run(e, f, DROP_SET, Push(VInt(e.now), Push(VInt(price), Frame(s))))
  {
    hide Run, Then, Step, Basic, Copy, Rest, DROP_SET, TicketsMap;
    StackMachine(); DataMachine(); AccessRules();
  }

  lemma DropSetRuns(e: Env, f: nat, s: Storage, price: nat)
    ensures Run(e, f, DROP_SET, Push(VInt(e.now), Push(VInt(price), Frame(s)))) ==
      EncodeResult(Accepted(s.(price := price, start := e.now), []))
  {
    hide Run, Then, Step, Basic, Copy, Rest, TicketsMap, DROP_REBUILD;
    StackMachine(); AccessRules();
    EncodeFew(Pay("", 0), Pay("", 0), EncodeOp);
    DropRebuildRuns(e, f, s.(price := price), e.now, VMap(TicketsMap(s.tickets)));
  }

  lemma DropRebuildRuns(e: Env, f: nat, s: Storage, now: int, m: Value)
    ensures Run(e, f, DROP_REBUILD, Push(VPair(VInt(now), VInt(s.round)), Push(Data(s), Push(m, Empty)))) ==
      Ok(Push(VPair(VList([]), VPair(Data(s.(start := now)), m)), Empty))
  {
    hide Run, Then, Step, Basic, Copy, Rest;
    StackMachine(); AccessRules();
  }

  lemma StartRuns(e: Env, f: nat, s: Storage)
    ensures Run(e, f, START, Push(VUnit, Frame(s))) ==
      if e.source != s.admin || s.inProgress || e.now < s.start then Assertion()
      else Run(e, f, START_TAKE, Push(Lookup(VInt(0), TicketsMap(s.tickets)), Push(VMap(TicketsMap(s.tickets - {0})),
        Push(VInt(e.now), Push(Data(s), Empty)))))
  {
    hide Run, Then, Step, Basic, Copy, Rest, START_TAKE, TicketsMap;
    StackMachine(); DataMachine(); WorldMachine(); AccessRules();
    TicketsAt(s.tickets, Ticket("", 0, 0));
  }

  lemma StartTakeRuns(e: Env, f: nat, s: Storage)
    ensures Run(e, f, START_TAKE, Push(Lookup(VInt(0), TicketsMap(s.tickets)), Push(VMap(TicketsMap(s.tickets - {0})),
        Push(VInt(e.now), Push(Data(s), Empty))))) ==
      if 0 !in s.tickets then Failed(VStr("no ticket"))
      else EncodeResult(Accepted(s.(inProgress := true, start := e.now), []))
  {
    hide Run, Then, Step, Basic, Copy, Rest, TicketsMap, START_REBUILD, Data, EncodeTicket;
    StackMachine(); DataMachine();
    TicketsAt(s.tickets, Ticket("", 0, 0));
    EncodeFew(Pay("", 0), Pay("", 0), EncodeOp);
    if 0 in s.tickets {
      TicketsAt(s.tickets - {0}, s.tickets[0]);
      assert (s.tickets - {0})[0 := s.tickets[0]] == s.tickets;
      StartRebuildRuns(e, f, s, VMap(TicketsMap(s.tickets)));
    }
  }

  lemma StartRebuildRuns(e: Env, f: nat, s: Storage, m: Value)
    ensures Run(e, f, START_REBUILD, Push(m, Push(VInt(e.now), Push(Data(s), Empty)))) ==
      Ok(Push(VPair(VList([]), VPair(Data(s.(inProgress := true, start := e.now)), m)), Empty))
  {
    hide Run, Then, Step, Basic, Copy, Rest, START_CLOCK;
    StackMachine(); AccessRules();
    StartClockRuns(e, f, s.(inProgress := true), e.now, m);
  }

  lemma StartClockRuns(e: Env, f: nat, s: Storage, now: int, m: Value)
    ensures Run(e, f, START_CLOCK, Push(Data(s), Push(m, Push(VInt(now), Empty)))) ==
      Ok(Push(VPair(VList([]), VPair(Data(s.(start := now)), m)), Empty))
  {
    hide Run, Then, Step, Basic, Copy, Rest;
    StackMachine(); AccessRules();
  }

  /** The whole script computes the specification, for every call, storage and moment. */
  lemma DutchRefines(e: Env, f: nat, s: Storage, call: Call)
    ensures Run(e, f, DUTCH, Push(VPair(EncodeCall(call), EncodeStorage(s)), Empty)) == EncodeResult(Called(e, s, call))
  {
    hide Run, Then, Step, Basic, BUY, CANCEL, CANCEL_TAKE, CONFIGURE, CONFIGURE_SET, DROP_PRICE, DROP_RESERVE,
      DROP_TIME, DROP_SET, START, START_TAKE, TicketsMap;
    StackMachine();
    match call
    case Buy(to, at) => BuyRefines(e, f, s, to, at);
    case Cancel(to, at) =>
      CancelRuns(e, f, s, to, at);
      CancelTakeRuns(e, f, s, VMap(TicketsMap(s.tickets - {0})), to, at);
    case Configure(_, _, _, _, _) =>
      ConfigureRuns(e, f, s, EncodeCall(call).left.right.left);
      ConfigureSetRuns(e, f, s, call);
    case DropPrice(price) =>
      DropRuns(e, f, s, price);
      DropReserveRuns(e, f, s, price);
      DropTimeRuns(e, f, s, price);
      DropSetRuns(e, f, s, price);
    case Start =>
      StartRuns(e, f, s);
      StartTakeRuns(e, f, s);
  }
}
