/** Wallet for fungible tickets: one coin a ticketer, joined on receipt and split on sending. */
module TicketWallet {
  import opened Michelson
  import opened Contracts
  import opened Rules
  import opened Encoding

  const STORE_COIN: Code :=
    Seq7(SOME, DIG(2), GET_AND_UPDATE, BLOCK(Seq1(IF_NONE(Done, Seq1(BLOCK(Seq2(UNIT, FAILWITH)))))), SWAP, PAIR, NIL)

  const JOIN_COIN: Code :=
    Do(BLOCK(Seq1(IF_NONE(Seq1(DIG(2)), Seq4(DIG(3), PAIR, JOIN_TICKETS, BLOCK(Seq1(IF_NONE(Seq1(BLOCK(Seq2(UNIT,
    FAILWITH))), Done))))))), STORE_COIN)

  const RECEIVE: Code :=
    Do7(READ_TICKET, CAR, DUP, DIG(4), NONE, DIG(2), GET_AND_UPDATE, JOIN_COIN)

  const SEND_COIN: Code :=
    Do8(DIG(2), PAIR, SWAP, PUSH(VMutez(0)), DIG(3), TRANSFER_TOKENS, NIL, SWAP, Seq1(CONS))

  const KEEP_REST: Code :=
    Do6(UNPAIR, DUG(5), SOME, DIG(3), GET_AND_UPDATE, BLOCK(Seq1(IF_NONE(Done, Seq1(BLOCK(Seq2(UNIT, FAILWITH)))))),
    SEND_COIN)

  const TAKE_OUT: Code :=
    Do8(BLOCK(Seq1(IF_NONE(Seq1(BLOCK(Seq2(UNIT, FAILWITH))), Done))), READ_TICKET, GET4, DUPN(5), SWAP, SUB, ISNAT,
    BLOCK(Seq1(IF_NONE(Seq1(BLOCK(Seq2(UNIT, FAILWITH))), Done))), Do5(DIG(4), PAIR, SWAP, SPLIT_TICKET,
    BLOCK(Seq1(IF_NONE(Seq1(BLOCK(Seq2(UNIT, FAILWITH))), Done))), KEEP_REST))

  const SEND: Code :=
    Do8(DUPN(2), SENDER, BLOCK(Seq2(BLOCK(Seq2(COMPARE, EQ)), IF(Done, Seq1(BLOCK(Seq2(UNIT, FAILWITH)))))), UNPAIR3,
    DIG(4), NONE, DUPN(5), GET_AND_UPDATE, TAKE_OUT)

  const WALLET: Code :=
    Seq6(AMOUNT, PUSH(VMutez(0)), BLOCK(Seq2(BLOCK(Seq2(COMPARE, EQ)), IF(Done, Seq1(BLOCK(Seq2(UNIT, FAILWITH)))))),
    UNPAIR3, IF_LEFT(RECEIVE, SEND), PAIR)

  // ---------------------------------------------------------------- specification

  /** A ticket with unit contents. */
  datatype Coin = Coin(ticketer: Account, amount: nat)

  datatype Storage = Storage(manager: Account, coins: map<Account, Coin>)

  datatype Call = Receive(coin: Coin) | Send(to: Account, at: string, amount: nat, ticketer: Account)

  /** Accepted with the coins that leave: none or one. */
  type Result = Answer<Storage, seq<Coin>>

  const FAILURE: Result := Refused(Failed(VUnit))

  function Received(s: Storage, c: Coin): Result {
    var held := if c.ticketer in s.coins then s.coins[c.ticketer] else Coin(c.ticketer, 0);
    if held.ticketer != c.ticketer then FAILURE
    else Accepted(s.(coins := s.coins[c.ticketer := Coin(c.ticketer, held.amount + c.amount)]), [])
  }

  function Sent(e: Env, s: Storage, amount: nat, ticketer: Account): Result {
    if e.sender != s.manager || ticketer !in s.coins || s.coins[ticketer].amount < amount then FAILURE
    else
      var held := s.coins[ticketer];
      Accepted(s.(coins := s.coins[ticketer := held.(amount := held.amount - amount)]), [held.(amount := amount)])
  }

  function Called(e: Env, s: Storage, call: Call): (r: Result)
    ensures r.Refused? ==> !r.why.Ok?
  {
    if e.amount != 0 then FAILURE
    else
      match call
      case Receive(c) => Received(s, c)
      case Send(_, _, amount, ticketer) => Sent(e, s, amount, ticketer)
  }

  // ---------------------------------------------------------------- encoding

  function EncodeCoin(c: Coin): Value { VTicket(c.ticketer, VUnit, c.amount) }

  ghost function CoinsMap(m: map<Account, Coin>): map<Value, Value> { EncodeMap(m, AccountKey, EncodeCoin) }

  lemma CoinsAt(m: map<Account, Coin>, a: Account, c: Coin)
    ensures Lookup(VAddr(a), CoinsMap(m)) == if a in m then VSome(EncodeCoin(m[a])) else VNone
    ensures CoinsMap(m)[VAddr(a) := EncodeCoin(c)] == CoinsMap(m[a := c])
    ensures (CoinsMap(m) - {VAddr(a)})[VAddr(a) := EncodeCoin(c)] == CoinsMap(m[a := c])
    ensures Lookup(VAddr(a), CoinsMap(m) - {VAddr(a)}) == VNone
  {
    EncodedAt(m, AccountKey, EncodeCoin, a, c);
    hide CoinsMap;
    TakenAndPut(CoinsMap(m), VAddr(a), EncodeCoin(c));
  }

  ghost function EncodeStorage(s: Storage): Value { VPair(VAddr(s.manager), VMap(CoinsMap(s.coins))) }

  function EncodeCall(call: Call): Value {
    match call
    case Receive(c) => VLeft(EncodeCoin(c))
    case Send(to, at, amount, ticketer) => VRight(VPair(VContract(to, at), VPair(VInt(amount), VAddr(ticketer))))
  }

  function EncodeOps(call: Call, sent: seq<Coin>): seq<Value> {
    if sent == [] || !call.Send? then [] else [VTransfer(EncodeCoin(sent[0]), 0, call.to, call.at)]
  }

  ghost function EncodeResult(call: Call, r: Result): Outcome {
    match r
    case Accepted(s, sent) => Ok(Push(VPair(VList(EncodeOps(call, sent)), EncodeStorage(s)), Empty))
    case Refused(why) => why
  }

  // ---------------------------------------------------------------- the script refines the specification

  ghost function Returning(call: Call, r: Result): Outcome {
    match r
    case Accepted(s, sent) => Ok(Push(VList(EncodeOps(call, sent)), Push(EncodeStorage(s), Empty)))
    case Refused(why) => why
  }

  lemma JoinRuns(e: Env, f: nat, s: Storage, c: Coin, rest: Stack, m: Value)
    ensures var found := Lookup(VAddr(c.ticketer), CoinsMap(s.coins));
      var r := Received(s, c);
      Run(e, f, JOIN_COIN, Push(found, Push(m, Push(VAddr(c.ticketer), Push(EncodeCoin(c), rest))))) ==
      if r.Refused? then r.why
      else Run(e, f, STORE_COIN, Push(EncodeCoin(r.storage.coins[c.ticketer]), Push(m, Push(VAddr(c.ticketer), rest))))
  {
    hide Run, Then, Step, Basic, CoinsMap, STORE_COIN;
    StackMachine(); WorldMachine();
    CoinsAt(s.coins, c.ticketer, c);
  }

  lemma StoreRuns(e: Env, f: nat, m: map<Account, Coin>, c: Coin, manager: Value)
    ensures Run(e, f, STORE_COIN, Push(EncodeCoin(c), Push(VMap(CoinsMap(m) - {VAddr(c.ticketer)}),
        Push(VAddr(c.ticketer), Push(manager, Empty))))) ==
      Ok(Push(VList([]), Push(VPair(manager, VMap(CoinsMap(m[c.ticketer := c]))), Empty)))
  {
    hide Run, Then, Step, Basic, CoinsMap;
    StackMachine(); DataMachine();
    CoinsAt(m, c.ticketer, c);
    hide EncodeCoin;
  }

  lemma ReceiveTakes(e: Env, f: nat, s: Storage, c: Coin)
    ensures var found := Lookup(VAddr(c.ticketer), CoinsMap(s.coins));
      Run(e, f, RECEIVE, Push(EncodeCoin(c), Push(VAddr(s.manager), Push(VMap(CoinsMap(s.coins)), Empty)))) ==
      Run(e, f, JOIN_COIN, Push(found, Push(VMap(CoinsMap(s.coins) - {VAddr(c.ticketer)}), Push(VAddr(c.ticketer),
        Push(EncodeCoin(c), Push(VAddr(s.manager), Empty))))))
  {
    hide Run, Then, Step, Basic, CoinsMap, JOIN_COIN;
    StackMachine(); DataMachine(); WorldMachine();
  }

  lemma ReceiveRuns(e: Env, f: nat, s: Storage, c: Coin)
    ensures Run(e, f, RECEIVE, Push(EncodeCoin(c), Push(VAddr(s.manager), Push(VMap(CoinsMap(s.coins)), Empty)))) ==
      Returning(Receive(c), Received(s, c))
  {
    hide Run, CoinsMap, RECEIVE, JOIN_COIN, STORE_COIN, EncodeCoin;
    ReceiveTakes(e, f, s, c);
    JoinRuns(e, f, s, c, Push(VAddr(s.manager), Empty), VMap(CoinsMap(s.coins) - {VAddr(c.ticketer)}));
    var r := Received(s, c);
    if r.Accepted? { StoreRuns(e, f, s.coins, r.storage.coins[c.ticketer], VAddr(s.manager)); }
  }

  /** The stack once the coin has been taken out of the map and split. */
  ghost function Split2(s: Storage, call: Call, held: Coin): Stack
    requires call.Send? && call.amount <= held.amount
  {
    Push(VPair(EncodeCoin(held.(amount := call.amount)), EncodeCoin(held.(amount := held.amount - call.amount))),
      Push(VMap(CoinsMap(s.coins) - {VAddr(call.ticketer)}), Push(VContract(call.to, call.at),
        Push(VAddr(call.ticketer), Push(VAddr(s.manager), Empty)))))
  }

  lemma SendRuns(e: Env, f: nat, s: Storage, call: Call)
    requires call.Send?
    ensures Run(e, f, SEND, Push(VPair(VContract(call.to, call.at), VPair(VInt(call.amount), VAddr(call.ticketer))),
        Push(VAddr(s.manager), Push(VMap(CoinsMap(s.coins)), Empty)))) ==
      if e.sender != s.manager then Failed(VUnit)
      else Run(e, f, TAKE_OUT, Push(Lookup(VAddr(call.ticketer), CoinsMap(s.coins)),
        Push(VMap(CoinsMap(s.coins) - {VAddr(call.ticketer)}), Push(VContract(call.to, call.at),
          Push(VInt(call.amount), Push(VAddr(call.ticketer), Push(VAddr(s.manager), Empty)))))))
  {
    hide Run, Then, Step, Basic, CoinsMap, TAKE_OUT;
    StackMachine(); DataMachine(); WorldMachine();
  }

  lemma TakeOutRuns(e: Env, f: nat, s: Storage, call: Call)
    requires call.Send?
    ensures Run(e, f, TAKE_OUT, Push(Lookup(VAddr(call.ticketer), CoinsMap(s.coins)),
        Push(VMap(CoinsMap(s.coins) - {VAddr(call.ticketer)}), Push(VContract(call.to, call.at),
          Push(VInt(call.amount), Push(VAddr(call.ticketer), Push(VAddr(s.manager), Empty))))))) ==
      if call.ticketer !in s.coins || s.coins[call.ticketer].amount < call.amount then Failed(VUnit)
      else Run(e, f, KEEP_REST, Split2(s, call, s.coins[call.ticketer]))
  {
    hide Run, Then, Step, Basic, CoinsMap, KEEP_REST;
    StackMachine(); DataMachine(); WorldMachine();
    CoinsAt(s.coins, call.ticketer, Coin(call.ticketer, 0));
  }

  lemma KeepRestRuns(e: Env, f: nat, s: Storage, call: Call, held: Coin)
    requires call.Send? && call.amount <= held.amount
    ensures var rest := held.(amount := held.amount - call.amount);
      Run(e, f, KEEP_REST, Split2(s, call, held)) ==
      Run(e, f, SEND_COIN, Push(VMap(CoinsMap(s.coins[call.ticketer := rest])), Push(VContract(call.to, call.at),
        Push(VAddr(s.manager), Push(EncodeCoin(held.(amount := call.amount)), Empty)))))
  {
    hide Run, Then, Step, Basic, CoinsMap, SEND_COIN;
    StackMachine(); DataMachine();
    CoinsAt(s.coins, call.ticketer, held.(amount := held.amount - call.amount));
    hide EncodeCoin;
  }

  lemma SendCoinRuns(e: Env, f: nat, m: Value, manager: Value, coin: Value, to: Account, at: string)
    ensures Run(e, f, SEND_COIN, Push(m, Push(VContract(to, at), Push(manager, Push(coin, Empty))))) ==
      Ok(Push(VList([VTransfer(coin, 0, to, at)]), Push(VPair(manager, m), Empty)))
  {
    hide Run, Then, Step, Basic;
    StackMachine(); WorldMachine();
    assert [VTransfer(coin, 0, to, at)] + [] == [VTransfer(coin, 0, to, at)];
  }

  /** The whole script computes the specification, for every call and storage. */
  lemma WalletRefines(e: Env, f: nat, s: Storage, call: Call)
    ensures Run(e, f, WALLET, Push(VPair(EncodeCall(call), EncodeStorage(s)), Empty)) ==
      EncodeResult(call, Called(e, s, call))
  {
    hide Run, Then, Step, Basic, RECEIVE, SEND, TAKE_OUT, KEEP_REST, SEND_COIN, CoinsMap, Split2, EncodeCoin;
    StackMachine(); DataMachine(); WorldMachine();
    if e.amount == 0 {
      match call
      case Receive(c) => ReceiveRuns(e, f, s, c);
      case Send(_, _, amount, t) =>
        SendRuns(e, f, s, call);
        TakeOutRuns(e, f, s, call);
        if e.sender == s.manager && t in s.coins && amount <= s.coins[t].amount {
          var held := s.coins[t];
          KeepRestRuns(e, f, s, call, held);
          SendCoinRuns(e, f, VMap(CoinsMap(s.coins[t := held.(amount := held.amount - amount)])), VAddr(s.manager),
            EncodeCoin(held.(amount := amount)), call.to, call.at);
        }
    }
  }
}
