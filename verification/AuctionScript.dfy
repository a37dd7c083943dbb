/** The auction house's script, and the proof that it computes the specification in Auction. */
module AuctionScript {
  import opened Michelson
  import opened Contracts
  import opened Rules
  import opened Chains
  import opened Encoding
  import opened Auction

  const CHECK: Code :=
    Seq3(UNPAIR, NOT, IF(Seq1(FAILWITH), Seq2(DROP, UNIT)))

  const CALL_LOT: Code :=
    Do8(SWAP, CAR, CONTRACT("transfer"), IF_NONE(Seq2(PUSH(VStr("Invalid FA2 Address")), FAILWITH), Done),
    PUSH(VMutez(0)), NIL, DIG(3), DUPN(5), Seq3(PAIR, CONS, TRANSFER_TOKENS))

  const DELIVER_LOT: Code :=
    Do3(DUP, CDR, MAP(Seq2(DUPN(4), PAIR)), CALL_LOT)

  const DELIVER: Code :=
    Seq7(UNPAIR, UNPAIR, MAP(DELIVER_LOT), SWAP, DROP, SWAP, DROP)

  const FIND: Code :=
    Do2(UNPAIR, SWAP, Rest(4, Seq3(SWAP, GET, IF_NONE(Seq2(PUSH(VStr("Auction does not exist for given asset_id")),
    FAILWITH), Done))))

  const PAYEE: Code :=
    Seq2(CONTRACT(""), IF_NONE(Seq2(PUSH(VStr("Return address does not resolve to contract")), FAILWITH), Done))

  const ENDED: Code :=
    Do(DUP, Rest(4, Do(CAR, Copy(1, Rest(3, Do6(CAR, ADD, NOW, COMPARE, GT, SWAP, Rest(9, Seq5(CAR, NOW, COMPARE, GE,
    OR))))))))

  const REFUSE_BID: Code :=
    Do(NOW, Copy(1, Rest(3, Do2(CAR, DUPN(3), Rest(10, Do8(PAIR, AMOUNT, DUPN(4), CDR, CAR, PAIR, PAIR, PAIR,
    Seq3(PUSH(VStr("Invalid Bid amount")), PAIR, FAILWITH)))))))

  const BID_STORE: Code :=
    Do(DUPN(4), Rest(4, Do5(SWAP, SOME, DIG(3), UPDATE, DUPN(3), Rest(3, Do3(CAR, PAIR, DUPN(3), Rest(2, Do8(CAR,
    PAIR, DUPN(3), CDR, CAR, PAIR, DIG(2), CAR, Seq5(PAIR, NIL, DIG(2), CONS, PAIR))))))))

  const BID_END: Code :=
    Do(DUP, Rest(10, Do2(DIG(2), PAIR, Rebuild(8, BID_STORE))))

  const BID_TIME: Code :=
    Do(DUP, Rest(4, Do2(NOW, PAIR, Rebuild(2, BID_END))))

  const BID_RECORD: Code :=
    Do(DUPN(3), Rest(2, Do6(AMOUNT, PAIR, DIG(3), CAR, PAIR, SENDER, Rebuild(9, BID_TIME))))

  const BID_EXTEND: Code :=
    Copy(1, Rest(5, Do3(CAR, NOW, DUPN(4), Rest(9, Do5(CAR, SUB, COMPARE, LE, IF(Copy(1, Rest(5, Seq3(CAR, NOW,
    ADD))), Copy(1, Rest(9, Seq1(CAR)))), BID_RECORD)))))

  const BID_PAY: Code :=
    Do(DUP, Rest(10, Do3(DIG(4), SWAP, EXEC, Copy(1, Do4(CDR, CAR, UNIT, TRANSFER_TOKENS, BID_EXTEND)))))

  const BID_DECIDE: Code :=
    Do8(DUPN(4), CDR, CAR, ADD, AMOUNT, COMPARE, GE, OR, Do3(OR, NOT, IF(REFUSE_BID, Done), BID_PAY))

  const BID_PERCENT: Code :=
    Do5(PUSH(VInt(100)), DUPN(4), CDR, CAR, DUPN(5), Rest(7, Do4(CAR, MUL, EDIV, IF_NONE(Seq2(PUSH(VStr(
    "DIVISION_BY_ZERO")), FAILWITH), Seq6(UNPAIR, PUSH(VMutez(0)), DIG(2), COMPARE, GT, IF(Seq2(PUSH(VMutez(1)), ADD),
    Done))), BID_DECIDE)))

  const BID_RAISE: Code :=
    Copy(1, Rest(8, Do8(CAR, DUPN(3), CDR, CAR, ADD, AMOUNT, COMPARE, GE, BID_PERCENT)))

  const BID_FIRST: Code :=
    Do2(DUP, CAR, Copy(1, Rest(10, Do2(COMPARE, EQ, Copy(1, Do6(CDR, CAR, AMOUNT, COMPARE, GE, AND, BID_RAISE))))))

  const BID_SELLER: Code :=
    Do(PUSH(VStr("Seller cannot place a bid")), Copy(1, Do8(CAR, SENDER, COMPARE, NEQ, PAIR, DIG(5), SWAP, EXEC,
    Do(DROP, BID_FIRST))))

  const BID_OPEN: Code :=
    Do(PUSH(VStr("Auction must be in progress")), Copy(1, Do5(DIG(5), SWAP, EXEC, NOT, DUPN(3), Rest(2, Do8(CAR, NOW,
    COMPARE, GE, AND, PAIR, DUPN(6), SWAP, Do2(EXEC, DROP, BID_SELLER))))))

  const BID_SOURCE: Code :=
    Do8(PUSH(VStr("Bidder must be an implicit account")), SOURCE, SENDER, COMPARE, EQ, PAIR, DUPN(7), SWAP, Do2(EXEC,
    DROP, BID_OPEN))

  const BID: Code :=
    Copy(1, Copy(1, Do4(PAIR, DIG(5), SWAP, EXEC, BID_SOURCE)))

  const CLOSE_OUT: Code :=
    Do6(DIG(2), CDR, CAR, UNIT, TRANSFER_TOKENS, DUPN(4), Rest(4, Do5(DIG(3), NONE, SWAP, UPDATE, DUPN(4), Rest(3,
    Do3(CAR, PAIR, DUPN(4), Rest(2, Do8(CAR, PAIR, DUPN(4), CDR, CAR, PAIR, DIG(3), CAR, Seq4(PAIR, DUG(2), CONS,
    PAIR))))))))

  const CANCEL_PAY: Code :=
    Copy(1, Rest(10, Do3(DIG(5), SWAP, EXEC, CLOSE_OUT)))

  const CANCEL_ASSETS: Code :=
    Do4(DUP, CAR, SELF_ADDRESS, DUPN(3), Rest(6, Do6(CAR, PAIR, PAIR, DIG(5), SWAP, EXEC, CANCEL_PAY)))

  const CANCEL_FREE: Code :=
    Do8(PUSH(VStr("Amount must be 0mutez")), PUSH(VMutez(0)), AMOUNT, COMPARE, EQ, PAIR, DIG(6), SWAP, Do2(EXEC, DROP,
    CANCEL_ASSETS))

  const CANCEL_OPEN: Code :=
    Do(PUSH(VStr("Auction must not have ended")), Copy(1, Do8(DIG(5), SWAP, EXEC, NOT, PAIR, DUPN(7), SWAP, EXEC,
    Do(DROP, CANCEL_FREE))))

  const CANCEL_SELLER: Code :=
    Do(PUSH(VStr("Only seller can cancel auction")), Copy(1, Do8(CAR, SENDER, COMPARE, EQ, PAIR, DUPN(8), SWAP, EXEC,
    Do(DROP, CANCEL_OPEN))))

  const CANCEL: Code :=
    Copy(1, Copy(1, Do4(PAIR, DIG(5), SWAP, EXEC, CANCEL_SELLER)))

  const RESOLVE_PAY: Code :=
    Copy(1, Do4(CAR, DIG(5), SWAP, EXEC, CLOSE_OUT))

  const RESOLVE_ASSETS: Code :=
    Do(DUP, Rest(10, Do2(SELF_ADDRESS, DUPN(3), Rest(6, Do6(CAR, PAIR, PAIR, DIG(5), SWAP, EXEC, RESOLVE_PAY)))))

  const RESOLVE_FREE: Code :=
    Do8(PUSH(VStr("Amount must be 0mutez")), PUSH(VMutez(0)), AMOUNT, COMPARE, EQ, PAIR, DIG(6), SWAP, Do2(EXEC, DROP,
    RESOLVE_ASSETS))

  const RESOLVE_ENDED: Code :=
    Do(PUSH(VStr("Auction must have ended")), Copy(1, Do8(DIG(5), SWAP, EXEC, PAIR, DUPN(7), SWAP, EXEC, DROP,
    RESOLVE_FREE)))

  const RESOLVE: Code :=
    Copy(1, Copy(1, Do4(PAIR, DIG(5), SWAP, EXEC, RESOLVE_ENDED)))

  const CONFIGURE_DELIVER: Code :=
    Do3(SELF_ADDRESS, SENDER, DIG(3), Rest(5, Seq7(CAR, PAIR, PAIR, DIG(2), SWAP, EXEC, PAIR)))

  const CONFIGURE_COUNT: Code :=
    Do(DUP, Rest(2, Do8(PUSH(VInt(1)), DIG(3), CDR, CAR, ADD, PAIR, SWAP, CAR, Do(PAIR, CONFIGURE_DELIVER))))

  const CONFIGURE_STORE: Code :=
    Do5(SOME, DUPN(3), CDR, CAR, UPDATE, Copy(1, Rest(3, Do2(CAR, PAIR, Copy(1, Rest(2, Do2(CAR, PAIR, Copy(1,
    Do3(CDR, CAR, PAIR, Copy(1, Do2(CAR, PAIR, CONFIGURE_COUNT)))))))))))

  const CONFIGURE_RECORD: Code :=
    Do(DUPN(3), Rest(4, Do4(CAR, INT, PAIR, DUPN(3), Rest(3, Do4(CAR, INT, PAIR, DUPN(3), Rest(6, Do3(CAR, PAIR,
    DUPN(3), Rest(6, Do7(CAR, PAIR, DIG(2), CAR, PAIR, DIG(2), PAIR, CONFIGURE_STORE)))))))))

  const CONFIGURE_BUILD: Code :=
    Do(DUPN(3), Rest(4, Do2(DUPN(3), DUPN(3), Rest(7, Do2(PAIR, DUPN(3), Rest(2, Do7(CAR, PAIR, DUPN(3), CDR, CAR,
    PAIR, DUPN(3), Rest(5, Do2(CAR, PAIR, CONFIGURE_RECORD)))))))))

  const CONFIGURE_ROUND: Code :=
    Do3(PUSH(VStr("Round_time must be greater than 0 seconds")), PUSH(VInt(0)), DUPN(3), Rest(3, Do8(CAR, COMPARE, GT,
    PAIR, DIG(6), SWAP, EXEC, DROP, CONFIGURE_BUILD)))

  const CONFIGURE_AMOUNT: Code :=
    Do(PUSH(VStr("Amount must be equal to opening_price")), Copy(1, Do8(CAR, AMOUNT, COMPARE, EQ, PAIR, DUPN(7), SWAP,
    EXEC, Do(DROP, CONFIGURE_ROUND))))

  const CONFIGURE_PRICE: Code :=
    Do8(PUSH(VStr("Opening price must be greater than 0mutez")), PUSH(VMutez(0)), DUPN(3), CAR, COMPARE, GT, PAIR,
    DUPN(7), Do3(SWAP, EXEC, DROP, CONFIGURE_AMOUNT))

  const CONFIGURE_SOON: Code :=
    Do2(PUSH(VStr("start_time must not be greater than the sum of current time and max_config_to_start_time")),
    DUPN(4), Rest(3, Do3(CAR, NOW, DUPN(4), Rest(6, Do8(CAR, SUB, ABS, COMPARE, LE, PAIR, DUPN(7), SWAP, Do2(EXEC,
    DROP, CONFIGURE_PRICE))))))

  const CONFIGURE_PAST: Code :=
    Do3(PUSH(VStr("Start_time must not have already passed")), NOW, DUPN(3), Rest(6, Do8(CAR, COMPARE, GE, PAIR,
    DUPN(7), SWAP, EXEC, DROP, CONFIGURE_SOON)))

  const CONFIGURE_LENGTH: Code :=
    Do2(PUSH(VStr("Auction time must be less than max_auction_time")), DUPN(4), Rest(2, Do2(CAR, DUPN(3), Rest(6,
    Do2(CAR, DUPN(4), Rest(7, Do8(SUB, ABS, COMPARE, LE, PAIR, DUPN(7), SWAP, EXEC, Do(DROP, CONFIGURE_PAST))))))))

  const CONFIGURE_ORDER: Code :=
    Do(PUSH(VStr("end_time must be after start_time")), Copy(1, Rest(6, Do2(CAR, DUPN(3), Rest(7, Do7(COMPARE, GT,
    PAIR, DUPN(7), SWAP, EXEC, DROP, CONFIGURE_LENGTH))))))

  const CONFIGURE: Code :=
    Do8(DIG(2), DROP, DIG(2), DROP, DIG(2), DROP, SWAP, SENDER, Do(DUPN(3), CONFIGURE_ORDER))

  const ADMIN: Code :=
    Do8(DIG(2), DROP, DIG(2), DROP, DIG(2), DROP, PUSH(VStr("Amount must be 0mutez")), PUSH(VMutez(0)), Do8(AMOUNT,
    COMPARE, EQ, PAIR, DIG(3), SWAP, EXEC, DROP, Copy(1, Do8(CAR, SWAP, DROP, NIL, DIG(2), CDR, DIG(2), PAIR,
    Seq2(SWAP, PAIR)))))

  const ENTRYPOINTS: Code :=
    Seq1(IF_LEFT(Seq1(IF_LEFT(Seq3(DIG(5), DROP, IF_LEFT(ADMIN, BID)), Seq1(IF_LEFT(CANCEL, RESOLVE)))), CONFIGURE))

  const AUCTION: Code :=
    Do7(LAMBDA(CHECK), LAMBDA(DELIVER), LAMBDA(FIND), LAMBDA(PAYEE), LAMBDA(ENDED), DIG(5), UNPAIR, ENTRYPOINTS)

  // ---------------------------------------------------------------- encoding

  function EncodeItem(item: (nat, nat)): Value { VPair(VInt(item.0), VInt(item.1)) }

  function EncodeLot(lot: Lot): Value { VPair(VAddr(lot.fa2), VList(EncodeSeq(lot.batch, EncodeItem))) }

  function Lots(assets: seq<Lot>): Value { VList(EncodeSeq(assets, EncodeLot)) }

  /** The fields of a sale behind its minimal raise. */
  function EndTail(a: Sale): Value { VPair(VInt(a.endTime), VAddr(a.highestBidder)) }

  function RaiseTail(a: Sale): Value { VPair(VInt(a.minRaisePercent), VPair(VMutez(a.minRaise), EndTail(a))) }

  function RoundTail(a: Sale): Value {
    VPair(VInt(a.roundTime), VPair(VInt(a.extendTime), VPair(Lots(a.assets), RaiseTail(a))))
  }

  function EncodeSale(a: Sale): Value {
    VPair(VAddr(a.seller),
      VPair(VMutez(a.currentBid), VPair(VInt(a.startTime), VPair(VInt(a.lastBidTime), RoundTail(a)))))
  }

  ghost function SalesMap(m: map<nat, Sale>): map<Value, Value> { EncodeMap(m, NatKey, EncodeSale) }

  lemma SalesAt(m: map<nat, Sale>, id: nat, a: Sale)
    ensures Lookup(VInt(id), SalesMap(m)) == if id in m then VSome(EncodeSale(m[id])) else VNone
    ensures SalesMap(m)[VInt(id) := EncodeSale(a)] == SalesMap(m[id := a])
    ensures SalesMap(m) - {VInt(id)} == SalesMap(m - {id})
  {
    EncodedAt(m, NatKey, EncodeSale, id, a);
  }

  /** The administrator's field is unit here: the one entrypoint that reads it takes a value of the
      empty type and is never called. */
  ghost function EncodeStorage(s: Storage): Value {
    VPair(VUnit,
      VPair(VInt(s.currentId),
      VPair(VInt(s.maxAuctionTime), VPair(VInt(s.maxConfigToStart), VMap(SalesMap(s.auctions))))))
  }

  function EncodeConfig(c: Config): Value {
    VPair(VMutez(c.openingPrice), VPair(VInt(c.minRaisePercent), VPair(VMutez(c.minRaise), VPair(VInt(c.roundTime),
      VPair(VInt(c.extendTime), VPair(Lots(c.assets), VPair(VInt(c.startTime), VInt(c.endTime))))))))
  }

  function EncodeMove(m: Move): Value { VPair(VAddr(m.to), VPair(VInt(m.token), VInt(m.amount))) }

  function EncodeOp(op: Op): Value {
    match op
    case Pay(to, tez) => VTransfer(VUnit, tez, to, "")
    case MoveTokens(fa2, from, moves) =>
      VTransfer(VList([VPair(VAddr(from), VList(EncodeSeq(moves, EncodeMove)))]), 0, fa2, "transfer")
  }

  // ---------------------------------------------------------------- the helper lambdas

  lemma CheckRuns(e: Env, f: nat)
    ensures forall b, message {:trigger Run(e, f, CHECK, Push(VPair(VBool(b), message), Empty))} ::
      b ==> Run(e, f, CHECK, Push(VPair(VBool(b), message), Empty)) == Ok(Push(VUnit, Empty))
    ensures forall b, message {:trigger Run(e, f, CHECK, Push(VPair(VBool(b), message), Empty))} ::
      !b ==> Run(e, f, CHECK, Push(VPair(VBool(b), message), Empty)) == Failed(message)
  {
    hide Run, CHECK;
    forall b: bool, message: Value | b
      ensures Run(e, f, CHECK, Push(VPair(VBool(b), message), Empty)) == Ok(Push(VUnit, Empty)) {
        CheckOne(e, f, b, message);
      }
    forall b: bool, message: Value | !b
      ensures Run(e, f, CHECK, Push(VPair(VBool(b), message), Empty)) == Failed(message) { CheckOne(e, f, b, message); }
  }

  lemma CheckOne(e: Env, f: nat, b: bool, message: Value)
    ensures Run(e, f, CHECK, Push(VPair(VBool(b), message), Empty)) ==
      if b then Ok(Push(VUnit, Empty)) else Failed(message)
  {
    hide Run, Then, Step, Basic;
    StackMachine(); DataMachine();
  }

  lemma FindRuns(e: Env, f: nat, s: Storage, id: nat)
    ensures Run(e, f, FIND, Push(VPair(VInt(id), EncodeStorage(s)), Empty)) ==
      if id in s.auctions then Ok(Push(EncodeSale(s.auctions[id]), Empty))
      else Failed(VStr("Auction does not exist for given asset_id"))
  {
    hide Run, Then, Step, Basic, Copy, Rest, SalesMap, EncodeSale;
    StackMachine(); DataMachine(); AccessRules();
    SalesAt(s.auctions, id, Sale("", 0, 0, 0, 0, 0, [], 0, 0, 0, ""));
  }

  lemma PayeeRuns(e: Env, f: nat, a: Account)
    ensures Run(e, f, PAYEE, Push(VAddr(a), Empty)) ==
      if e.entrypoints(a, "") then Ok(Push(VContract(a, ""), Empty))
      else Failed(VStr("Return address does not resolve to contract"))
  {
    hide Run, Then, Step, Basic;
    StackMachine();
  }

  lemma EndedRuns(e: Env, f: nat, a: Sale)
    ensures Run(e, f, ENDED, Push(EncodeSale(a), Empty)) == Ok(Push(VBool(Ended(a, e.now)), Empty))
    ensures Ended(a, e.now) <==> e.now - a.lastBidTime > a.roundTime || e.now >= a.endTime
  {
    hide Run, Then, Step, Basic, Copy, Rest, Lots;
    StackMachine(); DataMachine(); WorldMachine(); AccessRules();
  }

  lemma {:induction false} MovesLoop(e: Env, f: nat, batch: seq<(nat, nat)>, done: seq<Move>, lot: Value, from: Value,
      to: Account)
    ensures var rest := Push(lot, Push(from, Push(VAddr(to), Empty)));
      MapList(e, f, Seq2(DUPN(4), PAIR), EncodeSeq(batch, EncodeItem), EncodeSeq(done, EncodeMove), rest) ==
      Ok(Push(VList(EncodeSeq(done + Moves(batch, to), EncodeMove)), rest))
    decreases |batch|
  {
    hide Run, Then, Step, Basic;
    var rest := Push(lot, Push(from, Push(VAddr(to), Empty)));
    if batch == [] {
      assert done + Moves(batch, to) == done;
    } else {
      hide Moves;
      var move := Move(to, batch[0].0, batch[0].1);
      EncodeTail(batch, EncodeItem);
      MapCons(e, f, Seq2(DUPN(4), PAIR), EncodeSeq(batch, EncodeItem), EncodeSeq(done, EncodeMove), rest);
      MoveRuns(e, f, batch[0], rest);
      EncodeSnoc(done, move, EncodeMove);
      MovesLoop(e, f, batch[1..], done + [move], lot, from, to);
      MovesCons(batch, to, done);
    }
  }

  lemma MovesCons(batch: seq<(nat, nat)>, to: Account, done: seq<Move>)
    requires batch != []
    ensures done + [Move(to, batch[0].0, batch[0].1)] + Moves(batch[1..], to) == done + Moves(batch, to)
  {}

  lemma MoveRuns(e: Env, f: nat, item: (nat, nat), rest: Stack)
    requires Has(rest, 3)
    ensures Run(e, f, Seq2(DUPN(4), PAIR), Push(EncodeItem(item), rest)) ==
      Ok(Push(VPair(Nth(rest, 2), EncodeItem(item)), rest))
  {
    hide Run, Then, Step, Basic;
    StackMachine();
  }

  lemma DeliverLotRuns(e: Env, f: nat, lot: Lot, from: Account, to: Account)
    ensures var rest := Push(VAddr(from), Push(VAddr(to), Empty));
      Run(e, f, DELIVER_LOT, Push(EncodeLot(lot), rest)) ==
      if !e.entrypoints(lot.fa2, "transfer") then Failed(VStr("Invalid FA2 Address"))
      else Ok(Push(EncodeOp(MoveTokens(lot.fa2, from, Moves(lot.batch, to))), rest))
  {
    hide Run, Then, Step, Basic, CALL_LOT, Moves, EncodeMove;
    StackMachine();
    MovesLoop(e, f, lot.batch, [], EncodeLot(lot), VAddr(from), to);
    assert [] + Moves(lot.batch, to) == Moves(lot.batch, to);
    assert EncodeSeq<Move>([], EncodeMove) == [];
    CallLotRuns(e, f, lot.fa2, VList(EncodeSeq(lot.batch, EncodeItem)),
      VList(EncodeSeq(Moves(lot.batch, to), EncodeMove)), from, VAddr(to));
  }

  lemma CallLotRuns(e: Env, f: nat, fa2: Account, batch: Value, moves: Value, from: Account, to: Value)
    ensures var rest := Push(VAddr(from), Push(to, Empty));
      Run(e, f, CALL_LOT, Push(moves, Push(VPair(VAddr(fa2), batch), rest))) ==
      if !e.entrypoints(fa2, "transfer") then Failed(VStr("Invalid FA2 Address"))
      else Ok(Push(VTransfer(VList([VPair(VAddr(from), moves)]), 0, fa2, "transfer"), rest))
  {
    hide Run, Then, Step, Basic;
    StackMachine(); WorldMachine();
    assert [VPair(VAddr(from), moves)] + [] == [VPair(VAddr(from), moves)];
  }

  lemma {:induction false} DeliveryLoop(e: Env, f: nat, assets: seq<Lot>, done: seq<Op>, from: Account, to: Account)
    ensures var rest := Push(VAddr(from), Push(VAddr(to), Empty));
      MapList(e, f, DELIVER_LOT, EncodeSeq(assets, EncodeLot), EncodeSeq(done, EncodeOp), rest) ==
      if !Deliverable(e, assets) then Failed(VStr("Invalid FA2 Address"))
      else Ok(Push(VList(EncodeSeq(done + Deliveries(assets, from, to), EncodeOp)), rest))
    decreases |assets|
  {
    hide Run, DELIVER_LOT, EncodeLot, EncodeOp, Moves, Deliverable;
    DeliverableTail(e, assets);
    var rest := Push(VAddr(from), Push(VAddr(to), Empty));
    if assets == [] {
      assert done + Deliveries(assets, from, to) == done;
    } else {
      hide Deliveries;
      var op := MoveTokens(assets[0].fa2, from, Moves(assets[0].batch, to));
      EncodeTail(assets, EncodeLot);
      MapCons(e, f, DELIVER_LOT, EncodeSeq(assets, EncodeLot), EncodeSeq(done, EncodeOp), rest);
      DeliverLotRuns(e, f, assets[0], from, to);
      EncodeSnoc(done, op, EncodeOp);
      DeliveryLoop(e, f, assets[1..], done + [op], from, to);
      DeliveriesCons(assets, from, to, done);
    }
  }

  lemma DeliveriesCons(assets: seq<Lot>, from: Account, to: Account, done: seq<Op>)
    requires assets != []
    ensures done + [MoveTokens(assets[0].fa2, from, Moves(assets[0].batch, to))] + Deliveries(assets[1..], from, to)
      == done + Deliveries(assets, from, to)
  {}

  lemma DeliverableTail(e: Env, assets: seq<Lot>)
    ensures Deliverable(e, assets) <==>
      assets == [] || (e.entrypoints(assets[0].fa2, "transfer") && Deliverable(e, assets[1..]))
  {
    if assets == [] { return; }
    assert forall i :: 0 <= i < |assets[1..]| ==> assets[1..][i] == assets[i + 1];
    if e.entrypoints(assets[0].fa2, "transfer") && Deliverable(e, assets[1..]) {
      forall i | 0 <= i < |assets| ensures e.entrypoints(assets[i].fa2, "transfer") {
        if i > 0 { assert assets[i] == assets[1..][i - 1]; }
      }
    }
  }

  function Ops(ops: seq<Op>): Value { VList(EncodeSeq(ops, EncodeOp)) }

  /** Building the operations that deliver the lots of a sale. */
  lemma DeliverRuns(e: Env, f: nat, assets: seq<Lot>, from: Account, to: Account)
    ensures Run(e, f, DELIVER, Push(VPair(VPair(Lots(assets), VAddr(from)), VAddr(to)), Empty)) ==
      if !Deliverable(e, assets) then Failed(VStr("Invalid FA2 Address"))
      else Ok(Push(Ops(Deliveries(assets, from, to)), Empty))
  {
    hide Run, Then, Step, Basic, DELIVER_LOT, Deliverable, Deliveries;
    StackMachine();
    DeliveryLoop(e, f, assets, [], from, to);
    assert [] + Deliveries(assets, from, to) == Deliveries(assets, from, to);
    assert EncodeSeq<Op>([], EncodeOp) == [];
  }

  // ---------------------------------------------------------------- bid

  /** Below the sale and its number: the storage and the helper lambdas still needed. */
  ghost function Bidding(s: Storage, a: Sale, id: nat, helpers: Stack): Stack {
    Push(EncodeSale(a), Push(VInt(id), Push(EncodeStorage(s), helpers)))
  }

  function Message(text: string): Outcome { Failed(VStr(text)) }

  lemma BidFinds(e: Env, f: nat, s: Storage, id: nat)
    requires f > 0
    ensures Run(e, f, BID,
      Push(VInt(id),
      Push(EncodeStorage(s), Push(VLam(ENDED), Push(VLam(PAYEE), Push(VLam(FIND), Push(VLam(CHECK), Empty))))))) ==
      if id !in s.auctions then Message("Auction does not exist for given asset_id")
      else Run(e, f, BID_SOURCE,
        Bidding(s, s.auctions[id], id, Push(VLam(ENDED), Push(VLam(PAYEE), Push(VLam(CHECK), Empty)))))
  {
    hide Run, Then, Step, Basic, Copy, Rest, CHECK, FIND, ENDED, PAYEE, BID_SOURCE, EncodeStorage, EncodeSale;
    StackMachine(); AccessRules();
    FindRuns(e, f - 1, s, id);
  }

  lemma BidSourceRuns(e: Env, f: nat, s: Storage, a: Sale, id: nat)
    requires f > 0
    ensures var helpers := Push(VLam(ENDED), Push(VLam(PAYEE), Push(VLam(CHECK), Empty)));
      Run(e, f, BID_SOURCE, Bidding(s, a, id, helpers)) ==
      if e.sender != e.source then Message("Bidder must be an implicit account")
      else Run(e, f, BID_OPEN, Bidding(s, a, id, helpers))
  {
    hide Run, Then, Step, Basic, CHECK, ENDED, PAYEE, BID_OPEN, EncodeStorage, EncodeSale;
    StackMachine(); DataMachine(); WorldMachine();
    CheckRuns(e, f - 1);
  }

  lemma BidOpenRuns(e: Env, f: nat, s: Storage, a: Sale, id: nat)
    requires f > 0
    ensures Run(e, f, BID_OPEN, Bidding(s, a, id, Push(VLam(ENDED), Push(VLam(PAYEE), Push(VLam(CHECK), Empty))))) ==
      if Ended(a, e.now) || e.now < a.startTime then Message("Auction must be in progress")
      else Run(e, f, BID_SELLER, Bidding(s, a, id, Push(VLam(PAYEE), Push(VLam(CHECK), Empty))))
  {
    hide Run, Then, Step, Basic, Copy, Rest, CHECK, ENDED, PAYEE, BID_SELLER, EncodeStorage, RoundTail, Ended;
    StackMachine(); DataMachine(); WorldMachine(); AccessRules();
    CheckRuns(e, f - 1);
    EndedRuns(e, f - 1, a);
  }

  lemma BidSellerRuns(e: Env, f: nat, s: Storage, a: Sale, id: nat)
    requires f > 0
    ensures Run(e, f, BID_SELLER, Bidding(s, a, id, Push(VLam(PAYEE), Push(VLam(CHECK), Empty)))) ==
      if e.sender == a.seller then Message("Seller cannot place a bid")
      else Run(e, f, BID_FIRST, Bidding(s, a, id, Push(VLam(PAYEE), Empty)))
  {
    hide Run, Then, Step, Basic, Copy, Rest, CHECK, PAYEE, BID_FIRST, EncodeStorage, RoundTail;
    StackMachine(); DataMachine(); WorldMachine(); AccessRules();
    CheckRuns(e, f - 1);
  }

  lemma BidFirstRuns(e: Env, f: nat, s: Storage, a: Sale, id: nat, helpers: Stack)
    ensures Run(e, f, BID_FIRST, Bidding(s, a, id, helpers)) ==
      Run(e, f, BID_RAISE,
        Push(VBool(a.highestBidder == a.seller && e.amount >= a.currentBid), Bidding(s, a, id, helpers)))
  {
    hide Run, Then, Step, Basic, Copy, Rest, BID_RAISE, EncodeStorage, Lots;
    StackMachine(); DataMachine(); WorldMachine(); AccessRules();
  }

  lemma BidRaiseRuns(e: Env, f: nat, s: Storage, a: Sale, id: nat, first: Value, helpers: Stack)
    ensures Run(e, f, BID_RAISE, Push(first, Bidding(s, a, id, helpers))) ==
      if a.currentBid + a.minRaise > MAX_MUTEZ then Overflow
      else Run(e, f, BID_PERCENT,
        Push(VBool(e.amount >= a.currentBid + a.minRaise), Push(first, Bidding(s, a, id, helpers))))
  {
    hide Run, Then, Step, Basic, Copy, Rest, BID_PERCENT, EncodeStorage, Lots;
    StackMachine(); DataMachine(); WorldMachine(); AccessRules();
  }

  lemma BidPercentRuns(e: Env, f: nat, s: Storage, a: Sale, id: nat, second: Value, first: Value, helpers: Stack)
    ensures Run(e, f, BID_PERCENT, Push(second, Push(first, Bidding(s, a, id, helpers)))) ==
      if a.minRaisePercent * a.currentBid > MAX_MUTEZ then Overflow
      else Run(e, f, BID_DECIDE, Push(VMutez(PercentRaise(a)), Push(second, Push(first, Bidding(s, a, id, helpers)))))
  {
    hide Run, Then, Step, Basic, Copy, Rest, BID_DECIDE, EncodeStorage, Lots;
    StackMachine(); DataMachine(); AccessRules();
  }

  lemma BidDecideRuns(e: Env, f: nat, s: Storage, a: Sale, id: nat, second: bool, first: bool, helpers: Stack)
    ensures Run(e, f, BID_DECIDE,
      Push(VMutez(PercentRaise(a)), Push(VBool(second), Push(VBool(first), Bidding(s, a, id, helpers))))) ==
      if a.currentBid + PercentRaise(a) > MAX_MUTEZ then Overflow
      else if !(first || second || e.amount >= a.currentBid + PercentRaise(a)) then Failed(BadBid(e, a))
      else Run(e, f, BID_PAY, Bidding(s, a, id, helpers))
  {
    hide Run, Then, Step, Basic, Copy, Rest, BID_PAY, EncodeStorage, RoundTail, PercentRaise, REFUSE_BID, BadBid;
    StackMachine(); DataMachine(); WorldMachine(); AccessRules();
    RefuseBidRuns(e, f, s, a, id, helpers);
  }

  lemma RefuseBidRuns(e: Env, f: nat, s: Storage, a: Sale, id: nat, helpers: Stack)
    ensures Run(e, f, REFUSE_BID, Bidding(s, a, id, helpers)) == Failed(BadBid(e, a))
  {
    hide Run, Then, Step, Basic, Copy, Rest, EncodeStorage, Lots;
    StackMachine(); WorldMachine(); AccessRules();
  }

  lemma BidPayRuns(e: Env, f: nat, s: Storage, a: Sale, id: nat)
    requires f > 0
    ensures Run(e, f, BID_PAY, Bidding(s, a, id, Push(VLam(PAYEE), Empty))) ==
      if !e.entrypoints(a.highestBidder, "") then Message("Return address does not resolve to contract")
      else Run(e, f, BID_EXTEND, Push(EncodeOp(Pay(a.highestBidder, a.currentBid)), Bidding(s, a, id, Empty)))
  {
    hide Run, Then, Step, Basic, Copy, Rest, BID_EXTEND, EncodeStorage, Lots, PAYEE;
    StackMachine(); WorldMachine(); AccessRules();
    PayeeRuns(e, f - 1, a.highestBidder);
  }

  lemma BidExtendRuns(e: Env, f: nat, s: Storage, a: Sale, id: nat, op: Value)
    ensures Run(e, f, BID_EXTEND, Push(op, Bidding(s, a, id, Empty))) ==
      Run(e, f, BID_RECORD, Push(VInt(WithBid(e, a).endTime), Push(op, Bidding(s, a, id, Empty))))
  {
    hide Run, Then, Step, Basic, Copy, Rest, BID_RECORD, EncodeStorage, Lots;
    StackMachine(); DataMachine(); WorldMachine(); AccessRules();
  }

  /** Record update behind field 9, 2 and 8 of a sale. */
  lemma SaleGrafts(a: Sale, x: Account, t: int)
    ensures Row(EncodeSale(a), 9) && Graft(EncodeSale(a), 9, VAddr(x)) == EncodeSale(a.(highestBidder := x))
    ensures Row(EncodeSale(a), 2)
      && Graft(EncodeSale(a), 2, VPair(VInt(t), RoundTail(a))) == EncodeSale(a.(lastBidTime := t))
    ensures Row(EncodeSale(a), 8) &&
      Graft(EncodeSale(a), 8, VPair(VInt(t), VAddr(a.highestBidder))) == EncodeSale(a.(endTime := t))
  {
    var v := RoundTail(a);
    assert Row(v, 5) && Graft(v, 5, VAddr(x)) == RoundTail(a.(highestBidder := x));
    assert Row(v, 4) && Graft(v, 4, VPair(VInt(t), VAddr(a.highestBidder))) == RoundTail(a.(endTime := t));
    assert EncodeSale(a).snd.snd.snd.snd == v;
  }

  lemma BidRecordRuns(e: Env, f: nat, s: Storage, a: Sale, id: nat, end: Value, op: Value)
    ensures Run(e, f, BID_RECORD, Push(end, Push(op, Bidding(s, a, id, Empty)))) ==
      Run(e, f, BID_TIME, Push(EncodeSale(a.(currentBid := e.amount, highestBidder := e.sender)),
        Push(end, Push(op, Push(VInt(id), Push(EncodeStorage(s), Empty))))))
  {
    hide Run, Then, Step, Basic, Copy, Rest, Rebuild, BID_TIME, EncodeStorage, RoundTail;
    StackMachine(); WorldMachine(); AccessRules();
    var b := a.(currentBid := e.amount);
    SaleGrafts(b, e.sender, 0);
    RebuildGrafts(e, f, 9, BID_TIME, VAddr(e.sender), EncodeSale(b),
      Push(end, Push(op, Push(VInt(id), Push(EncodeStorage(s), Empty)))));
    assert RoundTail(b) == RoundTail(a) by { SameTail(a, b); }
  }

  lemma SameTail(a: Sale, b: Sale)
    requires a == b.(currentBid := a.currentBid, lastBidTime := a.lastBidTime)
    ensures RoundTail(a) == RoundTail(b)
  {}

  lemma BidTimeRuns(e: Env, f: nat, a: Sale, rest: Stack)
    ensures Run(e, f, BID_TIME, Push(EncodeSale(a), rest)) ==
      Run(e, f, BID_END, Push(EncodeSale(a.(lastBidTime := e.now)), rest))
  {
    hide Run, Then, Step, Basic, Copy, Rest, Rebuild, BID_END, RoundTail;
    StackMachine(); WorldMachine(); AccessRules();
    SaleGrafts(a, "", e.now);
    RebuildGrafts(e, f, 2, BID_END, VPair(VInt(e.now), RoundTail(a)), EncodeSale(a), rest);
    hide EncodeSale;
  }

  lemma BidEndRuns(e: Env, f: nat, a: Sale, end: int, rest: Stack)
    ensures Run(e, f, BID_END, Push(EncodeSale(a), Push(VInt(end), rest))) ==
      Run(e, f, BID_STORE, Push(EncodeSale(a.(endTime := end)), rest))
  {
    hide Run, Then, Step, Basic, Copy, Rest, Rebuild, BID_STORE, Lots;
    StackMachine(); AccessRules();
    SaleGrafts(a, "", end);
    RebuildGrafts(e, f, 8, BID_STORE, VPair(VInt(end), VAddr(a.highestBidder)), EncodeSale(a), rest);
    hide EncodeSale;
  }

  lemma BidStoreRuns(e: Env, f: nat, s: Storage, id: nat, a: Sale, op: Value)
    ensures Run(e, f, BID_STORE, Push(EncodeSale(a), Push(op, Push(VInt(id), Push(EncodeStorage(s), Empty))))) ==
      Ok(Push(VPair(VList([op]), EncodeStorage(s.(auctions := s.auctions[id := a]))), Empty))
  {
    hide Run, Then, Step, Basic, Copy, Rest, SalesMap, EncodeSale;
    StackMachine(); DataMachine(); AccessRules();
    SalesAt(s.auctions, id, a);
    assert [op] + [] == [op];
  }

  ghost function EncodeResult(r: Result): Outcome {
    match r
    case Accepted(s, ops) => Ok(Push(VPair(Ops(ops), EncodeStorage(s)), Empty))
    case Refused(why) => why
  }

  lemma BidWrites(e: Env, f: nat, s: Storage, id: nat)
    requires f > 0 && id in s.auctions
    ensures var a := s.auctions[id];
      Run(e, f, BID_PAY, Bidding(s, a, id, Push(VLam(PAYEE), Empty))) ==
      if !e.entrypoints(a.highestBidder, "") then Message("Return address does not resolve to contract")
      else EncodeResult(Accepted(s.(auctions := s.auctions[id := WithBid(e, a)]), [Pay(a.highestBidder, a.currentBid)]))
  {
    hide Run, BID_PAY, BID_EXTEND, BID_RECORD, BID_TIME, BID_END, BID_STORE, EncodeSale, EncodeStorage, PAYEE;
    var a := s.auctions[id];
    var pay := Pay(a.highestBidder, a.currentBid);
    var op := EncodeOp(pay);
    var rest := Push(op, Push(VInt(id), Push(EncodeStorage(s), Empty)));
    var end := WithBid(e, a).endTime;
    var b := a.(currentBid := e.amount, highestBidder := e.sender);
    BidPayRuns(e, f, s, a, id);
    BidExtendRuns(e, f, s, a, id, op);
    BidRecordRuns(e, f, s, a, id, VInt(end), op);
    BidTimeRuns(e, f, b, Push(VInt(end), rest));
    BidEndRuns(e, f, b.(lastBidTime := e.now), end, rest);
    BidStoreRuns(e, f, s, id, WithBid(e, a), op);
    EncodeFew(pay, pay, EncodeOp);
  }

  /** The bid entrypoint: every guard in its order, the refund, the three rebuilt records. */
  lemma BidRefines(e: Env, f: nat, s: Storage, id: nat)
    requires f > 0
    ensures Run(e, f, BID,
      Push(VInt(id),
      Push(EncodeStorage(s), Push(VLam(ENDED), Push(VLam(PAYEE), Push(VLam(FIND), Push(VLam(CHECK), Empty))))))) ==
      EncodeResult(BidOn(e, s, id))
  {
    hide Run, BID, BID_SOURCE, BID_OPEN, BID_SELLER, BID_FIRST, BID_RAISE, BID_PERCENT, BID_DECIDE, BID_PAY, Bidding,
      EncodeStorage, PercentRaise, WithBid, Ended, BadBid, ENDED, PAYEE, FIND, CHECK;
    BidFinds(e, f, s, id);
    if id in s.auctions {
      var a := s.auctions[id];
      var helpers := Push(VLam(PAYEE), Empty);
      var first := a.highestBidder == a.seller && e.amount >= a.currentBid;
      var second := e.amount >= a.currentBid + a.minRaise;
      BidSourceRuns(e, f, s, a, id);
      BidOpenRuns(e, f, s, a, id);
      BidSellerRuns(e, f, s, a, id);
      BidFirstRuns(e, f, s, a, id, helpers);
      BidRaiseRuns(e, f, s, a, id, VBool(first), helpers);
      BidPercentRuns(e, f, s, a, id, VBool(second), VBool(first), helpers);
      BidDecideRuns(e, f, s, a, id, second, first, helpers);
      BidWrites(e, f, s, id);
    }
  }

  // ---------------------------------------------------------------- cancel and resolve

  lemma CancelFinds(e: Env, f: nat, s: Storage, id: nat)
    requires f > 0
    ensures var helpers := Push(VLam(ENDED), Push(VLam(PAYEE), Push(VLam(DELIVER), Push(VLam(CHECK), Empty))));
      Run(e, f, CANCEL, Push(VInt(id), Push(EncodeStorage(s), AllHelpers()))) ==
      if id !in s.auctions then Message("Auction does not exist for given asset_id")
      else Run(e, f, CANCEL_SELLER, Bidding(s, s.auctions[id], id, helpers))
  {
    hide Run, Then, Step, Basic, Copy, Rest, CHECK, DELIVER, FIND, ENDED, PAYEE, CANCEL_SELLER, EncodeStorage,
      EncodeSale;
    StackMachine(); AccessRules();
    FindRuns(e, f - 1, s, id);
  }

  function AllHelpers(): Stack {
    Push(VLam(ENDED), Push(VLam(PAYEE), Push(VLam(FIND), Push(VLam(DELIVER), Push(VLam(CHECK), Empty)))))
  }

  lemma CancelSellerRuns(e: Env, f: nat, s: Storage, a: Sale, id: nat)
    requires f > 0
    ensures var helpers := Push(VLam(ENDED), Push(VLam(PAYEE), Push(VLam(DELIVER), Push(VLam(CHECK), Empty))));
      Run(e, f, CANCEL_SELLER, Bidding(s, a, id, helpers)) ==
      if e.sender != a.seller then Message("Only seller can cancel auction")
      else Run(e, f, CANCEL_OPEN, Bidding(s, a, id, helpers))
  {
    hide Run, Then, Step, Basic, Copy, Rest, CHECK, DELIVER, ENDED, PAYEE, CANCEL_OPEN, EncodeStorage, RoundTail;
    StackMachine(); DataMachine(); WorldMachine(); AccessRules();
    CheckRuns(e, f - 1);
  }

  lemma CancelOpenRuns(e: Env, f: nat, s: Storage, a: Sale, id: nat)
    requires f > 0
    ensures Run(e, f, CANCEL_OPEN,
      Bidding(s, a, id, Push(VLam(ENDED), Push(VLam(PAYEE), Push(VLam(DELIVER), Push(VLam(CHECK), Empty)))))) ==
      if Ended(a, e.now) then Message("Auction must not have ended")
      else Run(e, f, CANCEL_FREE, Bidding(s, a, id, Push(VLam(PAYEE), Push(VLam(DELIVER), Push(VLam(CHECK), Empty)))))
  {
    hide Run, Then, Step, Basic, Copy, Rest, CHECK, DELIVER, ENDED, PAYEE, CANCEL_FREE, EncodeStorage, EncodeSale,
      Ended;
    StackMachine(); DataMachine(); AccessRules();
    CheckRuns(e, f - 1);
    EndedRuns(e, f - 1, a);
  }

  lemma CancelFreeRuns(e: Env, f: nat, s: Storage, a: Sale, id: nat)
    requires f > 0
    ensures Run(e, f, CANCEL_FREE,
      Bidding(s, a, id, Push(VLam(PAYEE), Push(VLam(DELIVER), Push(VLam(CHECK), Empty))))) ==
      if e.amount != 0 then Message("Amount must be 0mutez")
      else Run(e, f, CANCEL_ASSETS, Bidding(s, a, id, Push(VLam(PAYEE), Push(VLam(DELIVER), Empty))))
  {
    hide Run, Then, Step, Basic, CHECK, DELIVER, PAYEE, CANCEL_ASSETS, EncodeStorage, EncodeSale;
    StackMachine(); DataMachine(); WorldMachine();
    CheckRuns(e, f - 1);
  }

  lemma CancelAssetsRuns(e: Env, f: nat, s: Storage, a: Sale, id: nat)
    requires f > 0
    ensures Run(e, f, CANCEL_ASSETS, Bidding(s, a, id, Push(VLam(PAYEE), Push(VLam(DELIVER), Empty)))) ==
      if !Deliverable(e, a.assets) then Message("Invalid FA2 Address")
      else Run(e, f, CANCEL_PAY,
        Push(Ops(Deliveries(a.assets, e.self, a.seller)), Bidding(s, a, id, Push(VLam(PAYEE), Empty))))
  {
    hide Run, Then, Step, Basic, Copy, Rest, DELIVER, PAYEE, CANCEL_PAY, EncodeStorage, Lots, Deliverable, Deliveries;
    StackMachine(); WorldMachine(); AccessRules();
    DeliverRuns(e, f - 1, a.assets, e.self, a.seller);
  }

  lemma CancelPayRuns(e: Env, f: nat, s: Storage, a: Sale, id: nat, ops: Value)
    requires f > 0
    ensures Run(e, f, CANCEL_PAY, Push(ops, Bidding(s, a, id, Push(VLam(PAYEE), Empty)))) ==
      if !e.entrypoints(a.highestBidder, "") then Message("Return address does not resolve to contract")
      else Run(e, f, CLOSE_OUT, Push(VContract(a.highestBidder, ""), Push(ops, Bidding(s, a, id, Empty))))
  {
    hide Run, Then, Step, Basic, Copy, Rest, PAYEE, CLOSE_OUT, EncodeStorage, Lots;
    StackMachine(); AccessRules();
    PayeeRuns(e, f - 1, a.highestBidder);
  }

  lemma CloseOutRuns(e: Env, f: nat, s: Storage, a: Sale, id: nat, payee: Account, ops: seq<Op>)
    ensures Run(e, f, CLOSE_OUT, Push(VContract(payee, ""), Push(Ops(ops), Bidding(s, a, id, Empty)))) ==
      EncodeResult(Accepted(s.(auctions := s.auctions - {id}), [Pay(payee, a.currentBid)] + ops))
  {
    hide Run, Then, Step, Basic, Copy, Rest, SalesMap, RoundTail;
    StackMachine(); DataMachine(); WorldMachine(); AccessRules();
    SalesAt(s.auctions, id, a);
    var pay := Pay(payee, a.currentBid);
    assert EncodeSeq([pay] + ops, EncodeOp) == [EncodeOp(pay)] + EncodeSeq(ops, EncodeOp);
  }

  lemma CancelRefines(e: Env, f: nat, s: Storage, id: nat)
    requires f > 0
    ensures Run(e, f, CANCEL, Push(VInt(id), Push(EncodeStorage(s), AllHelpers()))) == EncodeResult(CancelOf(e, s, id))
  {
    hide Run, CANCEL, CANCEL_SELLER, CANCEL_OPEN, CANCEL_FREE, CANCEL_ASSETS, CANCEL_PAY, CLOSE_OUT, Bidding,
      EncodeStorage, Ended, ENDED, PAYEE, FIND, CHECK, DELIVER, Deliverable, Deliveries, AllHelpers, Ops;
    CancelFinds(e, f, s, id);
    if id in s.auctions {
      var a := s.auctions[id];
      var ops := Deliveries(a.assets, e.self, a.seller);
      CancelSellerRuns(e, f, s, a, id);
      CancelOpenRuns(e, f, s, a, id);
      CancelFreeRuns(e, f, s, a, id);
      CancelAssetsRuns(e, f, s, a, id);
      CancelPayRuns(e, f, s, a, id, Ops(ops));
      CloseOutRuns(e, f, s, a, id, a.highestBidder, ops);
    }
  }

  lemma ResolveFinds(e: Env, f: nat, s: Storage, id: nat)
    requires f > 0
    ensures var helpers := Push(VLam(ENDED), Push(VLam(PAYEE), Push(VLam(DELIVER), Push(VLam(CHECK), Empty))));
      Run(e, f, RESOLVE, Push(VInt(id), Push(EncodeStorage(s), AllHelpers()))) ==
      if id !in s.auctions then Message("Auction does not exist for given asset_id")
      else Run(e, f, RESOLVE_ENDED, Bidding(s, s.auctions[id], id, helpers))
  {
    hide Run, Then, Step, Basic, Copy, Rest, CHECK, DELIVER, FIND, ENDED, PAYEE, RESOLVE_ENDED, EncodeStorage,
      EncodeSale;
    StackMachine(); AccessRules();
    FindRuns(e, f - 1, s, id);
  }

  lemma ResolveEndedRuns(e: Env, f: nat, s: Storage, a: Sale, id: nat)
    requires f > 0
    ensures Run(e, f, RESOLVE_ENDED,
      Bidding(s, a, id, Push(VLam(ENDED), Push(VLam(PAYEE), Push(VLam(DELIVER), Push(VLam(CHECK), Empty)))))) ==
      if !Ended(a, e.now) then Message("Auction must have ended")
      else Run(e, f, RESOLVE_FREE, Bidding(s, a, id, Push(VLam(PAYEE), Push(VLam(DELIVER), Push(VLam(CHECK), Empty)))))
  {
    hide Run, Then, Step, Basic, Copy, Rest, CHECK, DELIVER, ENDED, PAYEE, RESOLVE_FREE, EncodeStorage, EncodeSale,
      Ended;
    StackMachine(); AccessRules();
    CheckRuns(e, f - 1);
    EndedRuns(e, f - 1, a);
  }

  lemma ResolveFreeRuns(e: Env, f: nat, s: Storage, a: Sale, id: nat)
    requires f > 0
    ensures Run(e, f, RESOLVE_FREE,
      Bidding(s, a, id, Push(VLam(PAYEE), Push(VLam(DELIVER), Push(VLam(CHECK), Empty))))) ==
      if e.amount != 0 then Message("Amount must be 0mutez")
      else Run(e, f, RESOLVE_ASSETS, Bidding(s, a, id, Push(VLam(PAYEE), Push(VLam(DELIVER), Empty))))
  {
    hide Run, Then, Step, Basic, CHECK, DELIVER, PAYEE, RESOLVE_ASSETS, EncodeStorage, EncodeSale;
    StackMachine(); DataMachine(); WorldMachine();
    CheckRuns(e, f - 1);
  }

  lemma ResolveAssetsRuns(e: Env, f: nat, s: Storage, a: Sale, id: nat)
    requires f > 0
    ensures Run(e, f, RESOLVE_ASSETS, Bidding(s, a, id, Push(VLam(PAYEE), Push(VLam(DELIVER), Empty)))) ==
      if !Deliverable(e, a.assets) then Message("Invalid FA2 Address")
      else Run(e, f, RESOLVE_PAY,
        Push(Ops(Deliveries(a.assets, e.self, a.highestBidder)), Bidding(s, a, id, Push(VLam(PAYEE), Empty))))
  {
    hide Run, Then, Step, Basic, Copy, Rest, DELIVER, PAYEE, RESOLVE_PAY, EncodeStorage, Lots, Deliverable, Deliveries;
    StackMachine(); WorldMachine(); AccessRules();
    DeliverRuns(e, f - 1, a.assets, e.self, a.highestBidder);
  }

  lemma ResolvePayRuns(e: Env, f: nat, s: Storage, a: Sale, id: nat, ops: Value)
    requires f > 0
    ensures Run(e, f, RESOLVE_PAY, Push(ops, Bidding(s, a, id, Push(VLam(PAYEE), Empty)))) ==
      if !e.entrypoints(a.seller, "") then Message("Return address does not resolve to contract")
      else Run(e, f, CLOSE_OUT, Push(VContract(a.seller, ""), Push(ops, Bidding(s, a, id, Empty))))
  {
    hide Run, Then, Step, Basic, Copy, Rest, PAYEE, CLOSE_OUT, EncodeStorage, RoundTail;
    StackMachine(); AccessRules();
    PayeeRuns(e, f - 1, a.seller);
  }

  lemma ResolveRefines(e: Env, f: nat, s: Storage, id: nat)
    requires f > 0
    ensures Run(e, f, RESOLVE, Push(VInt(id), Push(EncodeStorage(s), AllHelpers()))) ==
      EncodeResult(ResolveOf(e, s, id))
  {
    hide Run, RESOLVE, RESOLVE_ENDED, RESOLVE_FREE, RESOLVE_ASSETS, RESOLVE_PAY, CLOSE_OUT, Bidding, EncodeStorage,
      Ended, ENDED, PAYEE, FIND, CHECK, DELIVER, Deliverable, Deliveries, AllHelpers, Ops;
    ResolveFinds(e, f, s, id);
    if id in s.auctions {
      var a := s.auctions[id];
      var ops := Deliveries(a.assets, e.self, a.highestBidder);
      ResolveEndedRuns(e, f, s, a, id);
      ResolveFreeRuns(e, f, s, a, id);
      ResolveAssetsRuns(e, f, s, a, id);
      ResolvePayRuns(e, f, s, a, id, Ops(ops));
      CloseOutRuns(e, f, s, a, id, a.seller, ops);
    }
  }

  // ---------------------------------------------------------------- configure

  /** The stack while the configuration is checked. */
  ghost function Configuring(e: Env, s: Storage, c: Config, check: Stack): Stack {
    Push(EncodeConfig(c),
      Push(VAddr(e.sender), Push(EncodeStorage(s), Push(EncodeConfig(c), Push(VLam(DELIVER), check)))))
  }

  function Checking(): Stack { Push(VLam(CHECK), Empty) }

  lemma ConfigureStarts(e: Env, f: nat, s: Storage, c: Config)
    ensures Run(e, f, CONFIGURE, Push(EncodeConfig(c), Push(EncodeStorage(s), AllHelpers()))) ==
      Run(e, f, CONFIGURE_ORDER, Configuring(e, s, c, Checking()))
  {
    hide Run, Then, Step, Basic, CONFIGURE_ORDER, EncodeStorage, EncodeConfig, CHECK, DELIVER;
    StackMachine(); WorldMachine();
  }

  lemma OrderRuns(e: Env, f: nat, s: Storage, c: Config)
    requires f > 0
    ensures Run(e, f, CONFIGURE_ORDER, Configuring(e, s, c, Checking())) ==
      if c.endTime <= c.startTime then Message("end_time must be after start_time")
      else Run(e, f, CONFIGURE_LENGTH, Configuring(e, s, c, Checking()))
  {
    hide Run, Then, Step, Basic, Copy, Rest, CONFIGURE_LENGTH, EncodeStorage, Lots, CHECK, DELIVER;
    StackMachine(); DataMachine(); AccessRules();
    CheckRuns(e, f - 1);
  }

  lemma LengthRuns(e: Env, f: nat, s: Storage, c: Config)
    requires f > 0
    ensures Run(e, f, CONFIGURE_LENGTH, Configuring(e, s, c, Checking())) ==
      if Distance(c.endTime, c.startTime) > s.maxAuctionTime then
        Message("Auction time must be less than max_auction_time")
      else Run(e, f, CONFIGURE_PAST, Configuring(e, s, c, Checking()))
  {
    hide Run, Then, Step, Basic, Copy, Rest, CONFIGURE_PAST, SalesMap, Lots, CHECK, DELIVER;
    StackMachine(); DataMachine(); AccessRules();
    CheckRuns(e, f - 1);
  }

  lemma PastRuns(e: Env, f: nat, s: Storage, c: Config)
    requires f > 0
    ensures Run(e, f, CONFIGURE_PAST, Configuring(e, s, c, Checking())) ==
      if c.startTime < e.now then Message("Start_time must not have already passed")
      else Run(e, f, CONFIGURE_SOON, Configuring(e, s, c, Checking()))
  {
    hide Run, Then, Step, Basic, Copy, Rest, CONFIGURE_SOON, EncodeStorage, Lots, CHECK, DELIVER;
    StackMachine(); DataMachine(); WorldMachine(); AccessRules();
    CheckRuns(e, f - 1);
  }

  lemma SoonRuns(e: Env, f: nat, s: Storage, c: Config)
    requires f > 0
    ensures Run(e, f, CONFIGURE_SOON, Configuring(e, s, c, Checking())) ==
      if Distance(c.startTime, e.now) > s.maxConfigToStart then
        Message("start_time must not be greater than the sum of current time and max_config_to_start_time")
      else Run(e, f, CONFIGURE_PRICE, Configuring(e, s, c, Checking()))
  {
    hide Run, Then, Step, Basic, Copy, Rest, CONFIGURE_PRICE, SalesMap, Lots, CHECK, DELIVER;
    StackMachine(); DataMachine(); WorldMachine(); AccessRules();
    CheckRuns(e, f - 1);
  }

  lemma PriceRuns(e: Env, f: nat, s: Storage, c: Config)
    requires f > 0
    ensures Run(e, f, CONFIGURE_PRICE, Configuring(e, s, c, Checking())) ==
      if c.openingPrice == 0 then Message("Opening price must be greater than 0mutez")
      else Run(e, f, CONFIGURE_AMOUNT, Configuring(e, s, c, Checking()))
  {
    hide Run, Then, Step, Basic, CONFIGURE_AMOUNT, EncodeStorage, Lots, CHECK, DELIVER;
    StackMachine(); DataMachine();
    CheckRuns(e, f - 1);
  }

  lemma AmountRuns(e: Env, f: nat, s: Storage, c: Config)
    requires f > 0
    ensures Run(e, f, CONFIGURE_AMOUNT, Configuring(e, s, c, Checking())) ==
      if e.amount != c.openingPrice then Message("Amount must be equal to opening_price")
      else Run(e, f, CONFIGURE_ROUND, Configuring(e, s, c, Checking()))
  {
    hide Run, Then, Step, Basic, Copy, Rest, CONFIGURE_ROUND, EncodeStorage, Lots, CHECK, DELIVER;
    StackMachine(); DataMachine(); WorldMachine(); AccessRules();
    CheckRuns(e, f - 1);
  }

  lemma RoundRuns(e: Env, f: nat, s: Storage, c: Config)
    requires f > 0
    ensures Run(e, f, CONFIGURE_ROUND, Configuring(e, s, c, Checking())) ==
      if c.roundTime == 0 then Message("Round_time must be greater than 0 seconds")
      else Run(e, f, CONFIGURE_BUILD, Configuring(e, s, c, Empty))
  {
    hide Run, Then, Step, Basic, Copy, Rest, CONFIGURE_BUILD, EncodeStorage, Lots, CHECK, DELIVER;
    StackMachine(); DataMachine(); AccessRules();
    CheckRuns(e, f - 1);
  }

  lemma BuildRuns(e: Env, f: nat, s: Storage, c: Config)
    ensures Run(e, f, CONFIGURE_BUILD, Configuring(e, s, c, Empty)) ==
      Run(e, f, CONFIGURE_RECORD, Push(VPair(Lots(c.assets), RaiseTail(Opened(e, c))),
        Push(VMap(SalesMap(s.auctions)), Configuring(e, s, c, Empty))))
  {
    hide Run, Then, Step, Basic, Copy, Rest, CONFIGURE_RECORD, SalesMap, Lots, DELIVER;
    StackMachine(); AccessRules();
  }

  lemma RecordRuns(e: Env, f: nat, s: Storage, c: Config)
    ensures Run(e, f, CONFIGURE_RECORD, Push(VPair(Lots(c.assets), RaiseTail(Opened(e, c))),
        Push(VMap(SalesMap(s.auctions)), Configuring(e, s, c, Empty)))) ==
      Run(e, f, CONFIGURE_STORE, Push(EncodeSale(Opened(e, c)), Push(VMap(SalesMap(s.auctions)),
        Push(EncodeStorage(s), Push(EncodeConfig(c), Push(VLam(DELIVER), Empty))))))
  {
    hide Run, Then, Step, Basic, Copy, Rest, CONFIGURE_STORE, SalesMap, EncodeStorage, Lots, RaiseTail, DELIVER;
    StackMachine(); DataMachine(); AccessRules();
  }

  lemma StoreRuns(e: Env, f: nat, s: Storage, c: Config)
    ensures Run(e, f, CONFIGURE_STORE, Push(EncodeSale(Opened(e, c)), Push(VMap(SalesMap(s.auctions)),
        Push(EncodeStorage(s), Push(EncodeConfig(c), Push(VLam(DELIVER), Empty)))))) ==
      Run(e, f, CONFIGURE_COUNT, Push(EncodeStorage(s.(auctions := s.auctions[s.currentId := Opened(e, c)])),
        Push(EncodeStorage(s), Push(EncodeConfig(c), Push(VLam(DELIVER), Empty)))))
  {
    hide Run, Then, Step, Basic, Copy, Rest, CONFIGURE_COUNT, SalesMap, EncodeSale, EncodeConfig, DELIVER;
    StackMachine(); DataMachine(); AccessRules();
    SalesAt(s.auctions, s.currentId, Opened(e, c));
  }

  lemma CountRuns(e: Env, f: nat, s: Storage, t: Storage, c: Config)
    requires t == s.(auctions := t.auctions)
    ensures Run(e, f, CONFIGURE_COUNT,
      Push(EncodeStorage(t), Push(EncodeStorage(s), Push(EncodeConfig(c), Push(VLam(DELIVER), Empty))))) ==
      Run(e, f, CONFIGURE_DELIVER,
        Push(EncodeStorage(t.(currentId := s.currentId + 1)), Push(EncodeConfig(c), Push(VLam(DELIVER), Empty))))
  {
    hide Run, Then, Step, Basic, Copy, Rest, CONFIGURE_DELIVER, SalesMap, EncodeConfig, DELIVER;
    StackMachine(); DataMachine(); AccessRules();
  }

  lemma ConfigureDelivers(e: Env, f: nat, t: Storage, c: Config)
    requires f > 0
    ensures Run(e, f, CONFIGURE_DELIVER, Push(EncodeStorage(t), Push(EncodeConfig(c), Push(VLam(DELIVER), Empty)))) ==
      if !Deliverable(e, c.assets) then Message("Invalid FA2 Address")
      else EncodeResult(Accepted(t, Deliveries(c.assets, e.sender, e.self)))
  {
    hide Run, Then, Step, Basic, Copy, Rest, EncodeStorage, Lots, DELIVER, Deliverable, Deliveries;
    StackMachine(); WorldMachine(); AccessRules();
    DeliverRuns(e, f - 1, c.assets, e.sender, e.self);
  }

  lemma ConfigureChecks(e: Env, f: nat, s: Storage, c: Config)
    requires f > 0
    ensures var r := ConfigureWith(e, s, c);
      Run(e, f, CONFIGURE, Push(EncodeConfig(c), Push(EncodeStorage(s), AllHelpers()))) ==
      if r.Refused? && Deliverable(e, c.assets) then r.why
      else if r.Refused? && r.why != Message("Invalid FA2 Address") then r.why
      else Run(e, f, CONFIGURE_BUILD, Configuring(e, s, c, Empty))
  {
    hide Run, CONFIGURE, CONFIGURE_ORDER, CONFIGURE_LENGTH, CONFIGURE_PAST, CONFIGURE_SOON, CONFIGURE_PRICE,
      CONFIGURE_AMOUNT, CONFIGURE_ROUND, CONFIGURE_BUILD, Configuring, Checking, EncodeStorage, EncodeConfig,
      AllHelpers, Distance, Deliverable;
    ConfigureStarts(e, f, s, c);
    OrderRuns(e, f, s, c);
    LengthRuns(e, f, s, c);
    PastRuns(e, f, s, c);
    SoonRuns(e, f, s, c);
    PriceRuns(e, f, s, c);
    AmountRuns(e, f, s, c);
    RoundRuns(e, f, s, c);
  }

  lemma ConfigureRefines(e: Env, f: nat, s: Storage, c: Config)
    requires f > 0
    ensures Run(e, f, CONFIGURE, Push(EncodeConfig(c), Push(EncodeStorage(s), AllHelpers()))) ==
      EncodeResult(ConfigureWith(e, s, c))
  {
    hide Run, CONFIGURE, CONFIGURE_BUILD, CONFIGURE_RECORD, CONFIGURE_STORE, CONFIGURE_COUNT, CONFIGURE_DELIVER,
      Configuring, EncodeStorage, EncodeConfig, EncodeSale, AllHelpers, Distance, Deliverable, Deliveries, Opened,
      SalesMap, Ops, Lots, DELIVER;
    ConfigureChecks(e, f, s, c);
    BuildRuns(e, f, s, c);
    RecordRuns(e, f, s, c);
    StoreRuns(e, f, s, c);
    var t := s.(auctions := s.auctions[s.currentId := Opened(e, c)]);
    CountRuns(e, f, s, t, c);
    ConfigureDelivers(e, f, t.(currentId := s.currentId + 1), c);
  }

  // ---------------------------------------------------------------- the whole script

  function EncodeCall(call: Call): Value {
    match call
    case Bid(id) => VLeft(VLeft(VRight(VInt(id))))
    case Cancel(id) => VLeft(VRight(VLeft(VInt(id))))
    case Resolve(id) => VLeft(VRight(VRight(VInt(id))))
    case Configure(c) => VRight(EncodeConfig(c))
  }

  lemma AuctionEnters(e: Env, f: nat, arg: Value, storage: Value)
    ensures Run(e, f, AUCTION, Push(VPair(arg, storage), Empty)) ==
      Run(e, f, ENTRYPOINTS, Push(arg, Push(storage, AllHelpers())))
  {
    hide Run, Then, Step, Basic, ENTRYPOINTS, CHECK, FIND, ENDED, PAYEE, DELIVER;
    StackMachine();
  }

  /** The whole script computes the specification, for every call, storage and moment. Its EXECs do
      not nest, so fuel 1 is enough. */
  lemma AuctionRefines(e: Env, f: nat, s: Storage, call: Call)
    requires f > 0
    ensures Run(e, f, AUCTION, Push(VPair(EncodeCall(call), EncodeStorage(s)), Empty)) ==
      EncodeResult(Called(e, s, call))
  {
    hide Run, Then, Step, Basic, AUCTION, BID, CANCEL, RESOLVE, CONFIGURE, ADMIN, CHECK, FIND, ENDED, PAYEE, DELIVER,
      EncodeStorage, EncodeConfig, BidOn, CancelOf, ResolveOf, ConfigureWith, Ops;
    StackMachine();
    AuctionEnters(e, f, EncodeCall(call), EncodeStorage(s));
    match call
    case Bid(id) => BidRefines(e, f, s, id);
    case Cancel(id) => CancelRefines(e, f, s, id);
    case Resolve(id) => ResolveRefines(e, f, s, id);
    case Configure(c) => ConfigureRefines(e, f, s, c);
  }
}
