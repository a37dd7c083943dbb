/** English auction house: many auctions at once, tez and FA2 tokens held in escrow. */
module Auction {
  import opened Michelson
  import opened Contracts

  /** Tokens of one FA2 contract: (token id, amount) pairs. */
  datatype Lot = Lot(fa2: Account, batch: seq<(nat, nat)>)

  datatype Sale = Sale(
    seller: Account, currentBid: nat, startTime: int, lastBidTime: int, roundTime: int, extendTime: int,
    assets: seq<Lot>, minRaisePercent: nat, minRaise: nat, endTime: int, highestBidder: Account)

  datatype Storage = Storage(
    currentId: nat, maxAuctionTime: nat, maxConfigToStart: nat, auctions: map<nat, Sale>)

  datatype Config = Config(
    openingPrice: nat, minRaisePercent: nat, minRaise: nat, roundTime: nat, extendTime: nat,
    assets: seq<Lot>, startTime: int, endTime: int)

  datatype Move = Move(to: Account, token: nat, amount: nat)

  datatype Op = Pay(to: Account, tez: nat) | MoveTokens(fa2: Account, from: Account, moves: seq<Move>)

  datatype Call = Bid(id: nat) | Cancel(id: nat) | Resolve(id: nat) | Configure(config: Config)

  type Result = Answer<Storage, seq<Op>>

  // ---------------------------------------------------------------- helper lambdas

  function Moves(batch: seq<(nat, nat)>, to: Account): seq<Move> {
    if batch == [] then [] else [Move(to, batch[0].0, batch[0].1)] + Moves(batch[1..], to)
  }

  function Deliveries(assets: seq<Lot>, from: Account, to: Account): seq<Op> {
    if assets == [] then []
    else [MoveTokens(assets[0].fa2, from, Moves(assets[0].batch, to))] + Deliveries(assets[1..], from, to)
  }

  predicate Deliverable(e: Env, assets: seq<Lot>) {
    forall i | 0 <= i < |assets| :: e.entrypoints(assets[i].fa2, "transfer")
  }

  predicate Ended(a: Sale, now: int) {
    now > a.lastBidTime + a.roundTime || now >= a.endTime
  }

  // ---------------------------------------------------------------- entrypoints

  /** The percentage raise in mutez, rounded up. */
  function PercentRaise(a: Sale): nat {
    var product := a.minRaisePercent * a.currentBid;
    product / 100 + if product % 100 > 0 then 1 else 0
  }

  predicate BidOverflows(a: Sale) {
    || a.currentBid + a.minRaise > MAX_MUTEZ
    || a.minRaisePercent * a.currentBid > MAX_MUTEZ
    || a.currentBid + PercentRaise(a) > MAX_MUTEZ
  }

  predicate HighEnough(a: Sale, bid: nat) {
    || (a.highestBidder == a.seller && bid >= a.currentBid)
    || bid >= a.currentBid + a.minRaise
    || bid >= a.currentBid + PercentRaise(a)
  }

  function BadBid(e: Env, a: Sale): Value {
    VPair(VStr("Invalid Bid amount"),
      VPair(VPair(VPair(VMutez(a.currentBid), VMutez(e.amount)), VPair(VAddr(a.highestBidder), VInt(a.lastBidTime))),
        VInt(e.now)))
  }

  function WithBid(e: Env, a: Sale): Sale {
    a.(currentBid := e.amount, highestBidder := e.sender, lastBidTime := e.now,
       endTime := if a.endTime - e.now <= a.extendTime then e.now + a.extendTime else a.endTime)
  }

  function BidOn(e: Env, s: Storage, id: nat): (r: Result)
    ensures r.Refused? ==> !r.why.Ok?
  {
    if id !in s.auctions then Fail("Auction does not exist for given asset_id")
    else
      var a := s.auctions[id];
      if e.sender != e.source then Fail("Bidder must be an implicit account")
      else if Ended(a, e.now) || e.now < a.startTime then Fail("Auction must be in progress")
      else if e.sender == a.seller then Fail("Seller cannot place a bid")
      else if BidOverflows(a) then Refused(Overflow)
      else if !HighEnough(a, e.amount) then Refused(Failed(BadBid(e, a)))
      else if !e.entrypoints(a.highestBidder, "") then Fail("Return address does not resolve to contract")
      else Accepted(s.(auctions := s.auctions[id := WithBid(e, a)]), [Pay(a.highestBidder, a.currentBid)])
  }

  /** Close auction id: its assets go to `winner`, the escrowed bid to `payee`. */
  function Close(e: Env, s: Storage, id: nat, winner: Account, payee: Account): (r: Result)
    requires id in s.auctions
    ensures r.Refused? ==> !r.why.Ok?
  {
    var a := s.auctions[id];
    if e.amount != 0 then Fail("Amount must be 0mutez")
    else if !Deliverable(e, a.assets) then Fail("Invalid FA2 Address")
    else if !e.entrypoints(payee, "") then Fail("Return address does not resolve to contract")
    else Accepted(s.(auctions := s.auctions - {id}), [Pay(payee, a.currentBid)] + Deliveries(a.assets, e.self, winner))
  }

  function CancelOf(e: Env, s: Storage, id: nat): (r: Result)
    ensures r.Refused? ==> !r.why.Ok?
  {
    if id !in s.auctions then Fail("Auction does not exist for given asset_id")
    else
      var a := s.auctions[id];
      if e.sender != a.seller then Fail("Only seller can cancel auction")
      else if Ended(a, e.now) then Fail("Auction must not have ended")
      else Close(e, s, id, a.seller, a.highestBidder)
  }

  function ResolveOf(e: Env, s: Storage, id: nat): (r: Result)
    ensures r.Refused? ==> !r.why.Ok?
  {
    if id !in s.auctions then Fail("Auction does not exist for given asset_id")
    else
      var a := s.auctions[id];
      if !Ended(a, e.now) then Fail("Auction must have ended")
      else Close(e, s, id, a.highestBidder, a.seller)
  }

  function Opened(e: Env, c: Config): Sale {
    Sale(e.sender, c.openingPrice, c.startTime, c.startTime, c.roundTime, c.extendTime,
         c.assets, c.minRaisePercent, c.minRaise, c.endTime, e.sender)
  }

  function Distance(x: int, y: int): nat { if x < y then y - x else x - y }

  function ConfigureWith(e: Env, s: Storage, c: Config): (r: Result)
    ensures r.Refused? ==> !r.why.Ok?
  {
    if c.endTime <= c.startTime then Fail("end_time must be after start_time")
    else if Distance(c.endTime, c.startTime) > s.maxAuctionTime then
      Fail("Auction time must be less than max_auction_time")
    else if c.startTime < e.now then Fail("Start_time must not have already passed")
    else if Distance(c.startTime, e.now) > s.maxConfigToStart then
      Fail("start_time must not be greater than the sum of current time and max_config_to_start_time")
    else if c.openingPrice == 0 then Fail("Opening price must be greater than 0mutez")
    else if e.amount != c.openingPrice then Fail("Amount must be equal to opening_price")
    else if c.roundTime == 0 then Fail("Round_time must be greater than 0 seconds")
    else if !Deliverable(e, c.assets) then Fail("Invalid FA2 Address")
    else Accepted(s.(currentId := s.currentId + 1, auctions := s.auctions[s.currentId := Opened(e, c)]),
                  Deliveries(c.assets, e.sender, e.self))
  }

  function Called(e: Env, s: Storage, call: Call): (r: Result)
    ensures r.Refused? ==> !r.why.Ok?
  {
    match call
    case Bid(id) => BidOn(e, s, id)
    case Cancel(id) => CancelOf(e, s, id)
    case Resolve(id) => ResolveOf(e, s, id)
    case Configure(c) => ConfigureWith(e, s, c)
  }
}
