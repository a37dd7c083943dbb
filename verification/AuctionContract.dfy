/** The auction house as the contract works: the sales of a big map, rewritten one at a time. A
    failing call reverts, so each method writes its fields only once nothing can fail any more. */
module AuctionContract {
  import opened Michelson
  import opened Contracts
  import opened Auction
  import opened Runs
  import AuctionRuns

  type Reply = Contracts.Reply<seq<Op>>

  class AuctionHouse {
    const maxAuctionTime: nat
    const maxConfigToStart: nat
    var currentId: nat
    var auctions: map<nat, Sale>

    function State(): (s: Storage)
      reads this
    {
      Storage(currentId, maxAuctionTime, maxConfigToStart, auctions)
    }

    constructor (s: Storage)
      ensures State() == s
    {
      maxAuctionTime, maxConfigToStart, currentId, auctions :=
        s.maxAuctionTime, s.maxConfigToStart, s.currentId, s.auctions;
    }

    /** The inner loop: the tokens of one lot, each moved to `to`. */
    method MoveBatch(batch: seq<(nat, nat)>, to: Account) returns (moves: seq<Move>)
      ensures moves == Moves(batch, to)
    {
      moves := [];
      for k := 0 to |batch|
        invariant moves + Moves(batch[k..], to) == Moves(batch, to)
      {
        moves := moves + [Move(to, batch[k].0, batch[k].1)];
      }
      assert batch[|batch|..] == [];
    }

    /** The outer loop: one transfer call a lot. */
    method Deliver(e: Env, assets: seq<Lot>, from: Account, to: Account) returns (ok: bool, ops: seq<Op>)
      ensures ok <==> Deliverable(e, assets)
      ensures ok ==> ops == Deliveries(assets, from, to)
    {
      ops := [];
      for i := 0 to |assets|
        invariant forall j :: 0 <= j < i ==> e.entrypoints(assets[j].fa2, "transfer")
        invariant ops + Deliveries(assets[i..], from, to) == Deliveries(assets, from, to)
      {
        var moves := MoveBatch(assets[i].batch, to);
        if !e.entrypoints(assets[i].fa2, "transfer") { return false, []; }
        ops := ops + [MoveTokens(assets[i].fa2, from, moves)];
      }
      assert assets[|assets|..] == [];
      return true, ops;
    }

    method Bid(e: Env, id: nat) returns (reply: Reply)
      modifies this
      ensures Follows(old(State()), BidOn(e, old(State()), id), State(), reply)
    {
      if id !in auctions { return Failing("Auction does not exist for given asset_id"); }
      var a := auctions[id];
      if e.sender != e.source { return Failing("Bidder must be an implicit account"); }
      var ended := e.now > a.lastBidTime + a.roundTime || e.now >= a.endTime;
      if ended || e.now < a.startTime { return Failing("Auction must be in progress"); }
      if e.sender == a.seller { return Failing("Seller cannot place a bid"); }
      var high := a.highestBidder == a.seller && e.amount >= a.currentBid;
      if a.currentBid + a.minRaise > MAX_MUTEZ { return Reverted(Overflow); }
      high := high || e.amount >= a.currentBid + a.minRaise;
      var product := a.minRaisePercent * a.currentBid;
      if product > MAX_MUTEZ { return Reverted(Overflow); }
      var raise := product / 100;
      if product % 100 > 0 { raise := raise + 1; }
      if a.currentBid + raise > MAX_MUTEZ { return Reverted(Overflow); }
      high := high || e.amount >= a.currentBid + raise;
      if !high { return Reverted(Failed(BadBid(e, a))); }
      if !e.entrypoints(a.highestBidder, "") { return Failing("Return address does not resolve to contract"); }
      var endTime := a.endTime;
      if a.endTime - e.now <= a.extendTime { endTime := e.now + a.extendTime; }
      auctions :=
        auctions[id := a.(currentBid := e.amount, highestBidder := e.sender, lastBidTime := e.now, endTime := endTime)];
      return Emitted([Pay(a.highestBidder, a.currentBid)]);
    }

    /** What cancel and resolve have in common once their own checks are done. */
    method CloseOut(e: Env, id: nat, winner: Account, payee: Account) returns (reply: Reply)
      requires id in auctions
      modifies this
      ensures Follows(old(State()), Close(e, old(State()), id, winner, payee), State(), reply)
    {
      var a := auctions[id];
      if e.amount != 0 { return Failing("Amount must be 0mutez"); }
      var ok, ops := Deliver(e, a.assets, e.self, winner);
      if !ok { return Failing("Invalid FA2 Address"); }
      if !e.entrypoints(payee, "") { return Failing("Return address does not resolve to contract"); }
      auctions := auctions - {id};
      return Emitted([Pay(payee, a.currentBid)] + ops);
    }

    method Cancel(e: Env, id: nat) returns (reply: Reply)
      modifies this
      ensures Follows(old(State()), CancelOf(e, old(State()), id), State(), reply)
    {
      if id !in auctions { return Failing("Auction does not exist for given asset_id"); }
      var a := auctions[id];
      if e.sender != a.seller { return Failing("Only seller can cancel auction"); }
      if Ended(a, e.now) { return Failing("Auction must not have ended"); }
      reply := CloseOut(e, id, a.seller, a.highestBidder);
    }

    method Resolve(e: Env, id: nat) returns (reply: Reply)
      modifies this
      ensures Follows(old(State()), ResolveOf(e, old(State()), id), State(), reply)
    {
      if id !in auctions { return Failing("Auction does not exist for given asset_id"); }
      var a := auctions[id];
      if !Ended(a, e.now) { return Failing("Auction must have ended"); }
      reply := CloseOut(e, id, a.highestBidder, a.seller);
    }

    method Configure(e: Env, c: Config) returns (reply: Reply)
      modifies this
      ensures Follows(old(State()), ConfigureWith(e, old(State()), c), State(), reply)
    {
      hide Deliveries, Deliverable, Opened, Distance;
      if c.endTime <= c.startTime { return Failing("end_time must be after start_time"); }
      if Distance(c.endTime, c.startTime) > maxAuctionTime {
        return Failing("Auction time must be less than max_auction_time");
      }
      if c.startTime < e.now { return Failing("Start_time must not have already passed"); }
      if Distance(c.startTime, e.now) > maxConfigToStart {
        return Failing("start_time must not be greater than the sum of current time and max_config_to_start_time");
      }
      if c.openingPrice == 0 { return Failing("Opening price must be greater than 0mutez"); }
      if e.amount != c.openingPrice { return Failing("Amount must be equal to opening_price"); }
      if c.roundTime == 0 { return Failing("Round_time must be greater than 0 seconds"); }
      var ok, ops := Deliver(e, c.assets, e.sender, e.self);
      if !ok { return Failing("Invalid FA2 Address"); }
      auctions := auctions[currentId := Opened(e, c)];
      currentId := currentId + 1;
      return Emitted(ops);
    }

    /** A whole run of calls; `balance` follows the tez attached and paid out, and keeps its surplus
        over the bids of the live auctions. */
    method Serve(run: seq<AuctionRuns.Step>, before: int) returns (balance: int)
      modifies this
      ensures AuctionRuns.House(State(), balance) ==
        After(AuctionRuns.Stepped, AuctionRuns.House(old(State()), before), run)
      ensures AuctionRuns.Numbered(old(State())) ==>
        AuctionRuns.Numbered(State()) &&
        balance - AuctionRuns.Escrow(State()) == before - AuctionRuns.Escrow(old(State()))
    {
      hide BidOn, CancelOf, ResolveOf, ConfigureWith, AuctionRuns.Escrow, AuctionRuns.Numbered, AuctionRuns.Paid;
      balance := before;
      ghost var start := AuctionRuns.House(State(), before);
      for i := 0 to |run|
        invariant After(AuctionRuns.Stepped, start, run) ==
          After(AuctionRuns.Stepped, AuctionRuns.House(State(), balance), run[i..])
      {
        AfterRest(AuctionRuns.Stepped, AuctionRuns.House(State(), balance), run, i);
        var (e, call) := run[i];
        var reply;
        match call {
          case Bid(id) => reply := Bid(e, id);
          case Cancel(id) => reply := Cancel(e, id);
          case Resolve(id) => reply := Resolve(e, id);
          case Configure(c) => reply := Configure(e, c);
        }
        if reply.Emitted? { balance := balance + e.amount - AuctionRuns.Paid(reply.ops); }
      }
      if AuctionRuns.Numbered(start.storage) { AuctionRuns.Solvency(start, run); }
    }
  }
}
