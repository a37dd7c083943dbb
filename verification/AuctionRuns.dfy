/** What every run of the auction house keeps, for any number of auctions and callers. */
module AuctionRuns {
  import opened Michelson
  import opened Contracts
  import opened Auction
  import opened Sums
  import opened Runs

  /** Storage and tez balance; transfers are debited in the step that emits them. */
  datatype House = House(storage: Storage, balance: int)

  type Step = (Env, Call)

  function Paid(ops: seq<Op>): nat {
    if ops == [] then 0 else (if ops[0].Pay? then ops[0].tez else 0) + Paid(ops[1..])
  }

  /** A refused call leaves everything as it was, the attached tez included. */
  function Stepped(h: House, c: Step): House {
    match Called(c.0, h.storage, c.1)
    case Accepted(s, ops) => House(s, h.balance + c.0.amount - Paid(ops))
    case Refused(_) => h
  }

  predicate Accepts(h: House, c: Step) { Called(c.0, h.storage, c.1).Accepted? }

  predicate Anything(c: Step) { true }

  // What an accepted call did, kind by kind.

  lemma BidEffect(e: Env, s: Storage, id: nat)
    requires BidOn(e, s, id).Accepted?
    ensures id in s.auctions
    ensures var a := s.auctions[id];
      && BidOn(e, s, id) ==
        Accepted(s.(auctions := s.auctions[id := WithBid(e, a)]), [Pay(a.highestBidder, a.currentBid)])
      && !Ended(a, e.now) && e.sender != a.seller && HighEnough(a, e.amount)
  {}

  lemma CancelEffect(e: Env, s: Storage, id: nat)
    requires CancelOf(e, s, id).Accepted?
    ensures id in s.auctions
    ensures var a := s.auctions[id]; Closed(e, s, id, CancelOf(e, s, id), a.seller, a.highestBidder) && !Ended(a, e.now)
  {}

  lemma ResolveEffect(e: Env, s: Storage, id: nat)
    requires ResolveOf(e, s, id).Accepted?
    ensures id in s.auctions
    ensures var a := s.auctions[id]; Closed(e, s, id, ResolveOf(e, s, id), a.highestBidder, a.seller) && Ended(a, e.now)
  {}

  lemma ConfigureEffect(e: Env, s: Storage, c: Config)
    requires ConfigureWith(e, s, c).Accepted?
    ensures e.amount == c.openingPrice && ConfigureWith(e, s, c) ==
      Accepted(s.(currentId := s.currentId + 1, auctions := s.auctions[s.currentId := Opened(e, c)]),
               Deliveries(c.assets, e.sender, e.self))
  {}

  lemma Effect(e: Env, s: Storage, call: Call)
    requires Called(e, s, call).Accepted?
    ensures match call
      case Bid(id) =>
        && BidOn(e, s, id).Accepted? && id in s.auctions
        && Called(e, s, call) == Accepted(s.(auctions := s.auctions[id := WithBid(e, s.auctions[id])]),
             [Pay(s.auctions[id].highestBidder, s.auctions[id].currentBid)])
      case Cancel(id) => id in s.auctions &&
        Closed(e, s, id, Called(e, s, call), s.auctions[id].seller, s.auctions[id].highestBidder)
      case Resolve(id) => id in s.auctions &&
        Closed(e, s, id, Called(e, s, call), s.auctions[id].highestBidder, s.auctions[id].seller)
      case Configure(c) =>
        && e.amount == c.openingPrice
        && Called(e, s, call) == Accepted(
             s.(currentId := s.currentId + 1, auctions := s.auctions[s.currentId := Opened(e, c)]),
             Deliveries(c.assets, e.sender, e.self))
  {
    hide BidOn, CancelOf, ResolveOf, ConfigureWith, WithBid, Opened, Closed;
    match call
    case Bid(id) => BidEffect(e, s, id);
    case Cancel(id) => CancelEffect(e, s, id);
    case Resolve(id) => ResolveEffect(e, s, id);
    case Configure(c) => ConfigureEffect(e, s, c);
  }

  predicate Closed(e: Env, s: Storage, id: nat, r: Result, winner: Account, payee: Account)
    requires id in s.auctions
  {
    e.amount == 0 &&
    r == Accepted(s.(auctions := s.auctions - {id}),
                  [Pay(payee, s.auctions[id].currentBid)] + Deliveries(s.auctions[id].assets, e.self, winner))
  }

  // ---------------------------------------------------------------- what each call asks and does

  /** The percentage raise is the least r with 100 * r >= percent * price. */
  lemma RaiseIsLeast(a: Sale, r: int)
    ensures 100 * PercentRaise(a) >= a.minRaisePercent * a.currentBid
    ensures r >= PercentRaise(a) <==> 100 * r >= a.minRaisePercent * a.currentBid
  {
    var product := a.minRaisePercent * a.currentBid;
    assert product == 100 * (product / 100) + product % 100;
  }

  /** A bid: by an account of its own that is not the seller, on an auction that has begun and not
      ended, whose price with either raise is a mutez amount. While the seller is the highest bidder
      the price itself is enough; otherwise the raise is the minimal one or the percentage. */
  lemma BidAcceptedIff(e: Env, s: Storage, id: nat)
    requires id in s.auctions
    ensures var a := s.auctions[id]; var raise := e.amount - a.currentBid;
      BidOn(e, s, id).Accepted? <==>
        && e.sender == e.source && e.sender != a.seller
        && a.startTime <= e.now < a.endTime && e.now <= a.lastBidTime + a.roundTime
        && a.currentBid + a.minRaise < 0x8000_0000_0000_0000
        && a.minRaisePercent * a.currentBid < 0x8000_0000_0000_0000
        && a.minRaisePercent * a.currentBid <= 100 * (0x7fff_ffff_ffff_ffff - a.currentBid)
        && (raise >= a.minRaise || 100 * raise >= a.minRaisePercent * a.currentBid
            || (raise >= 0 && a.highestBidder == a.seller))
        && e.entrypoints(a.highestBidder, "")
  {
    RaiseIsLeast(s.auctions[id], e.amount - s.auctions[id].currentBid);
    RaiseIsLeast(s.auctions[id], 0x7fff_ffff_ffff_ffff - s.auctions[id].currentBid);
    hide PercentRaise;
  }

  /** What an accepted bid does: the bidder, the amount and the time are written down, the auction stays
      open for at least extend_time more, the previous bidder gets the previous bid back. */
  lemma BidDoes(e: Env, s: Storage, id: nat)
    requires BidOn(e, s, id).Accepted?
    ensures id in s.auctions
    ensures var r := BidOn(e, s, id); var a, b := s.auctions[id], r.storage.auctions[id];
      && r.ops == [Pay(a.highestBidder, a.currentBid)]
      && r.storage == s.(auctions := s.auctions[id := b])
      && b.currentBid == e.amount && b.highestBidder == e.sender && b.lastBidTime == e.now
      && b.endTime >= a.endTime && b.endTime >= e.now + a.extendTime
      && (b.endTime == a.endTime || b.endTime == e.now + a.extendTime)
      && b.seller == a.seller && b.startTime == a.startTime && b.roundTime == a.roundTime
      && b.extendTime == a.extendTime && b.assets == a.assets
      && b.minRaisePercent == a.minRaisePercent && b.minRaise == a.minRaise
  {}

  /** cancel is the seller's before the end, resolve anybody's after it; both need no tez, lots that can
      be delivered and an account that can be paid. */
  lemma ClosingAcceptedIff(e: Env, s: Storage, id: nat)
    requires id in s.auctions
    ensures var a := s.auctions[id];
      var over := e.now > a.lastBidTime + a.roundTime || e.now >= a.endTime;
      var deliverable := forall i :: 0 <= i < |a.assets| ==> e.entrypoints(a.assets[i].fa2, "transfer");
      && (CancelOf(e, s, id).Accepted? <==>
            !over && e.sender == a.seller && e.amount == 0 && deliverable && e.entrypoints(a.highestBidder, ""))
      && (ResolveOf(e, s, id).Accepted? <==> over && e.amount == 0 && deliverable && e.entrypoints(a.seller, ""))
  {}

  /** configure: the times in order and within the two limits, the opening price attached and not zero,
      a round that lasts, lots that can be called in. It opens one auction, under the next number. */
  lemma ConfigureAcceptedIff(e: Env, s: Storage, c: Config)
    ensures var r := ConfigureWith(e, s, c);
      && (r.Accepted? <==>
            && e.now <= c.startTime < c.endTime
            && c.endTime - c.startTime <= s.maxAuctionTime && c.startTime - e.now <= s.maxConfigToStart
            && e.amount == c.openingPrice > 0 && c.roundTime > 0
            && forall i :: 0 <= i < |c.assets| ==> e.entrypoints(c.assets[i].fa2, "transfer"))
      && (r.Accepted? ==>
            && r.storage.currentId == s.currentId + 1 && s.currentId in r.storage.auctions
            && r.storage == s.(currentId := s.currentId + 1,
                 auctions := s.auctions[s.currentId := r.storage.auctions[s.currentId]])
            && OpenedAs(r.storage.auctions[s.currentId], e, c))
  {}

  /** Whatever a bid fails with is the case. */
  lemma BidRefusalsAreTrue(e: Env, s: Storage, id: nat)
    requires id in s.auctions
    ensures var a := s.auctions[id]; var r := BidOn(e, s, id);
      && (r == Fail("Bidder must be an implicit account") ==> e.sender != e.source)
      && (r == Fail("Auction must be in progress") ==>
            e.now < a.startTime || e.now > a.lastBidTime + a.roundTime || e.now >= a.endTime)
      && (r == Fail("Seller cannot place a bid") ==> e.sender == a.seller)
      && (r == Refused(Failed(BadBid(e, a))) ==>
            e.amount < a.currentBid + a.minRaise && 100 * (e.amount - a.currentBid) < a.minRaisePercent * a.currentBid)
      && (r == Fail("Return address does not resolve to contract") ==> !e.entrypoints(a.highestBidder, ""))
  {
    RaiseIsLeast(s.auctions[id], e.amount - s.auctions[id].currentBid);
    hide PercentRaise;
  }

  /** And so it is with cancel and resolve. */
  lemma ClosingRefusalsAreTrue(e: Env, s: Storage, id: nat)
    requires id in s.auctions
    ensures var a := s.auctions[id]; var cancel, resolve := CancelOf(e, s, id), ResolveOf(e, s, id);
      var over := e.now > a.lastBidTime + a.roundTime || e.now >= a.endTime;
      && (cancel == Fail("Only seller can cancel auction") ==> e.sender != a.seller)
      && (cancel == Fail("Auction must not have ended") ==> over)
      && (resolve == Fail("Auction must have ended") ==> !over)
      && (cancel == Fail("Amount must be 0mutez") || resolve == Fail("Amount must be 0mutez") ==> e.amount > 0)
      && (cancel == Fail("Return address does not resolve to contract") ==> !e.entrypoints(a.highestBidder, ""))
      && (resolve == Fail("Return address does not resolve to contract") ==> !e.entrypoints(a.seller, ""))
  {}

  /** No auction, no call on it. */
  lemma MissingIsRefused(e: Env, s: Storage, id: nat)
    requires id !in s.auctions
    ensures BidOn(e, s, id) == CancelOf(e, s, id) == ResolveOf(e, s, id) ==
      Fail("Auction does not exist for given asset_id")
  {}

  /** Auction numbers are handed out in order. */
  predicate Numbered(s: Storage) {
    forall id | id in s.auctions :: id < s.currentId
  }

  lemma StaysNumbered(h: House, c: Step)
    requires Numbered(h.storage)
    ensures Numbered(Stepped(h, c).storage)
    ensures h.storage.currentId <= Stepped(h, c).storage.currentId
  {
    hide Called;
    if Accepts(h, c) { Effect(c.0, h.storage, c.1); }
  }

  // ---------------------------------------------------------------- tez

  function BidOf(id: nat, a: Sale): int { a.currentBid }

  /** The tez the house owes to the highest bidders. */
  ghost function Escrow(s: Storage): int { Sum(s.auctions, BidOf) }

  ghost function Surplus(h: House): int { h.balance - Escrow(h.storage) }

  lemma DeliveriesPayNothing(assets: seq<Lot>, from: Account, to: Account)
    ensures Paid(Deliveries(assets, from, to)) == 0
  {}

  lemma StepKeepsSurplus(h: House, c: Step)
    requires Numbered(h.storage)
    ensures Surplus(Stepped(h, c)) == Surplus(h)
  {
    hide Called;
    var e, s, call := c.0, h.storage, c.1;
    if Accepts(h, c) {
      Effect(e, s, call);
      match call
      case Bid(id) =>
        SumPut(s.auctions, BidOf, id, WithBid(e, s.auctions[id]));
        assert Paid(Called(e, s, call).ops) == s.auctions[id].currentBid;
      case Cancel(id) =>
        SumRemove(s.auctions, BidOf, id);
        DeliveriesPayNothing(s.auctions[id].assets, e.self, s.auctions[id].seller);
      case Resolve(id) =>
        SumRemove(s.auctions, BidOf, id);
        DeliveriesPayNothing(s.auctions[id].assets, e.self, s.auctions[id].highestBidder);
      case Configure(config) =>
        SumPut(s.auctions, BidOf, s.currentId, Opened(e, config));
        DeliveriesPayNothing(config.assets, e.sender, e.self);
    }
  }

  /** The balance is the initial surplus plus the bids of the live auctions, after every run. */
  lemma Solvency(h: House, run: seq<Step>)
    requires Numbered(h.storage)
    ensures var h' := After(Stepped, h, run); Numbered(h'.storage) && h'.balance - Escrow(h'.storage) == Surplus(h)
  {
    hide Stepped, Escrow;
    var inv := (g: House) => Numbered(g.storage) && Surplus(g) == Surplus(h);
    forall g, c | inv(g) ensures inv(Stepped(g, c)) { StaysNumbered(g, c); StepKeepsSurplus(g, c); }
    RunInvariant(Stepped, Anything, inv, h, run);
  }

  lemma {:induction false} EscrowCovers(m: map<nat, Sale>)
    ensures Sum(m, BidOf) >= 0
    ensures forall id | id in m :: m[id].currentBid <= Sum(m, BidOf)
    decreases |m|
  {
    forall id | id in m ensures m[id].currentBid <= Sum(m, BidOf) {
      SumRemove(m, BidOf, id);
      EscrowCovers(m - {id});
    }
    if m != map[] {
      var id :| id in m;
      assert m[id].currentBid <= Sum(m, BidOf);
    }
  }

  /** No accepted call ever pays out more than the house holds, whatever happened before it. */
  lemma EveryPayoutIsCovered(h: House, run: seq<Step>, c: Step)
    requires Numbered(h.storage) && h.balance >= Escrow(h.storage)
    requires Accepts(After(Stepped, h, run), c)
    ensures Paid(Called(c.0, After(Stepped, h, run).storage, c.1).ops) <= After(Stepped, h, run).balance + c.0.amount
  {
    Solvency(h, run);
    var h' := After(Stepped, h, run);
    EscrowCovers(h'.storage.auctions);
    StepKeepsSurplus(h', c);
    EscrowCovers(Stepped(h', c).storage.auctions);
  }

  // ---------------------------------------------------------------- tokens

  function Moved(moves: seq<Move>, token: nat): nat {
    if moves == [] then 0 else (if moves[0].token == token then moves[0].amount else 0) + Moved(moves[1..], token)
  }

  function MovedTo(moves: seq<Move>, to: Account, token: nat): nat {
    if moves == [] then 0
    else (if moves[0].token == token && moves[0].to == to then moves[0].amount else 0) + MovedTo(moves[1..], to, token)
  }

  /** What `who` receives minus what it gives away, of one token. */
  function Flow(ops: seq<Op>, who: Account, fa2: Account, token: nat): int {
    if ops == [] then 0
    else
      (match ops[0]
       case Pay(_, _) => 0
       case MoveTokens(f, from, moves) =>
         if f != fa2 then 0
         else MovedTo(moves, who, token) - (if from == who then Moved(moves, token) else 0))
      + Flow(ops[1..], who, fa2, token)
  }

  function InBatch(batch: seq<(nat, nat)>, token: nat): nat {
    if batch == [] then 0 else (if batch[0].0 == token then batch[0].1 else 0) + InBatch(batch[1..], token)
  }

  function InLots(assets: seq<Lot>, fa2: Account, token: nat): nat {
    if assets == [] then 0
    else (if assets[0].fa2 == fa2 then InBatch(assets[0].batch, token) else 0) + InLots(assets[1..], fa2, token)
  }

  function Listing(fa2: Account, token: nat): (nat, Sale) -> int {
    (id, a: Sale) => InLots(a.assets, fa2, token)
  }

  ghost function Listed(s: Storage, fa2: Account, token: nat): int { Sum(s.auctions, Listing(fa2, token)) }

  lemma MovesAddUp(batch: seq<(nat, nat)>, to: Account, who: Account, token: nat)
    ensures Moved(Moves(batch, to), token) == InBatch(batch, token)
    ensures MovedTo(Moves(batch, to), who, token) == if who == to then InBatch(batch, token) else 0
  {}

  /** A delivery moves exactly the listed tokens, from one side to the other. */
  lemma {:induction false} DeliveriesFlow(assets: seq<Lot>, from: Account, to: Account, who: Account, fa2: Account,
      token: nat)
    ensures Flow(Deliveries(assets, from, to), who, fa2, token) ==
      (if who == to then InLots(assets, fa2, token) else 0) - (if who == from then InLots(assets, fa2, token) else 0)
  {
    if assets != [] {
      MovesAddUp(assets[0].batch, to, who, token);
      DeliveriesFlow(assets[1..], from, to, who, fa2, token);
      assert Deliveries(assets, from, to)[1..] == Deliveries(assets[1..], from, to);
    }
  }

  /** The house takes part in no auction of its own. */
  predicate Outsiders(s: Storage, self: Account) {
    forall id | id in s.auctions :: s.auctions[id].seller != self && s.auctions[id].highestBidder != self
  }

  predicate FromOutside(c: Step, self: Account) { c.0.self == self && c.0.sender != self }

  /** What the house gains of a token in one step. */
  function Gain(fa2: Account, token: nat): (House, Step) -> int {
    (h: House, c: Step) =>
      match Called(c.0, h.storage, c.1)
      case Accepted(_, ops) => Flow(ops, c.0.self, fa2, token)
      case Refused(_) => 0
  }

  /** Handing the lots of a closed auction to the winner: what each account gains. */
  lemma CloseFlow(e: Env, s: Storage, id: nat, r: Result, winner: Account, payee: Account, who: Account, fa2: Account,
      token: nat)
    requires id in s.auctions && Closed(e, s, id, r, winner, payee)
    ensures var lots := InLots(s.auctions[id].assets, fa2, token);
      Flow(r.ops, who, fa2, token) == (if who == winner then lots else 0) - (if who == e.self then lots else 0)
  {
    DeliveriesFlow(s.auctions[id].assets, e.self, winner, who, fa2, token);
    assert r.ops[0].Pay? && r.ops[1..] == Deliveries(s.auctions[id].assets, e.self, winner);
  }

  /** Opening an auction takes every listed token from the caller to the house. */
  lemma ConfigureFlow(e: Env, s: Storage, c: Config, who: Account, fa2: Account, token: nat)
    requires ConfigureWith(e, s, c).Accepted?
    ensures var lots := InLots(c.assets, fa2, token);
      Flow(ConfigureWith(e, s, c).ops, who, fa2, token) ==
        (if who == e.self then lots else 0) - (if who == e.sender then lots else 0)
  {
    hide ConfigureWith;
    ConfigureEffect(e, s, c);
    DeliveriesFlow(c.assets, e.sender, e.self, who, fa2, token);
  }

  lemma StaysOutside(h: House, c: Step)
    requires Numbered(h.storage) && Outsiders(h.storage, c.0.self) && c.0.sender != c.0.self
    ensures Outsiders(Stepped(h, c).storage, c.0.self)
  {
    hide Called;
    if Accepts(h, c) { Effect(c.0, h.storage, c.1); }
  }

  lemma StepGainIsListed(h: House, c: Step, fa2: Account, token: nat)
    requires Numbered(h.storage) && Outsiders(h.storage, c.0.self) && c.0.sender != c.0.self
    ensures Listed(Stepped(h, c).storage, fa2, token) == Listed(h.storage, fa2, token) + Gain(fa2, token)(h, c)
  {
    hide Called, Deliveries, Flow, InLots;
    var e, s, call := c.0, h.storage, c.1;
    var w := Listing(fa2, token);
    if Accepts(h, c) {
      Effect(e, s, call);
      match call
      case Bid(id) =>
        SumPut(s.auctions, w, id, WithBid(e, s.auctions[id]));
        PayFlow(s.auctions[id].highestBidder, s.auctions[id].currentBid, e.self, fa2, token);
      case Cancel(id) =>
        SumRemove(s.auctions, w, id);
        CloseFlow(e, s, id, Called(e, s, call), s.auctions[id].seller, s.auctions[id].highestBidder, e.self,
          fa2, token);
      case Resolve(id) =>
        SumRemove(s.auctions, w, id);
        CloseFlow(e, s, id, Called(e, s, call), s.auctions[id].highestBidder, s.auctions[id].seller, e.self,
          fa2, token);
      case Configure(config) =>
        SumPut(s.auctions, w, s.currentId, Opened(e, config));
        DeliveriesFlow(config.assets, e.sender, e.self, e.self, fa2, token);
    }
  }

  lemma PayFlow(to: Account, tez: nat, who: Account, fa2: Account, token: nat)
    ensures Flow([Pay(to, tez)], who, fa2, token) == 0
  {}

  /** Over any run of calls from outside, the tokens that came in minus those that went out are
      those listed now minus those listed at the start. */
  lemma AssetsInEscrow(h: House, run: seq<Step>, self: Account, fa2: Account, token: nat)
    requires Numbered(h.storage) && Outsiders(h.storage, self)
    requires forall i :: 0 <= i < |run| ==> FromOutside(run[i], self)
    ensures Listed(After(Stepped, h, run).storage, fa2, token) ==
      Listed(h.storage, fa2, token) + Total(Stepped, Gain(fa2, token), h, run)
  {
    hide Stepped, Listed, Gain, Outsiders, Numbered;
    var legal := (c: Step) => FromOutside(c, self);
    var inv := (g: House) => Numbered(g.storage) && Outsiders(g.storage, self);
    var listed := (g: House) => Listed(g.storage, fa2, token);
    forall g, c | inv(g) && legal(c)
      ensures inv(Stepped(g, c)) && listed(Stepped(g, c)) == listed(g) + Gain(fa2, token)(g, c) {
      StaysNumbered(g, c);
      StaysOutside(g, c);
      StepGainIsListed(g, c, fa2, token);
    }
    RunKeeps(Stepped, legal, inv, listed, Gain(fa2, token), h, run);
  }

  // ---------------------------------------------------------------- the life of one auction

  /** An accepted call that ends auction `id`: all its lots leave in this one step. */
  function Closes(id: nat): (House, Step) -> int {
    (h: House, c: Step) => One((c.1 == Cancel(id) || c.1 == Resolve(id)) && Accepts(h, c))
  }

  /** The auction has been opened and is live no more. */
  function Gone(h: House, id: nat): int { One(id < h.storage.currentId) - One(id in h.storage.auctions) }

  lemma StepCloses(h: House, c: Step, id: nat)
    requires Numbered(h.storage)
    ensures Gone(Stepped(h, c), id) == Gone(h, id) + Closes(id)(h, c)
  {
    hide Called;
    if Accepts(h, c) { Effect(c.0, h.storage, c.1); }
  }

  /** An auction number is closed at most once, and exactly once if the run opens it and it is live
      no more; it is never opened again. */
  lemma ClosedExactlyOnce(h: House, run: seq<Step>, id: nat)
    requires Numbered(h.storage)
    ensures var h' := After(Stepped, h, run);
      && 0 <= Gone(h', id) <= 1
      && Gone(h', id) == Gone(h, id) + Total(Stepped, Closes(id), h, run)
  {
    hide Stepped, Closes;
    var inv := (g: House) => Numbered(g.storage);
    forall g, c | inv(g) ensures inv(Stepped(g, c)) && Gone(Stepped(g, c), id) == Gone(g, id) + Closes(id)(g, c) {
      StaysNumbered(g, c);
      StepCloses(g, c, id);
    }
    RunKeeps(Stepped, Anything, inv, (g: House) => Gone(g, id), Closes(id), h, run);
  }

  /** What a known auction can become once it has ended: unchanged, or gone for good. */
  predicate Unchanged(s: Storage, id: nat, a: Sale) {
    id < s.currentId && (id in s.auctions ==> s.auctions[id] == a)
  }

  lemma EndedStep(h: House, c: Step, id: nat, a: Sale, now: int)
    requires Numbered(h.storage) && Unchanged(h.storage, id, a) && Ended(a, now) && now <= c.0.now
    ensures Unchanged(Stepped(h, c).storage, id, a)
    ensures c.1 == Bid(id) || c.1 == Cancel(id) ==> !Accepts(h, c)
  {
    hide BidOn, CancelOf, ResolveOf, ConfigureWith;
    assert Ended(a, c.0.now);
    if Accepts(h, c) {
      Effect(c.0, h.storage, c.1);
      if c.1 == Bid(id) { BidEffect(c.0, h.storage, id); }
      if c.1 == Cancel(id) { CancelEffect(c.0, h.storage, id); }
    }
  }

  /** Once more than round_time has passed since the last bid, or end_time has come, no bid and no
      cancel is accepted on the auction at any later time, and its record never changes again: only
      `resolve` can remove it. */
  lemma EndingIsFinal(h: House, run: seq<Step>, c: Step, id: nat, a: Sale, now: int)
    requires Numbered(h.storage) && Unchanged(h.storage, id, a)
    requires now > a.lastBidTime + a.roundTime || now >= a.endTime
    requires now <= c.0.now && forall i :: 0 <= i < |run| ==> now <= run[i].0.now
    ensures Unchanged(After(Stepped, h, run).storage, id, a)
    ensures c.1 == Bid(id) || c.1 == Cancel(id) ==> !Accepts(After(Stepped, h, run), c)
  {
    assert Ended(a, now);
    hide Stepped, Ended, Unchanged, Accepts;
    var inv := (g: House) => Numbered(g.storage) && Unchanged(g.storage, id, a);
    var legal := (d: Step) => now <= d.0.now;
    forall g, d | inv(g) && legal(d) ensures inv(Stepped(g, d)) { StaysNumbered(g, d); EndedStep(g, d, id, a, now); }
    RunInvariant(Stepped, legal, inv, h, run);
    EndedStep(After(Stepped, h, run), c, id, a, now);
  }

  // ---------------------------------------------------------------- bids

  function BidsOn(id: nat): (House, Step) -> int {
    (h: House, c: Step) => One(c.1 == Bid(id) && Accepts(h, c))
  }

  /** Every bid after the first owes `raise` or more: it is at most the minimal raise, and at most the
      percentage of the opening price, rounded up. */
  predicate Owed(opening: Sale, raise: nat) {
    raise <= opening.minRaise && 100 * raise < opening.minRaisePercent * opening.currentBid + 100
  }

  /** Rounded up: such a raise is at most every r that covers the percentage, and the least such r is one. */
  lemma OwedIsLeast(opening: Sale, raise: nat, r: nat)
    ensures Owed(opening, raise) && 100 * r >= opening.minRaisePercent * opening.currentBid ==> raise <= r
    ensures raise <= opening.minRaise
      && (raise > 0 ==> 100 * (raise - 1) < opening.minRaisePercent * opening.currentBid)
      ==> Owed(opening, raise)
  {}

  /** a is `opening` after n accepted bids. */
  predicate Descends(opening: Sale, a: Sale, n: int, raise: nat) {
    && a == opening.(currentBid := a.currentBid, highestBidder := a.highestBidder,
                     lastBidTime := a.lastBidTime, endTime := a.endTime)
    && opening.currentBid <= a.currentBid && opening.endTime <= a.endTime
    && (a.highestBidder == a.seller <==> n == 0)
    && (n > 0 ==> a.currentBid >= opening.currentBid + (n - 1) * raise)
  }

  lemma MulGrows(p: nat, x: nat, y: nat)
    requires x <= y
    ensures p * x <= p * y
  {
    assert p * y == p * x + p * (y - x);
  }

  lemma BidDescends(e: Env, s: Storage, id: nat, opening: Sale, n: int, raise: nat)
    requires n >= 0 && Owed(opening, raise)
    requires id in s.auctions && Descends(opening, s.auctions[id], n, raise) && BidOn(e, s, id).Accepted?
    ensures Descends(opening, WithBid(e, s.auctions[id]), n + 1, raise)
    ensures s.auctions[id].currentBid <= e.amount
    ensures WithBid(e, s.auctions[id]).endTime >= e.now + opening.extendTime
  {
    hide BidOn;
    BidEffect(e, s, id);
    var a := s.auctions[id];
    RaiseIsLeast(a, e.amount - a.currentBid);
    MulGrows(a.minRaisePercent, opening.currentBid, a.currentBid);
    assert n * raise == (n - 1) * raise + raise;
  }

  lemma StepDescends(h: House, c: Step, id: nat, opening: Sale, n: int, raise: nat)
    requires n >= 0 && Owed(opening, raise)
    requires Numbered(h.storage) && id < h.storage.currentId
    requires id in h.storage.auctions ==> Descends(opening, h.storage.auctions[id], n, raise)
    ensures var s' := Stepped(h, c).storage;
      id in s'.auctions ==> id in h.storage.auctions && Descends(opening, s'.auctions[id], n + BidsOn(id)(h, c), raise)
    ensures BidsOn(id)(h, c) >= 0
  {
    hide Called, Descends, BidOn, Owed;
    if Accepts(h, c) {
      Effect(c.0, h.storage, c.1);
      if c.1 == Bid(id) { BidDescends(c.0, h.storage, id, opening, n, raise); }
    }
  }

  /** After n accepted bids the price is at least the opening price plus n - 1 times what each bid owes; price
      and end time never fall; the seller is the highest bidder exactly until the first bid. */
  lemma {:induction false} BidBound(h: House, run: seq<Step>, id: nat, opening: Sale, n: int, raise: nat)
    requires n >= 0 && Owed(opening, raise)
    requires Numbered(h.storage) && id < h.storage.currentId
    requires id in h.storage.auctions ==> Descends(opening, h.storage.auctions[id], n, raise)
    ensures var s' := After(Stepped, h, run).storage; var bids := n + Total(Stepped, BidsOn(id), h, run);
      bids >= n && (id in s'.auctions ==> id in h.storage.auctions && Descends(opening, s'.auctions[id], bids, raise))
    decreases |run|
  {
    hide Stepped, Descends, Accepts, Owed;
    if run != [] {
      StaysNumbered(h, run[0]);
      StepDescends(h, run[0], id, opening, n, raise);
      BidBound(Stepped(h, run[0]), run[1..], id, opening, n + BidsOn(id)(h, run[0]), raise);
    }
  }

  /** An accepted `configure` opens an auction under a number never used, with every field as configured
      and the caller as seller and first highest bidder. */
  lemma ConfigureOpens(h: House, e: Env, c: Config, raise: nat)
    requires Numbered(h.storage) && ConfigureWith(e, h.storage, c).Accepted?
    ensures var id := h.storage.currentId; var s' := Stepped(h, (e, Configure(c))).storage;
      && id !in h.storage.auctions && id in s'.auctions && id < s'.currentId
      && OpenedAs(s'.auctions[id], e, c) && Descends(s'.auctions[id], s'.auctions[id], 0, raise)
      && c.openingPrice == e.amount && s'.auctions == h.storage.auctions[id := s'.auctions[id]]
  {
    hide ConfigureWith;
    ConfigureEffect(e, h.storage, c);
  }

  /** The fields of a sale that `configure` sets, one by one. */
  predicate OpenedAs(a: Sale, e: Env, c: Config) {
    && a.seller == e.sender && a.highestBidder == e.sender && a.currentBid == c.openingPrice
    && a.startTime == c.startTime && a.lastBidTime == c.startTime && a.endTime == c.endTime
    && a.roundTime == c.roundTime && a.extendTime == c.extendTime && a.assets == c.assets
    && a.minRaisePercent == c.minRaisePercent && a.minRaise == c.minRaise
  }

  /** An auction over its whole life: from an accepted `configure` on, after any run with n accepted
      bids on it, the price is the attached amount for n = 0 and at least that plus n - 1 times `raise`
      otherwise, for every raise up to the minimal one and up to the percentage of the opening price,
      rounded up. End time and price have not fallen, and all other fields are those configured. */
  lemma PriceSinceOpening(h: House, e: Env, c: Config, run: seq<Step>, raise: nat)
    requires Numbered(h.storage) && ConfigureWith(e, h.storage, c).Accepted?
    requires raise <= c.minRaise && 100 * raise < c.minRaisePercent * c.openingPrice + 100
    ensures var id := h.storage.currentId;
      var open := Stepped(h, (e, Configure(c)));
      var s' := After(Stepped, open, run).storage;
      var n := Total(Stepped, BidsOn(id), open, run);
      n >= 0 && (id in s'.auctions ==>
        var a := s'.auctions[id];
        && a.seller == e.sender && a.startTime == c.startTime && a.assets == c.assets
        && a.roundTime == c.roundTime && a.extendTime == c.extendTime
        && a.minRaisePercent == c.minRaisePercent && a.minRaise == c.minRaise
        && a.endTime >= c.endTime && a.currentBid >= c.openingPrice == e.amount
        && (a.highestBidder == a.seller <==> n == 0)
        && (n > 0 ==> a.currentBid >= c.openingPrice + (n - 1) * raise))
  {
    hide Stepped, ConfigureWith, Descends;
    ConfigureOpens(h, e, c, raise);
    StaysNumbered(h, (e, Configure(c)));
    var id, open := h.storage.currentId, Stepped(h, (e, Configure(c)));
    var opening := open.storage.auctions[id];
    BidBound(open, run, id, opening, 0, raise);
    var s' := After(Stepped, open, run).storage;
    if id in s'.auctions { DescendsMeans(opening, s'.auctions[id], Total(Stepped, BidsOn(id), open, run), raise); }
  }

  lemma DescendsMeans(opening: Sale, a: Sale, n: int, raise: nat)
    requires Descends(opening, a, n, raise)
    ensures a.seller == opening.seller && a.startTime == opening.startTime && a.assets == opening.assets
    ensures a.roundTime == opening.roundTime && a.extendTime == opening.extendTime
    ensures a.minRaisePercent == opening.minRaisePercent && a.minRaise == opening.minRaise
    ensures a.endTime >= opening.endTime && a.currentBid >= opening.currentBid
    ensures a.highestBidder == a.seller <==> n == 0
    ensures n > 0 ==> a.currentBid >= opening.currentBid + (n - 1) * raise
  {}
}
