/** Where the ticket of the Dutch auction can go, over every run. */
module DutchAuctionRuns {
  import opened Michelson
  import opened Contracts
  import opened DutchAuction
  import opened Runs

  type Step = (Env, Call)

  function Stepped(s: Storage, c: Step): Storage {
    Next(s, Called(c.0, s, c.1))
  }

  predicate Accepts(s: Storage, c: Step) { Called(c.0, s, c.1).Accepted? }

  /** While the auction is in progress there is a ticket to sell. */
  predicate Stocked(s: Storage) { s.inProgress ==> 0 in s.tickets }

  function HeldAmount(s: Storage): int { if 0 in s.tickets then s.tickets[0].amount else 0 }

  /** An accepted buy or cancel hands the ticket out. */
  predicate HandsOut(s: Storage, c: Step) { Accepts(s, c) && (c.1.Buy? || c.1.Cancel?) }

  function Given(ops: seq<Op>): int {
    if ops == [] then 0 else (if ops[0].Give? then ops[0].ticket.amount else 0) + Given(ops[1..])
  }

  /** What a call adds to the amount held: configure brings its ticket in and drops the one it
      replaces, buy and cancel give theirs away. */
  function Net(s: Storage, c: Step): int {
    match Called(c.0, s, c.1)
    case Refused(_) => 0
    case Accepted(_, ops) => (if c.1.Configure? then c.1.ticket.amount - HeldAmount(s) else 0) - Given(ops)
  }

  function Refills(s: Storage, c: Step): int { One(Accepts(s, c) && c.1.Configure? && 0 !in s.tickets) }

  function Leaves(s: Storage, c: Step): int { One(HandsOut(s, c)) }

  function Stock(s: Storage, c: Step): int { Refills(s, c) - Leaves(s, c) }

  lemma StepKeeps(s: Storage, c: Step)
    requires Stocked(s)
    ensures Stocked(Stepped(s, c)) && Stepped(s, c).admin == s.admin
    ensures HeldAmount(Stepped(s, c)) == HeldAmount(s) + Net(s, c)
    ensures One(0 in Stepped(s, c).tickets) == One(0 in s.tickets) + Stock(s, c)
  {
    if HandsOut(s, c) { GivenFew(Give(s.tickets[0], c.1.to, c.1.at), Pay(s.admin, c.0.amount)); }
  }

  lemma GivenFew(give: Op, pay: Op)
    requires give.Give? && pay.Pay?
    ensures Given([give]) == Given([pay, give]) == give.ticket.amount
  {
    assert [give][1..] == [] && [pay, give][1..] == [give];
  }

  /** In every reachable state an auction in progress has its ticket, and the amount held is what
      the calls so far account for. */
  lemma TicketIsAccountedFor(s: Storage, run: seq<Step>)
    requires Stocked(s)
    ensures var s' := After(Stepped, s, run);
      && Stocked(s') && s'.admin == s.admin
      && HeldAmount(s') == HeldAmount(s) + Total(Stepped, Net, s, run)
      && One(0 in s'.tickets) == One(0 in s.tickets) + Total(Stepped, Stock, s, run)
  {
    hide Stepped, Net, Stock, HeldAmount, Stocked;
    var inv := (t: Storage) => Stocked(t) && t.admin == s.admin;
    forall t, c | inv(t)
      ensures inv(Stepped(t, c)) && HeldAmount(Stepped(t, c)) == HeldAmount(t) + Net(t, c)
      ensures One(0 in Stepped(t, c).tickets) == One(0 in t.tickets) + Stock(t, c) { StepKeeps(t, c); }
    RunKeeps(Stepped, (c: Step) => true, inv, HeldAmount, Net, s, run);
    RunKeeps(Stepped, (c: Step) => true, inv, (t: Storage) => One(0 in t.tickets), Stock, s, run);
  }

  /** Between two calls that hand a ticket out there is a configure that brought in the second. */
  lemma OneTicketOneOwner(s: Storage, run: seq<Step>, i: nat, j: nat)
    requires Stocked(s) && i < j < |run|
    requires HandsOut(After(Stepped, s, run[..i]), run[i]) && HandsOut(After(Stepped, s, run[..j]), run[j])
    ensures exists k :: i < k < j && Refills(After(Stepped, s, run[..k]), run[k]) == 1
  {
    hide Stepped, HandsOut, Called, Stock;
    TicketIsAccountedFor(s, run[..i]);
    TicketIsAccountedFor(s, run[..i + 1]);
    HandingOut(After(Stepped, s, run[..i]), run[i]);
    HandingOut(After(Stepped, s, run[..j]), run[j]);
    AfterNext(Stepped, s, run, i);
    AfterSplit(Stepped, s, run, i + 1, j);
    var t, between := After(Stepped, s, run[..i + 1]), run[i + 1..j];
    TicketIsAccountedFor(t, between);
    var k := GainBetween(Stepped, Stock, s, run, i + 1, j);
    StockRises(After(Stepped, s, run[..k]), run[k]);
  }

  lemma HandingOut(s: Storage, c: Step)
    requires HandsOut(s, c)
    ensures 0 in s.tickets && 0 !in Stepped(s, c).tickets
  {}

  lemma StockRises(s: Storage, c: Step)
    requires Stock(s, c) > 0
    ensures Refills(s, c) == 1
  {}

  // ---------------------------------------------------------------- what each call asks and does

  /** Anybody but the administrator buys, at exactly the price in force, no later than the end of the
      round, the ticket that is there. The administrator gets the tez and the buyer the ticket. */
  lemma BuyAcceptedIff(e: Env, s: Storage, to: Account, at: string)
    ensures var r := Called(e, s, Buy(to, at));
      && (r.Accepted? <==>
            && s.inProgress && 0 in s.tickets && e.sender != s.admin && e.entrypoints(s.admin, "")
            && e.amount == s.price && s.price < 0x8000_0000_0000_0000 && e.now - s.start <= s.round)
      && (r.Accepted? ==>
            && r.ops == [Pay(s.admin, s.price), Give(s.tickets[0], to, at)]
            && r.storage == s.(inProgress := false, tickets := s.tickets - {0}))
  {}

  /** The administrator takes the ticket back at any time while the auction is in progress. */
  lemma CancelAcceptedIff(e: Env, s: Storage, to: Account, at: string)
    ensures var r := Called(e, s, Cancel(to, at));
      && (r.Accepted? <==> s.inProgress && 0 in s.tickets && e.sender == s.admin)
      && (r.Accepted? ==>
            && r.ops == [Give(s.tickets[0], to, at)]
            && r.storage == s.(inProgress := false, tickets := s.tickets - {0}))
  {}

  /** A transaction of the administrator fills in every field while no auction is in progress. */
  lemma ConfigureAcceptedIff(e: Env, s: Storage, c: Call)
    requires c.Configure?
    ensures var r := Called(e, s, c);
      && (r.Accepted? <==> !s.inProgress && e.source == s.admin)
      && (r.Accepted? ==>
            && r.ops == [] && r.storage.admin == s.admin && !r.storage.inProgress
            && r.storage.price == c.opening && r.storage.reserve == c.reserve
            && r.storage.start == c.start && r.storage.round == c.round
            && r.storage.tickets == s.tickets[0 := c.ticket])
  {}

  /** A transaction of the administrator starts the auction once its start time has come, if there is a
      ticket; the round begins now. */
  lemma StartAcceptedIff(e: Env, s: Storage)
    ensures var r := Called(e, s, Call.Start);
      && (r.Accepted? <==> !s.inProgress && 0 in s.tickets && e.source == s.admin && e.now >= s.start)
      && (r.Accepted? ==> r.ops == [] && r.storage == s.(inProgress := true, start := e.now))
  {}

  /** The administrator names a price of at least the reserve when the round is over; a new one begins. */
  lemma DropAcceptedIff(e: Env, s: Storage, price: nat)
    ensures var r := Called(e, s, DropPrice(price));
      && (r.Accepted? <==> s.inProgress && e.sender == s.admin && price >= s.reserve && e.now - s.start > s.round)
      && (r.Accepted? ==> r.ops == [] && r.storage == s.(price := price, start := e.now))
  {}

  // ---------------------------------------------------------------- when a sale can happen

  /** An accepted start or drop_price: a round begins. */
  predicate Begins(s: Storage, c: Step) { Accepts(s, c) && (c.1.Start? || c.1.DropPrice?) }

  /** An accepted configure or drop_price that names this price. */
  predicate Asks(s: Storage, c: Step, price: nat) {
    Accepts(s, c) && ((c.1.Configure? && c.1.opening == price) || (c.1.DropPrice? && c.1.price == price))
  }

  lemma StepBegins(s: Storage, c: Step)
    ensures Stepped(s, c).inProgress ==>
      (Begins(s, c) && Stepped(s, c).start == c.0.now) ||
      (s.inProgress && Stepped(s, c).start == s.start && Stepped(s, c).round == s.round)
    ensures Asks(s, c, Stepped(s, c).price) || Stepped(s, c).price == s.price
  {}

  lemma {:induction false} RoundBegan(s: Storage, run: seq<Step>, n: nat)
    requires !s.inProgress && n <= |run|
    ensures var s' := After(Stepped, s, run[..n]); s'.inProgress ==>
      exists i :: 0 <= i < n && Begins(After(Stepped, s, run[..i]), run[i]) && s'.start == run[i].0.now
    decreases n
  {
    hide Stepped, Begins;
    if n > 0 {
      AfterNext(Stepped, s, run, n - 1);
      StepBegins(After(Stepped, s, run[..n - 1]), run[n - 1]);
      RoundBegan(s, run, n - 1);
    }
  }

  lemma {:induction false} PriceWasAsked(s: Storage, run: seq<Step>, n: nat)
    requires n <= |run|
    ensures var price := After(Stepped, s, run[..n]).price;
      price == s.price || exists i :: 0 <= i < n && Asks(After(Stepped, s, run[..i]), run[i], price)
    decreases n
  {
    hide Stepped, Asks;
    if n > 0 {
      AfterNext(Stepped, s, run, n - 1);
      StepBegins(After(Stepped, s, run[..n - 1]), run[n - 1]);
      PriceWasAsked(s, run, n - 1);
    }
  }

  /** In a run from a storage at rest, every sale falls into a round that an accepted start or
      drop_price of the run has begun, no more than the round's length ago, and its price is the one at
      the start or one that an accepted configure or drop_price has named. */
  lemma SoldInItsRound(s: Storage, run: seq<Step>, j: nat)
    requires !s.inProgress && j < |run| && Sells(After(Stepped, s, run[..j]), run[j])
    ensures var t := After(Stepped, s, run[..j]);
      && (exists i ::
        0 <= i < j && Begins(After(Stepped, s, run[..i]), run[i]) && run[j].0.now <= run[i].0.now + t.round)
      && (run[j].0.amount == s.price ||
          exists i :: 0 <= i < j && Asks(After(Stepped, s, run[..i]), run[i], run[j].0.amount))
  {
    hide Stepped, Begins, Asks;
    BuyAcceptedIff(run[j].0, After(Stepped, s, run[..j]), run[j].1.to, run[j].1.at);
    hide Called;
    RoundBegan(s, run, j);
    PriceWasAsked(s, run, j);
  }

  // ---------------------------------------------------------------- one step

  /** The call comes from the administrator: configure looks at the source, the others at the sender. */
  predicate ByAdmin(c: Step, admin: Account) { admin == if c.1.Configure? then c.0.source else c.0.sender }

  lemma AdminStays(s: Storage, c: Step)
    ensures Stepped(s, c).admin == s.admin
  {}

  /** At no moment, on no storage, are both a sale and a price drop accepted. */
  lemma BuyOrDrop(s: Storage, d: Env, e: Env, to: Account, at: string, price: nat)
    requires d.now == e.now
    ensures !(Bought(d, s, to, at).Accepted? && Lowered(e, s, price).Accepted?)
  {}

  lemma BuyerGetsTheTicket(e: Env, s: Storage, to: Account, at: string)
    requires Bought(e, s, to, at).Accepted?
    ensures 0 in s.tickets && e.amount == s.price && e.sender != s.admin
    ensures Bought(e, s, to, at).ops == [Pay(s.admin, s.price), Give(s.tickets[0], to, at)]
  {}

  lemma KeepsReserve(s: Storage, c: Step)
    requires ByAdmin(c, s.admin) && c.1.Configure? ==> c.1.opening >= c.1.reserve
    ensures s.price >= s.reserve ==> Stepped(s, c).price >= Stepped(s, c).reserve
    ensures c.1.DropPrice? && Accepts(s, c) ==> Stepped(s, c).price >= Stepped(s, c).reserve
  {}

  /** drop_price accepts any price from the reserve up, higher ones too. */
  lemma DropMayRaise(e: Env, s: Storage, price: nat)
    requires e.sender == s.admin && s.inProgress && e.now > s.start + s.round
    ensures Lowered(e, s, price).Accepted? <==> price >= s.reserve
    ensures Lowered(e, s, price).Accepted? ==> (Lowered(e, s, price).storage.price < s.price <==> price < s.price)
    ensures Lowered(e, s, s.price + s.reserve + 1).Accepted?
      && Lowered(e, s, s.price + s.reserve + 1).storage.price > s.price
  {}

  // ---------------------------------------------------------------- prices, over every run

  /** The tez an accepted call sends to the administrator. */
  function Income(s: Storage, c: Step): int {
    match Called(c.0, s, c.1)
    case Refused(_) => 0
    case Accepted(_, ops) => PaidTo(ops, s.admin)
  }

  function PaidTo(ops: seq<Op>, to: Account): int {
    if ops == [] then 0 else (if ops[0].Pay? && ops[0].to == to then ops[0].tez else 0) + PaidTo(ops[1..], to)
  }

  predicate Sells(s: Storage, c: Step) { Accepts(s, c) && c.1.Buy? }

  function PriceOfSale(s: Storage, c: Step): int { if Sells(s, c) then s.price else 0 }

  function Sale(s: Storage, c: Step): int { One(Sells(s, c)) }

  lemma IncomeIsPrice(s: Storage, c: Step)
    ensures Income(s, c) == PriceOfSale(s, c)
  {
    if Accepts(s, c) && c.1.Buy? { BuyerGetsTheTicket(c.0, s, c.1.to, c.1.at); }
    if HandsOut(s, c) { PaidFew(Pay(s.admin, s.price), Give(s.tickets[0], c.1.to, c.1.at)); }
  }

  lemma PaidFew(pay: Op, give: Op)
    requires pay.Pay? && give.Give?
    ensures PaidTo([give], pay.to) == 0 && PaidTo([pay, give], pay.to) == pay.tez
  {
    assert [give][1..] == [] && [pay, give][1..] == [give];
  }

  /** Over every run the administrator receives exactly the prices in force at the sales; if the price
      starts at r or more and the administrator names none below r, at least r a sale. */
  lemma {:induction false} IncomeOverRun(s: Storage, run: seq<Step>, r: nat)
    ensures Total(Stepped, Income, s, run) == Total(Stepped, PriceOfSale, s, run)
    ensures s.price >= r && (forall i :: 0 <= i < |run| ==> PricedFrom(run[i], s.admin, r)) ==>
      Total(Stepped, Income, s, run) >= r * Total(Stepped, Sale, s, run)
    decreases |run|
  {
    hide Stepped, Income, Sells;
    if run != [] {
      IncomeIsPrice(s, run[0]);
      IncomeOverRun(Stepped(s, run[0]), run[1..], r);
      AdminStays(s, run[0]);
      if PricedFrom(run[0], s.admin, r) && s.price >= r { StaysPriced(s, run[0], r); }
      var rest := Total(Stepped, Sale, Stepped(s, run[0]), run[1..]);
      assert r * (1 + rest) == r + r * rest;
    }
  }

  predicate PricedFrom(c: Step, admin: Account, r: nat) {
    ByAdmin(c, admin) ==> (c.1.Configure? ==> c.1.opening >= r) && (c.1.DropPrice? ==> c.1.price >= r)
  }

  lemma StaysPriced(s: Storage, c: Step, r: nat)
    requires s.price >= r && PricedFrom(c, s.admin, r)
    ensures Stepped(s, c).price >= r
  {}

  /** The administrator configures no opening price below its reserve. */
  predicate SoundOpening(c: Step, admin: Account) {
    ByAdmin(c, admin) && c.1.Configure? ==> c.1.opening >= c.1.reserve
  }

  /** The price is at or above the reserve in every state of a run that starts so, or with an accepted
      drop, and in which the administrator configures no opening price below its reserve. */
  lemma PriceKeepsReserve(s: Storage, run: seq<Step>, first: Step)
    requires s.price >= s.reserve || (first.1.DropPrice? && Accepts(s, first))
    requires SoundOpening(first, s.admin) && forall i :: 0 <= i < |run| ==> SoundOpening(run[i], s.admin)
    ensures var s' := After(Stepped, Stepped(s, first), run); s'.price >= s'.reserve
  {
    hide Stepped, Accepts;
    KeepsReserve(s, first);
    AdminStays(s, first);
    var inv := (t: Storage) => t.admin == s.admin && t.price >= t.reserve;
    var legal := (c: Step) => SoundOpening(c, s.admin);
    forall t, c | inv(t) && legal(c) ensures inv(Stepped(t, c)) {
      KeepsReserve(t, c);
      AdminStays(t, c);
    }
    RunInvariant(Stepped, legal, inv, Stepped(s, first), run);
  }

  /** A price set by drop_price is never below the reserve, for as long as the administrator
      configures nothing. */
  lemma DroppedPriceKeepsReserve(s: Storage, run: seq<Step>, e: Env, price: nat)
    requires Lowered(e, s, price).Accepted?
    requires forall i :: 0 <= i < |run| && run[i].1.Configure? ==> !ByAdmin(run[i], s.admin)
    ensures var s' := After(Stepped, Lowered(e, s, price).storage, run); s'.price >= s'.reserve == s.reserve
  {
    hide Stepped;
    var inv := (t: Storage) => t.admin == s.admin && t.price >= t.reserve && t.reserve == s.reserve;
    var legal := (c: Step) => c.1.Configure? ==> !ByAdmin(c, s.admin);
    forall t, c | inv(t) && legal(c) ensures inv(Stepped(t, c)) { ReserveStays(t, c); }
    RunInvariant(Stepped, legal, inv, Lowered(e, s, price).storage, run);
  }

  lemma ReserveStays(s: Storage, c: Step)
    requires c.1.Configure? ==> !ByAdmin(c, s.admin)
    ensures Stepped(s, c).admin == s.admin && Stepped(s, c).reserve == s.reserve
    ensures s.price >= s.reserve ==> Stepped(s, c).price >= s.reserve
  {}

  /** Not an accepted drop to a price above the one in force. */
  predicate NoRise(s: Storage, c: Step) { Accepts(s, c) && c.1.DropPrice? ==> c.1.price <= s.price }

  /** Between two configurations of the administrator the price never rises if and only if every accepted
      drop_price names at most the price in force; the script does not check that. */
  lemma PriceFallsIff(s: Storage, run: seq<Step>)
    requires forall i :: 0 <= i < |run| && run[i].1.Configure? ==> !ByAdmin(run[i], s.admin)
    ensures (forall i :: 0 <= i < |run| ==> FallsAt(s, run, i)) <==>
      (forall i :: 0 <= i < |run| ==> NoRise(After(Stepped, s, run[..i]), run[i]))
  {
    hide Stepped, NoRise;
    forall i | 0 <= i < |run| ensures FallsAt(s, run, i) <==> NoRise(After(Stepped, s, run[..i]), run[i]) {
      AfterNext(Stepped, s, run, i);
      AdminAfter(s, run[..i]);
      PriceStep(After(Stepped, s, run[..i]), run[i]);
    }
    hide FallsAt;
  }

  /** Call i of the run does not raise the price. */
  predicate FallsAt(s: Storage, run: seq<Step>, i: nat)
    requires i < |run|
  {
    After(Stepped, s, run[..i + 1]).price <= After(Stepped, s, run[..i]).price
  }

  lemma PriceStep(s: Storage, c: Step)
    requires c.1.Configure? ==> !ByAdmin(c, s.admin)
    ensures Stepped(s, c).price <= s.price <==> NoRise(s, c)
  {}

  lemma AdminAfter(s: Storage, run: seq<Step>)
    ensures After(Stepped, s, run).admin == s.admin
  {
    hide Stepped;
    var inv := (t: Storage) => t.admin == s.admin;
    forall t, c | inv(t) ensures inv(Stepped(t, c)) { AdminStays(t, c); }
    RunInvariant(Stepped, (c: Step) => true, inv, s, run);
  }

  // ---------------------------------------------------------------- the end of a round

  /** The auction is in progress, but its round is over. */
  predicate Expired(s: Storage, now: int) { s.inProgress && now > s.start + s.round }

  /** A drop_price or cancel of the administrator: all that can still act on an expired round. */
  predicate Ends(c: Step, admin: Account) { (c.1.DropPrice? || c.1.Cancel?) && ByAdmin(c, admin) }

  /** Once a round is over, no call at that time or later but the administrator's drop_price and
      cancel changes anything: nobody can buy, and nothing can be configured or started. */
  lemma RoundOverIsFinal(s: Storage, run: seq<Step>, c: Step, now: int)
    requires Expired(s, now) && now <= c.0.now
    requires forall i :: 0 <= i < |run| ==> now <= run[i].0.now && !Ends(run[i], s.admin)
    ensures After(Stepped, s, run) == s
    ensures !Ends(c, s.admin) ==> !Accepts(After(Stepped, s, run), c)
  {
    hide Stepped, Accepts, Ends;
    var inv := (t: Storage) => t == s;
    var legal := (d: Step) => now <= d.0.now && !Ends(d, s.admin);
    forall t, d | inv(t) && legal(d) ensures inv(Stepped(t, d)) { ExpiredStep(t, d, now); }
    RunInvariant(Stepped, legal, inv, s, run);
    if legal(c) { ExpiredStep(s, c, now); }
  }

  lemma ExpiredStep(s: Storage, c: Step, now: int)
    requires Expired(s, now) && now <= c.0.now && !Ends(c, s.admin)
    ensures !Accepts(s, c) && Stepped(s, c) == s
  {}

  // ---------------------------------------------------------------- the contract, step by step

  type Reply = Contracts.Reply<seq<Op>>

  class DutchContract {
    const admin: Account
    var price: nat
    var reserve: nat
    var inProgress: bool
    var start: int
    var round: int
    var tickets: map<nat, Ticket>

    function State(): (s: Storage)
      reads this
    {
      Storage(admin, price, reserve, inProgress, start, round, tickets)
    }

    constructor (s: Storage)
      ensures State() == s
    {
      admin, price, reserve, inProgress := s.admin, s.price, s.reserve, s.inProgress;
      start, round, tickets := s.start, s.round, s.tickets;
    }

    method Buy(e: Env, to: Account, at: string) returns (reply: Reply)
      modifies this
      ensures Follows(old(State()), Called(e, old(State()), Call.Buy(to, at)), State(), reply)
    {
      if e.sender == admin || !inProgress { return Failing("failed assertion"); }
      if price > MAX_MUTEZ { return Reverted(Overflow); }
      if e.amount != price || e.now > start + round { return Failing("failed assertion"); }
      if !e.entrypoints(admin, "") { return Failing("contract does not match"); }
      if 0 !in tickets { return Failing("ticket does not exist"); }
      var ticket := tickets[0];
      tickets := tickets - {0};
      inProgress := false;
      return Emitted([Pay(admin, e.amount), Give(ticket, to, at)]);
    }

    method Cancel(e: Env, to: Account, at: string) returns (reply: Reply)
      modifies this
      ensures Follows(old(State()), Called(e, old(State()), Call.Cancel(to, at)), State(), reply)
    {
      if e.sender != admin || !inProgress { return Failing("failed assertion"); }
      if 0 !in tickets { return Failing("ticket does not exist"); }
      var ticket := tickets[0];
      tickets := tickets - {0};
      inProgress := false;
      return Emitted([Give(ticket, to, at)]);
    }

    method Configure(e: Env, opening: nat, reservePrice: nat, startTime: int, roundTime: int, ticket: Ticket)
        returns (reply: Reply)
      modifies this
      ensures Follows(old(State()),
        Called(e, old(State()), Call.Configure(opening, reservePrice, startTime, roundTime, ticket)),
        State(), reply)
    {
      if e.source != admin || inProgress { return Failing("failed assertion"); }
      tickets := tickets[0 := ticket];
      price, reserve, start, round := opening, reservePrice, startTime, roundTime;
      return Emitted([]);
    }

    method DropPrice(e: Env, newPrice: nat) returns (reply: Reply)
      modifies this
      ensures Follows(old(State()), Called(e, old(State()), Call.DropPrice(newPrice)), State(), reply)
    {
      if e.sender != admin || !inProgress || newPrice < reserve || e.now <= start + round {
        return Failing("failed assertion");
      }
      price := newPrice;
      start := e.now;
      return Emitted([]);
    }

    method Start(e: Env) returns (reply: Reply)
      modifies this
      ensures Follows(old(State()), Called(e, old(State()), Call.Start), State(), reply)
    {
      if e.source != admin || inProgress || e.now < start { return Failing("failed assertion"); }
      if 0 !in tickets { return Failing("no ticket"); }
      inProgress := true;
      start := e.now;
      return Emitted([]);
    }

    /** A whole run of calls, one after the other. */
    method Serve(run: seq<Step>)
      modifies this
      ensures State() == After(Stepped, old(State()), run)
      ensures Stocked(old(State())) ==> (inProgress ==> 0 in tickets)
    {
      ghost var first := State();
      for i := 0 to |run|
        invariant After(Stepped, first, run) == After(Stepped, State(), run[i..])
      {
        AfterRest(Stepped, State(), run, i);
        var e := run[i].0;
        var reply;
        match run[i].1 {
          case Buy(to, at) => reply := Buy(e, to, at);
          case Cancel(to, at) => reply := Cancel(e, to, at);
          case Configure(opening, reservePrice, startTime, roundTime, ticket) =>
            reply := Configure(e, opening, reservePrice, startTime, roundTime, ticket);
          case DropPrice(newPrice) => reply := DropPrice(e, newPrice);
          case Start => reply := Start(e);
        }
      }
      if Stocked(first) { TicketIsAccountedFor(first, run); }
    }
  }
}
