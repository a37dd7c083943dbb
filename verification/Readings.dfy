/** What can be read off a storage as the blockchain holds it, without the specification: the sums
    the theorems about the auction house, the ledger and the pool are about. */
module Readings {
  import opened Michelson
  import opened Encoding
  import opened Sums
  import Auction
  import AuctionRuns
  import AuctionScript
  import Fa2
  import Fa2Runs
  import Fa2Script
  import Deposit
  import PoolRuns

  // ---------------------------------------------------------------- the auction house

  function BidIn(id: Value, sale: Value): int {
    match sale
    case VPair(_, VPair(VMutez(bid), _)) => bid
    case _ => 0
  }

  /** The current bids of all auctions together. */
  ghost function BidsIn(storage: Value): int {
    match storage
    case VPair(_, VPair(_, VPair(_, VPair(_, VMap(sales))))) => Sum(sales, BidIn)
    case _ => 0
  }

  function ItemsIn(batch: seq<Value>, token: nat): int {
    if batch == [] then 0
    else
      (match batch[0]
       case VPair(VInt(id), VInt(amount)) => if id == token then amount else 0
       case _ => 0)
      + ItemsIn(batch[1..], token)
  }

  function LotsIn(lots: seq<Value>, fa2: Account, token: nat): int {
    if lots == [] then 0
    else
      (match lots[0]
       case VPair(VAddr(at), VList(batch)) => if at == fa2 then ItemsIn(batch, token) else 0
       case _ => 0)
      + LotsIn(lots[1..], fa2, token)
  }

  function AssetsIn(fa2: Account, token: nat): (Value, Value) -> int {
    (id: Value, sale: Value) =>
      match sale
      case VPair(_, VPair(_, VPair(_, VPair(_, VPair(_, VPair(_, VPair(VList(lots), _))))))) => LotsIn(lots, fa2, token)
      case _ => 0
  }

  /** What all auctions list of a token together. */
  ghost function ListedIn(storage: Value, fa2: Account, token: nat): int {
    match storage
    case VPair(_, VPair(_, VPair(_, VPair(_, VMap(sales))))) => Sum(sales, AssetsIn(fa2, token))
    case _ => 0
  }

  /** Every auction's number is below the next one. */
  predicate NumberedIn(storage: Value) {
    match storage
    case VPair(_, VPair(VInt(next), VPair(_, VPair(_, VMap(sales))))) =>
      forall id | id in sales :: id.VInt? && id.i < next
    case _ => false
  }

  lemma BidsInAre(s: Auction.Storage)
    ensures BidsIn(AuctionScript.EncodeStorage(s)) == AuctionRuns.Escrow(s)
  {
    hide EncodeMap, Sum;
    EncodedSum(s.auctions, NatKey, AuctionScript.EncodeSale, AuctionRuns.BidOf, BidIn);
  }

  lemma {:induction false} ItemsInAre(batch: seq<(nat, nat)>, token: nat)
    ensures ItemsIn(EncodeSeq(batch, AuctionScript.EncodeItem), token) == AuctionRuns.InBatch(batch, token)
  {
    if batch != [] {
      EncodeTail(batch, AuctionScript.EncodeItem);
      ItemsInAre(batch[1..], token);
    }
  }

  lemma {:induction false} LotsInAre(assets: seq<Auction.Lot>, fa2: Account, token: nat)
    ensures LotsIn(EncodeSeq(assets, AuctionScript.EncodeLot), fa2, token) == AuctionRuns.InLots(assets, fa2, token)
  {
    if assets != [] {
      EncodeTail(assets, AuctionScript.EncodeLot);
      ItemsInAre(assets[0].batch, token);
      LotsInAre(assets[1..], fa2, token);
    }
  }

  lemma AssetsInAre(id: nat, a: Auction.Sale, fa2: Account, token: nat)
    ensures AssetsIn(fa2, token)(NatKey(id), AuctionScript.EncodeSale(a)) == AuctionRuns.Listing(fa2, token)(id, a)
  {
    hide LotsIn, EncodeSeq, AuctionRuns.InLots;
    LotsInAre(a.assets, fa2, token);
  }

  lemma ListedInIs(s: Auction.Storage, fa2: Account, token: nat)
    ensures ListedIn(AuctionScript.EncodeStorage(s), fa2, token) == AuctionRuns.Listed(s, fa2, token)
  {
    hide EncodeMap, Sum, AssetsIn, AuctionRuns.Listing, AuctionScript.EncodeSale;
    forall id, a { AssetsInAre(id, a, fa2, token); }
    EncodedSum(s.auctions, NatKey, AuctionScript.EncodeSale, AuctionRuns.Listing(fa2, token), AssetsIn(fa2, token));
  }

  lemma NumberedInIff(s: Auction.Storage)
    ensures NumberedIn(AuctionScript.EncodeStorage(s)) <==> AuctionRuns.Numbered(s)
  {
    hide EncodeMap;
    forall x ensures x in AuctionScript.SalesMap(s.auctions) <==> exists id :: id in s.auctions && NatKey(id) == x {
      EncodedKeys(s.auctions, NatKey, AuctionScript.EncodeSale, x);
    }
    hide AuctionScript.SalesMap;
    if AuctionRuns.Numbered(s) { assert NumberedIn(AuctionScript.EncodeStorage(s)); }
    forall id | id in s.auctions && NumberedIn(AuctionScript.EncodeStorage(s)) ensures id < s.currentId {
      assert NatKey(id) in AuctionScript.SalesMap(s.auctions);
    }
  }

  // ---------------------------------------------------------------- the ledger

  function HoldingIn(token: nat): (Value, Value) -> int {
    (holding: Value, amount: Value) =>
      match (holding, amount)
      case (VPair(_, VInt(id)), VInt(n)) => if id == token then n else 0
      case _ => 0
  }

  /** What the ledger holds of a token together. */
  ghost function HeldIn(storage: Value, token: nat): int {
    match storage
    case VPair(VPair(_, VPair(_, VMap(ledger))), _) => Sum(ledger, HoldingIn(token))
    case _ => 0
  }

  /** The supply recorded for a token; 0 when it is not defined. */
  function SupplyIn(storage: Value, token: nat): int {
    match storage
    case VPair(_, VPair(_, VPair(_, VMap(tokens)))) =>
      (match Lookup(VInt(token), tokens)
       case VSome(VPair(_, VInt(supply))) => supply
       case _ => 0)
    case _ => 0
  }

  predicate DefinedIn(storage: Value, token: nat) {
    match storage
    case VPair(_, VPair(_, VPair(_, VMap(tokens)))) => VInt(token) in tokens
    case _ => false
  }

  /** The token ids are those below the counter, each supply is held, and only they are held. */
  ghost predicate SoundLedger(storage: Value) {
    match storage
    case VPair(VPair(_, VPair(VInt(next), VMap(ledger))), VPair(_, VPair(_, VMap(tokens)))) =>
      && (forall id: nat :: VInt(id) in tokens <==> id < next)
      && (forall id: nat :: VInt(id) in tokens ==> SupplyIn(storage, id) == HeldIn(storage, id))
      && (forall holding | holding in ledger :: holding.VPair? && holding.snd in tokens)
    case _ => false
  }

  lemma HoldingInIs(h: Fa2.Holding, amount: nat, token: nat)
    ensures HoldingIn(token)(Fa2Script.HoldingKey(h), Fa2Script.EncodeNat(amount)) == Fa2Runs.Of(token)(h, amount)
  {}

  lemma HeldInIs(s: Fa2.Storage, token: nat)
    ensures HeldIn(Fa2Script.EncodeStorage(s), token) == Fa2Runs.Held(s.ledger, token)
  {
    hide EncodeMap, Sum, HoldingIn, Fa2Runs.Of, Fa2Script.EncodeNat;
    forall h, amount { HoldingInIs(h, amount, token); }
    EncodedSum(s.ledger, Fa2Script.HoldingKey, Fa2Script.EncodeNat, Fa2Runs.Of(token), HoldingIn(token));
  }

  lemma SupplyInIs(s: Fa2.Storage, token: nat)
    ensures SupplyIn(Fa2Script.EncodeStorage(s), token) == if token in s.tokens then s.tokens[token].supply else 0
  {
    hide EncodeMap, Lookup;
    EncodedAt(s.tokens, NatKey, Fa2Script.EncodeToken, token, Fa2.Token(map[], 0));
    if token in s.tokens { assert SupplyIn(Fa2Script.EncodeStorage(s), token) == s.tokens[token].supply; }
  }

  lemma DefinedInIff(s: Fa2.Storage, token: nat)
    ensures DefinedIn(Fa2Script.EncodeStorage(s), token) <==> token in s.tokens
  {
    hide EncodeMap;
    Fa2Script.TokensAt(s.tokens, token, Fa2.Token(map[], 0));
  }

  lemma SoundLedgerIff(s: Fa2.Storage)
    ensures SoundLedger(Fa2Script.EncodeStorage(s)) <==> Fa2Runs.WellFormed(s)
  {
    hide EncodeMap, Fa2Runs.Held, HeldIn, SupplyIn;
    var ledger, tokens := Fa2Script.LedgerMap(s.ledger), Fa2Script.TokensMap(s.tokens);
    forall id: nat
      ensures VInt(id) in tokens <==> id in s.tokens
      ensures HeldIn(Fa2Script.EncodeStorage(s), id) == Fa2Runs.Held(s.ledger, id)
      ensures id in s.tokens ==> SupplyIn(Fa2Script.EncodeStorage(s), id) == s.tokens[id].supply
    {
      EncodedIn(s.tokens, NatKey, Fa2Script.EncodeToken);
      assert VInt(id) == NatKey(id);
      HeldInIs(s, id);
      SupplyInIs(s, id);
    }
    forall x ensures x in ledger <==> exists h :: h in s.ledger && Fa2Script.HoldingKey(h) == x {
      EncodedKeys(s.ledger, Fa2Script.HoldingKey, Fa2Script.EncodeNat, x);
    }
    forall h: Fa2.Holding | h in s.ledger ensures VPair(VAddr(h.0), VInt(h.1)) in ledger {
      assert Fa2Script.HoldingKey(h) in ledger;
    }
    hide Fa2Script.TokensMap, Fa2Script.LedgerMap, Fa2Script.Others;
  }

  // ---------------------------------------------------------------- the pool

  function TezIn(account: Value, entry: Value): int {
    match entry
    case VPair(_, VMutez(tez)) => tez
    case _ => 0
  }

  /** What the pool has promised beyond the tez it has set aside. */
  ghost function GapIn(storage: Value): int {
    match storage
    case VPair(VMap(deposits), VMutez(liquidity)) => Sum(deposits, TezIn) - liquidity
    case _ => 0
  }

  /** How far a balance is ahead of the liquidity. */
  function LeadIn(storage: Value, balance: int): int {
    match storage
    case VPair(_, VMutez(liquidity)) => balance - liquidity
    case _ => 0
  }

  /** The account's entry has waited long enough to earn interest. */
  predicate AgedIn(storage: Value, account: Account, now: int) {
    match storage
    case VPair(VMap(deposits), _) =>
      (match Lookup(VAddr(account), deposits)
       case VSome(VPair(VInt(since), _)) => now - since >= 100
       case _ => false)
    case _ => false
  }

  lemma AgedInIff(e: Env, p: Deposit.Pool)
    ensures AgedIn(Deposit.EncodePool(p), e.sender, e.now) <==> PoolRuns.EarnsInterest(e, p)
  {
    hide EncodeMap, Lookup;
    Deposit.DepositsAt(p.deposits, e.sender, Deposit.Entry(0, 0));
    if e.sender in p.deposits {
      assert Lookup(VAddr(e.sender), Deposit.DepositsMap(p.deposits)) ==
        VSome(Deposit.EncodeEntry(p.deposits[e.sender]));
    }
  }

  lemma GapInIs(b: PoolRuns.Bank)
    ensures GapIn(Deposit.EncodePool(b.pool)) == PoolRuns.Gap(b)
    ensures LeadIn(Deposit.EncodePool(b.pool), b.balance) == PoolRuns.Lead(b)
  {
    hide EncodeMap, Sum;
    EncodedSum(b.pool.deposits, AccountKey, Deposit.EncodeEntry, PoolRuns.TezOf, TezIn);
  }
}
