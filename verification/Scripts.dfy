/** From specifications back to the scripts: a blockchain that runs a script again and again, and
    keeps the old storage whenever it fails, holds the encoding of what the specification holds, so
    invariants of the specification's storage are invariants of the script's. For the two contracts
    that hold tez, the balance is carried along and debited by the transfers the script emits. */
module Scripts {
  import opened Michelson
  import opened Runs
  import opened Contracts
  import opened Encoding
  import opened Readings
  import Lambdas
  import Deposit
  import PoolRuns
  import Multisig
  import MultisigRuns
  import PermitSet
  import PermitSetRuns
  import PermitExpiry
  import PermitExpiryRuns
  import TicketWallet
  import TicketWalletRuns
  import DutchAuction
  import DutchAuctionRuns
  import Fa2
  import Fa2Script
  import Fa2Runs
  import Auction
  import AuctionScript
  import AuctionRuns

  /** The storage after one call of a script. */
  function Kept(storage: Value, o: Outcome): Value {
    match o
    case Ok(Push(VPair(_, next), Empty)) => next
    case _ => storage
  }

  function Execute(script: Code, e: Env, f: nat, arg: Value, storage: Value): Value {
    Kept(storage, Run(e, f, script, Push(VPair(arg, storage), Empty)))
  }

  predicate Succeeds(script: Code, e: Env, f: nat, arg: Value, storage: Value) {
    Run(e, f, script, Push(VPair(arg, storage), Empty)).Ok?
  }

  lemma FactoryScriptRuns(c: Lambdas.Cell, run: seq<Lambdas.Turn>)
    ensures After((v: Value, d: Lambdas.Turn) => Execute(Lambdas.FACTORY, d.0, d.1, Lambdas.EncodeCall(d.2), v),
        Lambdas.EncodeCell(c), run) == Lambdas.EncodeCell(After(Lambdas.Stepped, c, run))
  {
    hide Run, Lambdas.FACTORY, Lambdas.EncodeCell, Lambdas.EncodeCall, Lambdas.Called;
    var step := (v: Value, d: Lambdas.Turn) => Execute(Lambdas.FACTORY, d.0, d.1, Lambdas.EncodeCall(d.2), v);
    forall t, d ensures step(Lambdas.EncodeCell(t), d) == Lambdas.EncodeCell(Lambdas.Stepped(t, d)) {
      Lambdas.FactoryRefines(d.0, d.1, t, d.2);
    }
    RunSimulates(Lambdas.Stepped, step, Lambdas.EncodeCell, c, run);
  }

  lemma MultisigScriptRuns(s: Multisig.Storage, run: seq<MultisigRuns.Step>)
    ensures After((v: Value, c: MultisigRuns.Step) => Execute(Multisig.MULTISIG, c.0, c.1, Multisig.EncodeCall(c.2), v),
        Multisig.EncodeStorage(s), run) == Multisig.EncodeStorage(After(MultisigRuns.Stepped, s, run))
  {
    hide Run, Multisig.MULTISIG, Multisig.EncodeStorage, Multisig.EncodeCall, Multisig.Called;
    var step := (v: Value, c: MultisigRuns.Step) => Execute(Multisig.MULTISIG, c.0, c.1, Multisig.EncodeCall(c.2), v);
    forall t, c ensures step(Multisig.EncodeStorage(t), c) == Multisig.EncodeStorage(MultisigRuns.Stepped(t, c)) {
      Multisig.MultisigRefines(c.0, c.1, t, c.2);
    }
    RunSimulates(MultisigRuns.Stepped, step, Multisig.EncodeStorage, s, run);
  }

  lemma PermitSetScriptRuns(f: nat, s: PermitSet.Storage, run: seq<PermitSetRuns.Step>)
    ensures After((v: Value, c: PermitSetRuns.Step) =>
      Execute(PermitSet.PERMIT_SET, c.0, f, PermitSet.EncodeCall(c.1), v),
        PermitSet.EncodeStorage(s), run) == PermitSet.EncodeStorage(After(PermitSetRuns.Stepped, s, run))
  {
    hide Run, PermitSet.PERMIT_SET, PermitSet.EncodeStorage, PermitSet.EncodeCall, PermitSet.Called;
    var step :=
      (v: Value, c: PermitSetRuns.Step) => Execute(PermitSet.PERMIT_SET, c.0, f, PermitSet.EncodeCall(c.1), v);
    forall t, c ensures step(PermitSet.EncodeStorage(t), c) == PermitSet.EncodeStorage(PermitSetRuns.Stepped(t, c)) {
      PermitSet.PermitSetRefines(c.0, f, t, c.1);
    }
    RunSimulates(PermitSetRuns.Stepped, step, PermitSet.EncodeStorage, s, run);
  }

  lemma PermitExpiryScriptRuns(f: nat, s: PermitExpiry.Storage, run: seq<PermitExpiryRuns.Step>)
    ensures After((v: Value, c: PermitExpiryRuns.Step) =>
      Execute(PermitExpiry.PERMIT_EXPIRY, c.0, f, PermitExpiry.EncodeCall(c.1), v),
        PermitExpiry.EncodeStorage(s), run) == PermitExpiry.EncodeStorage(After(PermitExpiryRuns.Stepped, s, run))
  {
    hide Run, PermitExpiry.PERMIT_EXPIRY, PermitExpiry.EncodeStorage, PermitExpiry.EncodeCall, PermitExpiry.Called;
    var step :=
      (v: Value, c: PermitExpiryRuns.Step) =>
      Execute(PermitExpiry.PERMIT_EXPIRY, c.0, f, PermitExpiry.EncodeCall(c.1), v);
    forall t, c
      ensures step(PermitExpiry.EncodeStorage(t), c) == PermitExpiry.EncodeStorage(PermitExpiryRuns.Stepped(t, c)) {
      PermitExpiry.PermitExpiryRefines(c.0, f, t, c.1);
    }
    RunSimulates(PermitExpiryRuns.Stepped, step, PermitExpiry.EncodeStorage, s, run);
  }

  lemma WalletScriptRuns(f: nat, s: TicketWallet.Storage, run: seq<TicketWalletRuns.Step>)
    ensures After((v: Value, c: TicketWalletRuns.Step) =>
      Execute(TicketWallet.WALLET, c.0, f, TicketWallet.EncodeCall(c.1), v),
        TicketWallet.EncodeStorage(s), run) == TicketWallet.EncodeStorage(After(TicketWalletRuns.Stepped, s, run))
  {
    hide Run, TicketWallet.WALLET, TicketWallet.EncodeStorage, TicketWallet.EncodeCall, TicketWallet.Called;
    var step :=
      (v: Value, c: TicketWalletRuns.Step) => Execute(TicketWallet.WALLET, c.0, f, TicketWallet.EncodeCall(c.1), v);
    forall t, c
      ensures step(TicketWallet.EncodeStorage(t), c) == TicketWallet.EncodeStorage(TicketWalletRuns.Stepped(t, c)) {
      TicketWallet.WalletRefines(c.0, f, t, c.1);
    }
    RunSimulates(TicketWalletRuns.Stepped, step, TicketWallet.EncodeStorage, s, run);
  }

  lemma DutchScriptRuns(f: nat, s: DutchAuction.Storage, run: seq<DutchAuctionRuns.Step>)
    ensures After((v: Value, c: DutchAuctionRuns.Step) =>
      Execute(DutchAuction.DUTCH, c.0, f, DutchAuction.EncodeCall(c.1), v),
        DutchAuction.EncodeStorage(s), run) == DutchAuction.EncodeStorage(After(DutchAuctionRuns.Stepped, s, run))
  {
    hide Run, DutchAuction.DUTCH, DutchAuction.EncodeStorage, DutchAuction.EncodeCall, DutchAuction.Called;
    var step :=
      (v: Value, c: DutchAuctionRuns.Step) => Execute(DutchAuction.DUTCH, c.0, f, DutchAuction.EncodeCall(c.1), v);
    forall t, c
      ensures step(DutchAuction.EncodeStorage(t), c) == DutchAuction.EncodeStorage(DutchAuctionRuns.Stepped(t, c)) {
      DutchAuction.DutchRefines(c.0, f, t, c.1);
    }
    RunSimulates(DutchAuctionRuns.Stepped, step, DutchAuction.EncodeStorage, s, run);
  }

  ghost function Fa2Turn(f: nat): (Value, Fa2Runs.Step) -> Value {
    (v: Value, c: Fa2Runs.Step) => Execute(Fa2Script.FA2, c.0, f, Fa2Script.EncodeCall(c.1), v)
  }

  lemma Fa2ScriptRuns(f: nat, s: Fa2.Storage, run: seq<Fa2Runs.Step>)
    ensures After(Fa2Turn(f), Fa2Script.EncodeStorage(s), run) ==
      Fa2Script.EncodeStorage(After(Fa2Runs.Stepped, s, run))
  {
    hide Run, Fa2Script.FA2, Fa2Script.EncodeStorage, Fa2Script.EncodeCall, Fa2.Called;
    var step := Fa2Turn(f);
    forall t, c ensures step(Fa2Script.EncodeStorage(t), c) == Fa2Script.EncodeStorage(Fa2Runs.Stepped(t, c)) {
      Fa2Script.Fa2Refines(c.0, f, t, c.1);
    }
    RunSimulates(Fa2Runs.Stepped, step, Fa2Script.EncodeStorage, s, run);
  }

  /** The supply theorem, of the script itself: whatever is called, in its storage every recorded
      supply is what the ledger holds and the token ids are those below the counter. */
  lemma ScriptKeepsSupply(f: nat, s: Fa2.Storage, run: seq<Fa2Runs.Step>)
    requires SoundLedger(Fa2Script.EncodeStorage(s))
    ensures SoundLedger(After(Fa2Turn(f), Fa2Script.EncodeStorage(s), run))
  {
    hide Run, Fa2Script.EncodeStorage, Fa2Runs.WellFormed, Fa2Runs.Stepped, Execute, SoundLedger;
    Fa2ScriptRuns(f, s, run);
    SoundLedgerIff(s);
    Fa2Runs.SupplyIsHeld(s, run);
    SoundLedgerIff(After(Fa2Runs.Stepped, s, run));
  }

  /** What a mint of the script that succeeds adds to the holdings of a token defined already. */
  ghost function ScriptMintedAgain(f: nat, token: nat): (Value, Fa2Runs.Step) -> int {
    (v: Value, c: Fa2Runs.Step) =>
      if c.1.Mint? && c.1.id == token && DefinedIn(v, token)
        && Succeeds(Fa2Script.FA2, c.0, f, Fa2Script.EncodeCall(c.1), v)
      then c.1.amount else 0
  }

  lemma ScriptMintedAgainIs(f: nat, token: nat, s: Fa2.Storage, c: Fa2Runs.Step)
    ensures ScriptMintedAgain(f, token)(Fa2Script.EncodeStorage(s), c) == Fa2Runs.MintedAgain(token)(s, c)
    ensures Fa2Turn(f)(Fa2Script.EncodeStorage(s), c) == Fa2Script.EncodeStorage(Fa2Runs.Stepped(s, c))
  {
    hide Run, Fa2Script.FA2, Fa2Script.EncodeStorage, Fa2Script.EncodeCall, Fa2.Called, DefinedIn;
    DefinedInIff(s, token);
    Fa2Script.Fa2Refines(c.0, f, s, c.1);
  }

  /** From any storage, the originated one included: a supply gets ahead of what the ledger holds by
      nothing, and falls back by exactly what is minted again. */
  lemma ScriptSupply(f: nat, s: Fa2.Storage, run: seq<Fa2Runs.Step>, token: nat)
    ensures var v, v' := Fa2Script.EncodeStorage(s), After(Fa2Turn(f), Fa2Script.EncodeStorage(s), run);
      SupplyIn(v', token) - HeldIn(v', token) ==
        SupplyIn(v, token) - HeldIn(v, token) - Total(Fa2Turn(f), ScriptMintedAgain(f, token), v, run)
  {
    hide Fa2Turn, ScriptMintedAgain, Fa2Script.EncodeStorage, Fa2Runs.Stepped, SupplyIn, HeldIn, Fa2Runs.Held,
      Fa2Runs.MintedAgain;
    forall t, c { ScriptMintedAgainIs(f, token, t, c); }
    RunGainsAlike(Fa2Runs.Stepped, Fa2Turn(f), Fa2Script.EncodeStorage, Fa2Runs.MintedAgain(token),
      ScriptMintedAgain(f, token), s, run);
    Fa2ScriptRuns(f, s, run);
    var s' := After(Fa2Runs.Stepped, s, run);
    HeldInIs(s, token); SupplyInIs(s, token);
    HeldInIs(s', token); SupplyInIs(s', token);
    Fa2Runs.SupplyIsRightIff(s, run, token);
  }

  // ---------------------------------------------------------------- scripts that hold tez

  /** A contract as the blockchain sees it. */
  datatype Deployment = Deployment(storage: Value, balance: int)

  /** What a call of a script emits; nothing if it fails. */
  function Emits(script: Code, e: Env, f: nat, arg: Value, storage: Value): seq<Value> {
    match Run(e, f, script, Push(VPair(arg, storage), Empty))
    case Ok(Push(VPair(VList(ops), _), Empty)) => ops
    case _ => []
  }

  /** The tez in a list of operations. */
  function Spent(ops: seq<Value>): int {
    if ops == [] then 0 else (if ops[0].VTransfer? then ops[0].sent else 0) + Spent(ops[1..])
  }

  /** A call that succeeds brings its tez and takes away those it emits. */
  function Transact(script: Code, e: Env, f: nat, arg: Value, d: Deployment): Deployment {
    match Run(e, f, script, Push(VPair(arg, d.storage), Empty))
    case Ok(Push(VPair(VList(ops), next), Empty)) => Deployment(next, d.balance + e.amount - Spent(ops))
    case _ => d
  }

  ghost function PoolImage(b: PoolRuns.Bank): Deployment { Deployment(Deposit.EncodePool(b.pool), b.balance) }

  function PoolTurn(f: nat): (Deployment, PoolRuns.Step) -> Deployment {
    (d: Deployment, c: PoolRuns.Step) => Transact(Deposit.POOL, c.0, f, Deposit.EncodeCall(c.1), d)
  }

  lemma PoolTransacts(f: nat, b: PoolRuns.Bank, c: PoolRuns.Step)
    requires f >= 2
    ensures PoolTurn(f)(PoolImage(b), c) == PoolImage(PoolRuns.Stepped(b, c))
  {
    hide Run, Deposit.POOL, Deposit.EncodePool, Deposit.EncodeCall, Deposit.Deposited, Deposit.Withdrawn;
    Deposit.PoolRefines(c.0, f, b.pool, c.1);
    var r := Deposit.Called(c.0, b.pool, c.1);
    if r.Accepted? {
      DepositPaysNothing(c.0, b.pool, c.1);
      var op := VTransfer(VUnit, r.ops, c.0.sender, "");
      assert [op][1..] == [];
      assert Spent([op]) == r.ops;
    }
  }

  lemma DepositPaysNothing(e: Env, p: Deposit.Pool, call: Deposit.Call)
    ensures call.Deposit? && Deposit.Called(e, p, call).Accepted? ==> Deposit.Called(e, p, call).ops == 0
  {}

  /** The script's storage and balance after any run are those of the specification. */
  lemma PoolScriptRuns(f: nat, b: PoolRuns.Bank, run: seq<PoolRuns.Step>)
    requires f >= 2
    ensures After(PoolTurn(f), PoolImage(b), run) == PoolImage(After(PoolRuns.Stepped, b, run))
  {
    hide PoolTurn, PoolImage, PoolRuns.Stepped;
    forall d, c ensures PoolTurn(f)(PoolImage(d), c) == PoolImage(PoolRuns.Stepped(d, c)) { PoolTransacts(f, d, c); }
    RunSimulates(PoolRuns.Stepped, PoolTurn(f), PoolImage, b, run);
  }

  /** The interest of a call of the script that succeeds, read off the storage. */
  ghost function ScriptEarning(f: nat): (Deployment, PoolRuns.Step) -> int {
    (d: Deployment, c: PoolRuns.Step) =>
      if AgedIn(d.storage, c.0.sender, c.0.now) && Succeeds(Deposit.POOL, c.0, f, Deposit.EncodeCall(c.1), d.storage)
      then 1000000 else 0
  }

  ghost function ScriptUnrecorded(f: nat): (Deployment, PoolRuns.Step) -> int {
    (d: Deployment, c: PoolRuns.Step) =>
      if c.1.Withdraw? && Succeeds(Deposit.POOL, c.0, f, Deposit.EncodeCall(c.1), d.storage) then c.0.amount else 0
  }

  lemma ScriptEarningIs(f: nat, b: PoolRuns.Bank, c: PoolRuns.Step)
    requires f >= 2
    ensures ScriptEarning(f)(PoolImage(b), c) == PoolRuns.Earning(b, c)
    ensures ScriptUnrecorded(f)(PoolImage(b), c) == PoolRuns.Unrecorded(b, c)
  {
    hide Run, Deposit.POOL, Deposit.EncodePool, Deposit.EncodeCall, Deposit.Called, AgedIn, PoolRuns.EarnsInterest;
    AgedInIff(c.0, b.pool);
    Deposit.PoolRefines(c.0, f, b.pool, c.1);
  }

  lemma ScriptEarningsAdd(f: nat, b: PoolRuns.Bank, run: seq<PoolRuns.Step>)
    requires f >= 2
    ensures Total(PoolTurn(f), ScriptEarning(f), PoolImage(b), run) == Total(PoolRuns.Stepped, PoolRuns.Earning, b, run)
    ensures Total(PoolTurn(f), ScriptUnrecorded(f), PoolImage(b), run) ==
      Total(PoolRuns.Stepped, PoolRuns.Unrecorded, b, run)
  {
    hide PoolTurn, PoolImage, PoolRuns.Stepped, ScriptEarning, ScriptUnrecorded, PoolRuns.Earning, PoolRuns.Unrecorded,
      Total;
    forall t, c
      ensures PoolTurn(f)(PoolImage(t), c) == PoolImage(PoolRuns.Stepped(t, c))
      ensures ScriptEarning(f)(PoolImage(t), c) == PoolRuns.Earning(t, c)
      ensures ScriptUnrecorded(f)(PoolImage(t), c) == PoolRuns.Unrecorded(t, c)
    {
      PoolTransacts(f, t, c);
      ScriptEarningIs(f, t, c);
    }
    RunGainsAlike(PoolRuns.Stepped, PoolTurn(f), PoolImage, PoolRuns.Earning, ScriptEarning(f), b, run);
    RunGainsAlike(PoolRuns.Stepped, PoolTurn(f), PoolImage, PoolRuns.Unrecorded, ScriptUnrecorded(f), b, run);
  }

  /** The gap theorem, of the script itself. */
  lemma ScriptGap(f: nat, b: PoolRuns.Bank, run: seq<PoolRuns.Step>)
    requires f >= 2
    ensures var d, d' := PoolImage(b), After(PoolTurn(f), PoolImage(b), run);
      && GapIn(d'.storage) == GapIn(d.storage) + Total(PoolTurn(f), ScriptEarning(f), d, run)
      && LeadIn(d'.storage, d'.balance) ==
        LeadIn(d.storage, d.balance) + Total(PoolTurn(f), ScriptUnrecorded(f), d, run)
  {
    hide PoolTurn, Total, PoolRuns.Stepped, PoolRuns.Gap, PoolRuns.Lead, GapIn, LeadIn, Deposit.EncodePool;
    PoolScriptRuns(f, b, run);
    PoolRuns.GapIsExact(b, run);
    ScriptEarningsAdd(f, b, run);
    GapInIs(b);
    GapInIs(After(PoolRuns.Stepped, b, run));
  }

  ghost function AuctionImage(h: AuctionRuns.House): Deployment {
    Deployment(AuctionScript.EncodeStorage(h.storage), h.balance)
  }

  function AuctionTurn(f: nat): (Deployment, AuctionRuns.Step) -> Deployment {
    (d: Deployment, c: AuctionRuns.Step) => Transact(AuctionScript.AUCTION, c.0, f, AuctionScript.EncodeCall(c.1), d)
  }

  lemma {:induction false} SpentIsPaid(ops: seq<Auction.Op>)
    ensures Spent(EncodeSeq(ops, AuctionScript.EncodeOp)) == AuctionRuns.Paid(ops)
  {
    if ops != [] {
      EncodeTail(ops, AuctionScript.EncodeOp);
      SpentIsPaid(ops[1..]);
    }
  }

  lemma AuctionTransacts(f: nat, h: AuctionRuns.House, c: AuctionRuns.Step)
    requires f > 0
    ensures AuctionTurn(f)(AuctionImage(h), c) == AuctionImage(AuctionRuns.Stepped(h, c))
    ensures var r := Auction.Called(c.0, h.storage, c.1);
      Emits(AuctionScript.AUCTION, c.0, f, AuctionScript.EncodeCall(c.1), AuctionScript.EncodeStorage(h.storage)) ==
      if r.Accepted? then EncodeSeq(r.ops, AuctionScript.EncodeOp) else []
  {
    hide Run, AuctionScript.AUCTION, AuctionScript.EncodeStorage, AuctionScript.EncodeCall, Auction.Called, EncodeSeq,
      Spent;
    AuctionScript.AuctionRefines(c.0, f, h.storage, c.1);
    var r := Auction.Called(c.0, h.storage, c.1);
    if r.Accepted? { SpentIsPaid(r.ops); }
  }

  /** The script's storage and balance after any run are those of the specification. */
  lemma AuctionScriptRuns(f: nat, h: AuctionRuns.House, run: seq<AuctionRuns.Step>)
    requires f > 0
    ensures After(AuctionTurn(f), AuctionImage(h), run) == AuctionImage(After(AuctionRuns.Stepped, h, run))
  {
    hide AuctionTurn, AuctionImage, AuctionRuns.Stepped;
    forall g, c ensures AuctionTurn(f)(AuctionImage(g), c) == AuctionImage(AuctionRuns.Stepped(g, c)) {
      AuctionTransacts(f, g, c);
    }
    RunSimulates(AuctionRuns.Stepped, AuctionTurn(f), AuctionImage, h, run);
  }

  /** Solvency, of the script itself: whatever is called, its balance exceeds the bids in its storage
      by what it did at the start. */
  lemma ScriptSolvency(f: nat, h: AuctionRuns.House, run: seq<AuctionRuns.Step>)
    requires f > 0 && NumberedIn(AuctionImage(h).storage)
    ensures var d, d' := AuctionImage(h), After(AuctionTurn(f), AuctionImage(h), run);
      && NumberedIn(d'.storage)
      && d'.balance - BidsIn(d'.storage) == d.balance - BidsIn(d.storage)
  {
    hide AuctionTurn, AuctionRuns.Stepped, AuctionRuns.Escrow, AuctionRuns.Numbered, AuctionScript.EncodeStorage,
      BidsIn, NumberedIn;
    var g := After(AuctionRuns.Stepped, h, run);
    AuctionScriptRuns(f, h, run);
    NumberedInIff(h.storage);
    AuctionRuns.Solvency(h, run);
    NumberedInIff(g.storage);
    BidsInAre(h.storage);
    BidsInAre(g.storage);
  }

  // ---------------------------------------------------------------- tokens in emitted operations

  /** What `who` gains by a list of moves out of one account, as the operation spells them. */
  function MoveFlow(moves: seq<Value>, from: Account, who: Account, token: nat): int {
    if moves == [] then 0
    else
      (match moves[0]
       case VPair(VAddr(to), VPair(VInt(id), VInt(amount))) =>
         if id == token then (if to == who then amount else 0) - (if from == who then amount else 0) else 0
       case _ => 0)
      + MoveFlow(moves[1..], from, who, token)
  }

  function BatchFlow(batch: seq<Value>, who: Account, token: nat): int {
    if batch == [] then 0
    else
      (match batch[0]
       case VPair(VAddr(from), VList(moves)) => MoveFlow(moves, from, who, token)
       case _ => 0)
      + BatchFlow(batch[1..], who, token)
  }

  /** What `who` gains of a token by the calls of its FA2 contract's transfer entrypoint. */
  function TokenFlow(ops: seq<Value>, who: Account, fa2: Account, token: nat): int {
    if ops == [] then 0
    else
      (match ops[0]
       case VTransfer(VList(batch), _, to, at) =>
         if to == fa2 && at == "transfer" then BatchFlow(batch, who, token) else 0
       case _ => 0)
      + TokenFlow(ops[1..], who, fa2, token)
  }

  lemma {:induction false} MoveFlowIs(moves: seq<Auction.Move>, from: Account, who: Account, token: nat)
    ensures MoveFlow(EncodeSeq(moves, AuctionScript.EncodeMove), from, who, token) ==
      AuctionRuns.MovedTo(moves, who, token) - (if from == who then AuctionRuns.Moved(moves, token) else 0)
  {
    if moves != [] {
      EncodeTail(moves, AuctionScript.EncodeMove);
      MoveFlowIs(moves[1..], from, who, token);
    }
  }

  lemma {:induction false} TokenFlowIs(ops: seq<Auction.Op>, who: Account, fa2: Account, token: nat)
    ensures TokenFlow(EncodeSeq(ops, AuctionScript.EncodeOp), who, fa2, token) == AuctionRuns.Flow(ops, who, fa2, token)
  {
    if ops != [] {
      EncodeTail(ops, AuctionScript.EncodeOp);
      TokenFlowIs(ops[1..], who, fa2, token);
      if ops[0].MoveTokens? {
        var moves := VList(EncodeSeq(ops[0].moves, AuctionScript.EncodeMove));
        var batch := [VPair(VAddr(ops[0].from), moves)];
        assert batch[1..] == [];
        MoveFlowIs(ops[0].moves, ops[0].from, who, token);
        assert BatchFlow(batch, who, token) == MoveFlow(moves.elems, ops[0].from, who, token);
      }
    }
  }

  /** What the house gains of a token in one call of the script, read off the emitted operations. */
  function ScriptGain(f: nat, fa2: Account, token: nat): (Deployment, AuctionRuns.Step) -> int {
    (d: Deployment, c: AuctionRuns.Step) =>
      TokenFlow(Emits(AuctionScript.AUCTION, c.0, f, AuctionScript.EncodeCall(c.1), d.storage), c.0.self, fa2, token)
  }

  lemma ScriptGainIs(f: nat, fa2: Account, token: nat, h: AuctionRuns.House, c: AuctionRuns.Step)
    requires f > 0
    ensures ScriptGain(f, fa2, token)(AuctionImage(h), c) == AuctionRuns.Gain(fa2, token)(h, c)
  {
    hide Run, Emits, AuctionScript.AUCTION, AuctionScript.EncodeStorage, AuctionScript.EncodeCall, Auction.Called,
      EncodeSeq, Transact;
    AuctionTransacts(f, h, c);
    var r := Auction.Called(c.0, h.storage, c.1);
    if r.Accepted? { TokenFlowIs(r.ops, c.0.self, fa2, token); }
  }

  /** Escrow, of the script itself: the tokens its emitted transfers brought in, minus those they sent
      out, are those its live auctions list now minus those they listed at the start. */
  lemma ScriptEscrow(f: nat, h: AuctionRuns.House, run: seq<AuctionRuns.Step>, self: Account, fa2: Account, token: nat)
    requires f > 0 && AuctionRuns.Numbered(h.storage) && AuctionRuns.Outsiders(h.storage, self)
    requires forall i :: 0 <= i < |run| ==> AuctionRuns.FromOutside(run[i], self)
    ensures var d, d' := AuctionImage(h), After(AuctionTurn(f), AuctionImage(h), run);
      ListedIn(d'.storage, fa2, token) == ListedIn(d.storage, fa2, token) +
        Total(AuctionTurn(f), ScriptGain(f, fa2, token), AuctionImage(h), run)
  {
    hide AuctionTurn, ListedIn, AuctionScript.EncodeStorage, ScriptGain, AuctionRuns.Stepped, AuctionRuns.Gain,
      AuctionRuns.Listed, AuctionRuns.Numbered, AuctionRuns.Outsiders, AuctionRuns.FromOutside, After, Total;
    AuctionScriptRuns(f, h, run);
    AuctionRuns.AssetsInEscrow(h, run, self, fa2, token);
    ListedInIs(h.storage, fa2, token);
    ListedInIs(After(AuctionRuns.Stepped, h, run).storage, fa2, token);
    ScriptGainsAdd(f, h, run, fa2, token);
  }

  lemma ScriptGainsAdd(f: nat, h: AuctionRuns.House, run: seq<AuctionRuns.Step>, fa2: Account, token: nat)
    requires f > 0
    ensures Total(AuctionTurn(f), ScriptGain(f, fa2, token), AuctionImage(h), run) ==
      Total(AuctionRuns.Stepped, AuctionRuns.Gain(fa2, token), h, run)
  {
    hide AuctionTurn, AuctionImage, ScriptGain, AuctionRuns.Stepped, AuctionRuns.Gain, Total;
    forall g, c ensures AuctionTurn(f)(AuctionImage(g), c) == AuctionImage(AuctionRuns.Stepped(g, c)) {
      AuctionTransacts(f, g, c);
    }
    forall g, c ensures ScriptGain(f, fa2, token)(AuctionImage(g), c) == AuctionRuns.Gain(fa2, token)(g, c) {
      ScriptGainIs(f, fa2, token, g, c);
    }
    RunGainsAlike(AuctionRuns.Stepped, AuctionTurn(f), AuctionImage, AuctionRuns.Gain(fa2, token),
      ScriptGain(f, fa2, token), h, run);
  }
}
