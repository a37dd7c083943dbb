/** Supply, conservation and authority of the multi-asset ledger, over every batch and every run. */
module Fa2Runs {
  import opened Michelson
  import opened Contracts
  import opened Fa2
  import opened Sums
  import opened Runs

  type Step = (Env, Call)

  function Stepped(s: Storage, c: Step): Storage {
    Next(s, Called(c.0, s, c.1))
  }

  // ---------------------------------------------------------------- conservation

  function Of(token: nat): (Holding, nat) -> int {
    (h: Holding, amount) => if h.1 == token then amount else 0
  }

  /** What all owners hold of a token together. */
  ghost function Held(ledger: map<Holding, nat>, token: nat): int { Sum(ledger, Of(token)) }

  lemma HeldPut(ledger: map<Holding, nat>, h: Holding, amount: nat, token: nat)
    ensures Held(ledger[h := amount], token) ==
      Held(ledger, token) + (if h.1 == token then amount - Owned(ledger, h) else 0)
  {
    SumPut(ledger, Of(token), h, amount);
  }

  /** Only the ledger changes, every key keeps a token id that is defined, nothing is created. */
  predicate OnlyMoves(s: Storage, s': Storage) {
    && s' == s.(ledger := s'.ledger)
    && s.ledger.Keys <= s'.ledger.Keys
    && forall h | h in s'.ledger :: h in s.ledger || h.1 in s.tokens
  }

  lemma SentMoves(e: Env, s: Storage, from: Account, tx: Tx, token: nat)
    requires Sent(e, s, from, tx).Accepted?
    ensures var s' := Sent(e, s, from, tx).storage; OnlyMoves(s, s') && Held(s'.ledger, token) == Held(s.ledger, token)
  {
    if tx.amount > 0 {
      var debited := Debited(s.ledger, (from, tx.token), tx.amount);
      HeldPut(s.ledger, (from, tx.token), Owned(s.ledger, (from, tx.token)) - tx.amount, token);
      HeldPut(debited, (tx.to, tx.token), Owned(debited, (tx.to, tx.token)) + tx.amount, token);
    }
  }

  lemma {:induction false} SentAllMoves(e: Env, s: Storage, from: Account, txs: seq<Tx>, token: nat)
    requires SentAll(e, s, from, txs).Accepted?
    ensures var s' := SentAll(e, s, from, txs).storage;
      OnlyMoves(s, s') && Held(s'.ledger, token) == Held(s.ledger, token)
    decreases |txs|
  {
    hide Sent, Held;
    if txs != [] {
      SentMoves(e, s, from, txs[0], token);
      SentAllMoves(e, Sent(e, s, from, txs[0]).storage, from, txs[1..], token);
    }
  }

  /** However a batch is composed, and also when a transfer goes to its own sender, an accepted
      batch leaves what all owners hold of each token together as it was. */
  lemma {:induction false} TransferConserves(e: Env, s: Storage, transfers: seq<Transfer>, token: nat)
    requires Transferred(e, s, transfers).Accepted?
    ensures var s' := Transferred(e, s, transfers).storage;
      OnlyMoves(s, s') && Held(s'.ledger, token) == Held(s.ledger, token)
    decreases |transfers|
  {
    hide SentAll, Held;
    if transfers != [] {
      SentAllMoves(e, s, transfers[0].from, transfers[0].txs, token);
      TransferConserves(e, SentAll(e, s, transfers[0].from, transfers[0].txs).storage, transfers[1..], token);
    }
  }

  // ---------------------------------------------------------------- who gains and who loses

  function Gained(txs: seq<Tx>, h: Holding): nat {
    if txs == [] then 0
    else (if (txs[0].to, txs[0].token) == h then txs[0].amount else 0) + Gained(txs[1..], h)
  }

  function Spent(txs: seq<Tx>, token: nat): nat {
    if txs == [] then 0 else (if txs[0].token == token then txs[0].amount else 0) + Spent(txs[1..], token)
  }

  /** What a batch adds to one holding, read off the batch alone. */
  function Net(transfers: seq<Transfer>, h: Holding): int {
    if transfers == [] then 0
    else Gained(transfers[0].txs, h) - (if transfers[0].from == h.0 then Spent(transfers[0].txs, h.1) else 0)
         + Net(transfers[1..], h)
  }

  lemma {:induction false} SentAllNet(e: Env, s: Storage, from: Account, txs: seq<Tx>, h: Holding)
    requires SentAll(e, s, from, txs).Accepted?
    ensures Owned(SentAll(e, s, from, txs).storage.ledger, h) ==
      Owned(s.ledger, h) + Gained(txs, h) - (if from == h.0 then Spent(txs, h.1) else 0)
    ensures from == h.0 && Spent(txs, h.1) > 0 ==> MaySend(e, s, h.0, h.1)
    decreases |txs|
  {
    if txs != [] {
      SentMoves(e, s, from, txs[0], 0);
      SentAllNet(e, Sent(e, s, from, txs[0]).storage, from, txs[1..], h);
    }
  }

  /** Every balance after an accepted batch is the balance before plus the batch's net amount, and
      whoever loses tokens was the caller or had the caller (operator or administrator) act for it. */
  lemma {:induction false} TransferNet(e: Env, s: Storage, transfers: seq<Transfer>, h: Holding)
    requires Transferred(e, s, transfers).Accepted?
    ensures Owned(Transferred(e, s, transfers).storage.ledger, h) == Owned(s.ledger, h) + Net(transfers, h)
    ensures Net(transfers, h) < 0 ==>
      e.sender == h.0 || e.sender == s.administrator || Permission(h.0, e.sender, h.1) in s.operators
    decreases |transfers|
  {
    hide SentAll;
    if transfers != [] {
      var s' := SentAll(e, s, transfers[0].from, transfers[0].txs).storage;
      SentAllNet(e, s, transfers[0].from, transfers[0].txs, h);
      SentAllMoves(e, s, transfers[0].from, transfers[0].txs, 0);
      TransferNet(e, s', transfers[1..], h);
    }
  }

  lemma {:induction false} OperatorsAreGranted(e: Env, s: Storage, updates: seq<OperatorUpdate>, p: Permission)
    requires UpdatedAll(e, s, updates).Accepted?
    ensures var s' := UpdatedAll(e, s, updates).storage;
      && s' == s.(operators := s'.operators)
      && ((p in s'.operators) != (p in s.operators) ==> e.sender == p.owner || e.sender == s.administrator)
    decreases |updates|
  {
    if updates != [] { OperatorsAreGranted(e, UpdatedOne(e, s, updates[0]).storage, updates[1..], p); }
  }

  /** No call of any kind takes tokens from an owner, or changes who may act for an owner, without
      the authority of that owner or of the administrator. */
  lemma OnlyTheAuthorised(e: Env, s: Storage, call: Call, h: Holding, p: Permission)
    ensures var s' := Stepped(s, (e, call));
      && (Owned(s'.ledger, h) < Owned(s.ledger, h) ==>
            e.sender == h.0 || e.sender == s.administrator || Permission(h.0, e.sender, h.1) in s.operators)
      && ((p in s'.operators) != (p in s.operators) ==> e.sender == p.owner || e.sender == s.administrator)
  {
    hide Transferred, UpdatedAll, Net;
    match call
    case TransferAll(transfers) =>
      if Transferred(e, s, transfers).Accepted? {
        TransferNet(e, s, transfers, h);
        TransferConserves(e, s, transfers, 0);
      }
    case UpdateOperators(updates) =>
      if UpdatedAll(e, s, updates).Accepted? { OperatorsAreGranted(e, s, updates, p); }
    case _ =>
  }

  // ---------------------------------------------------------------- supply

  /** The recorded supply of a token is what its owners hold. */
  ghost predicate Backed(s: Storage, token: nat) {
    token in s.tokens && s.tokens[token].supply == Held(s.ledger, token)
  }

  /** The token ids are 0 .. allTokens - 1, each backed, and only they appear in the ledger. */
  ghost predicate WellFormed(s: Storage) {
    && (forall id: nat :: id in s.tokens <==> id < s.allTokens)
    && (forall id: nat :: id in s.tokens ==> Backed(s, id))
    && (forall h: Holding :: h in s.ledger ==> h.1 in s.tokens)
  }

  lemma {:induction false} HeldNothing(ledger: map<Holding, nat>, token: nat)
    ensures Held(ledger, token) >= 0
    ensures Held(ledger, token) == 0 <==> forall h: Holding :: h in ledger && h.1 == token ==> ledger[h] == 0
    decreases |ledger|
  {
    if ledger != map[] {
      var h: Holding :| h in ledger;
      SumRemove(ledger, Of(token), h);
      HeldNothing(ledger - {h}, token);
      assert forall j: Holding :: j in ledger ==> j == h || (j in ledger - {h} && (ledger - {h})[j] == ledger[j]);
    }
  }

  lemma MintKeepsWellFormed(e: Env, s: Storage, to: Account, amount: nat, about: map<string, string>, id: nat)
    requires WellFormed(s) && Minted(e, s, to, amount, about, id).Accepted?
    ensures WellFormed(Minted(e, s, to, amount, about, id).storage)
  {
    var s' := Minted(e, s, to, amount, about, id).storage;
    HeldNothing(s.ledger, id);
    forall token: nat | token in s'.tokens ensures Backed(s', token) {
      HeldPut(s.ledger, (to, id), Owned(s.ledger, (to, id)) + amount, token);
      hide Held;
    }
  }

  lemma StepKeepsWellFormed(e: Env, s: Storage, call: Call)
    requires WellFormed(s)
    ensures WellFormed(Stepped(s, (e, call)))
  {
    hide Transferred, UpdatedAll, Minted, Held;
    match call
    case Mint(to, amount, about, id) =>
      if Minted(e, s, to, amount, about, id).Accepted? { MintKeepsWellFormed(e, s, to, amount, about, id); }
    case TransferAll(transfers) =>
      if Transferred(e, s, transfers).Accepted? {
        var s' := Transferred(e, s, transfers).storage;
        TransferConserves(e, s, transfers, 0);
        forall token: nat | token in s'.tokens ensures Backed(s', token) { TransferConserves(e, s, transfers, token); }
      }
    case UpdateOperators(updates) =>
      if UpdatedAll(e, s, updates).Accepted? { OperatorsAreGranted(e, s, updates, Permission("", "", 0)); }
    case _ =>
  }

  /** From a well-formed storage every run of every entrypoint keeps each supply equal to what the
      owners hold, and the token ids exactly those below the counter. */
  lemma SupplyIsHeld(s: Storage, run: seq<Step>)
    requires WellFormed(s)
    ensures WellFormed(After(Stepped, s, run))
  {
    hide Stepped, WellFormed;
    forall t, c: Step | WellFormed(t) ensures WellFormed(Stepped(t, c)) { StepKeepsWellFormed(c.0, t, c.1); }
    RunInvariant(Stepped, (c: Step) => true, WellFormed, s, run);
  }

  // ---------------------------------------------------------------- supply, from any storage

  /** The part of a token's recorded supply that nobody holds; a token not yet defined has supply 0. */
  ghost function Unheld(s: Storage, token: nat): int {
    (if token in s.tokens then s.tokens[token].supply else 0) - Held(s.ledger, token)
  }

  predicate Mints(s: Storage, c: Step, token: nat) {
    Called(c.0, s, c.1).Accepted? && c.1.Mint? && c.1.id == token
  }

  function TimesMinted(token: nat): (Storage, Step) -> int {
    (s: Storage, c: Step) => One(Mints(s, c, token))
  }

  /** What an accepted mint adds to the holdings of a token that is defined already: the script
      leaves the recorded supply as it is. */
  function MintedAgain(token: nat): (Storage, Step) -> int {
    (s: Storage, c: Step) => if Mints(s, c, token) && token in s.tokens then c.1.amount else 0
  }

  lemma StepUnheld(s: Storage, c: Step, token: nat)
    ensures Unheld(Stepped(s, c), token) == Unheld(s, token) - MintedAgain(token)(s, c)
  {
    hide Transferred, UpdatedAll, Held;
    match c.1
    case Mint(to, amount, _, id) => HeldPut(s.ledger, (to, id), Owned(s.ledger, (to, id)) + amount, token);
    case TransferAll(transfers) =>
      if Transferred(c.0, s, transfers).Accepted? { TransferConserves(c.0, s, transfers, token); }
    case _ => CountersStay(s, c);
  }

  /** Only mint touches the tokens and the counter, and only transfer and mint the ledger. */
  lemma CountersStay(s: Storage, c: Step)
    requires !c.1.Mint?
    ensures var s' := Stepped(s, c);
      && s'.tokens == s.tokens && s'.allTokens == s.allTokens && (!c.1.TransferAll? ==> s'.ledger == s.ledger)
  {
    hide Transferred, UpdatedAll;
    match c.1
    case TransferAll(transfers) =>
      if Transferred(c.0, s, transfers).Accepted? { TransferConserves(c.0, s, transfers, 0); }
    case UpdateOperators(updates) =>
      if UpdatedAll(c.0, s, updates).Accepted? { OperatorsAreGranted(c.0, s, updates, Permission("", "", 0)); }
    case _ =>
  }

  lemma StepCounts(s: Storage, c: Step, token: nat)
    ensures s.tokens.Keys <= Stepped(s, c).tokens.Keys
    ensures One(token < Stepped(s, c).allTokens) == One(token < s.allTokens) + TimesMinted(token)(s, c)
    ensures (token in s.tokens ==> token < s.allTokens) ==>
      (token in Stepped(s, c).tokens ==> token < Stepped(s, c).allTokens) && MintedAgain(token)(s, c) == 0
  {
    if !c.1.Mint? { hide Called; CountersStay(s, c); }
  }

  /** From every storage, every run and every token: the supply ends up right exactly when what was
      minted again makes up for what nobody held at the start. */
  lemma SupplyIsRightIff(s: Storage, run: seq<Step>, token: nat)
    ensures var s' := After(Stepped, s, run); var again := Total(Stepped, MintedAgain(token), s, run);
      && Unheld(s', token) == Unheld(s, token) - again
      && (token in s'.tokens ==> (Backed(s', token) <==> Unheld(s, token) == again))
      && (token in s.tokens ==> token in s'.tokens)
  {
    hide Stepped, MintedAgain, Unheld;
    var inv := (t: Storage) => s.tokens.Keys <= t.tokens.Keys;
    var less := (t: Storage) => -Unheld(t, token);
    forall t, c | inv(t) ensures inv(Stepped(t, c)) && less(Stepped(t, c)) == less(t) + MintedAgain(token)(t, c) {
      StepUnheld(t, c, token);
      StepCounts(t, c, token);
    }
    RunKeeps(Stepped, (c: Step) => true, inv, less, MintedAgain(token), s, run);
    BackedIff(After(Stepped, s, run), token);
  }

  lemma BackedIff(s: Storage, token: nat)
    ensures Backed(s, token) <==> token in s.tokens && Unheld(s, token) == 0
  {}

  /** An id is minted at most once in a run, and only while the counter has not passed it. */
  lemma MintedOnce(s: Storage, run: seq<Step>, token: nat)
    ensures One(token < After(Stepped, s, run).allTokens) ==
      One(token < s.allTokens) + Total(Stepped, TimesMinted(token), s, run)
  {
    hide Stepped, TimesMinted;
    var passed := (t: Storage) => One(token < t.allTokens);
    forall t, c ensures passed(Stepped(t, c)) == passed(t) + TimesMinted(token)(t, c) { StepCounts(t, c, token); }
    RunKeeps(Stepped, (c: Step) => true, (t: Storage) => true, passed, TimesMinted(token), s, run);
  }

  /** A token below the counter, or not defined yet, is never minted again: its supply stays right, or
      wrong by the same amount, over every run. */
  lemma NeverMintedAgain(s: Storage, run: seq<Step>, token: nat)
    requires token in s.tokens ==> token < s.allTokens
    ensures Total(Stepped, MintedAgain(token), s, run) == 0
    ensures Unheld(After(Stepped, s, run), token) == Unheld(s, token)
  {
    hide Stepped, MintedAgain;
    var inv := (t: Storage) => token in t.tokens ==> token < t.allTokens;
    forall t, c | inv(t) ensures inv(Stepped(t, c)) && MintedAgain(token)(t, c) == 0 { StepCounts(t, c, token); }
    RunKeeps(Stepped, (c: Step) => true, inv, (t: Storage) => 0, MintedAgain(token), s, run);
    SupplyIsRightIff(s, run, token);
  }

  /** One mint, on any storage. */
  lemma MintBacksIff(e: Env, s: Storage, to: Account, amount: nat, about: map<string, string>, id: nat)
    requires Minted(e, s, to, amount, about, id).Accepted?
    ensures Backed(Minted(e, s, to, amount, about, id).storage, id) <==>
      Unheld(s, id) == if id in s.tokens then amount else 0
  {
    HeldPut(s.ledger, (to, id), Owned(s.ledger, (to, id)) + amount, id);
  }

  /** The storage the ledger is originated with: three tokens, but a counter of two. */
  function Seed(metadata: map<string, string>, about0: map<string, string>, about1: map<string, string>,
      about2: map<string, string>): Storage {
    Storage("tz1bwsEWCwSEXdRvnJxvegQZKeX5dj6oKEys", 2,
      map[("tz3WXYtyDUNL91qfiCJtVUX746QpNv5i5ve5", 0) := 20000, ("tz1PgQt52JMirBUhhkq1eanX8hVd1Fsg71Lr", 1) := 20000],
      metadata, {}, false, map[0 := Token(about0, 20000), 1 := Token(about1, 20000), 2 := Token(about2, 20000)])
  }

  /** The seed is not well-formed: token 2 has a supply nobody holds, and the administrator's first
      mint adds to the ledger without touching that supply, so only an amount of 20000 repairs it. */
  lemma SeedIsNotBacked(metadata: map<string, string>, about0: map<string, string>, about1: map<string, string>,
      about2: map<string, string>, e: Env, to: Account, amount: nat, about: map<string, string>)
    requires e.sender == "tz1bwsEWCwSEXdRvnJxvegQZKeX5dj6oKEys"
    ensures var s := Seed(metadata, about0, about1, about2); var minted := Minted(e, s, to, amount, about, 2);
      && !WellFormed(s) && !Backed(s, 2)
      && minted.Accepted? && minted.storage.tokens[2].supply == 20000 && Held(minted.storage.ledger, 2) == amount
      && (Backed(minted.storage, 2) <==> amount == 20000)
  {
    var s := Seed(metadata, about0, about1, about2);
    assert 2 in s.tokens && s.allTokens == 2;
    HeldNothing(s.ledger, 2);
    HeldPut(s.ledger, (to, 2), amount, 2);
  }
  lemma SeedUnheld(metadata: map<string, string>, about0: map<string, string>, about1: map<string, string>,
      about2: map<string, string>, token: nat)
    ensures Unheld(Seed(metadata, about0, about1, about2), token) == if token == 2 then 20000 else 0
  {
    var ledger := Seed(metadata, about0, about1, about2).ledger;
    var first, second :=
      ("tz3WXYtyDUNL91qfiCJtVUX746QpNv5i5ve5", 0 as nat), ("tz1PgQt52JMirBUhhkq1eanX8hVd1Fsg71Lr", 1 as nat);
    SumRemove(ledger, Of(token), first);
    SumRemove(ledger - {first}, Of(token), second);
    assert ledger - {first} - {second} == map[];
  }

  /** Over every run from the seed each token but token 2 has the supply its owners hold, and token 2
      has it exactly when 20000 were minted again, for which there is at most one mint. */
  lemma SeedOverRuns(metadata: map<string, string>, about0: map<string, string>, about1: map<string, string>,
      about2: map<string, string>, run: seq<Step>, token: nat)
    ensures var s := Seed(metadata, about0, about1, about2); var s' := After(Stepped, s, run);
      && (token in s'.tokens && token != 2 ==> Backed(s', token))
      && (Backed(s', 2) <==> Total(Stepped, MintedAgain(2), s, run) == 20000)
      && Total(Stepped, TimesMinted(2), s, run) <= 1
  {
    hide Stepped, MintedAgain, TimesMinted, Unheld, Backed;
    var s := Seed(metadata, about0, about1, about2);
    SeedUnheld(metadata, about0, about1, about2, 2);
    SeedUnheld(metadata, about0, about1, about2, token);
    SupplyIsRightIff(s, run, 2);
    SupplyIsRightIff(s, run, token);
    if token != 2 { NeverMintedAgain(s, run, token); }
    MintedOnce(s, run, 2);
  }
}
