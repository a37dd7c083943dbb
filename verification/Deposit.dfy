/** The deposit pool: its script, its specification, and the proof that one computes the other. */
module Deposit {
  import opened Michelson
  import opened Contracts
  import opened Rules
  import opened Chains
  import opened Encoding

  const ASSERT_SOME: Code := Seq1(IF_NONE(Seq1(BLOCK(Seq2(UNIT, FAILWITH))), Done))

  const ADDRESS_OF: Code :=
    Seq7(DUP, SENDER, SWAP, IF(Seq3(DROP, PUSH(VAddr("tz1MZ4GPjAA2gZxKTozJt8Cu5Gvu6WU2ikZ4")), PUSH(VUnit)),
    Seq1(PUSH(VUnit))), DROP, SWAP, DROP)

  const INTEREST: Code :=
    Do8(DUP, PUSH(VMutez(0)), SWAP, PUSH(VInt(100)), SWAP, COMPARE, GE, IF(Seq3(DROP, PUSH(VMutez(1000000)),
    PUSH(VUnit)), Seq1(PUSH(VUnit))), Seq3(DROP, SWAP, DROP))

  const FIRST_ENTRY: Code :=
    Do8(AMOUNT, NOW, PAIR, DUP, SOME, DIP(Fetch(2, Done)), SENDER, UPDATE, Do(DIP(Fetch(2, Seq1(DROP))), Poke(2,
    Do4(DIP(Fetch(4, Seq1(CDR))), PAIR, SWAP, DROP, Put(3, Seq1(PUSH(VUnit)))))))

  const FIRST_DEPOSIT: Code :=
    Fetch(3, Do6(CDR, AMOUNT, ADD, DIP(Fetch(3, Seq1(CAR))), SWAP, PAIR, Put(3, FIRST_ENTRY)))

  const NEXT_TOTAL: Code :=
    Do8(CDR, AMOUNT, ADD, DIP(Fetch(5, Seq1(CAR))), SWAP, PAIR, SWAP, DROP, Seq4(SWAP, DROP, BLOCK(Put(3, Done)),
    PUSH(VUnit)))

  const NEXT_BOOK: Code :=
    Poke(3, Do2(DIP(Fetch(5, Seq1(CDR))), PAIR, Poke(5, NEXT_TOTAL)))

  const NEXT_STAMP: Code :=
    Do8(CDR, NOW, PAIR, SWAP, DIP(Seq2(DIP(Do(DROP, Fetch(2, Done))), SWAP)), SWAP, DIP(Fetch(1, Seq2(SOME,
    DIP(Fetch(3, Done))))), UPDATE, Do(DIP(Fetch(3, Seq1(DROP))), NEXT_BOOK))

  const NEXT_ENTRY: Code :=
    Do3(DIP(Fetch(1, Seq1(CAR))), SWAP, PAIR, Poke(1, NEXT_STAMP))

  const NEXT_DEPOSIT: Code :=
    Do4(DUP, CAR, NOW, SUB, Fetch(1, Do5(CDR, DIP(Seq3(DUP, DIP(Fetch(6, Done)), EXEC)), ADD, AMOUNT, ADD,
    NEXT_ENTRY)))

  const BOOK_DEPOSIT: Code :=
    Fetch(2, Do2(PUSH(VBool(false)), EXEC, Fetch(1, Do(CAR, Fetch(1, Do8(DIP(Seq1(DUP)), GET, DUP,
    IF_NONE(FIRST_DEPOSIT, NEXT_DEPOSIT), SWAP, DROP, SWAP, DROP, Seq2(SWAP, DROP)))))))

  const DEPOSIT: Code :=
    Do8(DUP, CDR, SWAP, CAR, DIP(Seq5(DUP, CDR, SWAP, CAR, DIP(Seq4(DUP, CDR, SWAP, CAR)))), PUSH(VMutez(0)), AMOUNT,
    COMPARE, Do3(EQ, IF(Seq2(PUSH(VStr("No tez transferred!")), FAILWITH), BOOK_DEPOSIT), DROP, Fetch(3,
    Seq3(DIP(Seq1(DUP)), PAIR, DIP(Seq4(DROP, DROP, DROP, DROP))))))

  const PAY_TRANSFER: Code :=
    Do2(CONTRACT(""), IF_NONE(Seq2(PUSH(VStr("bad address for get_contract")), FAILWITH), Done), Fetch(2,
    Do8(DIP(Seq1(DUP)), UNIT, TRANSFER_TOKENS, DUP, NIL, SWAP, CONS, DIP(Fetch(6, Seq1(DROP))), Seq7(SWAP, DROP, SWAP,
    DROP, BLOCK(Put(4, Done)), DROP, PUSH(VUnit)))))

  const PAY_STORE: Code :=
    Do3(SWAP, DIP(Seq3(SWAP, DIP(Seq3(SWAP, DIP(Seq3(SWAP, DIP(Seq3(SWAP, DIP(Put(1, Seq1(DUP))), SWAP)), SWAP)),
    SWAP)), SWAP)), SWAP, PAY_TRANSFER)

  const PAY_AMOUNT: Code :=
    Do7(CDR, DIP(Fetch(1, Done)), SUB_MUTEZ, BLOCK(ASSERT_SOME), DIP(Fetch(6, Seq1(CAR))), SWAP, PAIR, PAY_STORE)

  const PAY_OUT: Code :=
    Fetch(5, Do(CAR, Fetch(5, Do7(DIP(Seq2(DUP, NONE)), UPDATE, SWAP, DROP, DUP, DIP(Fetch(6, Seq1(CDR))), PAIR,
    Poke(6, PAY_AMOUNT)))))

  const RETURN_WITHDRAWAL: Code :=
    Do(DROP, Fetch(3, Seq3(DIP(Fetch(5, Done)), PAIR, DIP(Seq8(DROP, DROP, DROP, DROP, DROP, DROP, DROP, DROP)))))

  const CLAIM: Code :=
    Do4(DUP, CAR, NOW, SUB, Fetch(1, Do8(CDR, DIP(Seq3(DUP, DIP(Fetch(5, Done)), EXEC)), ADD, DUP, DIP(Fetch(5,
    Seq1(CDR))), COMPARE, GT, IF(Seq2(PUSH(VStr("No tez to withdraw!")), FAILWITH), PAY_OUT), RETURN_WITHDRAWAL)))

  const WITHDRAW: Code :=
    Do8(DUP, CDR, SWAP, CAR, DIP(Do4(DUP, CDR, SWAP, CAR, Fetch(1, Done))), SWAP, PUSH(VBool(false)), EXEC, Do6(DUP,
    NIL, SWAP, DIP(Fetch(2, Seq1(CAR))), GET, IF_NONE(Seq2(PUSH(VStr("GET_FORCE")), FAILWITH), Done), CLAIM))

  const DISPATCH: Code :=
    Seq2(IF_LEFT(Do(DUP, Fetch(2, Seq7(DIP(Fetch(5, Seq5(DUP, CDR, SWAP, CAR, SWAP))), PAIR, EXEC, SWAP, DROP, SWAP,
    DROP))), Do(DUP, Fetch(2, Seq7(DIP(Fetch(4, Seq5(DUP, CDR, SWAP, CAR, SWAP))), PAIR, EXEC, SWAP, DROP, SWAP,
    DROP)))), DIP(Seq8(DROP, DROP, DROP, DROP, DROP, DROP, DROP, DROP)))

  const POOL: Code :=
    Do8(NIL, DUP, LAMBDA(ADDRESS_OF), DUP, DIP(Seq1(PAIR)), SWAP, LAMBDA(INTEREST), DUP, Do8(DIP(Seq1(PAIR)), SWAP,
    LAMBDA(DEPOSIT), PAIR, DIP(Seq4(DIP(Seq1(DUP)), DUP, DIP(Seq1(PAIR)), SWAP)), SWAP, LAMBDA(WITHDRAW), PAIR,
    Fetch(5, Do(CAR, Fetch(6, Do(CDR, Fetch(1, DISPATCH)))))))


  // ---------------------------------------------------------------- specification

  datatype Entry = Entry(since: int, tez: nat)

  datatype Pool = Pool(deposits: map<Account, Entry>, liquidity: nat)

  datatype Call = Deposit | Withdraw

  /** Accepted with the new pool and the tez sent to the caller; a deposit emits no transfer. */
  type Result = Answer<Pool, nat>

  function Interest(age: int): nat {
    if age >= 100 then 1000000 else 0
  }

  function Deposited(e: Env, p: Pool): Result {
    var tez := if e.sender in p.deposits
               then p.deposits[e.sender].tez + Interest(e.now - p.deposits[e.sender].since) else 0;
    if e.amount == 0 then Refused(Failed(VStr("No tez transferred!")))
    else if tez + e.amount > MAX_MUTEZ || p.liquidity + e.amount > MAX_MUTEZ then Refused(Overflow)
    else Accepted(Pool(p.deposits[e.sender := Entry(e.now, tez + e.amount)], p.liquidity + e.amount), 0)
  }

  /** Tez attached to a withdrawal are kept and credited to nobody. */
  function Withdrawn(e: Env, p: Pool): Result {
    if e.sender !in p.deposits then Refused(Failed(VStr("GET_FORCE")))
    else
      var claim := p.deposits[e.sender].tez + Interest(e.now - p.deposits[e.sender].since);
      if claim > MAX_MUTEZ then Refused(Overflow)
      else if claim > p.liquidity then Refused(Failed(VStr("No tez to withdraw!")))
      else if !e.entrypoints(e.sender, "") then Refused(Failed(VStr("bad address for get_contract")))
      else Accepted(Pool(p.deposits - {e.sender}, p.liquidity - claim), claim)
  }

  function Called(e: Env, p: Pool, call: Call): (r: Result)
    ensures r.Refused? ==> !r.why.Ok?
  {
    if call.Deposit? then Deposited(e, p) else Withdrawn(e, p)
  }

  // ---------------------------------------------------------------- encoding

  function EncodeEntry(d: Entry): Value { VPair(VInt(d.since), VMutez(d.tez)) }

  ghost function DepositsMap(m: map<Account, Entry>): map<Value, Value> { EncodeMap(m, AccountKey, EncodeEntry) }

  ghost function EncodeDeposits(m: map<Account, Entry>): Value { VMap(DepositsMap(m)) }

  lemma DepositsAt(m: map<Account, Entry>, a: Account, d: Entry)
    ensures Lookup(VAddr(a), DepositsMap(m)) == if a in m then VSome(EncodeEntry(m[a])) else VNone
    ensures DepositsMap(m)[VAddr(a) := EncodeEntry(d)] == DepositsMap(m[a := d])
    ensures DepositsMap(m) - {VAddr(a)} == DepositsMap(m - {a})
  {
    EncodedAt(m, AccountKey, EncodeEntry, a, d);
  }

  ghost function EncodePool(p: Pool): Value { VPair(EncodeDeposits(p.deposits), VMutez(p.liquidity)) }

  function EncodeCall(call: Call): Value { if call.Deposit? then VLeft(VUnit) else VRight(VUnit) }

  function EncodeOps(e: Env, call: Call, paid: nat): Value {
    VList(if call.Deposit? then [] else [VTransfer(VUnit, paid, e.sender, "")])
  }

  ghost function EncodeResult(e: Env, call: Call, r: Result): Outcome {
    match r
    case Accepted(p, paid) => Ok(Push(VPair(EncodeOps(e, call, paid), EncodePool(p)), Empty))
    case Refused(why) => why
  }

  // ---------------------------------------------------------------- the program refines the specification

  lemma InterestRuns(e: Env, f: nat, age: int)
    ensures Run(e, f, INTEREST, Push(VInt(age), Empty)) == Ok(Push(VMutez(Interest(age)), Empty))
  {
    hide Run, Then, Step, Basic;
    StackMachine(); DataMachine(); WorldMachine();
  }

  lemma AddressRuns(e: Env, f: nat)
    ensures Run(e, f, ADDRESS_OF, Push(VBool(false), Empty)) == Ok(Push(VAddr(e.sender), Empty))
  {
    hide Run, Then, Step, Basic;
    StackMachine(); DataMachine(); WorldMachine();
  }

  /** The variables of `deposit` once the caller's entry has been looked up. */
  ghost function DepositVars(e: Env, found: Value, p: Pool): Stack {
    Push(found, Push(EncodeDeposits(p.deposits), Push(VAddr(e.sender), Push(EncodePool(p),
      Push(VLam(INTEREST), Push(VLam(ADDRESS_OF), Push(VList([]), Empty)))))))
  }

  function Recorded(e: Env, p: Pool, tez: nat): Pool {
    p.(deposits := p.deposits[e.sender := Entry(e.now, tez)])
  }

  lemma FirstEntryRuns(e: Env, f: nat, p: Pool)
    ensures Run(e, f, FIRST_ENTRY, DepositVars(e, VNone, p))
         == Ok(Push(VUnit, DepositVars(e, VNone, Recorded(e, p, e.amount))))
  {
    hide Run, Then, Step, Basic, Fetch, Put, Poke, DepositsMap;
    StackMachine(); DataMachine(); WorldMachine(); ChainRules();
    DepositsAt(p.deposits, e.sender, Entry(e.now, e.amount));
  }

  lemma FirstDepositRuns(e: Env, f: nat, p: Pool)
    ensures Run(e, f, FIRST_DEPOSIT, DepositVars(e, VNone, p)) ==
      if p.liquidity + e.amount > MAX_MUTEZ then Overflow
      else Ok(Push(VUnit, DepositVars(e, VNone, Recorded(e, p.(liquidity := p.liquidity + e.amount), e.amount))))
  {
    hide Run, Then, Step, Basic, Fetch, Put, Poke, DepositsMap, FIRST_ENTRY;
    StackMachine(); DataMachine(); WorldMachine(); ChainRules();
    if p.liquidity + e.amount <= MAX_MUTEZ { FirstEntryRuns(e, f, p.(liquidity := p.liquidity + e.amount)); }
  }

  lemma NextTotalRuns(e: Env, f: nat, p: Pool, age: Value, entry: Value, found: Value)
    ensures Run(e, f, NEXT_TOTAL, Push(EncodePool(p), Push(age, Push(entry, DepositVars(e, found, p))))) ==
      if p.liquidity + e.amount > MAX_MUTEZ then Overflow
      else Ok(Push(VUnit, DepositVars(e, found, p.(liquidity := p.liquidity + e.amount))))
  {
    hide Run, Then, Step, Basic, Fetch, Put, Poke, DepositsMap;
    StackMachine(); DataMachine(); WorldMachine(); ChainRules();
  }

  lemma NextEntryRuns(e: Env, f: nat, p: Pool, d: Entry, claim: nat, age: Value, found: Value)
    ensures var claimed := EncodeEntry(Entry(d.since, claim));
      Run(e, f, NEXT_ENTRY, Push(VMutez(claim), Push(age, Push(EncodeEntry(d), DepositVars(e, found, p))))) ==
      Run(e, f, NEXT_STAMP, Push(claimed, Push(age, Push(claimed, DepositVars(e, found, p)))))
  {
    hide Run, Then, Step, Basic, Fetch, Put, Poke, EncodePool, DepositsMap, NEXT_STAMP;
    StackMachine(); ChainRules();
  }

  lemma NextStampRuns(e: Env, f: nat, p: Pool, d: Entry, age: Value, found: Value)
    ensures var stamped := Entry(e.now, d.tez);
      Run(e, f, NEXT_STAMP, Push(EncodeEntry(d), Push(age, Push(EncodeEntry(d), DepositVars(e, found, p))))) ==
      Run(e, f, NEXT_BOOK, Push(EncodeDeposits(p.deposits[e.sender := stamped]), Push(age,
        Push(EncodeEntry(stamped), DepositVars(e, found, p)))))
  {
    hide Run, Then, Step, Basic, Fetch, Put, Poke, EncodePool, DepositsMap, NEXT_BOOK;
    StackMachine(); DataMachine(); WorldMachine(); ChainRules();
    DepositsAt(p.deposits, e.sender, Entry(e.now, d.tez));
  }

  lemma NextBookRuns(e: Env, f: nat, p: Pool, m: map<Account, Entry>, age: Value, entry: Value, found: Value)
    ensures var q := p.(deposits := m);
      Run(e, f, NEXT_BOOK, Push(EncodeDeposits(m), Push(age, Push(entry, DepositVars(e, found, p))))) ==
      Run(e, f, NEXT_TOTAL, Push(EncodePool(q), Push(age, Push(entry, DepositVars(e, found, q)))))
  {
    hide Run, Then, Step, Basic, Fetch, Put, Poke, DepositsMap, NEXT_TOTAL;
    StackMachine(); ChainRules();
  }

  lemma NextClaimRuns(e: Env, f: nat, p: Pool, d: Entry, found: Value)
    requires f > 0
    ensures var claim := d.tez + Interest(e.now - d.since) + e.amount;
      Run(e, f, NEXT_DEPOSIT, Push(EncodeEntry(d), DepositVars(e, found, p))) ==
      if claim > MAX_MUTEZ then Overflow
      else Run(e, f, NEXT_ENTRY,
        Push(VMutez(claim), Push(VInt(e.now - d.since), Push(EncodeEntry(d), DepositVars(e, found, p)))))
  {
    hide Run, Then, Step, Basic, Fetch, Put, Poke, DepositsMap, NEXT_ENTRY;
    StackMachine(); DataMachine(); WorldMachine(); ChainRules();
    InterestRuns(e, f - 1, e.now - d.since);
  }

  lemma NextDepositRuns(e: Env, f: nat, p: Pool)
    requires f > 0 && e.sender in p.deposits
    ensures var d := p.deposits[e.sender]; var claim := d.tez + Interest(e.now - d.since) + e.amount;
      Run(e, f, NEXT_DEPOSIT, Push(EncodeEntry(d), DepositVars(e, VSome(EncodeEntry(d)), p))) ==
      if claim > MAX_MUTEZ || p.liquidity + e.amount > MAX_MUTEZ then Overflow
      else Ok(Push(VUnit,
        DepositVars(e, VSome(EncodeEntry(d)), Recorded(e, p.(liquidity := p.liquidity + e.amount), claim))))
  {
    hide Run, NEXT_DEPOSIT, NEXT_ENTRY, NEXT_STAMP, NEXT_BOOK, NEXT_TOTAL, DepositVars, EncodeEntry, EncodePool,
      EncodeDeposits, Interest;
    var d := p.deposits[e.sender];
    var age := e.now - d.since;
    var claim := d.tez + Interest(age) + e.amount;
    var found := VSome(EncodeEntry(d));
    NextClaimRuns(e, f, p, d, found);
    if claim <= MAX_MUTEZ {
      var entry := Entry(e.now, claim);
      NextEntryRuns(e, f, p, d, claim, VInt(age), found);
      NextStampRuns(e, f, p, Entry(d.since, claim), VInt(age), found);
      NextBookRuns(e, f, p, p.deposits[e.sender := entry], VInt(age), EncodeEntry(entry), found);
      NextTotalRuns(e, f, Recorded(e, p, claim), VInt(age), EncodeEntry(entry), found);
    }
  }

  ghost function DepositFrame(p: Pool): Stack {
    Push(EncodePool(p), Push(VLam(INTEREST), Push(VLam(ADDRESS_OF), Push(VList([]), Empty))))
  }

  lemma BookDepositRuns(e: Env, f: nat, p: Pool)
    requires f > 0 && e.amount != 0
    ensures Run(e, f, BOOK_DEPOSIT, DepositFrame(p)) == match Deposited(e, p)
      case Accepted(p', _) => Ok(Push(VUnit, DepositFrame(p')))
      case Refused(why) => why
  {
    hide Run, Then, Step, Basic, Fetch, Put, Poke, DepositsMap, FIRST_DEPOSIT, NEXT_DEPOSIT;
    StackMachine(); DataMachine(); WorldMachine(); ChainRules();
    DepositsAt(p.deposits, e.sender, Entry(0, 0));
    AddressRuns(e, f - 1);
    if e.sender in p.deposits { NextDepositRuns(e, f, p); } else { FirstDepositRuns(e, f, p); }
  }

  lemma DepositRuns(e: Env, f: nat, p: Pool)
    requires f > 0
    ensures Run(e, f, DEPOSIT,
      Push(VPair(EncodePool(p), VPair(VLam(INTEREST), VPair(VLam(ADDRESS_OF), VList([])))), Empty))
         == EncodeResult(e, Deposit, Deposited(e, p))
  {
    hide Run, Then, Step, Basic, Fetch, Put, Poke, DepositsMap, BOOK_DEPOSIT;
    StackMachine(); DataMachine(); WorldMachine(); ChainRules();
    if e.amount != 0 { BookDepositRuns(e, f, p); }
  }

  /** The variables of `withdraw` once the caller's claim is known. */
  ghost function WithdrawVars(e: Env, claim: nat, age: Value, entry: Value, ops: seq<Value>, p: Pool): Stack {
    Push(VMutez(claim), Push(age, Push(entry, Push(VList(ops), Push(VAddr(e.sender), Push(EncodePool(p),
      Push(VLam(INTEREST), Push(VLam(ADDRESS_OF), Empty))))))))
  }

  function Payout(e: Env, claim: nat): seq<Value> { [VTransfer(VUnit, claim, e.sender, "")] }

  lemma PayTransferRuns(e: Env, f: nat, p: Pool, claim: nat, age: Value, entry: Value)
    ensures Run(e, f, PAY_TRANSFER,
        Push(VAddr(e.sender), Push(EncodeDeposits(p.deposits), WithdrawVars(e, claim, age, entry, [], p)))) ==
      if !e.entrypoints(e.sender, "") then Failed(VStr("bad address for get_contract"))
      else Ok(Push(VUnit, WithdrawVars(e, claim, age, entry, Payout(e, claim), p)))
  {
    hide Run, Then, Step, Basic, Fetch, Put, Poke, DepositsMap;
    StackMachine(); DataMachine(); WorldMachine(); ChainRules();
    assert Payout(e, claim) == Payout(e, claim) + [];
  }

  lemma PayAmountRuns(e: Env, f: nat, p: Pool, claim: nat, age: Value, entry: Value)
    requires claim <= p.liquidity
    ensures var vars := Push(EncodeDeposits(p.deposits), WithdrawVars(e, claim, age, entry, [], p));
      Run(e, f, PAY_AMOUNT, Push(EncodePool(p), vars)) ==
      Run(e, f, PAY_STORE, Push(EncodePool(p.(liquidity := p.liquidity - claim)), vars))
  {
    hide Run, Then, Step, Basic, Fetch, Put, Poke, DepositsMap, PAY_STORE;
    StackMachine(); DataMachine(); ChainRules();
  }

  lemma PayStoreRuns(e: Env, f: nat, p: Pool, q: Pool, claim: nat, age: Value, entry: Value)
    ensures Run(e, f, PAY_STORE,
      Push(EncodePool(q), Push(EncodeDeposits(p.deposits), WithdrawVars(e, claim, age, entry, [], p)))) ==
      Run(e, f, PAY_TRANSFER,
        Push(VAddr(e.sender), Push(EncodeDeposits(p.deposits), WithdrawVars(e, claim, age, entry, [], q))))
  {
    hide Run, Then, Step, Basic, Fetch, Put, Poke, DepositsMap, EncodePool, PAY_TRANSFER;
    StackMachine(); ChainRules();
  }

  lemma PayOutRemoves(e: Env, f: nat, p: Pool, claim: nat, age: Value, entry: Value)
    ensures var q := p.(deposits := p.deposits - {e.sender});
      Run(e, f, PAY_OUT, WithdrawVars(e, claim, age, entry, [], p)) ==
      Run(e, f, PAY_AMOUNT,
        Push(EncodePool(q), Push(EncodeDeposits(q.deposits), WithdrawVars(e, claim, age, entry, [], q))))
  {
    hide Run, Then, Step, Basic, Fetch, Put, Poke, DepositsMap, PAY_AMOUNT;
    StackMachine(); DataMachine(); WorldMachine(); ChainRules();
    DepositsAt(p.deposits, e.sender, Entry(0, 0));
  }

  lemma PayOutRuns(e: Env, f: nat, p: Pool, claim: nat, age: Value, entry: Value)
    requires claim <= p.liquidity
    ensures Run(e, f, PAY_OUT, WithdrawVars(e, claim, age, entry, [], p)) ==
      if !e.entrypoints(e.sender, "") then Failed(VStr("bad address for get_contract"))
      else Ok(Push(VUnit, WithdrawVars(e, claim, age, entry, Payout(e, claim),
        Pool(p.deposits - {e.sender}, p.liquidity - claim))))
  {
    hide *;
    var q := p.(deposits := p.deposits - {e.sender});
    PayOutRemoves(e, f, p, claim, age, entry);
    PayAmountRuns(e, f, q, claim, age, entry);
    PayStoreRuns(e, f, q, q.(liquidity := p.liquidity - claim), claim, age, entry);
    PayTransferRuns(e, f, q.(liquidity := p.liquidity - claim), claim, age, entry);
  }

  lemma ClaimRuns(e: Env, f: nat, p: Pool, d: Entry)
    requires f > 0
    ensures var claim := d.tez + Interest(e.now - d.since);
      Run(e, f, CLAIM, Push(EncodeEntry(d), Push(VList([]), Push(VAddr(e.sender), Push(EncodePool(p),
        Push(VLam(INTEREST), Push(VLam(ADDRESS_OF), Empty))))))) ==
      if claim > MAX_MUTEZ then Overflow
      else if claim > p.liquidity then Failed(VStr("No tez to withdraw!"))
      else Then(e, f, Run(e, f, PAY_OUT, WithdrawVars(e, claim, VInt(e.now - d.since), EncodeEntry(d), [], p)),
        RETURN_WITHDRAWAL)
  {
    hide Run, Then, Step, Basic, Fetch, Put, Poke, DepositsMap, PAY_OUT, RETURN_WITHDRAWAL;
    StackMachine(); DataMachine(); WorldMachine(); ChainRules();
    InterestRuns(e, f - 1, e.now - d.since);
  }

  lemma WithdrawFinds(e: Env, f: nat, p: Pool)
    requires f > 0
    ensures Run(e, f, WITHDRAW, Push(VPair(EncodePool(p), VPair(VLam(INTEREST), VLam(ADDRESS_OF))), Empty)) ==
      if e.sender !in p.deposits then Failed(VStr("GET_FORCE"))
      else Run(e, f, CLAIM,
        Push(EncodeEntry(p.deposits[e.sender]), Push(VList([]), Push(VAddr(e.sender), Push(EncodePool(p),
        Push(VLam(INTEREST), Push(VLam(ADDRESS_OF), Empty)))))))
  {
    hide Run, Then, Step, Basic, Fetch, Put, Poke, DepositsMap, CLAIM, INTEREST, ADDRESS_OF;
    StackMachine(); DataMachine(); WorldMachine(); ChainRules();
    DepositsAt(p.deposits, e.sender, Entry(0, 0));
    AddressRuns(e, f - 1);
  }

  lemma ReturnRuns(e: Env, f: nat, p: Pool, claim: nat, age: Value, entry: Value, ops: seq<Value>)
    ensures Run(e, f, RETURN_WITHDRAWAL, Push(VUnit, WithdrawVars(e, claim, age, entry, ops, p))) ==
      Ok(Push(VPair(VList(ops), EncodePool(p)), Empty))
  {
    hide Run, Then, Step, Basic, Fetch, Put, Poke, EncodePool, INTEREST, ADDRESS_OF;
    StackMachine(); ChainRules();
  }

  lemma WithdrawRuns(e: Env, f: nat, p: Pool)
    requires f > 0
    ensures Run(e, f, WITHDRAW, Push(VPair(EncodePool(p), VPair(VLam(INTEREST), VLam(ADDRESS_OF))), Empty))
         == EncodeResult(e, Withdraw, Withdrawn(e, p))
  {
    hide Run, Then, WITHDRAW, PAY_OUT, CLAIM, RETURN_WITHDRAWAL, EncodePool, EncodeEntry, WithdrawVars, INTEREST,
      ADDRESS_OF;
    StackMachine();
    WithdrawFinds(e, f, p);
    if e.sender in p.deposits {
      var d := p.deposits[e.sender];
      var claim := d.tez + Interest(e.now - d.since);
      ClaimRuns(e, f, p, d);
      if claim <= p.liquidity {
        PayOutRuns(e, f, p, claim, VInt(e.now - d.since), EncodeEntry(d));
        ReturnRuns(e, f, Pool(p.deposits - {e.sender}, p.liquidity - claim), claim, VInt(e.now - d.since),
          EncodeEntry(d), Payout(e, claim));
      }
    }
  }

  /** The stack on which the chosen entrypoint is executed. */
  ghost function DispatchVars(p: Pool, call: Call): Stack {
    Push(EncodeCall(call), Push(EncodePool(p), Push(EncodeCall(call),
      Push(VPair(VLam(WITHDRAW), VPair(VLam(INTEREST), VLam(ADDRESS_OF))),
      Push(VPair(VLam(DEPOSIT), VPair(VLam(INTEREST), VPair(VLam(ADDRESS_OF), VList([])))),
      Push(VLam(INTEREST),
        Push(VLam(ADDRESS_OF), Push(VList([]), Push(VPair(EncodeCall(call), EncodePool(p)), Empty)))))))))
  }

  lemma PoolDispatches(e: Env, f: nat, p: Pool, call: Call)
    ensures Run(e, f, POOL, Push(VPair(EncodeCall(call), EncodePool(p)), Empty)) ==
      Run(e, f, DISPATCH, DispatchVars(p, call))
  {
    hide Run, Then, Step, Basic, Fetch, Put, Poke, DEPOSIT, WITHDRAW, INTEREST, ADDRESS_OF, DISPATCH, EncodeCall,
      EncodePool;
    StackMachine(); DataMachine(); WorldMachine(); ChainRules();
  }

  /** The whole script, from the call parameter and the storage to the operations and the new
      storage. Its EXECs nest two deep, so fuel 2 is enough for every call. */
  lemma PoolRefines(e: Env, f: nat, p: Pool, call: Call)
    requires f >= 2
    ensures Run(e, f, POOL, Push(VPair(EncodeCall(call), EncodePool(p)), Empty)) ==
      EncodeResult(e, call, Called(e, p, call))
  {
    hide Run, Then, Step, Basic, Fetch, Put, Poke, POOL, DEPOSIT, WITHDRAW, INTEREST, ADDRESS_OF, DepositsMap;
    StackMachine(); DataMachine(); WorldMachine(); ChainRules();
    PoolDispatches(e, f, p, call);
    if call.Deposit? { DepositRuns(e, f - 1, p); } else { WithdrawRuns(e, f - 1, p); }
  }
}
