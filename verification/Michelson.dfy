/** The Michelson stack machine the contracts of this repository are written for.
    Values are untyped: a program that the type checker would refuse gets Stuck. */
module Michelson {
  type Account = string

  /** Byte strings are terms: PACK and BLAKE2B are free constructors, so both are injective. */
  datatype Bytes = Raw(text: string) | Packed(value: Value) | Hashed(bytes: Bytes)

  datatype Value =
    | VUnit
    | VBool(b: bool)
    | VInt(i: int)                                  // int, nat and timestamp
    | VMutez(m: nat)
    | VStr(text: string)
    | VBytes(bytes: Bytes)
    | VAddr(a: Account)
    | VKey(key: string)
    | VKeyHash(hash: Account)
    | VSig(sig: string)
    | VPair(fst: Value, snd: Value)
    | VLeft(left: Value)
    | VRight(right: Value)
    | VNone
    | VSome(v: Value)
    | VList(elems: seq<Value>)
    | VSet(members: set<Value>)
    | VMap(entries: map<Value, Value>)
    | VLam(body: Code)
    | VLamRec(recBody: Code)
    | VContract(address: Account, entrypoint: string)
    | VTransfer(arg: Value, sent: nat, to: Account, at: string)
    | VTicket(ticketer: Account, content: Value, amount: nat)

  datatype Code = Done | Do(first: Instr, next: Code)

  /** Instructions without code are grouped in families by what they take from the stack;
      the constants below give them their Michelson names. Types are erased. */
  datatype Instr =
    | BLOCK(c: Code) | DIP(c: Code) | DIPN(n: nat, c: Code)
    | IF(c: Code, d: Code) | IF_NONE(c: Code, d: Code) | IF_LEFT(c: Code, d: Code) | IF_CONS(c: Code, d: Code)
    | ITER(c: Code) | MAP(c: Code) | EXEC | VIEW(name: string)
    | PUSH(v: Value) | LAMBDA(c: Code) | LAMBDA_REC(c: Code) | CONTRACT(ep: string)
    | DUPN(n: nat) | DROPN(n: nat) | DIG(n: nat) | DUG(n: nat)
    | Amb(ambient: Ambient) | Gen(generic: Generic) | Prs(pairwise: Pairwise) | Num(numeric: Numeric)
    | Spc(special: Special) | Bin(binary: Binary) | Ari(arithmetic: Arithmetic) | Ter(ternary: Ternary)

  datatype Ambient = Unit | None | Nil | EmptySet | EmptyMap | Amount | Balance | Sender | Source | Now | Self
    | SelfAddress | ChainId
  datatype Generic = Dup | Drop | Some | Left | Right | Pack | Failwith
  datatype Pairwise = Car | Cdr | Unpair | Unpair3 | Get4 | JoinTickets
  datatype Numeric = Eq | Neq | Lt | Gt | Le | Ge | Abs | Int | Isnat
  datatype Special = Not | Address | ImplicitAccount | HashKey | Blake2b | ReadTicket
  datatype Binary = Swap | Pair | Cons | Apply | Compare | Get | Mem | SplitTicket
  datatype Arithmetic = Add | Sub | SubMutez | Mul | Ediv | And | Or
  datatype Ternary = Update | GetAndUpdate | TransferTokens | CheckSignature

  const UNIT := Amb(Unit)  const NONE := Amb(None)  const NIL := Amb(Nil)  const EMPTY_SET := Amb(EmptySet)
  const EMPTY_MAP := Amb(EmptyMap)  const AMOUNT := Amb(Amount)  const BALANCE := Amb(Balance)
  const SENDER := Amb(Sender)  const SOURCE := Amb(Source)  const NOW := Amb(Now)  const SELF := Amb(Self)
  const SELF_ADDRESS := Amb(SelfAddress)  const CHAIN_ID := Amb(ChainId)
  const DUP := Gen(Dup)  const DROP := Gen(Drop)  const SOME := Gen(Some)  const LEFT := Gen(Left)
  const RIGHT := Gen(Right)  const PACK := Gen(Pack)  const FAILWITH := Gen(Failwith)
  const CAR := Prs(Car)  const CDR := Prs(Cdr)  const UNPAIR := Prs(Unpair)  const UNPAIR3 := Prs(Unpair3)
  const GET4 := Prs(Get4)  const JOIN_TICKETS := Prs(JoinTickets)
  const EQ := Num(Eq)  const NEQ := Num(Neq)  const LT := Num(Lt)  const GT := Num(Gt)  const LE := Num(Le)
  const GE := Num(Ge)  const ABS := Num(Abs)  const INT := Num(Int)  const ISNAT := Num(Isnat)
  const NOT := Spc(Not)  const ADDRESS := Spc(Address)  const IMPLICIT_ACCOUNT := Spc(ImplicitAccount)
  const HASH_KEY := Spc(HashKey)  const BLAKE2B := Spc(Blake2b)  const READ_TICKET := Spc(ReadTicket)
  const SWAP := Bin(Swap)  const PAIR := Bin(Pair)  const CONS := Bin(Cons)  const APPLY := Bin(Apply)
  const COMPARE := Bin(Compare)  const GET := Bin(Get)  const MEM := Bin(Mem)
  const SPLIT_TICKET := Bin(SplitTicket)
  const ADD := Ari(Add)  const SUB := Ari(Sub)  const SUB_MUTEZ := Ari(SubMutez)  const MUL := Ari(Mul)
  const EDIV := Ari(Ediv)  const AND := Ari(And)  const OR := Ari(Or)
  const UPDATE := Ter(Update)  const GET_AND_UPDATE := Ter(GetAndUpdate)
  const TRANSFER_TOKENS := Ter(TransferTokens)  const CHECK_SIGNATURE := Ter(CheckSignature)

  // Straight-line code: SeqN is a block of N instructions, DoN puts N instructions before `next`.
  function Do2(a: Instr, b: Instr, next: Code): Code { Do(a, Do(b, next)) }
  function Do3(a: Instr, b: Instr, c: Instr, next: Code): Code { Do(a, Do(b, Do(c, next))) }
  function Do4(a: Instr, b: Instr, c: Instr, d: Instr, next: Code): Code { Do(a, Do(b, Do(c, Do(d, next)))) }
  function Do5(a: Instr, b: Instr, c: Instr, d: Instr, e: Instr, next: Code): Code {
    Do(a, Do(b, Do(c, Do(d, Do(e, next)))))
  }
  function Do6(a: Instr, b: Instr, c: Instr, d: Instr, e: Instr, f: Instr, next: Code): Code {
    Do(a, Do(b, Do(c, Do(d, Do(e, Do(f, next))))))
  }
  function Do7(a: Instr, b: Instr, c: Instr, d: Instr, e: Instr, f: Instr, g: Instr, next: Code): Code {
    Do(a, Do(b, Do(c, Do(d, Do(e, Do(f, Do(g, next)))))))
  }
  function Do8(a: Instr, b: Instr, c: Instr, d: Instr, e: Instr, f: Instr, g: Instr, h: Instr, next: Code): Code {
    Do(a, Do(b, Do(c, Do(d, Do(e, Do(f, Do(g, Do(h, next))))))))
  }

  function Seq1(a: Instr): Code { Do(a, Done) }
  function Seq2(a: Instr, b: Instr): Code { Do2(a, b, Done) }
  function Seq3(a: Instr, b: Instr, c: Instr): Code { Do3(a, b, c, Done) }
  function Seq4(a: Instr, b: Instr, c: Instr, d: Instr): Code { Do4(a, b, c, d, Done) }
  function Seq5(a: Instr, b: Instr, c: Instr, d: Instr, e: Instr): Code { Do5(a, b, c, d, e, Done) }
  function Seq6(a: Instr, b: Instr, c: Instr, d: Instr, e: Instr, f: Instr): Code { Do6(a, b, c, d, e, f, Done) }
  function Seq7(a: Instr, b: Instr, c: Instr, d: Instr, e: Instr, f: Instr, g: Instr): Code {
    Do7(a, b, c, d, e, f, g, Done)
  }
  function Seq8(a: Instr, b: Instr, c: Instr, d: Instr, e: Instr, f: Instr, g: Instr, h: Instr): Code {
    Do8(a, b, c, d, e, f, g, h, Done)
  }

  datatype Stack = Empty | Push(top: Value, rest: Stack)

  /** Failed carries the value given to FAILWITH; Overflow is a mutez result out of range. */
  datatype Outcome = Ok(stack: Stack) | Failed(value: Value) | Overflow | Stuck | OutOfFuel

  datatype Deployed = Deployed(storage: Value, views: map<string, Code>)

  /** What a call can observe. `entrypoints`, `hashKey` and `verify` are unconstrained oracles. */
  datatype Env = Env(
    amount: nat, balance: nat, sender: Account, source: Account, self: Account, now: int, chain: string,
    entrypoints: (Account, string) -> bool, hashKey: string -> Account,
    verify: (string, string, Bytes) -> bool, world: map<Account, Deployed>)

  const MAX_MUTEZ: nat := 0x7fff_ffff_ffff_ffff

  // ---------------------------------------------------------------- evaluation

  /** Fuel bounds the depth of EXEC and VIEW calls; everything else is structural. */
  function Run(e: Env, fuel: nat, c: Code, s: Stack): Outcome
    decreases fuel, 0, c, 0
  {
    match c
    case Done => Ok(s)
    case Do(i, next) => Then(e, fuel, Step(e, fuel, i, s), next)
  }

  function Then(e: Env, fuel: nat, o: Outcome, next: Code): Outcome
    decreases fuel, 0, next, 1
  {
    match o
    case Ok(s) => Run(e, fuel, next, s)
    case _ => o
  }

  function Step(e: Env, fuel: nat, i: Instr, s: Stack): Outcome
    decreases fuel, 0, i, 0
  {
    match i
    case BLOCK(c) => Run(e, fuel, c, s)
    case DIP(c) => if s.Push? then Under(s.top, Run(e, fuel, c, s.rest)) else Stuck
    case DIPN(n, c) => RunUnder(e, fuel, n, c, s)
    case IF(c, d) =>
      if !s.Push? || !s.top.VBool? then Stuck
      else if s.top.b then Run(e, fuel, c, s.rest)
      else Run(e, fuel, d, s.rest)
    case IF_NONE(c, d) =>
      if s.Push? && s.top.VNone? then Run(e, fuel, c, s.rest)
      else if s.Push? && s.top.VSome? then Run(e, fuel, d, Push(s.top.v, s.rest))
      else Stuck
    case IF_LEFT(c, d) =>
      if s.Push? && s.top.VLeft? then Run(e, fuel, c, Push(s.top.left, s.rest))
      else if s.Push? && s.top.VRight? then Run(e, fuel, d, Push(s.top.right, s.rest))
      else Stuck
    case IF_CONS(c, d) =>
      if !s.Push? || !s.top.VList? then Stuck
      else if s.top.elems == [] then Run(e, fuel, d, s.rest)
      else Run(e, fuel, c, Push(s.top.elems[0], Push(VList(s.top.elems[1..]), s.rest)))
    case ITER(c) => if s.Push? && s.top.VList? then Iter(e, fuel, c, s.top.elems, s.rest) else Stuck
    case MAP(c) => if s.Push? && s.top.VList? then MapList(e, fuel, c, s.top.elems, [], s.rest) else Stuck
    case EXEC =>
      if !s.Push? || !s.rest.Push? then Stuck
      else if fuel == 0 then OutOfFuel
      else Return(Call(e, fuel - 1, s.rest.top, s.top), s.rest.rest)
    case VIEW(name) =>
      if !s.Push? || !s.rest.Push? || !s.rest.top.VAddr? then Stuck
      else if !HasView(e, s.rest.top.a, name) then Ok(Push(VNone, s.rest.rest))
      else if fuel == 0 then OutOfFuel
      else ReturnSome(CallView(e, fuel - 1, s.rest.top.a, name, s.top), s.rest.rest)
    case _ => Basic(e, i, s)
  }

  function RunUnder(e: Env, fuel: nat, n: nat, c: Code, s: Stack): Outcome
    decreases fuel, 0, c, n + 1
  {
    if n == 0 then Run(e, fuel, c, s)
    else if s.Push? then Under(s.top, RunUnder(e, fuel, n - 1, c, s.rest))
    else Stuck
  }

  function Iter(e: Env, fuel: nat, c: Code, xs: seq<Value>, s: Stack): Outcome
    decreases fuel, 0, c, |xs| + 1
  {
    if xs == [] then Ok(s)
    else match Run(e, fuel, c, Push(xs[0], s))
      case Ok(s') => Iter(e, fuel, c, xs[1..], s')
      case o => o
  }

  /** `done` holds the elements already mapped. */
  function MapList(e: Env, fuel: nat, c: Code, xs: seq<Value>, done: seq<Value>, s: Stack): Outcome
    decreases fuel, 0, c, |xs| + 1
  {
    if xs == [] then Ok(Push(VList(done), s))
    else match Run(e, fuel, c, Push(xs[0], s))
      case Ok(Push(y, s')) => MapList(e, fuel, c, xs[1..], done + [y], s')
      case Ok(Empty) => Stuck
      case o => o
  }

  /** A lambda runs on a stack of its own: the argument, and the lambda itself if it is recursive. */
  function Call(e: Env, fuel: nat, f: Value, arg: Value): Outcome
    decreases fuel, 1
  {
    match f
    case VLam(c) => Run(e, fuel, c, Push(arg, Empty))
    case VLamRec(c) => Run(e, fuel, c, Push(arg, Push(f, Empty)))
    case _ => Stuck
  }

  predicate HasView(e: Env, at: Account, name: string) {
    at in e.world && name in e.world[at].views
  }

  function CallView(e: Env, fuel: nat, at: Account, name: string, arg: Value): Outcome
    requires HasView(e, at, name)
    decreases fuel, 1
  {
    Run(e.(self := at, sender := e.self, amount := 0), fuel,
        e.world[at].views[name], Push(VPair(arg, e.world[at].storage), Empty))
  }

  function Under(top: Value, o: Outcome): Outcome {
    match o
    case Ok(s) => Ok(Push(top, s))
    case _ => o
  }

  function Return(o: Outcome, rest: Stack): Outcome {
    match o
    case Ok(Push(r, Empty)) => Ok(Push(r, rest))
    case Ok(_) => Stuck
    case _ => o
  }

  function ReturnSome(o: Outcome, rest: Stack): Outcome {
    match o
    case Ok(Push(r, Empty)) => Ok(Push(VSome(r), rest))
    case Ok(_) => Stuck
    case _ => o
  }

  // ---------------------------------------------------------------- instructions without code

  predicate Has(s: Stack, n: nat)
    decreases n
  {
    n == 0 || (s.Push? && Has(s.rest, n - 1))
  }

  // Addressing from the top; the answers on stacks that are too short are never used.

  function Nth(s: Stack, n: nat): Value
    decreases n
  {
    if s.Empty? then VUnit else if n == 0 then s.top else Nth(s.rest, n - 1)
  }

  function Dropped(s: Stack, n: nat): Stack
    decreases n
  {
    if s.Empty? || n == 0 then s else Dropped(s.rest, n - 1)
  }

  function Without(s: Stack, n: nat): Stack
    decreases n
  {
    if s.Empty? then s else if n == 0 then s.rest else Push(s.top, Without(s.rest, n - 1))
  }

  function Insert(s: Stack, n: nat, v: Value): Stack
    decreases n
  {
    if s.Empty? || n == 0 then Push(v, s) else Push(s.top, Insert(s.rest, n - 1, v))
  }

  function Sign(x: int, y: int): int {
    if x < y then -1 else if x == y then 0 else 1
  }

  /** Lexicographic order on characters. */
  function CompareText(x: string, y: string): int {
    if x == y then 0
    else if x == "" then -1
    else if y == "" then 1
    else if x[0] == y[0] then CompareText(x[1..], y[1..])
    else if x[0] < y[0] then -1
    else 1
  }

  function Tez(m: int, rest: Stack): Outcome {
    if 0 <= m <= MAX_MUTEZ then Ok(Push(VMutez(m), rest)) else Overflow
  }

  function Comparison(a: Value, b: Value, rest: Stack): Outcome {
    if a.VInt? && b.VInt? then Ok(Push(VInt(Sign(a.i, b.i)), rest))
    else if a.VMutez? && b.VMutez? then Ok(Push(VInt(Sign(a.m, b.m)), rest))
    else if a.VStr? && b.VStr? then Ok(Push(VInt(CompareText(a.text, b.text)), rest))
    else if a.VAddr? && b.VAddr? then Ok(Push(VInt(CompareText(a.a, b.a)), rest))
    else Stuck
  }

  function Lookup(k: Value, m: map<Value, Value>): Value {
    if k in m then VSome(m[k]) else VNone
  }

  function Updated(k: Value, v: Value, m: map<Value, Value>): map<Value, Value>
    requires v.VSome? || v.VNone?
  {
    if v.VSome? then m[k := v.v] else m - {k}
  }

  /** APPLY fixes the first component of the argument; a recursive lambda is re-created inside. */
  function Applied(v: Value, f: Value, rest: Stack): Outcome {
    if f.VLam? then Ok(Push(VLam(Do(PUSH(v), Do(PAIR, f.body))), rest))
    else if f.VLamRec? then
      Ok(Push(VLam(Do(PUSH(v), Do(PAIR, Do(LAMBDA_REC(f.recBody), Do(SWAP, Do(EXEC, Done)))))), rest))
    else Stuck
  }

  function Split(t: Value, parts: Value, rest: Stack): Outcome {
    if t.VTicket? && parts.VPair? && parts.fst.VInt? && parts.snd.VInt? && parts.fst.i >= 0 && parts.snd.i >= 0 then
      Ok(Push(if parts.fst.i + parts.snd.i == t.amount
              then VSome(VPair(t.(amount := parts.fst.i), t.(amount := parts.snd.i))) else VNone, rest))
    else Stuck
  }

  function Join(t: Value, u: Value, rest: Stack): Outcome {
    if t.VTicket? && u.VTicket? then
      Ok(Push(if t.ticketer == u.ticketer && t.content == u.content
              then VSome(t.(amount := t.amount + u.amount)) else VNone, rest))
    else Stuck
  }

  function OfAmbient(e: Env, k: Ambient): Value {
    match k
    case Unit => VUnit
    case None => VNone
    case Nil => VList([])
    case EmptySet => VSet({})
    case EmptyMap => VMap(map[])
    case Amount => VMutez(e.amount)
    case Balance => VMutez(e.balance)
    case Sender => VAddr(e.sender)
    case Source => VAddr(e.source)
    case Now => VInt(e.now)
    case Self => VContract(e.self, "")
    case SelfAddress => VAddr(e.self)
    case ChainId => VStr(e.chain)
  }

  function OnAny(k: Generic, a: Value, rest: Stack): Outcome {
    match k
    case Dup => Ok(Push(a, Push(a, rest)))
    case Drop => Ok(rest)
    case Some => Ok(Push(VSome(a), rest))
    case Left => Ok(Push(VLeft(a), rest))
    case Right => Ok(Push(VRight(a), rest))
    case Pack => Ok(Push(VBytes(Packed(a)), rest))
    case Failwith => Failed(a)
  }

  function OnPair(k: Pairwise, x: Value, y: Value, rest: Stack): Outcome {
    match k
    case Car => Ok(Push(x, rest))
    case Cdr => Ok(Push(y, rest))
    case Unpair => Ok(Push(x, Push(y, rest)))
    case Unpair3 => if y.VPair? then Ok(Push(x, Push(y.fst, Push(y.snd, rest)))) else Stuck
    case Get4 => if y.VPair? then Ok(Push(y.snd, rest)) else Stuck
    case JoinTickets => Join(x, y, rest)
  }

  function OnInt(k: Numeric, x: int): Value {
    match k
    case Eq => VBool(x == 0)
    case Neq => VBool(x != 0)
    case Lt => VBool(x < 0)
    case Gt => VBool(x > 0)
    case Le => VBool(x <= 0)
    case Ge => VBool(x >= 0)
    case Abs => VInt(if x < 0 then -x else x)
    case Int => VInt(x)
    case Isnat => if x < 0 then VNone else VSome(VInt(x))
  }

  function OnOne(e: Env, k: Special, a: Value, rest: Stack): Outcome {
    match k
    case Not => if a.VBool? then Ok(Push(VBool(!a.b), rest)) else Stuck
    case Address => if a.VContract? then Ok(Push(VAddr(a.address), rest)) else Stuck
    case ImplicitAccount => if a.VKeyHash? then Ok(Push(VContract(a.hash, ""), rest)) else Stuck
    case HashKey => if a.VKey? then Ok(Push(VKeyHash(e.hashKey(a.key)), rest)) else Stuck
    case Blake2b => if a.VBytes? then Ok(Push(VBytes(Hashed(a.bytes)), rest)) else Stuck
    case ReadTicket =>
      if a.VTicket? then Ok(Push(VPair(VAddr(a.ticketer), VPair(a.content, VInt(a.amount))), Push(a, rest))) else Stuck
  }

  function OnTwo(k: Binary, a: Value, b: Value, rest: Stack): Outcome {
    match k
    case Swap => Ok(Push(b, Push(a, rest)))
    case Pair => Ok(Push(VPair(a, b), rest))
    case Cons => if b.VList? then Ok(Push(VList([a] + b.elems), rest)) else Stuck
    case Apply => Applied(a, b, rest)
    case Compare => Comparison(a, b, rest)
    case Get => if b.VMap? then Ok(Push(Lookup(a, b.entries), rest)) else Stuck
    case Mem =>
      if b.VMap? then Ok(Push(VBool(a in b.entries), rest))
      else if b.VSet? then Ok(Push(VBool(a in b.members), rest))
      else Stuck
    case SplitTicket => Split(a, b, rest)
  }

  function Compute(k: Arithmetic, a: Value, b: Value, rest: Stack): Outcome {
    match k
    case Add =>
      if a.VInt? && b.VInt? then Ok(Push(VInt(a.i + b.i), rest))
      else if a.VMutez? && b.VMutez? then Tez(a.m + b.m, rest)
      else Stuck
    case Sub => if a.VInt? && b.VInt? then Ok(Push(VInt(a.i - b.i), rest)) else Stuck
    case SubMutez =>
      if a.VMutez? && b.VMutez? then Ok(Push(if b.m <= a.m then VSome(VMutez(a.m - b.m)) else VNone, rest)) else Stuck
    case Mul =>
      if a.VInt? && b.VInt? then Ok(Push(VInt(a.i * b.i), rest))
      else if a.VInt? && b.VMutez? then Tez(a.i * b.m, rest)
      else if a.VMutez? && b.VInt? then Tez(a.m * b.i, rest)
      else Stuck
    case Ediv =>
      if !a.VMutez? || !b.VInt? || b.i < 0 then Stuck
      else if b.i == 0 then Ok(Push(VNone, rest))
      else Ok(Push(VSome(VPair(VMutez(a.m / b.i), VMutez(a.m % b.i))), rest))
    case And => if a.VBool? && b.VBool? then Ok(Push(VBool(a.b && b.b), rest)) else Stuck
    case Or => if a.VBool? && b.VBool? then Ok(Push(VBool(a.b || b.b), rest)) else Stuck
  }

  function OnThree(e: Env, k: Ternary, a: Value, b: Value, c: Value, rest: Stack): Outcome {
    match k
    case Update =>
      if c.VMap? && (b.VSome? || b.VNone?) then Ok(Push(VMap(Updated(a, b, c.entries)), rest))
      else if c.VSet? && b.VBool? then Ok(Push(VSet(if b.b then c.members + {a} else c.members - {a}), rest))
      else Stuck
    case GetAndUpdate =>
      if c.VMap? && (b.VSome? || b.VNone?) then
        Ok(Push(Lookup(a, c.entries), Push(VMap(Updated(a, b, c.entries)), rest)))
      else Stuck
    case TransferTokens =>
      if b.VMutez? && c.VContract? then Ok(Push(VTransfer(a, b.m, c.address, c.entrypoint), rest)) else Stuck
    case CheckSignature =>
      if a.VKey? && b.VSig? && c.VBytes? then Ok(Push(VBool(e.verify(a.key, b.sig, c.bytes)), rest)) else Stuck
  }

  function Basic(e: Env, i: Instr, s: Stack): Outcome {
    match i
    case PUSH(v) => Ok(Push(v, s))
    case LAMBDA(c) => Ok(Push(VLam(c), s))
    case LAMBDA_REC(c) => Ok(Push(VLamRec(c), s))
    case CONTRACT(ep) =>
      if !s.Push? || !s.top.VAddr? then Stuck
      else Ok(Push(if e.entrypoints(s.top.a, ep) then VSome(VContract(s.top.a, ep)) else VNone, s.rest))
    case DUPN(n) => if n > 0 && Has(s, n) then Ok(Push(Nth(s, n - 1), s)) else Stuck
    case DROPN(n) => if Has(s, n) then Ok(Dropped(s, n)) else Stuck
    case DIG(n) => if Has(s, n + 1) then Ok(Push(Nth(s, n), Without(s, n))) else Stuck
    case DUG(n) => if Has(s, n + 1) then Ok(Insert(s.rest, n, s.top)) else Stuck
    case Amb(k) => Ok(Push(OfAmbient(e, k), s))
    case Gen(k) => if s.Push? then OnAny(k, s.top, s.rest) else Stuck
    case Prs(k) => if s.Push? && s.top.VPair? then OnPair(k, s.top.fst, s.top.snd, s.rest) else Stuck
    case Num(k) => if s.Push? && s.top.VInt? then Ok(Push(OnInt(k, s.top.i), s.rest)) else Stuck
    case Spc(k) => if s.Push? then OnOne(e, k, s.top, s.rest) else Stuck
    case Bin(k) => if s.Push? && s.rest.Push? then OnTwo(k, s.top, s.rest.top, s.rest.rest) else Stuck
    case Ari(k) => if s.Push? && s.rest.Push? then Compute(k, s.top, s.rest.top, s.rest.rest) else Stuck
    case Ter(k) =>
      if s.Push? && s.rest.Push? && s.rest.rest.Push? then
        OnThree(e, k, s.top, s.rest.top, s.rest.rest.top, s.rest.rest.rest)
      else Stuck
    case _ => Stuck
  }
}
