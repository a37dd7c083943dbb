/** The macro language contracts are written in, its direct meaning, and its expansion. */
module Macros {
  import opened Michelson
  import opened Rules
  import opened MacroPairs

  datatype Side = A | D

  datatype Program = End | Next(first: Phrase, rest: Program)

  /** Instructions of the machine, instructions that hold programs, and macros. */
  datatype Phrase =
    | Plain(i: Instr)
    | Block(c: Program) | Dip(c: Program) | Dipn(n: nat, c: Program)
    | If(c: Program, d: Program) | IfNone(c: Program, d: Program) | IfLeft(c: Program, d: Program)
    | IfCons(c: Program, d: Program) | Loop(c: Program) | Map(c: Program) | Lambda(c: Program) | LambdaRec(c: Program)
    | FAIL | ASSERT | ASSERT_NONE | ASSERT_SOME | ASSERT_LEFT | ASSERT_RIGHT
    | CMP(op: Numeric) | ASSERT_(op: Numeric) | ASSERT_CMP(op: Numeric)
    | IF_(op: Numeric, c: Program, d: Program) | IFCMP(op: Numeric, c: Program, d: Program)
    | IF_SOME(c: Program, d: Program) | IF_RIGHT(c: Program, d: Program)
    | CADR(path: seq<Side>) | SET_CADR(path: seq<Side>, named: bool) | MAP_CADR(path: seq<Side>, c: Program)
    | PAIRS(left: Tree, right: Tree) | UNPAIRS(left: Tree, right: Tree, legacy: bool) | LEGACY_DUP(n: nat)

  function Next2(a: Phrase, b: Phrase, rest: Program): Program { Next(a, Next(b, rest)) }
  function Next3(a: Phrase, b: Phrase, c: Phrase, rest: Program): Program { Next(a, Next2(b, c, rest)) }
  function Next4(a: Phrase, b: Phrase, c: Phrase, d: Phrase, rest: Program): Program { Next2(a, b, Next2(c, d, rest)) }
  function Next6(a: Phrase, b: Phrase, c: Phrase, d: Phrase, e: Phrase, f: Phrase, rest: Program): Program {
    Next2(a, b, Next4(c, d, e, f, rest))
  }
  function Next8(a: Phrase, b: Phrase, c: Phrase, d: Phrase, e: Phrase, f: Phrase, g: Phrase, h: Phrase,
      rest: Program): Program {
    Next4(a, b, c, d, Next4(e, f, g, h, rest))
  }

  // ---------------------------------------------------------------- direct meaning

  function Means(e: Env, f: nat, p: Program, s: Stack): Outcome
    decreases p, 0
  {
    match p
    case End => Ok(s)
    case Next(w, rest) =>
      match MeansOne(e, f, w, s)
      case Ok(s') => Means(e, f, rest, s')
      case o => o
  }

  function FailUnit(): Outcome { Failed(VUnit) }

  function MeansOne(e: Env, f: nat, w: Phrase, s: Stack): Outcome
    decreases w, 0
  {
    match w
    case Plain(i) => Step(e, f, i, s)
    case Block(c) => Means(e, f, c, s)
    case Dip(c) => if s.Push? then Under(s.top, Means(e, f, c, s.rest)) else Stuck
    case Dipn(n, c) => MeansUnder(e, f, n, c, s)
    case If(c, d) =>
      if s.Push? && s.top.VBool? then (if s.top.b then Means(e, f, c, s.rest) else Means(e, f, d, s.rest)) else Stuck
    case IfNone(c, d) =>
      if s.Push? && s.top.VNone? then Means(e, f, c, s.rest)
      else if s.Push? && s.top.VSome? then Means(e, f, d, Push(s.top.v, s.rest))
      else Stuck
    case IfLeft(c, d) =>
      if s.Push? && s.top.VLeft? then Means(e, f, c, Push(s.top.left, s.rest))
      else if s.Push? && s.top.VRight? then Means(e, f, d, Push(s.top.right, s.rest))
      else Stuck
    case IfCons(c, d) =>
      if !s.Push? || !s.top.VList? then Stuck
      else if s.top.elems == [] then Means(e, f, d, s.rest)
      else Means(e, f, c, Push(s.top.elems[0], Push(VList(s.top.elems[1..]), s.rest)))
    case Loop(c) => if s.Push? && s.top.VList? then MeansEach(e, f, c, s.top.elems, s.rest) else Stuck
    case Map(c) => if s.Push? && s.top.VList? then MeansMap(e, f, c, s.top.elems, [], s.rest) else Stuck
    case Lambda(c) => Ok(Push(VLam(Expand(c)), s))
    case LambdaRec(c) => Ok(Push(VLamRec(Expand(c)), s))
    case FAIL => FailUnit()
    case ASSERT => if s.Push? && s.top.VBool? then (if s.top.b then Ok(s.rest) else FailUnit()) else Stuck
    case ASSERT_NONE =>
      if s.Push? && s.top.VNone? then Ok(s.rest) else if s.Push? && s.top.VSome? then FailUnit() else Stuck
    case ASSERT_SOME =>
      if s.Push? && s.top.VSome? then Ok(Push(s.top.v, s.rest))
      else if s.Push? && s.top.VNone? then FailUnit()
      else Stuck
    case ASSERT_LEFT =>
      if s.Push? && s.top.VLeft? then Ok(Push(s.top.left, s.rest))
      else if s.Push? && s.top.VRight? then FailUnit()
      else Stuck
    case ASSERT_RIGHT =>
      if s.Push? && s.top.VRight? then Ok(Push(s.top.right, s.rest))
      else if s.Push? && s.top.VLeft? then FailUnit()
      else Stuck
    case CMP(op) => if Comparable(s) then Ok(Push(OnInt(op, Order(s)), s.rest.rest)) else Stuck
    case ASSERT_(op) =>
      if s.Push? && s.top.VInt? && Tests(op) then (if OnInt(op, s.top.i).b then Ok(s.rest) else FailUnit()) else Stuck
    case ASSERT_CMP(op) =>
      if Comparable(s) && Tests(op) then (if OnInt(op, Order(s)).b then Ok(s.rest.rest) else FailUnit()) else Stuck
    case IF_(op, c, d) =>
      if s.Push? && s.top.VInt? && Tests(op) then
        (if OnInt(op, s.top.i).b then Means(e, f, c, s.rest) else Means(e, f, d, s.rest))
      else Stuck
    case IFCMP(op, c, d) =>
      if Comparable(s) && Tests(op) then
        (if OnInt(op, Order(s)).b then Means(e, f, c, s.rest.rest) else Means(e, f, d, s.rest.rest))
      else Stuck
    case IF_SOME(c, d) =>
      if s.Push? && s.top.VSome? then Means(e, f, c, Push(s.top.v, s.rest))
      else if s.Push? && s.top.VNone? then Means(e, f, d, s.rest)
      else Stuck
    case IF_RIGHT(c, d) =>
      if s.Push? && s.top.VRight? then Means(e, f, c, Push(s.top.right, s.rest))
      else if s.Push? && s.top.VLeft? then Means(e, f, d, Push(s.top.left, s.rest))
      else Stuck
    case CADR(path) => if path == [] then Ok(s) else if s.Push? then Project(s.top, path, s.rest) else Stuck
    case SET_CADR(path, _) => MeansSet(path, s)
    case MAP_CADR(path, c) => MeansAt(e, f, path, c, s)
    case PAIRS(l, r) => Paired(Node(l, r), s)
    case UNPAIRS(l, r, _) => Unpaired(Node(l, r), s)
    case LEGACY_DUP(n) => if 0 < n && Has(s, n) then Ok(Push(Nth(s, n - 1), s)) else Stuck
  }

  /** The two topmost values can be compared; Order is the answer. */
  predicate Comparable(s: Stack) {
    s.Push? && s.rest.Push? && Comparison(s.top, s.rest.top, Empty).Ok?
  }

  function Order(s: Stack): int
    requires Comparable(s)
  {
    var a, b := s.top, s.rest.top;
    if a.VInt? then Sign(a.i, b.i) else if a.VMutez? then Sign(a.m, b.m)
    else if a.VStr? then CompareText(a.text, b.text) else CompareText(a.a, b.a)
  }

  predicate Tests(op: Numeric) { op in {Eq, Neq, Lt, Gt, Le, Ge} }

  /** Follow a path of A (first) and D (second) into nested pairs. */
  function Project(v: Value, path: seq<Side>, rest: Stack): Outcome {
    if path == [] then Ok(Push(v, rest))
    else if !v.VPair? then Stuck
    else Project(if path[0].A? then v.fst else v.snd, path[1..], rest)
  }

  predicate Reaches(v: Value, path: seq<Side>) {
    path == [] || (v.VPair? && Reaches(if path[0].A? then v.fst else v.snd, path[1..]))
  }

  /** v with the field at the end of the path replaced by x. */
  function Replaced(v: Value, path: seq<Side>, x: Value): Value
    requires Reaches(v, path)
  {
    if path == [] then x
    else if path[0].A? then VPair(Replaced(v.fst, path[1..], x), v.snd)
    else VPair(v.fst, Replaced(v.snd, path[1..], x))
  }

  /** Store the second value of the stack in a field of the first. */
  function MeansSet(path: seq<Side>, s: Stack): Outcome {
    if path == [] then Ok(s)
    else if s.Push? && s.rest.Push? && Reaches(s.top, path) then
      Ok(Push(Replaced(s.top, path, s.rest.top), s.rest.rest))
    else Stuck
  }

  /** Apply a program to a field of the record on top. On the way down the records above the field
      are out of the program's sight, but at a final D the record itself lies below the field. */
  function MeansAt(e: Env, f: nat, path: seq<Side>, c: Program, s: Stack): Outcome
    decreases c, |path| + 1
  {
    if path == [] then Ok(s)
    else if !s.Push? || !s.top.VPair? then Stuck
    else if path == [D] then
      match Means(e, f, c, Push(s.top.snd, s))
      case Ok(Push(y, Push(VPair(x, _), rest))) => Ok(Push(VPair(x, y), rest))
      case Ok(_) => Stuck
      case o => o
    else
      var field := if path[0].A? then s.top.fst else s.top.snd;
      var o :=
        if |path| == 1 then Means(e, f, c, Push(field, s.rest)) else MeansAt(e, f, path[1..], c, Push(field, s.rest));
      match o
      case Ok(Push(y, rest)) => Ok(Push(if path[0].A? then VPair(y, s.top.snd) else VPair(s.top.fst, y), rest))
      case Ok(Empty) => Stuck
      case _ => o
  }

  function MeansUnder(e: Env, f: nat, n: nat, c: Program, s: Stack): Outcome
    decreases c, n + 1
  {
    if n == 0 then Means(e, f, c, s)
    else if s.Push? then Under(s.top, MeansUnder(e, f, n - 1, c, s.rest))
    else Stuck
  }

  function MeansEach(e: Env, f: nat, c: Program, xs: seq<Value>, s: Stack): Outcome
    decreases c, |xs| + 1
  {
    if xs == [] then Ok(s)
    else match Means(e, f, c, Push(xs[0], s))
      case Ok(s') => MeansEach(e, f, c, xs[1..], s')
      case o => o
  }

  function MeansMap(e: Env, f: nat, c: Program, xs: seq<Value>, done: seq<Value>, s: Stack): Outcome
    decreases c, |xs| + 1
  {
    if xs == [] then Ok(Push(VList(done), s))
    else match Means(e, f, c, Push(xs[0], s))
      case Ok(Push(y, s')) => MeansMap(e, f, c, xs[1..], done + [y], s')
      case Ok(Empty) => Stuck
      case o => o
  }

  // ---------------------------------------------------------------- expansion

  const FAIL_CODE: Code := Seq1(BLOCK(Seq2(UNIT, FAILWITH)))

  function Expand(p: Program): Code {
    match p
    case End => Done
    case Next(w, rest) => Do(ExpandOne(w), Expand(rest))
  }

  function ExpandOne(w: Phrase): Instr {
    match w
    case Plain(i) => i
    case Block(c) => BLOCK(Expand(c))
    case Dip(c) => DIP(Expand(c))
    case Dipn(n, c) => DIPN(n, Expand(c))
    case If(c, d) => IF(Expand(c), Expand(d))
    case IfNone(c, d) => IF_NONE(Expand(c), Expand(d))
    case IfLeft(c, d) => IF_LEFT(Expand(c), Expand(d))
    case IfCons(c, d) => IF_CONS(Expand(c), Expand(d))
    case Loop(c) => ITER(Expand(c))
    case Map(c) => MAP(Expand(c))
    case Lambda(c) => LAMBDA(Expand(c))
    case LambdaRec(c) => LAMBDA_REC(Expand(c))
    case FAIL => BLOCK(Seq2(UNIT, FAILWITH))
    case ASSERT => BLOCK(Seq1(IF(Done, FAIL_CODE)))
    case ASSERT_NONE => BLOCK(Seq1(IF_NONE(Done, FAIL_CODE)))
    case ASSERT_SOME => BLOCK(Seq1(IF_NONE(FAIL_CODE, Done)))
    case ASSERT_LEFT => BLOCK(Seq1(IF_LEFT(Done, FAIL_CODE)))
    case ASSERT_RIGHT => BLOCK(Seq1(IF_LEFT(FAIL_CODE, Done)))
    case CMP(op) => BLOCK(Seq2(COMPARE, Num(op)))
    case ASSERT_(op) => BLOCK(Seq2(Num(op), IF(Done, FAIL_CODE)))
    case ASSERT_CMP(op) => BLOCK(Seq2(BLOCK(Seq2(COMPARE, Num(op))), IF(Done, FAIL_CODE)))
    case IF_(op, c, d) => BLOCK(Seq2(Num(op), IF(Expand(c), Expand(d))))
    case IFCMP(op, c, d) => BLOCK(Seq3(COMPARE, Num(op), IF(Expand(c), Expand(d))))
    case IF_SOME(c, d) => BLOCK(Seq1(IF_NONE(Expand(d), Expand(c))))
    case IF_RIGHT(c, d) => BLOCK(Seq1(IF_LEFT(Expand(d), Expand(c))))
    case CADR(path) => BLOCK(ExpandPath(path))
    case SET_CADR(path, named) => BLOCK(ExpandSet(path, named))
    case MAP_CADR(path, c) => BLOCK(ExpandAt(path, Expand(c)))
    case PAIRS(l, r) => BLOCK(Spelled(PairDepths(Node(l, r)), PAIR))
    case UNPAIRS(l, r, legacy) => BLOCK(Spelled(UnpairDepths(Node(l, r)), UnpairInstr(legacy)))
    case LEGACY_DUP(n) =>
      if n <= 1 then BLOCK(Seq1(if n == 1 then DUP else DUPN(0)))
      else if n == 2 then BLOCK(Seq2(DIP(Seq1(DUP)), SWAP))
      else BLOCK(Seq2(DIPN(n - 1, Seq1(DUP)), DIG(n)))
  }

  /** With a field annotation the field is read once more, to have its name checked. */
  function ExpandSet(path: seq<Side>, named: bool): Code {
    if path == [] then Done
    else if |path| == 1 then
      match (path[0], named)
      case (A, true) => Seq6(DUP, CAR, DROP, CDR, SWAP, PAIR)
      case (D, true) => Seq5(DUP, CDR, DROP, CAR, PAIR)
      case (A, false) => Seq3(CDR, SWAP, PAIR)
      case (D, false) => Seq2(CAR, PAIR)
    else Inside(path[0], ExpandSet(path[1..], named))
  }

  /** One level down: work on one side of the pair on top and put the pair together again. */
  function Inside(side: Side, c: Code): Code {
    if side.A? then Seq5(DUP, DIP(Seq2(CAR, BLOCK(c))), CDR, SWAP, PAIR)
    else Seq4(DUP, DIP(Seq2(CDR, BLOCK(c))), CAR, PAIR)
  }

  function ExpandAt(path: seq<Side>, c: Code): Code {
    if path == [] then Done
    else if |path| == 1 then
      if path[0].A? then Seq5(DUP, CDR, DIP(Seq2(CAR, BLOCK(c))), SWAP, PAIR)
      else Seq6(DUP, CDR, BLOCK(c), SWAP, CAR, PAIR)
    else Inside(path[0], ExpandAt(path[1..], c))
  }

  function ExpandPath(path: seq<Side>): Code {
    if path == [] then Done else Do(if path[0].A? then CAR else CDR, ExpandPath(path[1..]))
  }

  const MI_STR: Program :=
    Next8(Plain(PUSH(VMutez(1000000))), Plain(AMOUNT), IFCMP(Ge, End, Next2(Plain(PUSH(VStr(
    "You did not provide enough tez."))), Plain(FAILWITH), End)), Plain(UNPAIR), Plain(SWAP), Plain(DUP), Plain(CAR),
    Dip(Next(Plain(PUSH(VInt(15))), End)), Next(IFCMP(Lt, Next3(Plain(SWAP), Plain(PUSH(VInt(34))), IFCMP(Eq,
    Next8(Plain(SENDER), Plain(CONTRACT("")), IF_SOME(End, Next(Plain(FAILWITH), End)), Plain(BALANCE), Plain(UNIT),
    Plain(TRANSFER_TOKENS), Plain(NIL), Plain(SWAP), Next2(Plain(CONS), Plain(PAIR), End)), Next6(Plain(UNPAIR),
    Plain(PUSH(VInt(1))), Plain(ADD), Plain(PAIR), Plain(NIL), Plain(PAIR), End)), End), Next8(Dip(Next(Plain(DROP),
    End)), Plain(DUP), Plain(CDR), Plain(CONTRACT("")), IF_SOME(End, Next(Plain(FAILWITH), End)), Plain(BALANCE),
    Plain(UNIT), Plain(TRANSFER_TOKENS), Next4(Plain(NIL), Plain(SWAP), Plain(CONS), Plain(PAIR), End))), End))

  const PAY_OUT: Code :=
    Do8(DIP(Seq1(DROP)), DUP, CDR, CONTRACT(""), BLOCK(Seq1(IF_NONE(Seq1(FAILWITH), Done))), BALANCE, UNIT,
    TRANSFER_TOKENS, Seq4(NIL, SWAP, CONS, PAIR))

  const GUESS: Code :=
    Seq3(SWAP, PUSH(VInt(34)), BLOCK(Seq3(COMPARE, EQ, IF(Do8(SENDER, CONTRACT(""), BLOCK(Seq1(IF_NONE(Seq1(FAILWITH),
    Done))), BALANCE, UNIT, TRANSFER_TOKENS, NIL, SWAP, Seq2(CONS, PAIR)), Seq6(UNPAIR, PUSH(VInt(1)), ADD, PAIR, NIL,
    PAIR)))))

  const MI_OBJECT: Code :=
    Do8(PUSH(VMutez(1000000)), AMOUNT, BLOCK(Seq3(COMPARE, GE, IF(Done, Seq2(PUSH(VStr(
    "You did not provide enough tez.")), FAILWITH)))), UNPAIR, SWAP, DUP, CAR, DIP(Seq1(PUSH(VInt(15)))),
    Seq1(BLOCK(Seq3(COMPARE, LT, IF(GUESS, PAY_OUT)))))

  // ---------------------------------------------------------------- expansion keeps meaning

  lemma {:induction false} ProjectExpands(e: Env, f: nat, v: Value, path: seq<Side>, rest: Stack)
    ensures Run(e, f, ExpandPath(path), Push(v, rest)) == Project(v, path, rest)
    decreases |path|
  {
    hide Run, Then;
    ControlRules();
    if path != [] && v.VPair? { ProjectExpands(e, f, if path[0].A? then v.fst else v.snd, path[1..], rest); }
  }

  lemma PathKeepsMeaning(e: Env, f: nat, path: seq<Side>, s: Stack)
    ensures Step(e, f, ExpandOne(CADR(path)), s) == MeansOne(e, f, CADR(path), s)
  {
    hide Run, Then;
    ControlRules();
    if path != [] && s.Push? { ProjectExpands(e, f, s.top, path, s.rest); }
  }

  /** Every program, on every stack and with every fuel, ends as its expansion does: with the same
      stack, the same failure, or stuck at the same time. */
  lemma {:induction false} ExpansionKeepsMeaning(e: Env, f: nat, p: Program, s: Stack)
    ensures Run(e, f, Expand(p), s) == Means(e, f, p, s)
    decreases p, 0
  {
    match p
    case End =>
    case Next(w, rest) =>
      PhraseKeepsMeaning(e, f, w, s);
      hide Step;
      var o := MeansOne(e, f, w, s);
      if o.Ok? { ExpansionKeepsMeaning(e, f, rest, o.stack); }
  }

  /** A lambda the machine calls was stored as its expansion; it acts as the program written in it
      means, the recursive one on a stack that ends in itself. */
  lemma LambdaMeans(e: Env, f: nat, c: Program, arg: Value)
    ensures Michelson.Call(e, f, VLam(Expand(c)), arg) == Means(e, f, c, Push(arg, Empty))
    ensures Michelson.Call(e, f, VLamRec(Expand(c)), arg) == Means(e, f, c, Push(arg, Push(VLamRec(Expand(c)), Empty)))
  {
    hide Run, Means, Expand;
    ExpansionKeepsMeaning(e, f, c, Push(arg, Empty));
    ExpansionKeepsMeaning(e, f, c, Push(arg, Push(VLamRec(Expand(c)), Empty)));
  }

  /** Phrase by phrase; the lemmas below take the families one by one. */
  lemma {:induction false} PhraseKeepsMeaning(e: Env, f: nat, w: Phrase, s: Stack)
    ensures Step(e, f, ExpandOne(w), s) == MeansOne(e, f, w, s)
    decreases w, 2
  {
    hide Step, MeansOne, ExpandOne;
    match w
    case Plain(_) => AtomKeepsMeaning(e, f, w, s);
    case Lambda(_) => AtomKeepsMeaning(e, f, w, s);
    case LambdaRec(_) => AtomKeepsMeaning(e, f, w, s);
    case FAIL => AtomKeepsMeaning(e, f, w, s);
    case CMP(_) => AssertTestKeepsMeaning(e, f, w, s);
    case LEGACY_DUP(n) => DupKeepsMeaning(e, f, n, s);
    case Block(_) => NestKeepsMeaning(e, f, w, s);
    case Dip(_) => NestKeepsMeaning(e, f, w, s);
    case Dipn(_, _) => NestKeepsMeaning(e, f, w, s);
    case Loop(_) => NestKeepsMeaning(e, f, w, s);
    case Map(_) => NestKeepsMeaning(e, f, w, s);
    case If(_, _) => ChoiceKeepsMeaning(e, f, w, s);
    case IfNone(_, _) => ChoiceKeepsMeaning(e, f, w, s);
    case IfLeft(_, _) => ChoiceKeepsMeaning(e, f, w, s);
    case IfCons(_, _) => ChoiceKeepsMeaning(e, f, w, s);
    case IF_SOME(_, _) => SwappedKeepsMeaning(e, f, w, s);
    case IF_RIGHT(_, _) => SwappedKeepsMeaning(e, f, w, s);
    case IF_(_, _, _) => TestKeepsMeaning(e, f, w, s);
    case IFCMP(_, _, _) => TestKeepsMeaning(e, f, w, s);
    case ASSERT => AssertKeepsMeaning(e, f, w, s);
    case ASSERT_NONE => AssertKeepsMeaning(e, f, w, s);
    case ASSERT_SOME => AssertKeepsMeaning(e, f, w, s);
    case ASSERT_LEFT => AssertKeepsMeaning(e, f, w, s);
    case ASSERT_RIGHT => AssertKeepsMeaning(e, f, w, s);
    case ASSERT_(_) => AssertTestKeepsMeaning(e, f, w, s);
    case ASSERT_CMP(_) => AssertTestKeepsMeaning(e, f, w, s);
    case CADR(path) => PathKeepsMeaning(e, f, path, s);
    case SET_CADR(path, named) => SetKeepsMeaning(e, f, path, named, s);
    case MAP_CADR(path, c) => AtKeepsMeaning(e, f, path, c, s);
    case PAIRS(_, _) => TreeKeepsMeaning(e, f, w, s);
    case UNPAIRS(_, _, _) => TreeKeepsMeaning(e, f, w, s);
  }

  lemma AtomKeepsMeaning(e: Env, f: nat, w: Phrase, s: Stack)
    requires w.Plain? || w.Lambda? || w.LambdaRec? || w.FAIL?
    ensures Step(e, f, ExpandOne(w), s) == MeansOne(e, f, w, s)
  {
    hide Run;
    if w.FAIL? { Fails(e, f, s); }
  }

  lemma {:induction false} NestKeepsMeaning(e: Env, f: nat, w: Phrase, s: Stack)
    requires w.Block? || w.Dip? || w.Dipn? || w.Loop? || w.Map?
    ensures Step(e, f, ExpandOne(w), s) == MeansOne(e, f, w, s)
    decreases w, 1
  {
    hide Run, Means, Then, Basic;
    match w
    case Block(c) => ExpansionKeepsMeaning(e, f, c, s);
    case Dip(c) => if s.Push? { ExpansionKeepsMeaning(e, f, c, s.rest); }
    case Dipn(n, c) => UnderKeepsMeaning(e, f, n, c, s);
    case Loop(c) => if s.Push? && s.top.VList? { EachKeepsMeaning(e, f, c, s.top.elems, s.rest); }
    case Map(c) => if s.Push? && s.top.VList? { MapKeepsMeaning(e, f, c, s.top.elems, [], s.rest); }
  }

  predicate Chooses(w: Phrase) {
    w.If? || w.IfNone? || w.IfLeft? || w.IfCons? || w.IF_SOME? || w.IF_RIGHT? || w.IF_? || w.IFCMP?
  }

  lemma {:induction false} BranchesKeepMeaning(e: Env, f: nat, w: Phrase)
    requires Chooses(w)
    ensures forall s {:trigger Means(e, f, w.c, s)} :: Run(e, f, Expand(w.c), s) == Means(e, f, w.c, s)
    ensures forall s {:trigger Means(e, f, w.d, s)} :: Run(e, f, Expand(w.d), s) == Means(e, f, w.d, s)
    decreases w, 0
  {
    hide Run, Means;
    forall s { ExpansionKeepsMeaning(e, f, w.c, s); }
    forall s { ExpansionKeepsMeaning(e, f, w.d, s); }
  }

  lemma {:induction false} ChoiceKeepsMeaning(e: Env, f: nat, w: Phrase, s: Stack)
    requires w.If? || w.IfNone? || w.IfLeft? || w.IfCons?
    ensures Step(e, f, ExpandOne(w), s) == MeansOne(e, f, w, s)
    decreases w, 1
  {
    hide Run, Means, Then, Basic, Expand;
    BranchesKeepMeaning(e, f, w);
  }

  lemma {:induction false} SwappedKeepsMeaning(e: Env, f: nat, w: Phrase, s: Stack)
    requires w.IF_SOME? || w.IF_RIGHT?
    ensures Step(e, f, ExpandOne(w), s) == MeansOne(e, f, w, s)
    decreases w, 1
  {
    hide Run, Means, Then, Basic, Expand;
    BranchesKeepMeaning(e, f, w);
    match w
    case IF_SOME(c, d) => BlockOne(e, f, IF_NONE(Expand(d), Expand(c)), s);
    case IF_RIGHT(c, d) => BlockOne(e, f, IF_LEFT(Expand(d), Expand(c)), s);
  }

  lemma {:induction false} TestKeepsMeaning(e: Env, f: nat, w: Phrase, s: Stack)
    requires w.IF_? || w.IFCMP?
    ensures Step(e, f, ExpandOne(w), s) == MeansOne(e, f, w, s)
    decreases w, 1
  {
    hide Run, Means, Step, Comparison, Order, Expand, Tests, OnInt;
    BranchesKeepMeaning(e, f, w);
    match w
    case IF_(op, c, d) => TestThen(e, f, op, Expand(c), Expand(d), s);
    case IFCMP(op, c, d) => CompareThen(e, f, op, Expand(c), Expand(d), s);
  }

  lemma AssertKeepsMeaning(e: Env, f: nat, w: Phrase, s: Stack)
    requires w.ASSERT? || w.ASSERT_NONE? || w.ASSERT_SOME? || w.ASSERT_LEFT? || w.ASSERT_RIGHT?
    ensures Step(e, f, ExpandOne(w), s) == MeansOne(e, f, w, s)
  {
    hide Run, FAIL_CODE, Basic;
    Endings(e, f);
    match w
    case ASSERT => BlockOne(e, f, IF(Done, FAIL_CODE), s);
    case ASSERT_NONE => BlockOne(e, f, IF_NONE(Done, FAIL_CODE), s);
    case ASSERT_SOME => BlockOne(e, f, IF_NONE(FAIL_CODE, Done), s);
    case ASSERT_LEFT => BlockOne(e, f, IF_LEFT(Done, FAIL_CODE), s);
    case ASSERT_RIGHT => BlockOne(e, f, IF_LEFT(FAIL_CODE, Done), s);
  }

  lemma AssertTestKeepsMeaning(e: Env, f: nat, w: Phrase, s: Stack)
    requires w.CMP? || w.ASSERT_? || w.ASSERT_CMP?
    ensures Step(e, f, ExpandOne(w), s) == MeansOne(e, f, w, s)
  {
    hide Run, FAIL_CODE, Step, Comparison, Order;
    Endings(e, f);
    match w
    case CMP(op) => CompareOp(e, f, op, s);
    case ASSERT_(op) => TestThen(e, f, op, Done, FAIL_CODE, s);
    case ASSERT_CMP(op) => CompareOpThen(e, f, op, Done, FAIL_CODE, s);
  }

  lemma TreeKeepsMeaning(e: Env, f: nat, w: Phrase, s: Stack)
    requires w.PAIRS? || w.UNPAIRS?
    ensures Step(e, f, ExpandOne(w), s) == MeansOne(e, f, w, s)
  {
    hide Run, Paired, Unpaired, Basic, Then, Means, Spelled, PairDepths, UnpairDepths, UnpairInstr;
    match w
    case PAIRS(l, r) => PairsBuild(e, f, Node(l, r), s);
    case UNPAIRS(l, r, legacy) => UnpairsSpread(e, f, legacy, Node(l, r), s);
  }

  // ---------------------------------------------------------------- DUP, SET_C[AD]R and MAP_C[AD]R

  lemma {:induction false} DupUnder(e: Env, f: nat, n: nat, s: Stack)
    ensures RunUnder(e, f, n, Seq1(DUP), s) == if Has(s, n + 1) then Ok(Insert(s, n, Nth(s, n))) else Stuck
    decreases n
  {
    hide Run;
    if n == 0 { RunOne(e, f, DUP, s); } else if s.Push? { DupUnder(e, f, n - 1, s.rest); }
  }

  lemma {:induction false} DigInserted(s: Stack, n: nat)
    requires Has(s, n + 1)
    ensures var t := Insert(s, n, Nth(s, n)); Has(t, n + 2) && Nth(t, n + 1) == Nth(s, n) && Without(t, n + 1) == s
    decreases n
  {
    if n > 0 { DigInserted(s.rest, n - 1); }
  }

  lemma DupFirst(e: Env, f: nat, n: nat, s: Stack)
    requires n <= 1
    ensures Run(e, f, Seq1(if n == 1 then DUP else DUPN(0)), s) ==
      if n == 1 && Has(s, 1) then Ok(Push(Nth(s, 0), s)) else Stuck
  {
    hide Run;
    RunOne(e, f, if n == 1 then DUP else DUPN(0), s);
  }

  lemma DupSecond(e: Env, f: nat, s: Stack)
    ensures Run(e, f, Seq2(DIP(Seq1(DUP)), SWAP), s) == if Has(s, 2) then Ok(Push(Nth(s, 1), s)) else Stuck
  {
    hide Run, Then;
    ControlRules();
    if s.Push? { RunOne(e, f, DUP, s.rest); }
  }

  lemma DupDeep(e: Env, f: nat, n: nat, s: Stack)
    requires n > 2
    ensures Run(e, f, Seq2(DIPN(n - 1, Seq1(DUP)), DIG(n)), s) ==
      if Has(s, n) then Ok(Push(Nth(s, n - 1), s)) else Stuck
  {
    hide Run, Then;
    ControlRules();
    DupUnder(e, f, n - 1, s);
    if Has(s, n) { DigInserted(s, n - 1); }
  }

  lemma DupKeepsMeaning(e: Env, f: nat, n: nat, s: Stack)
    ensures Step(e, f, ExpandOne(LEGACY_DUP(n)), s) == MeansOne(e, f, LEGACY_DUP(n), s)
  {
    hide Run, Basic;
    if n <= 1 { DupFirst(e, f, n, s); }
    else if n == 2 { DupSecond(e, f, s); }
    else { DupDeep(e, f, n, s); }
  }

  /** The outcome of working inside one side of the pair on top, given that of the work itself. */
  function Around(side: Side, v: Value, o: Outcome): Outcome
    requires v.VPair?
  {
    match o
    case Ok(Push(y, rest)) => Ok(Push(if side.A? then VPair(y, v.snd) else VPair(v.fst, y), rest))
    case Ok(Empty) => Stuck
    case _ => o
  }

  lemma InsideRuns(e: Env, f: nat, side: Side, c: Code, s: Stack)
    ensures Run(e, f, Inside(side, c), s) ==
      if !s.Push? || !s.top.VPair? then Stuck
      else Around(side, s.top, Run(e, f, c, Push(if side.A? then s.top.fst else s.top.snd, s.rest)))
  {
    if s.Push? && s.top.VPair? {
      hide Run, Then, Step, Basic;
      StackMachine();
      var o := Run(e, f, c, Push(if side.A? then s.top.fst else s.top.snd, s.rest));
      if o.Ok? {
        assert o == Ok(o.stack);
        InsideEnds(e, f, side, s.top, o.stack);
      }
    } else {
      hide Run, Then;
      ControlRules();
    }
  }

  lemma InsideEnds(e: Env, f: nat, side: Side, v: Value, t: Stack)
    requires v.VPair?
    ensures Run(e, f, if side.A? then Seq3(CDR, SWAP, PAIR) else Seq2(CAR, PAIR), Push(v, t)) == Around(side, v, Ok(t))
  {
    hide Run, Then;
    ControlRules();
  }

  lemma SetLast(e: Env, f: nat, side: Side, named: bool, s: Stack)
    ensures Run(e, f, ExpandSet([side], named), s) == MeansSet([side], s)
  {
    if !s.Push? || !s.top.VPair? { SetNoPair(e, f, side, named, s); }
    else if !s.rest.Push? { SetNoValue(e, f, side, named, s); }
    else { SetLastField(e, f, side, named, s); }
  }

  lemma SetNoPair(e: Env, f: nat, side: Side, named: bool, s: Stack)
    requires !s.Push? || !s.top.VPair?
    ensures Run(e, f, ExpandSet([side], named), s) == MeansSet([side], s) == Stuck
  {
    hide Run, Then, Replaced;
    ControlRules();
  }

  lemma SetNoValue(e: Env, f: nat, side: Side, named: bool, s: Stack)
    requires s.Push? && s.top.VPair? && s.rest.Empty?
    ensures Run(e, f, ExpandSet([side], named), s) == MeansSet([side], s) == Stuck
  {
    NeedTwo(e, f);
    hide Run, Then, Step, Basic, Replaced;
    StackMachine();
  }

  lemma NeedTwo(e: Env, f: nat)
    ensures forall n, v {:trigger Run(e, f, Do(PAIR, n), Push(v, Empty))} ::
      Run(e, f, Do(PAIR, n), Push(v, Empty)) == Stuck
    ensures forall n, v {:trigger Run(e, f, Do(SWAP, n), Push(v, Empty))} ::
      Run(e, f, Do(SWAP, n), Push(v, Empty)) == Stuck
  {}

  lemma SetLastField(e: Env, f: nat, side: Side, named: bool, s: Stack)
    requires s.Push? && s.rest.Push? && s.top.VPair?
    ensures Run(e, f, ExpandSet([side], named), s) == MeansSet([side], s)
  {
    var v, x := s.top, s.rest.top;
    var path, field := [side], if side.A? then v.fst else v.snd;
    assert path[1..] == [];
    assert Reaches(field, path[1..]) && Replaced(field, path[1..], x) == x;
    assert MeansSet([side], s) == Ok(Push(if side.A? then VPair(x, v.snd) else VPair(v.fst, x), s.rest.rest));
    assert s == Push(VPair(v.fst, v.snd), Push(x, s.rest.rest));
    hide MeansSet, Replaced, Reaches, Run, Then, Step, Basic;
    StackMachine();
  }

  lemma SetDescends(path: seq<Side>, s: Stack)
    requires |path| > 1
    ensures MeansSet(path, s) ==
      if !s.Push? || !s.top.VPair? then Stuck
      else Around(path[0], s.top, MeansSet(path[1..], Push(if path[0].A? then s.top.fst else s.top.snd, s.rest)))
  {}

  lemma AtDescends(e: Env, f: nat, path: seq<Side>, c: Program, s: Stack)
    requires |path| > 1
    ensures MeansAt(e, f, path, c, s) ==
      if !s.Push? || !s.top.VPair? then Stuck
      else Around(path[0], s.top,
        MeansAt(e, f, path[1..], c, Push(if path[0].A? then s.top.fst else s.top.snd, s.rest)))
  {
    hide Means;
    assert |path| != |[D]|;
  }

  lemma {:induction false} SetExpands(e: Env, f: nat, path: seq<Side>, named: bool, s: Stack)
    ensures Run(e, f, ExpandSet(path, named), s) == MeansSet(path, s)
    decreases |path|
  {
    hide Run, Inside;
    Endings(e, f);
    if |path| == 1 {
      assert path == [path[0]];
      SetLast(e, f, path[0], named, s);
    } else if path != [] {
      InsideRuns(e, f, path[0], ExpandSet(path[1..], named), s);
      SetDescends(path, s);
      if s.Push? && s.top.VPair? {
        SetExpands(e, f, path[1..], named, Push(if path[0].A? then s.top.fst else s.top.snd, s.rest));
      }
    }
  }

  // ---------------------------------------------------------------- setters and getters

  lemma {:induction false} ProjectReplaced(v: Value, path: seq<Side>, x: Value, rest: Stack)
    requires Reaches(v, path)
    ensures Reaches(Replaced(v, path, x), path) && Project(Replaced(v, path, x), path, rest) == Ok(Push(x, rest))
    ensures Project(v, path, rest).Ok? && Project(v, path, rest).stack.Push?
    ensures Replaced(v, path, Project(v, path, rest).stack.top) == v
    decreases |path|
  {
    if path != [] { ProjectReplaced(if path[0].A? then v.fst else v.snd, path[1..], x, rest); }
  }

  lemma {:induction false} ProjectElsewhere(v: Value, path: seq<Side>, x: Value, q: seq<Side>, k: nat, rest: Stack)
    requires Reaches(v, path) && k < |path| && k < |q| && q[..k] == path[..k] && q[k] != path[k]
    ensures Project(Replaced(v, path, x), q, rest) == Project(v, q, rest)
    decreases k
  {
    if k > 0 {
      assert q[0] == q[..k][0] == path[..k][0] == path[0];
      assert q[1..][..k - 1] == q[..k][1..] && path[1..][..k - 1] == path[..k][1..];
      ProjectElsewhere(if path[0].A? then v.fst else v.snd, path[1..], x, q[1..], k - 1, rest);
    }
  }

  /** The getters read: C[AD]R along A is the first component, along D the second, and along a longer
      path one after the other. */
  lemma GetReads(e: Env, f: nat, path: seq<Side>, more: seq<Side>, a: Value, b: Value, s: Stack)
    ensures Step(e, f, ExpandOne(CADR([A])), Push(VPair(a, b), s)) == Ok(Push(a, s))
    ensures Step(e, f, ExpandOne(CADR([D])), Push(VPair(a, b), s)) == Ok(Push(b, s))
    ensures var first := Step(e, f, ExpandOne(CADR(path)), Push(a, s));
      path != [] && more != [] && first.Ok? ==>
        Step(e, f, ExpandOne(CADR(path + more)), Push(a, s)) == Step(e, f, ExpandOne(CADR(more)), first.stack)
  {
    PathKeepsMeaning(e, f, [A], Push(VPair(a, b), s));
    PathKeepsMeaning(e, f, [D], Push(VPair(a, b), s));
    PathKeepsMeaning(e, f, path, Push(a, s));
    PathKeepsMeaning(e, f, path + more, Push(a, s));
    ProjectFirst(a, b, s);
    hide Step, ExpandOne, Project;
    if path != [] && more != [] && Project(a, path, s).Ok? {
      ProjectOn(a, path, more, s);
      PathKeepsMeaning(e, f, more, Project(a, path, s).stack);
    }
  }

  lemma ProjectFirst(a: Value, b: Value, s: Stack)
    ensures Project(VPair(a, b), [A], s) == Ok(Push(a, s)) && Project(VPair(a, b), [D], s) == Ok(Push(b, s))
  {
    assert [A][1..] == [] && [D][1..] == [] && [A][0] == A && [D][0] == D;
  }

  lemma {:induction false} ProjectOn(v: Value, path: seq<Side>, more: seq<Side>, rest: Stack)
    requires Project(v, path, rest).Ok?
    ensures var o := Project(v, path, rest);
      o.stack.Push? && o.stack.rest == rest && Project(v, path + more, rest) == Project(o.stack.top, more, rest)
    decreases |path|
  {
    if path == [] {
      assert path + more == more;
    } else {
      assert (path + more)[0] == path[0] && (path + more)[1..] == path[1..] + more;
      ProjectOn(if path[0].A? then v.fst else v.snd, path[1..], more, rest);
    }
  }

  /** What is set is read back, and along a path that parts from it everything is read as before. */
  lemma SetThenGet(e: Env, f: nat, path: seq<Side>, named: bool, v: Value, x: Value, q: seq<Side>, k: nat, rest: Stack)
    requires path != [] && Reaches(v, path)
    requires k < |path| && k < |q| && q[..k] == path[..k] && q[k] != path[k]
    ensures var stored := Step(e, f, ExpandOne(SET_CADR(path, named)), Push(v, Push(x, rest)));
      && stored.Ok? && Step(e, f, ExpandOne(CADR(path)), stored.stack) == Ok(Push(x, rest))
      && Step(e, f, ExpandOne(CADR(q)), stored.stack) == Step(e, f, ExpandOne(CADR(q)), Push(v, rest))
  {
    var u := Replaced(v, path, x);
    ProjectReplaced(v, path, x, rest);
    ProjectElsewhere(v, path, x, q, k, rest);
    SetKeepsMeaning(e, f, path, named, Push(v, Push(x, rest)));
    PathKeepsMeaning(e, f, path, Push(u, rest));
    PathKeepsMeaning(e, f, q, Push(u, rest));
    PathKeepsMeaning(e, f, q, Push(v, rest));
    hide Step, ExpandOne, Project, Replaced, Reaches;
  }

  /** Setting what has just been read changes nothing. */
  lemma GetThenSet(e: Env, f: nat, path: seq<Side>, named: bool, v: Value, rest: Stack)
    requires path != [] && Reaches(v, path)
    ensures var got := Step(e, f, ExpandOne(CADR(path)), Push(v, rest));
      && got.Ok? && got.stack.Push? && got.stack.rest == rest
      && Step(e, f, ExpandOne(SET_CADR(path, named)), Push(v, got.stack)) == Ok(Push(v, rest))
  {
    ProjectReplaced(v, path, VUnit, rest);
    ProjectOn(v, path, [], rest);
    PathKeepsMeaning(e, f, path, Push(v, rest));
    SetKeepsMeaning(e, f, path, named, Push(v, Project(v, path, rest).stack));
    hide Step, ExpandOne, Project, Replaced, Reaches;
  }

  lemma SetKeepsMeaning(e: Env, f: nat, path: seq<Side>, named: bool, s: Stack)
    ensures Step(e, f, ExpandOne(SET_CADR(path, named)), s) == MeansOne(e, f, SET_CADR(path, named), s)
  {
    hide Run;
    SetExpands(e, f, path, named, s);
  }

  lemma AtFirst(e: Env, f: nat, c: Code, s: Stack)
    ensures Run(e, f, ExpandAt([A], c), s) ==
      if !s.Push? || !s.top.VPair? then Stuck else Around(A, s.top, Run(e, f, c, Push(s.top.fst, s.rest)))
  {
    if s.Push? && s.top.VPair? {
      hide Run, Then, Step, Basic;
      StackMachine();
      var o := Run(e, f, c, Push(s.top.fst, s.rest));
      if o.Ok? {
        assert o == Ok(o.stack);
        AtFirstEnds(e, f, s.top.snd, o.stack);
      }
    } else {
      hide Run, Then;
      ControlRules();
    }
  }

  lemma AtFirstEnds(e: Env, f: nat, x: Value, t: Stack)
    ensures Run(e, f, Seq2(SWAP, PAIR), Push(x, t)) == if t.Push? then Ok(Push(VPair(t.top, x), t.rest)) else Stuck
  {
    hide Run, Then;
    ControlRules();
  }

  /** What is left to do after the work on a second component, with the record below it. */
  function Rejoined(o: Outcome): Outcome {
    match o
    case Ok(Push(y, Push(VPair(x, _), rest))) => Ok(Push(VPair(x, y), rest))
    case Ok(_) => Stuck
    case _ => o
  }

  lemma AtSecond(e: Env, f: nat, c: Code, s: Stack)
    ensures Run(e, f, ExpandAt([D], c), s) ==
      if !s.Push? || !s.top.VPair? then Stuck else Rejoined(Run(e, f, c, Push(s.top.snd, s)))
  {
    if s.Push? && s.top.VPair? { AtSecondRuns(e, f, c, s); } else { AtSecondStuck(e, f, c, s); }
  }

  lemma AtSecondStuck(e: Env, f: nat, c: Code, s: Stack)
    requires !s.Push? || !s.top.VPair?
    ensures Run(e, f, ExpandAt([D], c), s) == Stuck
  {
    hide Run, Then;
    ControlRules();
  }

  lemma AtSecondRuns(e: Env, f: nat, c: Code, s: Stack)
    requires s.Push? && s.top.VPair?
    ensures Run(e, f, ExpandAt([D], c), s) == Rejoined(Run(e, f, c, Push(s.top.snd, s)))
  {
    hide Run, Then, Step, Basic;
    StackMachine();
    var o := Run(e, f, c, Push(s.top.snd, s));
    if o.Ok? {
      assert o == Ok(o.stack);
      AtSecondEnds(e, f, o.stack);
    }
  }

  lemma AtSecondEnds(e: Env, f: nat, t: Stack)
    ensures Run(e, f, Seq3(SWAP, CAR, PAIR), t) == Rejoined(Ok(t))
  {
    hide Run, Then;
    ControlRules();
  }

  lemma {:induction false} AtExpands(e: Env, f: nat, path: seq<Side>, c: Program, s: Stack)
    requires forall t {:trigger Means(e, f, c, t)} :: Run(e, f, Expand(c), t) == Means(e, f, c, t)
    ensures Run(e, f, ExpandAt(path, Expand(c)), s) == MeansAt(e, f, path, c, s)
    decreases |path|
  {
    hide Run, Means, Expand, Inside;
    Endings(e, f);
    if |path| == 1 {
      assert path == [path[0]];
      if path[0].A? { AtFirst(e, f, Expand(c), s); } else { AtSecond(e, f, Expand(c), s); }
    } else if path != [] {
      InsideRuns(e, f, path[0], ExpandAt(path[1..], Expand(c)), s);
      AtDescends(e, f, path, c, s);
      if s.Push? && s.top.VPair? {
        AtExpands(e, f, path[1..], c, Push(if path[0].A? then s.top.fst else s.top.snd, s.rest));
      }
    }
  }

  lemma {:induction false} AtKeepsMeaning(e: Env, f: nat, path: seq<Side>, c: Program, s: Stack)
    ensures Step(e, f, ExpandOne(MAP_CADR(path, c)), s) == MeansOne(e, f, MAP_CADR(path, c), s)
    decreases MAP_CADR(path, c), 1
  {
    hide Run, Means;
    forall t ensures Run(e, f, Expand(c), t) == Means(e, f, c, t) { ExpansionKeepsMeaning(e, f, c, t); }
    AtExpands(e, f, path, c, s);
  }

  // The shapes the expansions are made of.

  lemma BlockOne(e: Env, f: nat, i: Instr, s: Stack)
    ensures Step(e, f, BLOCK(Seq1(i)), s) == Step(e, f, i, s)
  {
    hide Run, Then, Basic;
    ControlRules();
    var o := Step(e, f, i, s);
    assert o.Ok? ==> o == Ok(o.stack);
  }

  lemma Endings(e: Env, f: nat)
    ensures forall s {:trigger Run(e, f, Done, s)} :: Run(e, f, Done, s) == Ok(s)
    ensures forall s {:trigger Run(e, f, FAIL_CODE, s)} :: Run(e, f, FAIL_CODE, s) == Failed(VUnit)
  {
    hide Run, Then, Step, Basic;
    StackMachine();
  }

  lemma Fails(e: Env, f: nat, s: Stack)
    ensures Step(e, f, BLOCK(Seq2(UNIT, FAILWITH)), s) == Failed(VUnit)
  {
    hide Run, Then, Basic;
    StackMachine();
  }

  lemma TestThen(e: Env, f: nat, op: Numeric, c: Code, d: Code, s: Stack)
    ensures Step(e, f, BLOCK(Seq2(Num(op), IF(c, d))), s) ==
      if s.Push? && s.top.VInt? && Tests(op) then
        (if OnInt(op, s.top.i).b then Run(e, f, c, s.rest) else Run(e, f, d, s.rest))
      else Stuck
  {
    hide Run, Then;
    ControlRules();
    if s.Push? && s.top.VInt? { ChoiceLast(e, f, c, d, Push(OnInt(op, s.top.i), s.rest)); }
  }

  lemma ChoiceLast(e: Env, f: nat, c: Code, d: Code, s: Stack)
    ensures Run(e, f, Seq1(IF(c, d)), s) == Step(e, f, IF(c, d), s)
  {
    BlockOne(e, f, IF(c, d), s);
    hide Run, Then, Basic;
    ControlRules();
  }

  lemma CompareOp(e: Env, f: nat, op: Numeric, s: Stack)
    ensures Step(e, f, BLOCK(Seq2(COMPARE, Num(op))), s) ==
      if Comparable(s) then Ok(Push(OnInt(op, Order(s)), s.rest.rest)) else Stuck
  {
    hide Run, Then;
    ControlRules();
  }

  lemma CompareThen(e: Env, f: nat, op: Numeric, c: Code, d: Code, s: Stack)
    ensures Step(e, f, BLOCK(Seq3(COMPARE, Num(op), IF(c, d))), s) ==
      if Comparable(s) && Tests(op) then
        (if OnInt(op, Order(s)).b then Run(e, f, c, s.rest.rest) else Run(e, f, d, s.rest.rest))
      else Stuck
  {
    hide Run, Then;
    ControlRules();
    if Comparable(s) { TestThen(e, f, op, c, d, Push(VInt(Order(s)), s.rest.rest)); }
  }

  lemma CompareOpThen(e: Env, f: nat, op: Numeric, c: Code, d: Code, s: Stack)
    ensures Step(e, f, BLOCK(Seq2(BLOCK(Seq2(COMPARE, Num(op))), IF(c, d))), s) ==
      if Comparable(s) && Tests(op) then
        (if OnInt(op, Order(s)).b then Run(e, f, c, s.rest.rest) else Run(e, f, d, s.rest.rest))
      else Stuck
  {
    hide Run, Then, Basic;
    ControlRules();
    CompareOp(e, f, op, s);
    if Comparable(s) { ChoiceLast(e, f, c, d, Push(OnInt(op, Order(s)), s.rest.rest)); }
  }

  lemma {:induction false} UnderKeepsMeaning(e: Env, f: nat, n: nat, c: Program, s: Stack)
    ensures RunUnder(e, f, n, Expand(c), s) == MeansUnder(e, f, n, c, s)
    decreases c, n + 1
  {
    if n == 0 { ExpansionKeepsMeaning(e, f, c, s); }
    else if s.Push? { UnderKeepsMeaning(e, f, n - 1, c, s.rest); }
  }

  lemma {:induction false} EachKeepsMeaning(e: Env, f: nat, c: Program, xs: seq<Value>, s: Stack)
    ensures Iter(e, f, Expand(c), xs, s) == MeansEach(e, f, c, xs, s)
    decreases c, |xs| + 1
  {
    if xs != [] {
      IterCons(e, f, Expand(c), xs, s);
      ExpansionKeepsMeaning(e, f, c, Push(xs[0], s));
      var o := Means(e, f, c, Push(xs[0], s));
      if o.Ok? { EachKeepsMeaning(e, f, c, xs[1..], o.stack); }
    }
  }

  lemma {:induction false} MapKeepsMeaning(e: Env, f: nat, c: Program, xs: seq<Value>, done: seq<Value>, s: Stack)
    ensures MapList(e, f, Expand(c), xs, done, s) == MeansMap(e, f, c, xs, done, s)
    decreases c, |xs| + 1
  {
    if xs != [] {
      MapCons(e, f, Expand(c), xs, done, s);
      ExpansionKeepsMeaning(e, f, c, Push(xs[0], s));
      var o := Means(e, f, c, Push(xs[0], s));
      if o.Ok? && o.stack.Push? { MapKeepsMeaning(e, f, c, xs[1..], done + [o.stack.top], o.stack.rest); }
    }
  }

  function FieldAt(v: Value, path: seq<Side>): Value
    requires Reaches(v, path)
  {
    if path == [] then v else FieldAt(if path[0].A? then v.fst else v.snd, path[1..])
  }

  /** MAP_C[AD]R replaces the field by its image, for every path and every program that works on the
      value on top alone. */
  lemma {:induction false} MapReplacesField(e: Env, f: nat, path: seq<Side>, c: Program, g: Value -> Value, v: Value,
      rest: Stack)
    requires path != [] && Reaches(v, path)
    requires forall x, t :: Means(e, f, c, Push(x, t)) == Ok(Push(g(x), t))
    ensures Means(e, f, Next(MAP_CADR(path, c), End), Push(v, rest)) ==
      Ok(Push(Replaced(v, path, g(FieldAt(v, path))), rest))
    decreases |path|
  {
    hide Means, MeansOne;
    MapAlone(e, f, path, c, Push(v, rest));
    var field := if path[0].A? then v.fst else v.snd;
    if |path| == 1 {
      assert path[1..] == [] && (path == [A] || path == [D]);
      assert FieldAt(field, path[1..]) == field && Replaced(field, path[1..], g(field)) == g(field);
      assert FieldAt(v, path) == field;
      assert Means(e, f, c, Push(field, if path[0].A? then rest else Push(v, rest))) ==
        Ok(Push(g(field), if path[0].A? then rest else Push(v, rest)));
      if path[0].A? { assert |[A]| == 1 && path != [D] by { assert path[0] != [D][0]; } }
    } else {
      MapReplacesField(e, f, path[1..], c, g, field, rest);
      MapAlone(e, f, path[1..], c, Push(field, rest));
      AtDescends(e, f, path, c, Push(v, rest));
    }
  }

  lemma AloneRuns(e: Env, f: nat, w: Phrase, s: Stack)
    ensures Means(e, f, Next(w, End), s) == MeansOne(e, f, w, s)
  {
    hide MeansOne;
    var o := MeansOne(e, f, w, s);
    assert o.Ok? ==> o == Ok(o.stack);
  }

  lemma MapAlone(e: Env, f: nat, path: seq<Side>, c: Program, s: Stack)
    ensures Means(e, f, Next(MAP_CADR(path, c), End), s) == MeansAt(e, f, path, c, s)
  {
    hide Means, MeansAt;
    AloneRuns(e, f, MAP_CADR(path, c), s);
  }

  /** A program that looks below its argument shows the difference: at a first component it sees the
      stack under the record, at a second one the record itself. */
  lemma MapSeesTheRecord(e: Env, f: nat, x: Value, y: Value, z: Value, rest: Stack)
    ensures var c := Next2(Plain(DROP), Plain(DUP), End); var s := Push(VPair(x, y), Push(z, rest));
      && Means(e, f, Next(MAP_CADR([A], c), End), s) == Ok(Push(VPair(z, y), Push(z, rest)))
      && Means(e, f, Next(MAP_CADR([D], c), End), s) == Ok(Push(VPair(x, VPair(x, y)), Push(z, rest)))
  {
    var c := Next2(Plain(DROP), Plain(DUP), End);
    var s := Push(VPair(x, y), Push(z, rest));
    MapAlone(e, f, [A], c, s);
    MapAlone(e, f, [D], c, s);
    DropDup(e, f, x, z, rest);
    DropDup(e, f, y, VPair(x, y), Push(z, rest));
    hide Means, MeansOne;
    assert |[A]| == 1 && [A] != [D];
  }

  lemma DropDup(e: Env, f: nat, x: Value, z: Value, rest: Stack)
    ensures Means(e, f, Next2(Plain(DROP), Plain(DUP), End), Push(x, Push(z, rest))) == Ok(Push(z, Push(z, rest)))
  {
    AloneRuns(e, f, Plain(DUP), Push(z, rest));
  }

  lemma ExpandRules()
    ensures Expand(End) == Done
    ensures forall w, rest {:trigger Expand(Next(w, rest))} :: Expand(Next(w, rest)) == Do(ExpandOne(w), Expand(rest))
    ensures forall i {:trigger ExpandOne(Plain(i))} :: ExpandOne(Plain(i)) == i
    ensures forall c {:trigger ExpandOne(Dip(c))} :: ExpandOne(Dip(c)) == DIP(Expand(c))
    ensures forall c, d {:trigger ExpandOne(If(c, d))} :: ExpandOne(If(c, d)) == IF(Expand(c), Expand(d))
    ensures forall c {:trigger ExpandOne(Lambda(c))} :: ExpandOne(Lambda(c)) == LAMBDA(Expand(c))
    ensures ExpandOne(ASSERT_SOME) == BLOCK(Seq1(IF_NONE(FAIL_CODE, Done)))
    ensures forall c, d {:trigger ExpandOne(IF_SOME(c, d))} ::
      ExpandOne(IF_SOME(c, d)) == BLOCK(Seq1(IF_NONE(Expand(d), Expand(c))))
    ensures forall op, c, d {:trigger ExpandOne(IFCMP(op, c, d))} ::
      ExpandOne(IFCMP(op, c, d)) == BLOCK(Seq3(COMPARE, Num(op), IF(Expand(c), Expand(d))))
  {}

  /** The guessing contract's two forms are one program: expansion takes one to the other. */
  lemma MiStrExpandsToMiObject()
    ensures Expand(MI_STR) == MI_OBJECT
  {
    hide Expand, ExpandOne;
    ExpandRules();
  }

  /** The guessing game: 34 wins the whole balance, a wrong guess is counted, and once
      fifteen have been counted the balance goes to the fallback address. */
  function Guessed(e: Env, guess: int, count: int, fallback: Account): Outcome {
    var winner := if count < 15 then e.sender else fallback;
    var storage := VPair(VInt(count), VAddr(fallback));
    if e.amount < 1000000 then Failed(VStr("You did not provide enough tez."))
    else if count < 15 && guess != 34 then Ok(Push(VPair(VList([]), VPair(VInt(1 + count), VAddr(fallback))), Empty))
    else if !e.entrypoints(winner, "") then Failed(storage)
    else Ok(Push(VPair(VList([VTransfer(VUnit, e.balance, winner, "")]), storage), Empty))
  }

  lemma PayOutRuns(e: Env, f: nat, guess: int, count: int, fallback: Account)
    requires count >= 15 && e.amount >= 1000000
    ensures Run(e, f, PAY_OUT, Push(VPair(VInt(count), VAddr(fallback)), Push(VInt(guess), Empty))) ==
      Guessed(e, guess, count, fallback)
  {
    hide Run, Then, Step, Basic;
    StackMachine(); DataMachine(); WorldMachine();
    assert [VTransfer(VUnit, e.balance, fallback, "")] + [] == [VTransfer(VUnit, e.balance, fallback, "")];
  }

  lemma GuessRuns(e: Env, f: nat, guess: int, count: int, fallback: Account)
    requires count < 15 && e.amount >= 1000000
    ensures Run(e, f, GUESS, Push(VPair(VInt(count), VAddr(fallback)), Push(VInt(guess), Empty))) ==
      Guessed(e, guess, count, fallback)
  {
    hide Run, Then, Step, Basic;
    StackMachine(); DataMachine(); WorldMachine();
    assert [VTransfer(VUnit, e.balance, e.sender, "")] + [] == [VTransfer(VUnit, e.balance, e.sender, "")];
  }

  /** What the macro form means, by way of what its expansion computes. */
  lemma MiStrMeans(e: Env, f: nat, guess: int, count: int, fallback: Account)
    ensures Means(e, f, MI_STR, Push(VPair(VInt(guess), VPair(VInt(count), VAddr(fallback))), Empty)) ==
      Guessed(e, guess, count, fallback)
  {
    hide Run, Then, Step, Basic, Means, MI_STR, PAY_OUT, GUESS;
    StackMachine(); DataMachine(); WorldMachine();
    var s := Push(VPair(VInt(guess), VPair(VInt(count), VAddr(fallback))), Empty);
    MiStrExpandsToMiObject();
    ExpansionKeepsMeaning(e, f, MI_STR, s);
    if e.amount >= 1000000 {
      if count < 15 { GuessRuns(e, f, guess, count, fallback); } else { PayOutRuns(e, f, guess, count, fallback); }
    }
  }
}
