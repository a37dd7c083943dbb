/** The recursive macro families: P[PAI]+R and UNP[PAI]+R over a whole tree of pairs, with the parser
    of their names. */
module MacroPairs {
  import opened Michelson
  import opened Rules

  // ---------------------------------------------------------------- trees and their names

  datatype Tree = Leaf | Node(left: Tree, right: Tree)

  /** A tree as the letters of a macro name: a leaf is A on the left of its pair and I on the right. */
  function Name(t: Tree, leaf: char): string
    decreases t
  {
    match t
    case Leaf => [leaf]
    case Node(l, r) => "P" + Name(l, 'A') + Name(r, 'I')
  }

  /** How deep each PAIR or UNPAIR acts, in the order of execution. */
  function PairDepths(t: Tree): seq<nat> {
    match t
    case Leaf => []
    case Node(l, r) => PairDepths(l) + Deeper(PairDepths(r)) + [0]
  }

  function UnpairDepths(t: Tree): seq<nat> {
    match t
    case Leaf => []
    case Node(l, r) => [0] + Deeper(UnpairDepths(r)) + UnpairDepths(l)
  }

  function Deeper(depths: seq<nat>): seq<nat> {
    if depths == [] then [] else [depths[0] + 1] + Deeper(depths[1..])
  }

  /** The parser works on the letters behind a P; it answers the depths and how many letters it used. */
  datatype Parsed = Parsed(depths: seq<nat>, used: nat) | Unexpected

  function Parse(letters: string, pairs: bool): (r: Parsed)
    ensures r.Parsed? ==> 2 <= r.used <= |letters|
    decreases |letters|
  {
    var l := ParseSide(letters, 'A', pairs);
    if l.Unexpected? then Unexpected
    else
      var r := ParseSide(letters[l.used..], 'I', pairs);
      if r.Unexpected? then Unexpected
      else
        var right := Deeper(r.depths);
        Parsed(if pairs then l.depths + right + [0] else [0] + right + l.depths, l.used + r.used)
  }

  /** One side of a pair: its own leaf letter, or a P and a pair of its own. */
  function ParseSide(letters: string, leaf: char, pairs: bool): (r: Parsed)
    ensures r.Parsed? ==> 1 <= r.used <= |letters|
    decreases |letters|, if letters == "" || letters[0] != 'P' then 0 else 1
  {
    if letters == "" then Unexpected
    else if letters[0] == 'P' then
      match Parse(letters[1..], pairs)
      case Parsed(depths, used) => Parsed(depths, used + 1)
      case Unexpected => Unexpected
    else if letters[0] == leaf then Parsed([], 1)
    else Unexpected
  }

  function Depths(t: Tree, pairs: bool): seq<nat> { if pairs then PairDepths(t) else UnpairDepths(t) }

  /** Every tree is read back from its name, whatever letters follow. */
  lemma {:induction false} NamesParse(t: Tree, leaf: char, more: string, pairs: bool)
    requires leaf != 'P'
    ensures ParseSide(Name(t, leaf) + more, leaf, pairs) == Parsed(Depths(t, pairs), |Name(t, leaf)|)
    decreases t
  {
    match t
    case Leaf => assert ([leaf] + more)[0] == leaf;
    case Node(l, r) =>
      hide ParseSide;
      NamesParse(l, 'A', Name(r, 'I') + more, pairs);
      NamesParse(r, 'I', more, pairs);
      NodeParses(l, r, Name(l, 'A'), Name(r, 'I'), more, leaf, pairs);
      NameSplits(l, r, leaf, more);
      hide Name, Depths;
  }

  lemma NameSplits(l: Tree, r: Tree, leaf: char, more: string)
    ensures Name(Node(l, r), leaf) + more == "P" + (Name(l, 'A') + (Name(r, 'I') + more))
    ensures |Name(Node(l, r), leaf)| == 1 + |Name(l, 'A')| + |Name(r, 'I')|
  {}

  /** A pair is read once its sides are. */
  lemma NodeParses(l: Tree, r: Tree, left: string, right: string, more: string, leaf: char, pairs: bool)
    requires ParseSide(left + (right + more), 'A', pairs) == Parsed(Depths(l, pairs), |left|)
    requires ParseSide(right + more, 'I', pairs) == Parsed(Depths(r, pairs), |right|)
    ensures ParseSide("P" + (left + (right + more)), leaf, pairs) ==
      Parsed(Depths(Node(l, r), pairs), 1 + |left| + |right|)
  {
    var letters := "P" + (left + (right + more));
    assert letters[1..] == left + (right + more);
    assert (left + (right + more))[|left|..] == right + more;
    hide Name, Deeper;
  }

  /** Only names are read: what the parser accepts begins with the name of a tree, and the depths it
      answers are the tree's. */
  lemma {:induction false} ParsedAreNames(letters: string, leaf: char, pairs: bool) returns (t: Tree)
    requires ParseSide(letters, leaf, pairs).Parsed?
    ensures var r := ParseSide(letters, leaf, pairs); letters[..r.used] == Name(t, leaf) && r.depths == Depths(t, pairs)
    decreases |letters|
  {
    if letters[0] == 'P' {
      var tail := letters[1..];
      var l := ParseSide(tail, 'A', pairs);
      var r := ParseSide(tail[l.used..], 'I', pairs);
      var left := ParsedAreNames(tail, 'A', pairs);
      var right := ParsedAreNames(tail[l.used..], 'I', pairs);
      t := Node(left, right);
      assert letters[..1 + l.used + r.used] == [letters[0]] + tail[..l.used] + tail[l.used..][..r.used];
    } else {
      t := Leaf;
    }
  }

  /** The first n letters spell the two sides of a pair. */
  predicate Spells(letters: string, l: Tree, r: Tree, n: nat) {
    n <= |letters| && letters[..n] == Name(l, 'A') + Name(r, 'I')
  }

  lemma SpelledIsParsed(letters: string, l: Tree, r: Tree, n: nat, pairs: bool)
    requires Spells(letters, l, r, n)
    ensures Parse(letters, pairs) == Parsed(Depths(Node(l, r), pairs), n)
  {
    hide Name, ParseSide;
    assert letters == Name(l, 'A') + (Name(r, 'I') + letters[n..]);
    NamesParse(l, 'A', Name(r, 'I') + letters[n..], pairs);
    NamesParse(r, 'I', letters[n..], pairs);
    assert letters[|Name(l, 'A')|..] == Name(r, 'I') + letters[n..];
  }

  lemma ParsedIsSpelled(letters: string, pairs: bool) returns (l: Tree, r: Tree)
    requires Parse(letters, pairs).Parsed?
    ensures Spells(letters, l, r, Parse(letters, pairs).used)
  {
    var first := ParseSide(letters, 'A', pairs);
    var second := ParseSide(letters[first.used..], 'I', pairs);
    l := ParsedAreNames(letters, 'A', pairs);
    r := ParsedAreNames(letters[first.used..], 'I', pairs);
    assert letters[..first.used + second.used] == letters[..first.used] + letters[first.used..][..second.used];
  }

  /** The letters behind the first P of a macro are accepted if and only if they begin with the name
      of a pair; letters left over before the final R are ignored, so PAIIR passes for PAIR. */
  lemma AcceptedIff(letters: string, pairs: bool)
    ensures Parse(letters, pairs).Parsed? <==> exists l, r, n :: Spells(letters, l, r, n)
  {
    if Parse(letters, pairs).Parsed? {
      var l, r := ParsedIsSpelled(letters, pairs);
    }
    if l, r, n :| Spells(letters, l, r, n) { SpelledIsParsed(letters, l, r, n, pairs); }
  }

  lemma LeftoverIgnored()
    ensures Parse("AIIR", true) == Parse("AIR", true) == Parsed([0], 2)
  {
    SpelledIsParsed("AIR", Leaf, Leaf, 2, true);
    SpelledIsParsed("AIIR", Leaf, Leaf, 2, true);
  }

  // ---------------------------------------------------------------- direct meaning

  function Leaves(t: Tree): nat { if t.Leaf? then 1 else Leaves(t.left) + Leaves(t.right) }

  /** The value a tree makes of the topmost values of the stack. */
  function Built(t: Tree, s: Stack): Value {
    match t
    case Leaf => Nth(s, 0)
    case Node(l, r) => VPair(Built(l, s), Built(r, Dropped(s, Leaves(l))))
  }

  predicate Fits(t: Tree, v: Value) { t.Leaf? || (v.VPair? && Fits(t.left, v.fst) && Fits(t.right, v.snd)) }

  /** The leaves of a value, laid out on the stack from left to right. */
  function Spread(t: Tree, v: Value, rest: Stack): Stack
    requires Fits(t, v)
  {
    match t
    case Leaf => Push(v, rest)
    case Node(l, r) => Spread(l, v.fst, Spread(r, v.snd, rest))
  }

  /** Unpairing along a tree and pairing along the same tree is no change. */
  lemma {:induction false} SpreadThenBuilt(t: Tree, v: Value, rest: Stack)
    requires Fits(t, v)
    ensures var s := Spread(t, v, rest); Has(s, Leaves(t)) && Built(t, s) == v && Dropped(s, Leaves(t)) == rest
    decreases t
  {
    if t.Node? {
      var below := Spread(t.right, v.snd, rest);
      SpreadThenBuilt(t.right, v.snd, rest);
      SpreadThenBuilt(t.left, v.fst, below);
      DropTwice(Spread(t, v, rest), Leaves(t.left), Leaves(t.right));
    } else {
      assert Dropped(Push(v, rest), 1) == rest;
    }
  }

  lemma {:induction false} DropTwice(s: Stack, m: nat, n: nat)
    requires Has(s, m)
    ensures Dropped(s, m + n) == Dropped(Dropped(s, m), n)
    ensures Has(s, m + n) <==> Has(Dropped(s, m), n)
    decreases m
  {
    if m > 0 { DropTwice(s.rest, m - 1, n); }
  }

  // ---------------------------------------------------------------- the expansion

  /** i, DIP { i } or DIP n { i } */
  function AtDepth(n: nat, i: Instr): Instr {
    if n == 0 then i else if n == 1 then DIP(Seq1(i)) else DIPN(n, Seq1(i))
  }

  function Spelled(depths: seq<nat>, i: Instr): Code {
    if depths == [] then Done else Do(AtDepth(depths[0], i), Spelled(depths[1..], i))
  }

  /** Before the Edo protocol there was no UNPAIR. */
  function UnpairInstr(legacy: bool): Instr { if legacy then BLOCK(Seq3(DUP, CAR, DIP(Seq1(CDR)))) else UNPAIR }

  lemma RunOne(e: Env, f: nat, i: Instr, s: Stack)
    ensures Run(e, f, Seq1(i), s) == Step(e, f, i, s)
  {
    hide Run, Then, Step;
    ControlRules();
    var o := Step(e, f, i, s);
    assert o.Ok? ==> o == Ok(o.stack);
  }

  lemma DeeperStep(e: Env, f: nat, n: nat, i: Instr, s: Stack)
    ensures Step(e, f, AtDepth(n + 1, i), s) ==
      if s.Push? then Under(s.top, Step(e, f, AtDepth(n, i), s.rest)) else Stuck
  {
    hide Run;
    if s.Push? {
      RunOne(e, f, i, s.rest);
      assert RunUnder(e, f, n + 1, Seq1(i), s) == Under(s.top, RunUnder(e, f, n, Seq1(i), s.rest));
      if n == 1 && s.rest.Push? {
        assert RunUnder(e, f, 1, Seq1(i), s.rest) == Under(s.rest.top, RunUnder(e, f, 0, Seq1(i), s.rest.rest));
      }
    }
  }

  lemma {:induction false} DeeperRuns(e: Env, f: nat, depths: seq<nat>, i: Instr, s: Stack)
    ensures Run(e, f, Spelled(Deeper(depths), i), s) ==
      if depths == [] then Ok(s)
      else if s.Push? then Under(s.top, Run(e, f, Spelled(depths, i), s.rest))
      else Stuck
    decreases |depths|
  {
    hide Run, Then, Step;
    ControlRules();
    if depths != [] {
      assert Deeper(depths)[1..] == Deeper(depths[1..]);
      DeeperStep(e, f, depths[0], i, s);
      if s.Push? {
        var o := Step(e, f, AtDepth(depths[0], i), s.rest);
        if o.Ok? { DeeperRuns(e, f, depths[1..], i, Push(s.top, o.stack)); }
      }
    }
  }

  lemma {:induction false} SpelledAppends(e: Env, f: nat, a: seq<nat>, b: seq<nat>, i: Instr, s: Stack)
    ensures Run(e, f, Spelled(a + b, i), s) == Then(e, f, Run(e, f, Spelled(a, i), s), Spelled(b, i))
    decreases |a|
  {
    hide Run, Then, Step;
    ControlRules();
    if a == [] {
      assert a + b == b;
    } else {
      assert (a + b)[1..] == a[1..] + b;
      var o := Step(e, f, AtDepth(a[0], i), s);
      if o.Ok? { SpelledAppends(e, f, a[1..], b, i, o.stack); }
    }
  }

  /** What pairing along a tree leaves. A leaf asks for nothing, not even for the slot it will take. */
  function Paired(t: Tree, s: Stack): Outcome {
    if t.Leaf? then Ok(s)
    else if Has(s, Leaves(t)) then Ok(Push(Built(t, s), Dropped(s, Leaves(t))))
    else Stuck
  }

  function Unpaired(t: Tree, s: Stack): Outcome {
    if t.Leaf? then Ok(s)
    else if s.Push? && Fits(t, s.top) then Ok(Spread(t, s.top, s.rest))
    else Stuck
  }

  lemma OneStep(e: Env, f: nat, i: Instr, s: Stack)
    ensures Run(e, f, Spelled([0], i), s) == Step(e, f, i, s)
  {
    hide Run, Step;
    assert [0][1..] == [];
    RunOne(e, f, i, s);
  }

  lemma {:induction false} HasLess(s: Stack, m: nat, n: nat)
    ensures Has(s, m + n) ==> Has(s, m)
    decreases m
  {
    if m > 0 && s.Push? { HasLess(s.rest, m - 1, n); }
  }

  /** The PAIRs of a tree build its value from the topmost values, one a leaf, and need them all. */
  lemma {:induction false} PairsBuild(e: Env, f: nat, t: Tree, s: Stack)
    ensures Run(e, f, Spelled(PairDepths(t), PAIR), s) == Paired(t, s)
    decreases t
  {
    hide Run, Then, Step, Basic;
    ControlRules();
    if t.Node? {
      var l, r := t.left, t.right;
      SpelledAppends(e, f, PairDepths(l) + Deeper(PairDepths(r)), [0], PAIR, s);
      SpelledAppends(e, f, PairDepths(l), Deeper(PairDepths(r)), PAIR, s);
      PairsBuild(e, f, l, s);
      var o := Paired(l, s);
      if o.Ok? {
        DeeperRuns(e, f, PairDepths(r), PAIR, o.stack);
        if o.stack.Push? { PairsBuild(e, f, r, o.stack.rest); }
        DepthsOfLeaf(r);
        LastPair(e, f, PairedBelow(r, o.stack));
        SidesJoin(l, r, s);
      }
      HasLess(s, Leaves(l), Leaves(r));
    }
  }

  lemma DepthsOfLeaf(t: Tree)
    ensures PairDepths(t) == [] <==> t.Leaf?
    ensures UnpairDepths(t) == [] <==> t.Leaf?
  {}

  /** The right side, below the value of the left one. */
  function PairedBelow(r: Tree, s: Stack): Outcome {
    if r.Leaf? then Ok(s) else if s.Push? then Under(s.top, Paired(r, s.rest)) else Stuck
  }

  function TopPaired(o: Outcome): Outcome {
    match o
    case Ok(Push(x, Push(y, rest))) => Ok(Push(VPair(x, y), rest))
    case Ok(_) => Stuck
    case _ => o
  }

  lemma LastPair(e: Env, f: nat, o: Outcome)
    ensures Then(e, f, o, Spelled([0], PAIR)) == TopPaired(o)
  {
    hide Run, Then;
    ControlRules();
    if o.Ok? { OneStep(e, f, PAIR, o.stack); }
  }

  /** With its leaves there, a leaf too is its value on top of the rest. */
  lemma PairedWhole(t: Tree, s: Stack)
    requires Has(s, Leaves(t))
    ensures Paired(t, s) == Ok(Push(Built(t, s), Dropped(s, Leaves(t))))
  {
    if t.Leaf? { assert s.Push? && Dropped(s, 1) == s.rest && Nth(s, 0) == s.top; }
  }

  lemma RightJoins(r: Tree, x: Value, s: Stack)
    ensures TopPaired(PairedBelow(r, Push(x, s))) ==
      if Has(s, Leaves(r)) then Ok(Push(VPair(x, Built(r, s)), Dropped(s, Leaves(r)))) else Stuck
  {
    if r.Leaf? {
      assert Leaves(r) == 1 && Has(s, 1) == s.Push?;
      assert s.Push? ==> Built(r, s) == s.top && Dropped(s, 1) == s.rest;
    } else {
      hide Has, Built, Dropped, Leaves;
    }
  }

  /** Left side, right side and the PAIR on top of both make the pair of the tree. */
  lemma SidesJoin(l: Tree, r: Tree, s: Stack)
    requires Paired(l, s).Ok?
    ensures TopPaired(PairedBelow(r, Paired(l, s).stack)) == Paired(Node(l, r), s)
  {
    HasLess(s, Leaves(l), Leaves(r));
    if Has(s, Leaves(l)) {
      PairedWhole(l, s);
      DropTwice(s, Leaves(l), Leaves(r));
      RightJoins(r, Built(l, s), Dropped(s, Leaves(l)));
      NodePaired(l, r, s);
      hide Paired, PairedBelow, TopPaired, Built, Dropped, Has, Leaves;
    } else {
      NothingJoins(l, r, s);
    }
  }

  lemma NodePaired(l: Tree, r: Tree, s: Stack)
    ensures Paired(Node(l, r), s) ==
      if Has(s, Leaves(l) + Leaves(r)) then
        Ok(Push(VPair(Built(l, s), Built(r, Dropped(s, Leaves(l)))), Dropped(s, Leaves(l) + Leaves(r))))
      else Stuck
  {
    hide Has, Dropped, Nth;
    assert Leaves(Node(l, r)) == Leaves(l) + Leaves(r);
    assert Built(Node(l, r), s) == VPair(Built(l, s), Built(r, Dropped(s, Leaves(l))));
    hide Leaves, Built;
  }

  lemma NothingJoins(l: Tree, r: Tree, s: Stack)
    requires Paired(l, s).Ok? && !Has(s, Leaves(l))
    ensures TopPaired(PairedBelow(r, Paired(l, s).stack)) == Stuck == Paired(Node(l, r), s)
  {
    assert l.Leaf? && s.Empty?;
  }

  /** The UNPAIRs of a tree lay out the leaves of the value on top, and need it to have that shape. */
  lemma {:induction false} UnpairsSpread(e: Env, f: nat, legacy: bool, t: Tree, s: Stack)
    ensures Run(e, f, Spelled(UnpairDepths(t), UnpairInstr(legacy)), s) == Unpaired(t, s)
    decreases t
  {
    hide Run, Then, Step, Basic;
    ControlRules();
    if t.Node? {
      var l, r, i := t.left, t.right, UnpairInstr(legacy);
      SpelledAppends(e, f, [0] + Deeper(UnpairDepths(r)), UnpairDepths(l), i, s);
      SpelledAppends(e, f, [0], Deeper(UnpairDepths(r)), i, s);
      OneStep(e, f, i, s);
      UnpairOnce(e, f, legacy, s);
      if s.Push? && s.top.VPair? {
        var x, y := s.top.fst, s.top.snd;
        DeeperRuns(e, f, UnpairDepths(r), i, Push(x, Push(y, s.rest)));
        DepthsOfLeaf(r);
        UnpairsSpread(e, f, legacy, r, Push(y, s.rest));
        if Fits(r, y) {
          var s2 := Push(x, Spread(r, y, s.rest));
          assert Run(e, f, Spelled(Deeper(UnpairDepths(r)), i), Push(x, Push(y, s.rest))) == Ok(s2);
          UnpairsSpread(e, f, legacy, l, s2);
          assert Run(e, f, Spelled([0] + Deeper(UnpairDepths(r)), i), s) == Ok(s2);
          assert Run(e, f, Spelled(UnpairDepths(t), i), s) == Unpaired(l, s2);
          assert Fits(l, x) ==> Spread(t, s.top, s.rest) == Spread(l, x, Spread(r, y, s.rest));
          assert Unpaired(l, s2) == Unpaired(t, s);
        }
      }
    }
  }

  lemma UnpairOnce(e: Env, f: nat, legacy: bool, s: Stack)
    ensures Step(e, f, UnpairInstr(legacy), s) ==
      if s.Push? && s.top.VPair? then Ok(Push(s.top.fst, Push(s.top.snd, s.rest))) else Stuck
  {
    hide Run, Then;
    ControlRules();
    if legacy && s.Push? && s.top.VPair? {
      StackMachine();
      hide Basic;
    }
  }
}
