/** SET_C[AD]R with its annotations, under the repository's type checker: when the name in a setter is
    accepted, and what becomes of the names in the record. Erasing the annotations gives the expansion
    that Macros runs. */
module FieldNames {
  import Michelson
  import Macros

  type Side = Macros.Side

  // ---------------------------------------------------------------- annotated types and code

  /** A type with its field and variable annotation; "" is none. */
  datatype Type =
    | Leaf(prim: string, field: string, variable: string)
    | PairOf(fst: Type, snd: Type, field: string, variable: string)

  datatype Noted = Stop | Note(first: Noting, next: Noted)

  /** The instructions of a setter. `keep` is @%%, Kept is %@, and Plain("") is %. */
  datatype Noting =
    | Dup | Drop | Swap | Dip(body: Noted) | Nest(body: Noted)
    | Car(field: string, keep: bool) | Cdr(field: string, keep: bool)
    | MakePair(first: Name, second: Name, variable: string)

  datatype Name = Kept | Plain(name: string)

  function Note2(a: Noting, b: Noting, next: Noted): Noted { Note(a, Note(b, next)) }
  function Note3(a: Noting, b: Noting, c: Noting, next: Noted): Noted { Note(a, Note2(b, c, next)) }

  /** The code without its annotations. */
  function Erased(c: Noted): Michelson.Code {
    if c.Stop? then Michelson.Done else Michelson.Do(ErasedOne(c.first), Erased(c.next))
  }

  function ErasedOne(i: Noting): Michelson.Instr {
    match i
    case Dup => Michelson.DUP
    case Drop => Michelson.DROP
    case Swap => Michelson.SWAP
    case Dip(c) => Michelson.DIP(Erased(c))
    case Nest(c) => Michelson.BLOCK(Erased(c))
    case Car(_, _) => Michelson.CAR
    case Cdr(_, _) => Michelson.CDR
    case MakePair(_, _, _) => Michelson.PAIR
  }

  // ---------------------------------------------------------------- the type checker

  datatype Types = Bottom | On(top: Type, below: Types)

  datatype Checked = Typed(types: Types) | Error

  /** A name inside a pair is what follows its last dot. */
  function Trim(name: string): string {
    if '.' in name then Trim(name[1..]) else name
  }

  function Renamed(t: Type, n: Name): Type {
    t.(field := if n.Kept? then Trim(t.variable) else n.name)
  }

  /** A field is read under its own name or without one. */
  predicate Fits(asked: string, t: Type) { asked == "" || t.field == "" || asked == t.field }

  function Taken(t: Type, keep: bool): Type {
    t.(field := "", variable := if keep then t.field else t.variable)
  }

  function Check(c: Noted, s: Types): Checked
    decreases c, 0
  {
    match c
    case Stop => Typed(s)
    case Note(i, next) => Checking(CheckOne(i, s), next)
  }

  function Checking(o: Checked, next: Noted): Checked
    decreases next, 1
  {
    match o
    case Typed(s) => Check(next, s)
    case Error => Error
  }

  function CheckOne(i: Noting, s: Types): Checked
    decreases i, 0
  {
    match i
    case Dup => if s.On? && !(s.top.Leaf? && s.top.prim == "ticket") then Typed(On(s.top, s)) else Error
    case Drop => if s.On? then Typed(s.below) else Error
    case Swap => if s.On? && s.below.On? then Typed(On(s.below.top, On(s.top, s.below.below))) else Error
    case Nest(c) => Check(c, s)
    case Dip(c) => if s.On? then Beneath(s.top, Check(c, s.below)) else Error
    case Car(f, keep) =>
      if s.On? && s.top.PairOf? && Fits(f, s.top.fst) then Typed(On(Taken(s.top.fst, keep), s.below)) else Error
    case Cdr(f, keep) =>
      if s.On? && s.top.PairOf? && Fits(f, s.top.snd) then Typed(On(Taken(s.top.snd, keep), s.below)) else Error
    case MakePair(a, b, v) =>
      if s.On? && s.below.On? then
        Typed(On(PairOf(Renamed(s.top, a), Renamed(s.below.top, b), "", v), s.below.below))
      else Error
  }

  function Beneath(t: Type, o: Checked): Checked { if o.Typed? then Typed(On(t, o.types)) else Error }

  /** The checker as rewriting rules. */
  lemma CheckRules()
    ensures forall s {:trigger Check(Stop, s)} :: Check(Stop, s) == Typed(s)
    ensures forall i, n, s {:trigger Check(Note(i, n), s)} :: Check(Note(i, n), s) == Checking(CheckOne(i, s), n)
    ensures forall s, n {:trigger Checking(Typed(s), n)} :: Checking(Typed(s), n) == Check(n, s)
    ensures forall n {:trigger Checking(Error, n)} :: Checking(Error, n) == Error
    ensures forall c, s {:trigger CheckOne(Nest(c), s)} :: CheckOne(Nest(c), s) == Check(c, s)
    ensures forall c, t, s {:trigger CheckOne(Dip(c), On(t, s))} ::
      CheckOne(Dip(c), On(t, s)) == Beneath(t, Check(c, s))
    ensures forall t: Type, s {:trigger CheckOne(Dup, On(t, s))} ::
      t.PairOf? ==> CheckOne(Dup, On(t, s)) == Typed(On(t, On(t, s)))
    ensures forall t, s {:trigger CheckOne(Drop, On(t, s))} :: CheckOne(Drop, On(t, s)) == Typed(s)
    ensures forall t, u, s {:trigger CheckOne(Swap, On(t, On(u, s)))} ::
      CheckOne(Swap, On(t, On(u, s))) == Typed(On(u, On(t, s)))
    ensures forall t {:trigger CheckOne(Swap, On(t, Bottom))} :: CheckOne(Swap, On(t, Bottom)) == Error
    ensures forall a, b, v, t {:trigger CheckOne(MakePair(a, b, v), On(t, Bottom))} ::
      CheckOne(MakePair(a, b, v), On(t, Bottom)) == Error
    ensures forall f, k, t: Type, s {:trigger CheckOne(Car(f, k), On(t, s))} ::
      CheckOne(Car(f, k), On(t, s)) == if t.PairOf? && Fits(f, t.fst) then Typed(On(Taken(t.fst, k), s)) else Error
    ensures forall f, k, t: Type, s {:trigger CheckOne(Cdr(f, k), On(t, s))} ::
      CheckOne(Cdr(f, k), On(t, s)) == if t.PairOf? && Fits(f, t.snd) then Typed(On(Taken(t.snd, k), s)) else Error
    ensures forall a, b, v, t, u, s {:trigger CheckOne(MakePair(a, b, v), On(t, On(u, s)))} ::
      CheckOne(MakePair(a, b, v), On(t, On(u, s))) == Typed(On(PairOf(Renamed(t, a), Renamed(u, b), "", v), s))
  {}

  // ---------------------------------------------------------------- the setters

  /** The field annotation of the macro; Field("") is a bare %. */
  datatype Annotation = NoField | Field(name: string)

  /** The expansion of SET_C..R, with the annotations the expander writes. A variable annotation of the
      macro reaches the outermost PAIR of a path of two letters or more, and is lost otherwise. */
  function Setter(path: seq<Side>, ann: Annotation, variable: string): Noted {
    if path == [] then Stop
    else if |path| == 1 then
      match (path[0], ann)
      case (A, Field(n)) =>
        Note3(Dup, Car(n, false), Drop, Note3(Cdr("", true), Swap, MakePair(Plain(n), Kept, ""), Stop))
      case (D, Field(n)) =>
        Note3(Dup, Cdr(n, false), Drop, Note2(Car("", true), MakePair(Kept, Plain(n), ""), Stop))
      case (A, NoField) => Note3(Cdr("", true), Swap, MakePair(Plain(""), Kept, ""), Stop)
      case (D, NoField) => Note2(Car("", true), MakePair(Kept, Plain(""), ""), Stop)
    else Around(path[0], Setter(path[1..], ann, ""), variable)
  }

  /** One level down: work on one side of the pair on top and put the pair together again. */
  function Around(side: Side, inner: Noted, variable: string): Noted {
    if side.A? then
      Note2(Dup, Dip(Note2(Car("", true), Nest(inner), Stop)),
        Note3(Cdr("", true), Swap, MakePair(Kept, Kept, variable), Stop))
    else
      Note2(Dup, Dip(Note2(Cdr("", true), Nest(inner), Stop)),
        Note2(Car("", true), MakePair(Kept, Kept, variable), Stop))
  }

  /** Without annotations this is the code the macro expands to; a field annotation makes it the form
      that reads the field first. */
  lemma {:induction false} SetterErases(path: seq<Side>, ann: Annotation, variable: string)
    ensures Erased(Setter(path, ann, variable)) == Macros.ExpandSet(path, ann.Field?)
    decreases |path|
  {
    if |path| > 1 {
      SetterErases(path[1..], ann, "");
      AroundErases(path[0], Setter(path[1..], ann, ""), variable);
    } else if path != [] {
      LastErases(path[0], ann, variable);
      assert path == [path[0]];
    }
  }

  lemma LastErases(side: Side, ann: Annotation, variable: string)
    ensures Erased(Setter([side], ann, variable)) == Macros.ExpandSet([side], ann.Field?)
  {
    hide Erased, ErasedOne;
    EraseRules();
  }

  lemma AroundErases(side: Side, inner: Noted, variable: string)
    ensures Erased(Around(side, inner, variable)) == Macros.Inside(side, Erased(inner))
  {
    hide Erased, ErasedOne;
    EraseRules();
  }

  lemma EraseRules()
    ensures Erased(Stop) == Michelson.Done
    ensures forall i, n {:trigger Erased(Note(i, n))} :: Erased(Note(i, n)) == Michelson.Do(ErasedOne(i), Erased(n))
    ensures ErasedOne(Dup) == Michelson.DUP && ErasedOne(Drop) == Michelson.DROP && ErasedOne(Swap) == Michelson.SWAP
    ensures forall c {:trigger ErasedOne(Dip(c))} :: ErasedOne(Dip(c)) == Michelson.DIP(Erased(c))
    ensures forall c {:trigger ErasedOne(Nest(c))} :: ErasedOne(Nest(c)) == Michelson.BLOCK(Erased(c))
    ensures forall f, k {:trigger ErasedOne(Car(f, k))} :: ErasedOne(Car(f, k)) == Michelson.CAR
    ensures forall f, k {:trigger ErasedOne(Cdr(f, k))} :: ErasedOne(Cdr(f, k)) == Michelson.CDR
    ensures forall a, b, v {:trigger ErasedOne(MakePair(a, b, v))} :: ErasedOne(MakePair(a, b, v)) == Michelson.PAIR
  {}

  // ---------------------------------------------------------------- when a setter is accepted

  predicate Reaches(t: Type, path: seq<Side>) {
    path == [] || (t.PairOf? && Reaches(if path[0].A? then t.fst else t.snd, path[1..]))
  }

  function At(t: Type, path: seq<Side>): Type
    requires Reaches(t, path)
  {
    if path == [] then t else At(if path[0].A? then t.fst else t.snd, path[1..])
  }

  /** A field next to the path: as it was, under what its name keeps of itself. */
  function Beside(t: Type): Type { t.(field := Trim(t.field), variable := t.field) }

  function NameOf(ann: Annotation): string { if ann.Field? then ann.name else "" }

  /** The record after the setter, side by side along the path. */
  function Updated(t: Type, path: seq<Side>, ann: Annotation, variable: string, x: Type): Type
    requires path != [] && Reaches(t, path)
  {
    var inner := if |path| == 1 then x.(field := NameOf(ann))
                 else Updated(if path[0].A? then t.fst else t.snd, path[1..], ann, "", x);
    if path[0].A? then PairOf(inner, Beside(t.snd), "", if |path| == 1 then "" else variable)
    else PairOf(Beside(t.fst), inner, "", if |path| == 1 then "" else variable)
  }

  lemma LastStep(t: Type, side: Side, ann: Annotation, variable: string, x: Type, s: Types)
    ensures Check(Setter([side], ann, variable), On(t, On(x, s))) ==
      if t.PairOf? && Fits(NameOf(ann), if side.A? then t.fst else t.snd)
      then Typed(On(Updated(t, [side], ann, variable, x), s)) else Error
  {
    if t.PairOf? {
      var other := if side.A? then t.snd else t.fst;
      assert Renamed(Taken(other, true), Kept) == Beside(other);
      hide Check, CheckOne, Checking, Renamed, Taken, Beside;
      CheckRules();
    } else {
      NoPair(t, side, On(x, s), ann);
    }
  }

  lemma NoPair(t: Type, side: Side, s: Types, ann: Annotation)
    requires !t.PairOf?
    ensures forall v {:trigger Setter([side], ann, v)} :: Check(Setter([side], ann, v), On(t, s)) == Error
  {
    assert CheckOne(Dup, On(t, s)) in {Error, Typed(On(t, On(t, s)))};
    hide Check, CheckOne, Checking;
    CheckRules();
  }

  lemma {:induction false} TrimNothing(n: string)
    ensures Trim(n) == n <==> '.' !in n
    ensures '.' !in Trim(n) && |Trim(n)| <= |n|
    decreases |n|
  {
    if '.' in n { TrimNothing(n[1..]); }
  }

  /** The checker accepts a setter exactly when its path leads to a field and the name it is given, if
      any, is the field's own, or the field has none. What it then computes is Updated. */
  lemma {:induction false} SetterChecks(t: Type, path: seq<Side>, ann: Annotation, variable: string, x: Type, s: Types)
    requires path != []
    ensures Check(Setter(path, ann, variable), On(t, On(x, s))) ==
      if Reaches(t, path) && Fits(NameOf(ann), At(t, path)) then Typed(On(Updated(t, path, ann, variable, x), s))
      else Error
    decreases |path|
  {
    if |path| == 1 {
      OneStep(t, path);
      LastStep(t, path[0], ann, variable, x, s);
      hide Check, Setter, Updated, Reaches, At;
    } else {
      var inner := Setter(path[1..], ann, "");
      if t.PairOf? {
        var down := if path[0].A? then t.fst else t.snd;
        SetterChecks(Taken(down, true), path[1..], ann, "", x, s);
        TakenAlike(down, path[1..], ann, x);
      }
      AroundChecks(path[0], t, x, s, inner, variable);
    }
  }

  lemma OneStep(t: Type, path: seq<Side>)
    requires |path| == 1
    ensures path == [path[0]] && (Reaches(t, path) <==> t.PairOf?)
    ensures t.PairOf? ==> At(t, path) == if path[0].A? then t.fst else t.snd
  {
    assert path[1..] == [];
  }

  /** Below its own annotations a field is the same on the stack as in the record. */
  lemma TakenAlike(t: Type, path: seq<Side>, ann: Annotation, x: Type)
    requires path != []
    ensures Reaches(Taken(t, true), path) <==> Reaches(t, path)
    ensures Reaches(t, path) ==> At(Taken(t, true), path) == At(t, path)
    ensures Reaches(t, path) ==> Updated(Taken(t, true), path, ann, "", x) == Updated(t, path, ann, "", x)
  {}

  /** One level: the inner code works on the field below the record, then the record is put together. */
  lemma AroundChecks(side: Side, t: Type, x: Type, s: Types, inner: Noted, variable: string)
    ensures Check(Around(side, inner, variable), On(t, On(x, s))) ==
      if !t.PairOf? then Error
      else
        var down, other := if side.A? then t.fst else t.snd, if side.A? then t.snd else t.fst;
        match Check(inner, On(Taken(down, true), On(x, s)))
        case Typed(On(u, below)) =>
          var r := Renamed(u, Kept);
          Typed(On(if side.A? then PairOf(r, Beside(other), "", variable) else PairOf(Beside(other), r, "", variable),
            below))
        case _ => Error
  {
    if t.PairOf? {
      var down, other := if side.A? then t.fst else t.snd, if side.A? then t.snd else t.fst;
      assert Renamed(Taken(other, true), Kept) == Beside(other) && Fits("", down) && Fits("", other);
      var o := Check(inner, On(Taken(down, true), On(x, s)));
      hide Check, CheckOne, Checking, Renamed, Taken, Beside, Fits;
      CheckRules();
      if o.Typed? { assert o == Typed(o.types); }
    } else {
      assert CheckOne(Dup, On(t, On(x, s))) in {Error, Typed(On(t, On(t, On(x, s))))};
      hide Check, CheckOne, Checking;
      CheckRules();
    }
  }
  // ---------------------------------------------------------------- what becomes of the names

  /** The field that was set has the name in the setter, or none. */
  lemma {:induction false} SetFieldIsNamed(t: Type, path: seq<Side>, ann: Annotation, variable: string, x: Type)
    requires path != [] && Reaches(t, path)
    ensures var u := Updated(t, path, ann, variable, x);
      Reaches(u, path) && At(u, path) == x.(field := NameOf(ann))
    decreases |path|
  {
    if |path| > 1 { SetFieldIsNamed(if path[0].A? then t.fst else t.snd, path[1..], ann, "", x); }
    else { assert path[1..] == []; }
  }

  function Other(side: Side): Side { if side.A? then Macros.D else Macros.A }

  /** The field across from the path at depth k keeps its contents, and keeps its name exactly when
      there is no dot in it; the fields the path leads through lose theirs. */
  lemma {:induction false} OtherNames(t: Type, path: seq<Side>, ann: Annotation, variable: string, x: Type, k: nat)
    requires k < |path| && Reaches(t, path)
    ensures var u := Updated(t, path, ann, variable, x); var across := path[..k] + [Other(path[k])];
      && Reaches(t, across) && Reaches(u, across)
      && At(u, across) == At(t, across).(field := At(u, across).field, variable := At(t, across).field)
      && (At(u, across).field == At(t, across).field <==> '.' !in At(t, across).field)
      && Reaches(u, path[..k]) && At(u, path[..k]).field == ""
    decreases |path|
  {
    var across := path[..k] + [Other(path[k])];
    if k == 0 {
      assert path[..0] == [] && across == [Other(path[0])] && across[1..] == [];
      var beside := if path[0].A? then t.snd else t.fst;
      TrimNothing(beside.field);
    } else {
      var down := if path[0].A? then t.fst else t.snd;
      assert path[..k][1..] == path[1..][..k - 1];
      assert across[0] == path[0] && across[1..] == path[1..][..k - 1] + [Other(path[1..][k - 1])];
      OtherNames(down, path[1..], ann, "", x, k - 1);
    }
  }
}
