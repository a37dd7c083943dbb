/** How compiled contracts reach their variables. The deposit pool reaches the one at depth n with a
    nest of n DIPs, others with DIG, DUP and DUG, and all walk along right-nested pairs with CDRs.
    These shapes are written here once, for every n. */
module Chains {
  import opened Michelson
  import opened Rules

  /** DIP { .. DIP { DUP } ; SWAP .. } ; SWAP */
  function Fetch(n: nat, next: Code): Code {
    if n == 0 then Do(DUP, next) else Do2(DIP(Fetch(n - 1, Done)), SWAP, next)
  }

  /** SWAP ; DIP { .. SWAP ; DIP { SWAP ; DROP } .. } */
  function Put(n: nat, next: Code): Code {
    if n == 0 then Do2(SWAP, DROP, next) else Do2(SWAP, DIP(Put(n - 1, Done)), next)
  }

  /** SWAP ; DIP { .. SWAP ; DROP ; DUP .. ; SWAP } ; SWAP */
  function Poke(n: nat, next: Code): Code {
    if n == 0 then Do3(SWAP, DROP, DUP, next) else Do3(SWAP, DIP(Poke(n - 1, Done)), SWAP, next)
  }

  function With(s: Stack, n: nat, v: Value): Stack
    decreases n
  {
    if s.Empty? then s else if n == 0 then Push(v, s.rest) else Push(s.top, With(s.rest, n - 1, v))
  }

  lemma {:induction false} FetchCopies(e: Env, f: nat, n: nat, next: Code, s: Stack)
    requires Has(s, n + 1)
    ensures Run(e, f, Fetch(n, next), s) == Run(e, f, next, Push(Nth(s, n), s))
  {
    hide Run, Then, Step, Basic;
    ControlRules(); StackRules();
    if n > 0 { FetchCopies(e, f, n - 1, Done, s.rest); }
  }

  lemma {:induction false} PutOverwrites(e: Env, f: nat, n: nat, next: Code, v: Value, s: Stack)
    requires Has(s, n + 1)
    ensures Run(e, f, Put(n, next), Push(v, s)) == Run(e, f, next, With(s, n, v))
  {
    hide Run, Then, Step, Basic;
    ControlRules(); StackRules();
    if n > 0 { PutOverwrites(e, f, n - 1, Done, v, s.rest); }
  }

  lemma {:induction false} PokeOverwrites(e: Env, f: nat, n: nat, next: Code, v: Value, s: Stack)
    requires Has(s, n + 1)
    ensures Run(e, f, Poke(n, next), Push(v, s)) == Run(e, f, next, Push(v, With(s, n, v)))
  {
    hide Run, Then, Step, Basic;
    ControlRules(); StackRules();
    if n > 0 { PokeOverwrites(e, f, n - 1, Done, v, s.rest); }
  }

  lemma ChainRules()
    ensures forall e, f: nat, n: nat, next, s {:trigger Run(e, f, Fetch(n, next), s)} ::
      Has(s, n + 1) ==> Run(e, f, Fetch(n, next), s) == Run(e, f, next, Push(Nth(s, n), s))
    ensures forall e, f: nat, n: nat, next, v, s {:trigger Run(e, f, Put(n, next), Push(v, s))} ::
      Has(s, n + 1) ==> Run(e, f, Put(n, next), Push(v, s)) == Run(e, f, next, With(s, n, v))
    ensures forall e, f: nat, n: nat, next, v, s {:trigger Run(e, f, Poke(n, next), Push(v, s))} ::
      Has(s, n + 1) ==> Run(e, f, Poke(n, next), Push(v, s)) == Run(e, f, next, Push(v, With(s, n, v)))
    ensures forall a, s, v {:trigger With(Push(a, s), 0, v)} :: With(Push(a, s), 0, v) == Push(v, s)
    ensures forall a, b, s, v {:trigger With(Push(a, Push(b, s)), 1, v)} ::
      With(Push(a, Push(b, s)), 1, v) == Push(a, Push(v, s))
    ensures forall a, b, s, k: nat, v {:trigger With(Push(a, Push(b, s)), k, v)} ::
      k >= 2 ==> With(Push(a, Push(b, s)), k, v) == Push(a, Push(b, With(s, k - 2, v)))
  {
    hide Run;
    forall e, f: nat, n: nat, next, s | Has(s, n + 1) { FetchCopies(e, f, n, next, s); }
    forall e, f: nat, n: nat, next, v, s | Has(s, n + 1) { PutOverwrites(e, f, n, next, v, s); }
    forall e, f: nat, n: nat, next, v, s | Has(s, n + 1) { PokeOverwrites(e, f, n, next, v, s); }
  }

  // ---------------------------------------------------------------- DIG, DUP, DUG and CDRs

  /** SWAP ; DUP ; DUG 2 or DIG n ; DUP ; DUG n + 1 */
  function Copy(n: nat, next: Code): Code {
    if n == 1 then Do3(SWAP, DUP, DUG(2), next) else Do3(DIG(n), DUP, DUG(n + 1), next)
  }

  /** CDR ; .. ; CDR */
  function Rest(n: nat, next: Code): Code {
    if n == 0 then next else Do(CDR, Rest(n - 1, next))
  }

  lemma {:induction false} InsertWithout(s: Stack, n: nat)
    requires Has(s, n + 1)
    ensures Insert(Without(s, n), n, Nth(s, n)) == s
    ensures Has(Without(s, n), n)
  {
    if n > 0 { InsertWithout(s.rest, n - 1); }
  }

  lemma CopyCopies(e: Env, f: nat, n: nat, next: Code, s: Stack)
    requires Has(s, n + 1)
    ensures Run(e, f, Copy(n, next), s) == Run(e, f, next, Push(Nth(s, n), s))
  {
    hide Run, Then, Step, Basic;
    ControlRules(); StackRules();
    InsertWithout(s, n);
    if n == 1 {
      assert Insert(Push(s.rest.top, Push(s.top, s.rest.rest)), 2, s.rest.top) == Push(s.rest.top, s);
    } else {
      assert Has(Push(Nth(s, n), Without(s, n)), n + 1);
      assert Insert(Push(Nth(s, n), Without(s, n)), n + 1, Nth(s, n)) == Push(Nth(s, n), s);
    }
  }

  lemma RestSteps(e: Env, f: nat, n: nat, next: Code, a: Value, b: Value, s: Stack)
    requires n > 0
    ensures Run(e, f, Rest(n, next), Push(VPair(a, b), s)) == Run(e, f, Rest(n - 1, next), Push(b, s))
  {
    hide Run, Then, Step, Basic;
    StackMachine();
  }

  lemma RestThree(e: Env, f: nat, n: nat, next: Code, a: Value, b: Value, c: Value, d: Value, s: Stack)
    requires n >= 3
    ensures Run(e, f, Rest(n, next), Push(VPair(a, VPair(b, VPair(c, d))), s)) ==
      Run(e, f, Rest(n - 3, next), Push(d, s))
  {
    hide Run;
    RestSteps(e, f, n, next, a, VPair(b, VPair(c, d)), s);
    RestSteps(e, f, n - 1, next, b, VPair(c, d), s);
    RestSteps(e, f, n - 2, next, c, d, s);
  }

  lemma AccessRules()
    ensures forall e, f: nat, n: nat, next, s {:trigger Run(e, f, Copy(n, next), s)} ::
      Has(s, n + 1) ==> Run(e, f, Copy(n, next), s) == Run(e, f, next, Push(Nth(s, n), s))
    ensures forall e, f: nat, next, s {:trigger Run(e, f, Rest(0, next), s)} ::
      Run(e, f, Rest(0, next), s) == Run(e, f, next, s)
    ensures forall e, f: nat, next, a, b, s {:trigger Run(e, f, Rest(1, next), Push(VPair(a, b), s))} ::
      Run(e, f, Rest(1, next), Push(VPair(a, b), s)) == Run(e, f, next, Push(b, s))
    ensures forall e, f: nat, next, a, b, c, s {:trigger Run(e, f, Rest(2, next), Push(VPair(a, VPair(b, c)), s))} ::
      Run(e, f, Rest(2, next), Push(VPair(a, VPair(b, c)), s)) == Run(e, f, next, Push(c, s))
    ensures forall e, f: nat, n: nat, next, a, b, c, d, s
      {:trigger Run(e, f, Rest(n, next), Push(VPair(a, VPair(b, VPair(c, d))), s))} :: n >= 3 ==>
      Run(e, f, Rest(n, next), Push(VPair(a, VPair(b, VPair(c, d))), s)) == Run(e, f, Rest(n - 3, next), Push(d, s))
  {
    hide Run;
    forall e, f: nat, n: nat, next, s | Has(s, n + 1) { CopyCopies(e, f, n, next, s); }
    forall e, f: nat, next, a, b, s { RestSteps(e, f, 1, next, a, b, s); }
    forall e, f: nat, next, a, b, c, s
      ensures Run(e, f, Rest(2, next), Push(VPair(a, VPair(b, c)), s)) == Run(e, f, next, Push(c, s))
    {
      RestSteps(e, f, 2, next, a, VPair(b, c), s);
      RestSteps(e, f, 1, next, b, c, s);
    }
    forall e, f: nat, n: nat, next, a, b, c, d, s | n >= 3 { RestThree(e, f, n, next, a, b, c, d, s); }
  }

  // ---------------------------------------------------------------- replacing a field of a record

  /** Put a new tail behind field k of the record below: fields k, k - 1, .. 0 are read off it one
      by one and paired on top. */
  function Rebuild(k: nat, next: Code): Code {
    if k == 0 then Do3(SWAP, CAR, PAIR, next)
    else if k == 1 then Copy(1, Do3(CDR, CAR, PAIR, Rebuild(0, next)))
    else Copy(1, Rest(k, Do2(CAR, PAIR, Rebuild(k - 1, next))))
  }

  /** v is a row of more than k nested pairs. */
  predicate Row(v: Value, k: nat)
    decreases k
  {
    v.VPair? && (k == 0 || Row(v.snd, k - 1))
  }

  function Field(v: Value, k: nat): Value
    requires Row(v, k)
    decreases k
  {
    if k == 0 then v.fst else Field(v.snd, k - 1)
  }

  function Graft(v: Value, k: nat, tail: Value): Value
    requires Row(v, k)
    decreases k
  {
    if k == 0 then VPair(v.fst, tail) else VPair(v.fst, Graft(v.snd, k - 1, tail))
  }

  lemma {:induction false} RestOfRow(e: Env, f: nat, k: nat, next: Code, v: Value, s: Stack)
    requires Row(v, k)
    ensures Run(e, f, Rest(k, Do(CAR, next)), Push(v, s)) == Run(e, f, next, Push(Field(v, k), s))
    decreases k
  {
    hide Run, Then, Step, Basic;
    StackMachine();
    if k > 0 {
      RestSteps(e, f, k, Do(CAR, next), v.fst, v.snd, s);
      RestOfRow(e, f, k - 1, next, v.snd, s);
    }
  }

  lemma {:induction false} GraftGrows(v: Value, k: nat, tail: Value)
    requires Row(v, k) && k > 0
    ensures Row(v, k - 1) && Graft(v, k - 1, VPair(Field(v, k), tail)) == Graft(v, k, tail)
  {
    if k > 1 { GraftGrows(v.snd, k - 1, tail); }
  }

  lemma {:induction false} RebuildGrafts(e: Env, f: nat, k: nat, next: Code, tail: Value, v: Value, s: Stack)
    requires Row(v, k)
    ensures Run(e, f, Rebuild(k, next), Push(tail, Push(v, s))) == Run(e, f, next, Push(Graft(v, k, tail), s))
    decreases k
  {
    hide Run, Then, Step, Basic, Rest;
    StackMachine();
    if k > 0 {
      var more := Do2(CAR, PAIR, Rebuild(k - 1, next));
      CopyCopies(e, f, 1, if k == 1 then Do3(CDR, CAR, PAIR, Rebuild(0, next)) else Rest(k, more),
        Push(tail, Push(v, s)));
      if k > 1 { RestOfRow(e, f, k, Do(PAIR, Rebuild(k - 1, next)), v, Push(tail, Push(v, s))); }
      GraftGrows(v, k, tail);
      RebuildGrafts(e, f, k - 1, next, VPair(Field(v, k), tail), v, s);
    }
  }
}
