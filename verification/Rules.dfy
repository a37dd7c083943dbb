/** Rewriting rules for symbolic execution. A lemma about a whole program hides Run, Then, Step
    and Basic and calls StackMachine(), DataMachine() and WorldMachine(); each rule then rewrites
    the instruction at the head of the code, on every stack it is typed for. */
module Rules {
  import opened Michelson

  /** Control, stack, pairs, sums and lists. */
  lemma StackMachine()
    ensures forall e, f: nat, s {:trigger Run(e, f, Done, s)} :: Run(e, f, Done, s) == Ok(s)
    ensures forall e, f: nat, n, s {:trigger Then(e, f, Ok(s), n)} :: Then(e, f, Ok(s), n) == Run(e, f, n, s)
    ensures forall e, f: nat, n, o: Outcome {:trigger Then(e, f, o, n)} :: !o.Ok? ==> Then(e, f, o, n) == o
    ensures forall e, f: nat, n, a, s {:trigger Then(e, f, Under(a, Ok(s)), n)} ::
      Then(e, f, Under(a, Ok(s)), n) == Run(e, f, n, Push(a, s))
    ensures forall e, f: nat, n, a, s {:trigger Then(e, f, Return(Ok(Push(a, Empty)), s), n)} ::
      Then(e, f, Return(Ok(Push(a, Empty)), s), n) == Run(e, f, n, Push(a, s))
    ensures forall e, f: nat, c, a {:trigger Call(e, f, VLam(c), a)} ::
      Call(e, f, VLam(c), a) == Run(e, f, c, Push(a, Empty))
    ensures forall e, f: nat, c, a {:trigger Call(e, f, VLamRec(c), a)} ::
      Call(e, f, VLamRec(c), a) == Run(e, f, c, Push(a, Push(VLamRec(c), Empty)))
    ensures forall e, f: nat, n, c, s {:trigger Run(e, f, Do(BLOCK(c), n), s)} ::
      Run(e, f, Do(BLOCK(c), n), s) == Then(e, f, Run(e, f, c, s), n)
    ensures forall e, f: nat, n, c, a, s {:trigger Run(e, f, Do(DIP(c), n), Push(a, s))} ::
      Run(e, f, Do(DIP(c), n), Push(a, s)) == Then(e, f, Under(a, Run(e, f, c, s)), n)
    ensures forall e, f: nat, n, c, a, b, s {:trigger Run(e, f, Do(DIPN(2, c), n), Push(a, Push(b, s)))} ::
      Run(e, f, Do(DIPN(2, c), n), Push(a, Push(b, s))) == Then(e, f, Under(a, Under(b, Run(e, f, c, s))), n)
    ensures forall e, f: nat, n, c, d, b, s {:trigger Run(e, f, Do(IF(c, d), n), Push(VBool(b), s))} ::
      b ==> Run(e, f, Do(IF(c, d), n), Push(VBool(b), s)) == Then(e, f, Run(e, f, c, s), n)
    ensures forall e, f: nat, n, c, d, b, s {:trigger Run(e, f, Do(IF(c, d), n), Push(VBool(b), s))} ::
      !b ==> Run(e, f, Do(IF(c, d), n), Push(VBool(b), s)) == Then(e, f, Run(e, f, d, s), n)
    ensures forall e, f: nat, n, c, d, s {:trigger Run(e, f, Do(IF_NONE(c, d), n), Push(VNone, s))} ::
      Run(e, f, Do(IF_NONE(c, d), n), Push(VNone, s)) == Then(e, f, Run(e, f, c, s), n)
    ensures forall e, f: nat, n, c, d, a, s {:trigger Run(e, f, Do(IF_NONE(c, d), n), Push(VSome(a), s))} ::
      Run(e, f, Do(IF_NONE(c, d), n), Push(VSome(a), s)) == Then(e, f, Run(e, f, d, Push(a, s)), n)
    ensures forall e, f: nat, n, c, d, a, s {:trigger Run(e, f, Do(IF_LEFT(c, d), n), Push(VLeft(a), s))} ::
      Run(e, f, Do(IF_LEFT(c, d), n), Push(VLeft(a), s)) == Then(e, f, Run(e, f, c, Push(a, s)), n)
    ensures forall e, f: nat, n, c, d, a, s {:trigger Run(e, f, Do(IF_LEFT(c, d), n), Push(VRight(a), s))} ::
      Run(e, f, Do(IF_LEFT(c, d), n), Push(VRight(a), s)) == Then(e, f, Run(e, f, d, Push(a, s)), n)
    ensures forall e, f: nat, n, c, d, s {:trigger Run(e, f, Do(IF_CONS(c, d), n), Push(VList([]), s))} ::
      Run(e, f, Do(IF_CONS(c, d), n), Push(VList([]), s)) == Then(e, f, Run(e, f, d, s), n)
    ensures forall e, f: nat, n, c, d, xs, s {:trigger Run(e, f, Do(IF_CONS(c, d), n), Push(VList(xs), s))} ::
      xs != [] ==>
        Run(e, f, Do(IF_CONS(c, d), n), Push(VList(xs), s)) ==
        Then(e, f, Run(e, f, c, Push(xs[0], Push(VList(xs[1..]), s))), n)
    ensures forall e, f: nat, n, c, xs, s {:trigger Run(e, f, Do(ITER(c), n), Push(VList(xs), s))} ::
      Run(e, f, Do(ITER(c), n), Push(VList(xs), s)) == Then(e, f, Iter(e, f, c, xs, s), n)
    ensures forall e, f: nat, n, c, xs, s {:trigger Run(e, f, Do(MAP(c), n), Push(VList(xs), s))} ::
      Run(e, f, Do(MAP(c), n), Push(VList(xs), s)) == Then(e, f, MapList(e, f, c, xs, [], s), n)
    ensures forall e, f: nat, n, a, l, s {:trigger Run(e, f, Do(EXEC, n), Push(a, Push(l, s)))} ::
      f > 0 ==> Run(e, f, Do(EXEC, n), Push(a, Push(l, s))) == Then(e, f, Return(Call(e, f - 1, l, a), s), n)
    ensures forall e, n, a, l, s {:trigger Run(e, 0, Do(EXEC, n), Push(a, Push(l, s)))} ::
      Run(e, 0, Do(EXEC, n), Push(a, Push(l, s))) == OutOfFuel
    ensures forall e, f: nat, n, a, s {:trigger Run(e, f, Do(PUSH(a), n), s)} ::
      Run(e, f, Do(PUSH(a), n), s) == Run(e, f, n, Push(a, s))
    ensures forall e, f: nat, n, c, s {:trigger Run(e, f, Do(LAMBDA(c), n), s)} ::
      Run(e, f, Do(LAMBDA(c), n), s) == Run(e, f, n, Push(VLam(c), s))
    ensures forall e, f: nat, n, c, s {:trigger Run(e, f, Do(LAMBDA_REC(c), n), s)} ::
      Run(e, f, Do(LAMBDA_REC(c), n), s) == Run(e, f, n, Push(VLamRec(c), s))
    ensures forall e, f: nat, n, t, x, s {:trigger Run(e, f, Do(CONTRACT(t), n), Push(VAddr(x), s))} ::
      Run(e, f, Do(CONTRACT(t), n), Push(VAddr(x), s)) ==
        Run(e, f, n, Push(if e.entrypoints(x, t) then VSome(VContract(x, t)) else VNone, s))
    ensures forall e, f: nat, n, k: nat, s {:trigger Run(e, f, Do(DUPN(k), n), s)} ::
      k > 0 && Has(s, k) ==> Run(e, f, Do(DUPN(k), n), s) == Run(e, f, n, Push(Nth(s, k - 1), s))
    ensures forall e, f: nat, n, k: nat, s {:trigger Run(e, f, Do(DROPN(k), n), s)} ::
      Has(s, k) ==> Run(e, f, Do(DROPN(k), n), s) == Run(e, f, n, Dropped(s, k))
    ensures forall e, f: nat, n, k: nat, s {:trigger Run(e, f, Do(DIG(k), n), s)} ::
      Has(s, k + 1) ==> Run(e, f, Do(DIG(k), n), s) == Run(e, f, n, Push(Nth(s, k), Without(s, k)))
    ensures forall e, f: nat, n, k: nat, a, s {:trigger Run(e, f, Do(DUG(k), n), Push(a, s))} ::
      Has(s, k) ==> Run(e, f, Do(DUG(k), n), Push(a, s)) == Run(e, f, n, Insert(s, k, a))
    ensures forall e, f: nat, n, a, s {:trigger Run(e, f, Do(DUP, n), Push(a, s))} ::
      Run(e, f, Do(DUP, n), Push(a, s)) == Run(e, f, n, Push(a, Push(a, s)))
    ensures forall e, f: nat, n, a, s {:trigger Run(e, f, Do(DROP, n), Push(a, s))} ::
      Run(e, f, Do(DROP, n), Push(a, s)) == Run(e, f, n, s)
    ensures forall e, f: nat, n, a, b, s {:trigger Run(e, f, Do(SWAP, n), Push(a, Push(b, s)))} ::
      Run(e, f, Do(SWAP, n), Push(a, Push(b, s))) == Run(e, f, n, Push(b, Push(a, s)))
    ensures forall e, f: nat, n, a, b, s {:trigger Run(e, f, Do(PAIR, n), Push(a, Push(b, s)))} ::
      Run(e, f, Do(PAIR, n), Push(a, Push(b, s))) == Run(e, f, n, Push(VPair(a, b), s))
    ensures forall e, f: nat, n, a, b, s {:trigger Run(e, f, Do(CAR, n), Push(VPair(a, b), s))} ::
      Run(e, f, Do(CAR, n), Push(VPair(a, b), s)) == Run(e, f, n, Push(a, s))
    ensures forall e, f: nat, n, a, b, s {:trigger Run(e, f, Do(CDR, n), Push(VPair(a, b), s))} ::
      Run(e, f, Do(CDR, n), Push(VPair(a, b), s)) == Run(e, f, n, Push(b, s))
    ensures forall e, f: nat, n, a, b, s {:trigger Run(e, f, Do(UNPAIR, n), Push(VPair(a, b), s))} ::
      Run(e, f, Do(UNPAIR, n), Push(VPair(a, b), s)) == Run(e, f, n, Push(a, Push(b, s)))
    ensures forall e, f: nat, n, a, s {:trigger Run(e, f, Do(SOME, n), Push(a, s))} ::
      Run(e, f, Do(SOME, n), Push(a, s)) == Run(e, f, n, Push(VSome(a), s))
    ensures forall e, f: nat, n, a, xs, s {:trigger Run(e, f, Do(CONS, n), Push(a, Push(VList(xs), s)))} ::
      Run(e, f, Do(CONS, n), Push(a, Push(VList(xs), s))) == Run(e, f, n, Push(VList([a] + xs), s))
    ensures forall e, f: nat, n, a, s {:trigger Run(e, f, Do(FAILWITH, n), Push(a, s))} ::
      Run(e, f, Do(FAILWITH, n), Push(a, s)) == Failed(a)
    ensures forall e, f: nat, n, s {:trigger Run(e, f, Do(UNIT, n), s)} ::
      Run(e, f, Do(UNIT, n), s) == Run(e, f, n, Push(VUnit, s))
    ensures forall e, f: nat, n, s {:trigger Run(e, f, Do(NONE, n), s)} ::
      Run(e, f, Do(NONE, n), s) == Run(e, f, n, Push(VNone, s))
    ensures forall e, f: nat, n, s {:trigger Run(e, f, Do(NIL, n), s)} ::
      Run(e, f, Do(NIL, n), s) == Run(e, f, n, Push(VList([]), s))
    ensures forall e, f: nat, n, s {:trigger Run(e, f, Do(EMPTY_SET, n), s)} ::
      Run(e, f, Do(EMPTY_SET, n), s) == Run(e, f, n, Push(VSet({}), s))
    ensures forall e, f: nat, n, s {:trigger Run(e, f, Do(EMPTY_MAP, n), s)} ::
      Run(e, f, Do(EMPTY_MAP, n), s) == Run(e, f, n, Push(VMap(map[]), s))
    ensures forall e, f: nat, n, a, s {:trigger Run(e, f, Do(LEFT, n), Push(a, s))} ::
      Run(e, f, Do(LEFT, n), Push(a, s)) == Run(e, f, n, Push(VLeft(a), s))
    ensures forall e, f: nat, n, a, s {:trigger Run(e, f, Do(RIGHT, n), Push(a, s))} ::
      Run(e, f, Do(RIGHT, n), Push(a, s)) == Run(e, f, n, Push(VRight(a), s))
    ensures forall e, f: nat, n, a, b, c, s {:trigger Run(e, f, Do(UNPAIR3, n), Push(VPair(a, VPair(b, c)), s))} ::
      Run(e, f, Do(UNPAIR3, n), Push(VPair(a, VPair(b, c)), s)) == Run(e, f, n, Push(a, Push(b, Push(c, s))))
    ensures forall e, f: nat, n, a, b, c, s {:trigger Run(e, f, Do(GET4, n), Push(VPair(a, VPair(b, c)), s))} ::
      Run(e, f, Do(GET4, n), Push(VPair(a, VPair(b, c)), s)) == Run(e, f, n, Push(c, s))
    ensures forall e, f: nat, n, a, b, s {:trigger Run(e, f, Do(APPLY, n), Push(a, Push(b, s)))} ::
      Run(e, f, Do(APPLY, n), Push(a, Push(b, s))) == Then(e, f, Applied(a, b, s), n)
    ensures forall s {:trigger Has(s, 0)} :: Has(s, 0)
    ensures forall a, s {:trigger Has(Push(a, s), 1)} :: Has(Push(a, s), 1)
    ensures forall a, b, s {:trigger Has(Push(a, Push(b, s)), 2)} :: Has(Push(a, Push(b, s)), 2)
    ensures forall a, b, c, s {:trigger Has(Push(a, Push(b, Push(c, s))), 3)} ::
      Has(Push(a, Push(b, Push(c, s))), 3)
    ensures forall a, b, c, d, s, k: nat {:trigger Has(Push(a, Push(b, Push(c, Push(d, s)))), k)} ::
      k >= 4 ==> Has(Push(a, Push(b, Push(c, Push(d, s)))), k) == Has(s, k - 4)
    ensures forall a, s {:trigger Nth(Push(a, s), 0)} :: Nth(Push(a, s), 0) == a
    ensures forall a, b, s {:trigger Nth(Push(a, Push(b, s)), 1)} :: Nth(Push(a, Push(b, s)), 1) == b
    ensures forall a, b, c, s {:trigger Nth(Push(a, Push(b, Push(c, s))), 2)} ::
      Nth(Push(a, Push(b, Push(c, s))), 2) == c
    ensures forall a, b, c, d, s {:trigger Nth(Push(a, Push(b, Push(c, Push(d, s)))), 3)} ::
      Nth(Push(a, Push(b, Push(c, Push(d, s)))), 3) == d
    ensures forall a, b, c, d, s, k: nat {:trigger Nth(Push(a, Push(b, Push(c, Push(d, s)))), k)} ::
      k >= 4 ==> Nth(Push(a, Push(b, Push(c, Push(d, s)))), k) == Nth(s, k - 4)
    ensures forall a, b, s {:trigger Without(Push(a, Push(b, s)), 1)} :: Without(Push(a, Push(b, s)), 1) == Push(a, s)
    ensures forall a, b, c, s {:trigger Without(Push(a, Push(b, Push(c, s))), 2)} ::
      Without(Push(a, Push(b, Push(c, s))), 2) == Push(a, Push(b, s))
    ensures forall a, b, c, d, s {:trigger Without(Push(a, Push(b, Push(c, Push(d, s)))), 3)} ::
      Without(Push(a, Push(b, Push(c, Push(d, s)))), 3) == Push(a, Push(b, Push(c, s)))
    ensures forall a, b, c, d, s: Stack, k: nat {:trigger Without(Push(a, Push(b, Push(c, Push(d, s)))), k)} ::
      k >= 4 && s.Push? ==>
        Without(Push(a, Push(b, Push(c, Push(d, s)))), k) == Push(a, Push(b, Push(c, Push(d, Without(s, k - 4)))))
    ensures forall v, s {:trigger Insert(s, 0, v)} :: Insert(s, 0, v) == Push(v, s)
    ensures forall a, v, s {:trigger Insert(Push(a, s), 1, v)} :: Insert(Push(a, s), 1, v) == Push(a, Push(v, s))
    ensures forall a, b, v, s {:trigger Insert(Push(a, Push(b, s)), 2, v)} ::
      Insert(Push(a, Push(b, s)), 2, v) == Push(a, Push(b, Push(v, s)))
    ensures forall a, b, c, v, s {:trigger Insert(Push(a, Push(b, Push(c, s))), 3, v)} ::
      Insert(Push(a, Push(b, Push(c, s))), 3, v) == Push(a, Push(b, Push(c, Push(v, s))))
    ensures forall a, b, c, d, v, s, k: nat {:trigger Insert(Push(a, Push(b, Push(c, Push(d, s)))), k, v)} ::
      k >= 4 ==>
        Insert(Push(a, Push(b, Push(c, Push(d, s)))), k, v) == Push(a, Push(b, Push(c, Push(d, Insert(s, k - 4, v)))))
    ensures forall a, b, s {:trigger Dropped(Push(a, Push(b, s)), 2)} :: Dropped(Push(a, Push(b, s)), 2) == s
    ensures forall a, b, c, s {:trigger Dropped(Push(a, Push(b, Push(c, s))), 3)} ::
      Dropped(Push(a, Push(b, Push(c, s))), 3) == s
    ensures forall a, b, c, d, s {:trigger Dropped(Push(a, Push(b, Push(c, Push(d, s)))), 4)} ::
      Dropped(Push(a, Push(b, Push(c, Push(d, s)))), 4) == s
  {
    hide Run, Then, Step, Basic;
    ControlRules(); StackRules(); ShapeRules();
  }

  /** Comparison, numbers, booleans, maps and sets. */
  lemma DataMachine()
    ensures forall e, f: nat, n, x, y, s {:trigger Run(e, f, Do(COMPARE, n), Push(VInt(x), Push(VInt(y), s)))} ::
      Run(e, f, Do(COMPARE, n), Push(VInt(x), Push(VInt(y), s))) == Run(e, f, n, Push(VInt(Sign(x, y)), s))
    ensures forall e, f: nat, n, x: nat, y: nat, s
      {:trigger Run(e, f, Do(COMPARE, n), Push(VMutez(x), Push(VMutez(y), s)))} ::
      Run(e, f, Do(COMPARE, n), Push(VMutez(x), Push(VMutez(y), s))) == Run(e, f, n, Push(VInt(Sign(x, y)), s))
    ensures forall e, f: nat, n, x, y, s {:trigger Run(e, f, Do(COMPARE, n), Push(VAddr(x), Push(VAddr(y), s)))} ::
      Run(e, f, Do(COMPARE, n), Push(VAddr(x), Push(VAddr(y), s))) == Run(e, f, n, Push(VInt(CompareText(x, y)), s))
    ensures forall e, f: nat, n, k, m, s {:trigger Run(e, f, Do(GET, n), Push(k, Push(VMap(m), s)))} ::
      Run(e, f, Do(GET, n), Push(k, Push(VMap(m), s))) == Run(e, f, n, Push(Lookup(k, m), s))
    ensures forall e, f: nat, n, k, a, m, s
      {:trigger Run(e, f, Do(UPDATE, n), Push(k, Push(VSome(a), Push(VMap(m), s))))} ::
      Run(e, f, Do(UPDATE, n), Push(k, Push(VSome(a), Push(VMap(m), s)))) == Run(e, f, n, Push(VMap(m[k := a]), s))
    ensures forall e, f: nat, n, k, m, s {:trigger Run(e, f, Do(UPDATE, n), Push(k, Push(VNone, Push(VMap(m), s))))} ::
      Run(e, f, Do(UPDATE, n), Push(k, Push(VNone, Push(VMap(m), s)))) == Run(e, f, n, Push(VMap(m - {k}), s))
    ensures forall e, f: nat, n, x, s {:trigger Run(e, f, Do(EQ, n), Push(VInt(x), s))} ::
      Run(e, f, Do(EQ, n), Push(VInt(x), s)) == Run(e, f, n, Push(VBool(x == 0), s))
    ensures forall e, f: nat, n, x, s {:trigger Run(e, f, Do(NEQ, n), Push(VInt(x), s))} ::
      Run(e, f, Do(NEQ, n), Push(VInt(x), s)) == Run(e, f, n, Push(VBool(x != 0), s))
    ensures forall e, f: nat, n, x, s {:trigger Run(e, f, Do(LT, n), Push(VInt(x), s))} ::
      Run(e, f, Do(LT, n), Push(VInt(x), s)) == Run(e, f, n, Push(VBool(x < 0), s))
    ensures forall e, f: nat, n, x, s {:trigger Run(e, f, Do(GT, n), Push(VInt(x), s))} ::
      Run(e, f, Do(GT, n), Push(VInt(x), s)) == Run(e, f, n, Push(VBool(x > 0), s))
    ensures forall e, f: nat, n, x, s {:trigger Run(e, f, Do(LE, n), Push(VInt(x), s))} ::
      Run(e, f, Do(LE, n), Push(VInt(x), s)) == Run(e, f, n, Push(VBool(x <= 0), s))
    ensures forall e, f: nat, n, x, s {:trigger Run(e, f, Do(GE, n), Push(VInt(x), s))} ::
      Run(e, f, Do(GE, n), Push(VInt(x), s)) == Run(e, f, n, Push(VBool(x >= 0), s))
    ensures forall e, f: nat, n, x, s {:trigger Run(e, f, Do(ABS, n), Push(VInt(x), s))} ::
      Run(e, f, Do(ABS, n), Push(VInt(x), s)) == Run(e, f, n, Push(VInt(if x < 0 then -x else x), s))
    ensures forall e, f: nat, n, x, s {:trigger Run(e, f, Do(INT, n), Push(VInt(x), s))} ::
      Run(e, f, Do(INT, n), Push(VInt(x), s)) == Run(e, f, n, Push(VInt(x), s))
    ensures forall e, f: nat, n, x, s {:trigger Run(e, f, Do(ISNAT, n), Push(VInt(x), s))} ::
      Run(e, f, Do(ISNAT, n), Push(VInt(x), s)) == Run(e, f, n, Push(if x < 0 then VNone else VSome(VInt(x)), s))
    ensures forall e, f: nat, n, x, s {:trigger Run(e, f, Do(NOT, n), Push(VBool(x), s))} ::
      Run(e, f, Do(NOT, n), Push(VBool(x), s)) == Run(e, f, n, Push(VBool(!x), s))
    ensures forall e, f: nat, n, k, m, s {:trigger Run(e, f, Do(MEM, n), Push(k, Push(VMap(m), s)))} ::
      Run(e, f, Do(MEM, n), Push(k, Push(VMap(m), s))) == Run(e, f, n, Push(VBool(k in m), s))
    ensures forall e, f: nat, n, k, m, s {:trigger Run(e, f, Do(MEM, n), Push(k, Push(VSet(m), s)))} ::
      Run(e, f, Do(MEM, n), Push(k, Push(VSet(m), s))) == Run(e, f, n, Push(VBool(k in m), s))
    ensures forall e, f: nat, n, x, y, s {:trigger Run(e, f, Do(ADD, n), Push(VInt(x), Push(VInt(y), s)))} ::
      Run(e, f, Do(ADD, n), Push(VInt(x), Push(VInt(y), s))) == Run(e, f, n, Push(VInt(x + y), s))
    ensures forall e, f: nat, n, x: nat, y: nat, s
      {:trigger Run(e, f, Do(ADD, n), Push(VMutez(x), Push(VMutez(y), s)))} ::
      Run(e, f, Do(ADD, n), Push(VMutez(x), Push(VMutez(y), s))) ==
        if x + y <= MAX_MUTEZ then Run(e, f, n, Push(VMutez(x + y), s)) else Overflow
    ensures forall e, f: nat, n, x, y, s {:trigger Run(e, f, Do(SUB, n), Push(VInt(x), Push(VInt(y), s)))} ::
      Run(e, f, Do(SUB, n), Push(VInt(x), Push(VInt(y), s))) == Run(e, f, n, Push(VInt(x - y), s))
    ensures forall e, f: nat, n, x: nat, y: nat, s
      {:trigger Run(e, f, Do(SUB_MUTEZ, n), Push(VMutez(x), Push(VMutez(y), s)))} ::
      Run(e, f, Do(SUB_MUTEZ, n), Push(VMutez(x), Push(VMutez(y), s))) ==
        Run(e, f, n, Push(if y <= x then VSome(VMutez(x - y)) else VNone, s))
    ensures forall e, f: nat, n, x, y, s {:trigger Run(e, f, Do(MUL, n), Push(VInt(x), Push(VInt(y), s)))} ::
      Run(e, f, Do(MUL, n), Push(VInt(x), Push(VInt(y), s))) == Run(e, f, n, Push(VInt(x * y), s))
    ensures forall e, f: nat, n, x, y: nat, s {:trigger Run(e, f, Do(MUL, n), Push(VInt(x), Push(VMutez(y), s)))} ::
      Run(e, f, Do(MUL, n), Push(VInt(x), Push(VMutez(y), s))) == Then(e, f, Tez(x * y, s), n)
    ensures forall e, f: nat, n, x: nat, y, s {:trigger Run(e, f, Do(MUL, n), Push(VMutez(x), Push(VInt(y), s)))} ::
      Run(e, f, Do(MUL, n), Push(VMutez(x), Push(VInt(y), s))) == Then(e, f, Tez(x * y, s), n)
    ensures forall e, f: nat, n, x: nat, y, s {:trigger Run(e, f, Do(EDIV, n), Push(VMutez(x), Push(VInt(y), s)))} ::
      y > 0 ==>
        Run(e, f, Do(EDIV, n), Push(VMutez(x), Push(VInt(y), s))) ==
        Run(e, f, n, Push(VSome(VPair(VMutez(x / y), VMutez(x % y))), s))
    ensures forall e, f: nat, n, x, y, s {:trigger Run(e, f, Do(AND, n), Push(VBool(x), Push(VBool(y), s)))} ::
      Run(e, f, Do(AND, n), Push(VBool(x), Push(VBool(y), s))) == Run(e, f, n, Push(VBool(x && y), s))
    ensures forall e, f: nat, n, x, y, s {:trigger Run(e, f, Do(OR, n), Push(VBool(x), Push(VBool(y), s)))} ::
      Run(e, f, Do(OR, n), Push(VBool(x), Push(VBool(y), s))) == Run(e, f, n, Push(VBool(x || y), s))
    ensures forall e, f: nat, n, k, a, m, s
      {:trigger Run(e, f, Do(GET_AND_UPDATE, n), Push(k, Push(VSome(a), Push(VMap(m), s))))} ::
      Run(e, f, Do(GET_AND_UPDATE, n), Push(k, Push(VSome(a), Push(VMap(m), s)))) ==
        Run(e, f, n, Push(Lookup(k, m), Push(VMap(m[k := a]), s)))
    ensures forall e, f: nat, n, k, m, s
      {:trigger Run(e, f, Do(GET_AND_UPDATE, n), Push(k, Push(VNone, Push(VMap(m), s))))} ::
      Run(e, f, Do(GET_AND_UPDATE, n), Push(k, Push(VNone, Push(VMap(m), s)))) ==
        Run(e, f, n, Push(Lookup(k, m), Push(VMap(m - {k}), s)))
    ensures forall e, f: nat, n, k, b, m, s
      {:trigger Run(e, f, Do(UPDATE, n), Push(k, Push(VBool(b), Push(VSet(m), s))))} ::
      Run(e, f, Do(UPDATE, n), Push(k, Push(VBool(b), Push(VSet(m), s)))) ==
        Run(e, f, n, Push(VSet(if b then m + {k} else m - {k}), s))
    ensures forall x: string, y: string {:trigger CompareText(x, y)} :: CompareText(x, y) == 0 <==> x == y
  {
    hide Run, Then, Step, Basic;
    ControlRules(); StackRules(); ShapeRules();
  }

  /** The environment, operations, cryptography and tickets. */
  lemma WorldMachine()
    ensures forall e, f: nat, n, s {:trigger Run(e, f, Do(AMOUNT, n), s)} ::
      Run(e, f, Do(AMOUNT, n), s) == Run(e, f, n, Push(VMutez(e.amount), s))
    ensures forall e, f: nat, n, s {:trigger Run(e, f, Do(BALANCE, n), s)} ::
      Run(e, f, Do(BALANCE, n), s) == Run(e, f, n, Push(VMutez(e.balance), s))
    ensures forall e, f: nat, n, s {:trigger Run(e, f, Do(SENDER, n), s)} ::
      Run(e, f, Do(SENDER, n), s) == Run(e, f, n, Push(VAddr(e.sender), s))
    ensures forall e, f: nat, n, s {:trigger Run(e, f, Do(SOURCE, n), s)} ::
      Run(e, f, Do(SOURCE, n), s) == Run(e, f, n, Push(VAddr(e.source), s))
    ensures forall e, f: nat, n, s {:trigger Run(e, f, Do(NOW, n), s)} ::
      Run(e, f, Do(NOW, n), s) == Run(e, f, n, Push(VInt(e.now), s))
    ensures forall e, f: nat, n, s {:trigger Run(e, f, Do(SELF, n), s)} ::
      Run(e, f, Do(SELF, n), s) == Run(e, f, n, Push(VContract(e.self, ""), s))
    ensures forall e, f: nat, n, s {:trigger Run(e, f, Do(SELF_ADDRESS, n), s)} ::
      Run(e, f, Do(SELF_ADDRESS, n), s) == Run(e, f, n, Push(VAddr(e.self), s))
    ensures forall e, f: nat, n, s {:trigger Run(e, f, Do(CHAIN_ID, n), s)} ::
      Run(e, f, Do(CHAIN_ID, n), s) == Run(e, f, n, Push(VStr(e.chain), s))
    ensures forall e, f: nat, n, a, s {:trigger Run(e, f, Do(PACK, n), Push(a, s))} ::
      Run(e, f, Do(PACK, n), Push(a, s)) == Run(e, f, n, Push(VBytes(Packed(a)), s))
    ensures forall e, f: nat, n, a, b, s {:trigger Run(e, f, Do(JOIN_TICKETS, n), Push(VPair(a, b), s))} ::
      Run(e, f, Do(JOIN_TICKETS, n), Push(VPair(a, b), s)) == Then(e, f, Join(a, b, s), n)
    ensures forall e, f: nat, n, x, t, s {:trigger Run(e, f, Do(ADDRESS, n), Push(VContract(x, t), s))} ::
      Run(e, f, Do(ADDRESS, n), Push(VContract(x, t), s)) == Run(e, f, n, Push(VAddr(x), s))
    ensures forall e, f: nat, n, x, s {:trigger Run(e, f, Do(IMPLICIT_ACCOUNT, n), Push(VKeyHash(x), s))} ::
      Run(e, f, Do(IMPLICIT_ACCOUNT, n), Push(VKeyHash(x), s)) == Run(e, f, n, Push(VContract(x, ""), s))
    ensures forall e, f: nat, n, x, s {:trigger Run(e, f, Do(HASH_KEY, n), Push(VKey(x), s))} ::
      Run(e, f, Do(HASH_KEY, n), Push(VKey(x), s)) == Run(e, f, n, Push(VKeyHash(e.hashKey(x)), s))
    ensures forall e, f: nat, n, x, s {:trigger Run(e, f, Do(BLAKE2B, n), Push(VBytes(x), s))} ::
      Run(e, f, Do(BLAKE2B, n), Push(VBytes(x), s)) == Run(e, f, n, Push(VBytes(Hashed(x)), s))
    ensures forall e, f: nat, n, w, a, k: nat, s {:trigger Run(e, f, Do(READ_TICKET, n), Push(VTicket(w, a, k), s))} ::
      Run(e, f, Do(READ_TICKET, n), Push(VTicket(w, a, k), s)) ==
        Run(e, f, n, Push(VPair(VAddr(w), VPair(a, VInt(k))), Push(VTicket(w, a, k), s)))
    ensures forall e, f: nat, n, a, b, s {:trigger Run(e, f, Do(SPLIT_TICKET, n), Push(a, Push(b, s)))} ::
      Run(e, f, Do(SPLIT_TICKET, n), Push(a, Push(b, s))) == Then(e, f, Split(a, b, s), n)
    ensures forall e, f: nat, n, a, x: nat, y, t, s
      {:trigger Run(e, f, Do(TRANSFER_TOKENS, n), Push(a, Push(VMutez(x), Push(VContract(y, t), s))))} ::
      Run(e, f, Do(TRANSFER_TOKENS, n), Push(a, Push(VMutez(x), Push(VContract(y, t), s)))) ==
        Run(e, f, n, Push(VTransfer(a, x, y, t), s))
    ensures forall e, f: nat, n, k, g, b, s
      {:trigger Run(e, f, Do(CHECK_SIGNATURE, n), Push(VKey(k), Push(VSig(g), Push(VBytes(b), s))))} ::
      Run(e, f, Do(CHECK_SIGNATURE, n), Push(VKey(k), Push(VSig(g), Push(VBytes(b), s)))) ==
        Run(e, f, n, Push(VBool(e.verify(k, g, b)), s))
  {
    hide Run, Then, Step, Basic;
    ControlRules(); StackRules();
  }

  // ---------------------------------------------------------------- one instruction at a time

  lemma ControlRules()
    ensures forall e, f: nat, s {:trigger Run(e, f, Done, s)} :: Run(e, f, Done, s) == Ok(s)
    ensures forall e, f: nat, i, n, s {:trigger Run(e, f, Do(i, n), s)} ::
      Run(e, f, Do(i, n), s) == Then(e, f, Step(e, f, i, s), n)
    ensures forall e, f: nat, n, s {:trigger Then(e, f, Ok(s), n)} :: Then(e, f, Ok(s), n) == Run(e, f, n, s)
    ensures forall e, f: nat, n, o: Outcome {:trigger Then(e, f, o, n)} :: !o.Ok? ==> Then(e, f, o, n) == o
    ensures forall e, f: nat, c, a {:trigger Call(e, f, VLam(c), a)} ::
      Call(e, f, VLam(c), a) == Run(e, f, c, Push(a, Empty))
    ensures forall e, f: nat, c, a {:trigger Call(e, f, VLamRec(c), a)} ::
      Call(e, f, VLamRec(c), a) == Run(e, f, c, Push(a, Push(VLamRec(c), Empty)))
    ensures forall e, f: nat, c, s {:trigger Iter(e, f, c, [], s)} :: Iter(e, f, c, [], s) == Ok(s)
    ensures forall e, f: nat, c, s {:trigger RunUnder(e, f, 0, c, s)} :: RunUnder(e, f, 0, c, s) == Run(e, f, c, s)
    ensures forall e, f: nat, k: nat, c, a, s {:trigger RunUnder(e, f, k, c, Push(a, s))} ::
      k > 0 ==> RunUnder(e, f, k, c, Push(a, s)) == Under(a, RunUnder(e, f, k - 1, c, s))
    ensures forall e, f: nat, c, s {:trigger Step(e, f, BLOCK(c), s)} :: Step(e, f, BLOCK(c), s) == Run(e, f, c, s)
    ensures forall e, f: nat, c, a, s {:trigger Step(e, f, DIP(c), Push(a, s))} ::
      Step(e, f, DIP(c), Push(a, s)) == Under(a, Run(e, f, c, s))
    ensures forall e, f: nat, k: nat, c, s {:trigger Step(e, f, DIPN(k, c), s)} ::
      Step(e, f, DIPN(k, c), s) == RunUnder(e, f, k, c, s)
    ensures forall e, f: nat, c, d, b, s {:trigger Step(e, f, IF(c, d), Push(VBool(b), s))} ::
      b ==> Step(e, f, IF(c, d), Push(VBool(b), s)) == Run(e, f, c, s)
    ensures forall e, f: nat, c, d, b, s {:trigger Step(e, f, IF(c, d), Push(VBool(b), s))} ::
      !b ==> Step(e, f, IF(c, d), Push(VBool(b), s)) == Run(e, f, d, s)
    ensures forall e, f: nat, c, d, s {:trigger Step(e, f, IF_NONE(c, d), Push(VNone, s))} ::
      Step(e, f, IF_NONE(c, d), Push(VNone, s)) == Run(e, f, c, s)
    ensures forall e, f: nat, c, d, a, s {:trigger Step(e, f, IF_NONE(c, d), Push(VSome(a), s))} ::
      Step(e, f, IF_NONE(c, d), Push(VSome(a), s)) == Run(e, f, d, Push(a, s))
    ensures forall e, f: nat, c, d, a, s {:trigger Step(e, f, IF_LEFT(c, d), Push(VLeft(a), s))} ::
      Step(e, f, IF_LEFT(c, d), Push(VLeft(a), s)) == Run(e, f, c, Push(a, s))
    ensures forall e, f: nat, c, d, a, s {:trigger Step(e, f, IF_LEFT(c, d), Push(VRight(a), s))} ::
      Step(e, f, IF_LEFT(c, d), Push(VRight(a), s)) == Run(e, f, d, Push(a, s))
    ensures forall e, f: nat, c, d, s {:trigger Step(e, f, IF_CONS(c, d), Push(VList([]), s))} ::
      Step(e, f, IF_CONS(c, d), Push(VList([]), s)) == Run(e, f, d, s)
    ensures forall e, f: nat, c, d, xs, s {:trigger Step(e, f, IF_CONS(c, d), Push(VList(xs), s))} ::
      xs != [] ==> Step(e, f, IF_CONS(c, d), Push(VList(xs), s)) == Run(e, f, c, Push(xs[0], Push(VList(xs[1..]), s)))
    ensures forall e, f: nat, c, xs, s {:trigger Step(e, f, ITER(c), Push(VList(xs), s))} ::
      Step(e, f, ITER(c), Push(VList(xs), s)) == Iter(e, f, c, xs, s)
    ensures forall e, f: nat, c, xs, s {:trigger Step(e, f, MAP(c), Push(VList(xs), s))} ::
      Step(e, f, MAP(c), Push(VList(xs), s)) == MapList(e, f, c, xs, [], s)
    ensures forall e, f: nat, a, l, s {:trigger Step(e, f, EXEC, Push(a, Push(l, s)))} ::
      f > 0 ==> Step(e, f, EXEC, Push(a, Push(l, s))) == Return(Call(e, f - 1, l, a), s)
    ensures forall e, a, l, s {:trigger Step(e, 0, EXEC, Push(a, Push(l, s)))} ::
      Step(e, 0, EXEC, Push(a, Push(l, s))) == OutOfFuel
    ensures forall e, f: nat, a, s {:trigger Step(e, f, PUSH(a), s)} :: Step(e, f, PUSH(a), s) == Ok(Push(a, s))
    ensures forall e, f: nat, c, s {:trigger Step(e, f, LAMBDA(c), s)} ::
      Step(e, f, LAMBDA(c), s) == Ok(Push(VLam(c), s))
    ensures forall e, f: nat, c, s {:trigger Step(e, f, LAMBDA_REC(c), s)} ::
      Step(e, f, LAMBDA_REC(c), s) == Ok(Push(VLamRec(c), s))
    ensures forall e, f: nat, t, x, s {:trigger Step(e, f, CONTRACT(t), Push(VAddr(x), s))} ::
      Step(e, f, CONTRACT(t), Push(VAddr(x), s)) ==
        Ok(Push(if e.entrypoints(x, t) then VSome(VContract(x, t)) else VNone, s))
  {}

  lemma StackRules()
    ensures forall e, f: nat, k: nat, s {:trigger Step(e, f, DUPN(k), s)} ::
      k > 0 && Has(s, k) ==> Step(e, f, DUPN(k), s) == Ok(Push(Nth(s, k - 1), s))
    ensures forall e, f: nat, k: nat, s {:trigger Step(e, f, DROPN(k), s)} ::
      Has(s, k) ==> Step(e, f, DROPN(k), s) == Ok(Dropped(s, k))
    ensures forall e, f: nat, k: nat, s {:trigger Step(e, f, DIG(k), s)} ::
      Has(s, k + 1) ==> Step(e, f, DIG(k), s) == Ok(Push(Nth(s, k), Without(s, k)))
    ensures forall e, f: nat, k: nat, a, s {:trigger Step(e, f, DUG(k), Push(a, s))} ::
      Has(s, k) ==> Step(e, f, DUG(k), Push(a, s)) == Ok(Insert(s, k, a))
    ensures forall e, f: nat, k, s {:trigger Step(e, f, Amb(k), s)} ::
      Step(e, f, Amb(k), s) == Ok(Push(OfAmbient(e, k), s))
    ensures forall e, f: nat, k, a, s {:trigger Step(e, f, Gen(k), Push(a, s))} ::
      Step(e, f, Gen(k), Push(a, s)) == OnAny(k, a, s)
    ensures forall e, f: nat, k, a, b, s {:trigger Step(e, f, Prs(k), Push(VPair(a, b), s))} ::
      Step(e, f, Prs(k), Push(VPair(a, b), s)) == OnPair(k, a, b, s)
    ensures forall e, f: nat, k, x, s {:trigger Step(e, f, Num(k), Push(VInt(x), s))} ::
      Step(e, f, Num(k), Push(VInt(x), s)) == Ok(Push(OnInt(k, x), s))
    ensures forall e, f: nat, k, a, s {:trigger Step(e, f, Spc(k), Push(a, s))} ::
      Step(e, f, Spc(k), Push(a, s)) == OnOne(e, k, a, s)
    ensures forall e, f: nat, k, a, b, s {:trigger Step(e, f, Bin(k), Push(a, Push(b, s)))} ::
      Step(e, f, Bin(k), Push(a, Push(b, s))) == OnTwo(k, a, b, s)
    ensures forall e, f: nat, k, a, b, s {:trigger Step(e, f, Ari(k), Push(a, Push(b, s)))} ::
      Step(e, f, Ari(k), Push(a, Push(b, s))) == Compute(k, a, b, s)
    ensures forall e, f: nat, k, a, b, c, s {:trigger Step(e, f, Ter(k), Push(a, Push(b, Push(c, s))))} ::
      Step(e, f, Ter(k), Push(a, Push(b, Push(c, s)))) == OnThree(e, k, a, b, c, s)
  {
    hide Step, Basic;
    DepthRules();
    FamilyRules();
  }

  lemma DepthRules()
    ensures forall e, f: nat, k: nat, s {:trigger Step(e, f, DUPN(k), s)} ::
      k > 0 && Has(s, k) ==> Step(e, f, DUPN(k), s) == Ok(Push(Nth(s, k - 1), s))
    ensures forall e, f: nat, k: nat, s {:trigger Step(e, f, DROPN(k), s)} ::
      Has(s, k) ==> Step(e, f, DROPN(k), s) == Ok(Dropped(s, k))
    ensures forall e, f: nat, k: nat, s {:trigger Step(e, f, DIG(k), s)} ::
      Has(s, k + 1) ==> Step(e, f, DIG(k), s) == Ok(Push(Nth(s, k), Without(s, k)))
    ensures forall e, f: nat, k: nat, a, s {:trigger Step(e, f, DUG(k), Push(a, s))} ::
      Has(s, k) ==> Step(e, f, DUG(k), Push(a, s)) == Ok(Insert(s, k, a))
  {}

  lemma FamilyRules()
    ensures forall e, f: nat, k, s {:trigger Step(e, f, Amb(k), s)} ::
      Step(e, f, Amb(k), s) == Ok(Push(OfAmbient(e, k), s))
    ensures forall e, f: nat, k, a, s {:trigger Step(e, f, Gen(k), Push(a, s))} ::
      Step(e, f, Gen(k), Push(a, s)) == OnAny(k, a, s)
    ensures forall e, f: nat, k, a, b, s {:trigger Step(e, f, Prs(k), Push(VPair(a, b), s))} ::
      Step(e, f, Prs(k), Push(VPair(a, b), s)) == OnPair(k, a, b, s)
    ensures forall e, f: nat, k, x, s {:trigger Step(e, f, Num(k), Push(VInt(x), s))} ::
      Step(e, f, Num(k), Push(VInt(x), s)) == Ok(Push(OnInt(k, x), s))
    ensures forall e, f: nat, k, a, s {:trigger Step(e, f, Spc(k), Push(a, s))} ::
      Step(e, f, Spc(k), Push(a, s)) == OnOne(e, k, a, s)
    ensures forall e, f: nat, k, a, b, s {:trigger Step(e, f, Bin(k), Push(a, Push(b, s)))} ::
      Step(e, f, Bin(k), Push(a, Push(b, s))) == OnTwo(k, a, b, s)
    ensures forall e, f: nat, k, a, b, s {:trigger Step(e, f, Ari(k), Push(a, Push(b, s)))} ::
      Step(e, f, Ari(k), Push(a, Push(b, s))) == Compute(k, a, b, s)
    ensures forall e, f: nat, k, a, b, c, s {:trigger Step(e, f, Ter(k), Push(a, Push(b, Push(c, s))))} ::
      Step(e, f, Ter(k), Push(a, Push(b, Push(c, s)))) == OnThree(e, k, a, b, c, s)
  {}

  lemma ShapeRules()
    ensures forall s {:trigger Has(s, 0)} :: Has(s, 0)
    ensures forall a, s {:trigger Has(Push(a, s), 1)} :: Has(Push(a, s), 1)
    ensures forall a, b, s {:trigger Has(Push(a, Push(b, s)), 2)} :: Has(Push(a, Push(b, s)), 2)
    ensures forall a, b, c, s {:trigger Has(Push(a, Push(b, Push(c, s))), 3)} ::
      Has(Push(a, Push(b, Push(c, s))), 3)
    ensures forall a, b, c, d, s, k: nat {:trigger Has(Push(a, Push(b, Push(c, Push(d, s)))), k)} ::
      k >= 4 ==> Has(Push(a, Push(b, Push(c, Push(d, s)))), k) == Has(s, k - 4)
    ensures forall a, s {:trigger Nth(Push(a, s), 0)} :: Nth(Push(a, s), 0) == a
    ensures forall a, b, s {:trigger Nth(Push(a, Push(b, s)), 1)} :: Nth(Push(a, Push(b, s)), 1) == b
    ensures forall a, b, c, s {:trigger Nth(Push(a, Push(b, Push(c, s))), 2)} ::
      Nth(Push(a, Push(b, Push(c, s))), 2) == c
    ensures forall a, b, c, d, s {:trigger Nth(Push(a, Push(b, Push(c, Push(d, s)))), 3)} ::
      Nth(Push(a, Push(b, Push(c, Push(d, s)))), 3) == d
    ensures forall a, b, c, d, s, k: nat {:trigger Nth(Push(a, Push(b, Push(c, Push(d, s)))), k)} ::
      k >= 4 ==> Nth(Push(a, Push(b, Push(c, Push(d, s)))), k) == Nth(s, k - 4)
    ensures forall a, b, s {:trigger Without(Push(a, Push(b, s)), 1)} :: Without(Push(a, Push(b, s)), 1) == Push(a, s)
    ensures forall a, b, c, s {:trigger Without(Push(a, Push(b, Push(c, s))), 2)} ::
      Without(Push(a, Push(b, Push(c, s))), 2) == Push(a, Push(b, s))
    ensures forall a, b, c, d, s {:trigger Without(Push(a, Push(b, Push(c, Push(d, s)))), 3)} ::
      Without(Push(a, Push(b, Push(c, Push(d, s)))), 3) == Push(a, Push(b, Push(c, s)))
    ensures forall a, b, c, d, s: Stack, k: nat {:trigger Without(Push(a, Push(b, Push(c, Push(d, s)))), k)} ::
      k >= 4 && s.Push? ==>
        Without(Push(a, Push(b, Push(c, Push(d, s)))), k) == Push(a, Push(b, Push(c, Push(d, Without(s, k - 4)))))
    ensures forall v, s {:trigger Insert(s, 0, v)} :: Insert(s, 0, v) == Push(v, s)
    ensures forall a, v, s {:trigger Insert(Push(a, s), 1, v)} :: Insert(Push(a, s), 1, v) == Push(a, Push(v, s))
    ensures forall a, b, v, s {:trigger Insert(Push(a, Push(b, s)), 2, v)} ::
      Insert(Push(a, Push(b, s)), 2, v) == Push(a, Push(b, Push(v, s)))
    ensures forall a, b, c, v, s {:trigger Insert(Push(a, Push(b, Push(c, s))), 3, v)} ::
      Insert(Push(a, Push(b, Push(c, s))), 3, v) == Push(a, Push(b, Push(c, Push(v, s))))
    ensures forall a, b, c, d, v, s, k: nat {:trigger Insert(Push(a, Push(b, Push(c, Push(d, s)))), k, v)} ::
      k >= 4 ==>
        Insert(Push(a, Push(b, Push(c, Push(d, s)))), k, v) == Push(a, Push(b, Push(c, Push(d, Insert(s, k - 4, v)))))
    ensures forall a, b, s {:trigger Dropped(Push(a, Push(b, s)), 2)} :: Dropped(Push(a, Push(b, s)), 2) == s
    ensures forall a, b, c, s {:trigger Dropped(Push(a, Push(b, Push(c, s))), 3)} ::
      Dropped(Push(a, Push(b, Push(c, s))), 3) == s
    ensures forall a, b, c, d, s {:trigger Dropped(Push(a, Push(b, Push(c, Push(d, s)))), 4)} ::
      Dropped(Push(a, Push(b, Push(c, Push(d, s)))), 4) == s
    ensures forall x: string, y: string {:trigger CompareText(x, y)} :: CompareText(x, y) == 0 <==> x == y
  {
    forall a, b, c, d, s, k: nat | k >= 4 { JumpFour(a, b, c, d, s, k, VUnit); }
    forall a, b, c, d, s, k: nat, v | k >= 4 { JumpFour(a, b, c, d, s, k, v); }
    forall x: string, y: string { CompareTextEqual(x, y); }
  }

  lemma JumpFour(a: Value, b: Value, c: Value, d: Value, s: Stack, k: nat, v: Value)
    requires k >= 4
    ensures Has(Push(a, Push(b, Push(c, Push(d, s)))), k) == Has(s, k - 4)
    ensures Nth(Push(a, Push(b, Push(c, Push(d, s)))), k) == Nth(s, k - 4)
    ensures s.Push? ==>
      Without(Push(a, Push(b, Push(c, Push(d, s)))), k) == Push(a, Push(b, Push(c, Push(d, Without(s, k - 4)))))
    ensures Insert(Push(a, Push(b, Push(c, Push(d, s)))), k, v) ==
      Push(a, Push(b, Push(c, Push(d, Insert(s, k - 4, v)))))
  {
    var t := Push(c, Push(d, s));
    assert Has(t, k - 2) == Has(s, k - 4);
    assert Nth(t, k - 2) == Nth(s, k - 4);
    assert s.Push? ==> Without(t, k - 2) == Push(c, Push(d, Without(s, k - 4)));
    assert Insert(t, k - 2, v) == Push(c, Push(d, Insert(s, k - 4, v)));
  }

  /** The first iteration of a loop over a list that is not empty. */
  lemma IterCons(e: Env, f: nat, c: Code, xs: seq<Value>, s: Stack)
    requires xs != []
    ensures var o := Run(e, f, c, Push(xs[0], s));
      Iter(e, f, c, xs, s) == if o.Ok? then Iter(e, f, c, xs[1..], o.stack) else o
  {
    hide Run;
  }

  lemma MapCons(e: Env, f: nat, c: Code, xs: seq<Value>, done: seq<Value>, s: Stack)
    requires xs != []
    ensures var o := Run(e, f, c, Push(xs[0], s));
      MapList(e, f, c, xs, done, s) ==
        if !o.Ok? then o
        else if o.stack.Empty? then Stuck
        else MapList(e, f, c, xs[1..], done + [o.stack.top], o.stack.rest)
  {
    hide Run;
  }

  lemma CompareTextEqual(x: string, y: string)
    ensures CompareText(x, y) == 0 <==> x == y
  {
    if x != "" && y != "" && x[0] == y[0] {
      CompareTextEqual(x[1..], y[1..]);
      assert x == [x[0]] + x[1..] && y == [y[0]] + y[1..];
    }
  }
}
