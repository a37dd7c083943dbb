/** What single instructions promise, said without the machine's own helper functions. The rules
    of Rules follow the definitions; these laws are what the definitions are for. */
module Laws {
  import opened Michelson
  import opened Rules

  // ---------------------------------------------------------------- numbers

  /** ADD and MUL on mutez give the exact result below 2 to the power 63 and overflow from there on;
      a product overflows below zero as well. */
  lemma MutezIsBounded(e: Env, f: nat, x: nat, y: nat, k: int, s: Stack)
    ensures Step(e, f, ADD, Push(VMutez(x), Push(VMutez(y), s))) ==
      if x + y < 0x8000_0000_0000_0000 then Ok(Push(VMutez(x + y), s)) else Overflow
    ensures Step(e, f, MUL, Push(VInt(k), Push(VMutez(x), s))) == Step(e, f, MUL, Push(VMutez(x), Push(VInt(k), s)))
    ensures Step(e, f, MUL, Push(VMutez(x), Push(VInt(k), s))) ==
      if 0 <= x * k < 0x8000_0000_0000_0000 then Ok(Push(VMutez(x * k), s)) else Overflow
  {}

  /** SUB_MUTEZ undoes ADD, and answers None exactly when the difference would be negative. */
  lemma SubUndoesAdd(e: Env, f: nat, x: nat, y: nat, s: Stack)
    requires x + y < 0x8000_0000_0000_0000
    ensures var sum := Step(e, f, ADD, Push(VMutez(x), Push(VMutez(y), s)));
      sum.Ok? && sum.stack.Push? &&
      Step(e, f, SUB_MUTEZ, Push(sum.stack.top, Push(VMutez(y), s))) == Ok(Push(VSome(VMutez(x)), s))
    ensures Step(e, f, SUB_MUTEZ, Push(VMutez(x), Push(VMutez(y), s))) == Ok(Push(VNone, s)) <==> x < y
  {}

  /** EDIV by a natural number: None for zero, and otherwise the only quotient and remainder there are. */
  lemma EdivIsEuclid(e: Env, f: nat, x: nat, y: nat, q: nat, r: nat, s: Stack)
    ensures Step(e, f, EDIV, Push(VMutez(x), Push(VInt(0), s))) == Ok(Push(VNone, s))
    ensures y > 0 ==>
      (Step(e, f, EDIV, Push(VMutez(x), Push(VInt(y), s))) == Ok(Push(VSome(VPair(VMutez(q), VMutez(r))), s)) <==>
       x == q * y + r && r < y)
  {
    if y > 0 {
      assert x == (x / y) * y + x % y;
      if x == q * y + r && r < y { QuotientIsOne(x / y, q, x % y, r, y); }
    }
  }

  lemma QuotientIsOne(p: nat, q: nat, a: nat, b: nat, y: nat)
    requires p * y + a == q * y + b && a < y && b < y
    ensures p == q && a == b
  {
    assert (p - q) * y == b - a;
    if p > q { Grows(p - q, y); }
    if q > p { Grows(q - p, y); }
  }

  lemma Grows(n: nat, y: nat)
    requires n > 0
    ensures n * y >= y
  {
    assert n * y == y + (n - 1) * y;
  }

  // ---------------------------------------------------------------- order

  /** x stands before y in a dictionary: at the first place where they part, x has ended or has the
      smaller character. */
  predicate Before(x: string, y: string) {
    exists i :: 0 <= i <= |x| && i < |y| && x[..i] == y[..i] && (i == |x| || x[i] < y[i])
  }

  /** COMPARE answers -1, 0 or 1; on strings and addresses by dictionary order, on numbers by size. */
  lemma CompareOrders(e: Env, f: nat, x: string, y: string, i: int, j: int, m: nat, n: nat, s: Stack)
    ensures Step(e, f, COMPARE, Push(VStr(x), Push(VStr(y), s))) ==
      Ok(Push(VInt(if Before(x, y) then -1 else if x == y then 0 else 1), s))
    ensures Step(e, f, COMPARE, Push(VAddr(x), Push(VAddr(y), s))) ==
      Ok(Push(VInt(if Before(x, y) then -1 else if x == y then 0 else 1), s))
    ensures Step(e, f, COMPARE, Push(VInt(i), Push(VInt(j), s))) ==
      Ok(Push(VInt(if i < j then -1 else if i == j then 0 else 1), s))
    ensures Step(e, f, COMPARE, Push(VMutez(m), Push(VMutez(n), s))) ==
      Ok(Push(VInt(if m < n then -1 else if m == n then 0 else 1), s))
  {
    TextOrder(x, y);
    hide CompareText, Before;
  }

  /** Of two strings that differ exactly one stands before the other. */
  lemma {:induction false} TextOrder(x: string, y: string)
    ensures -1 <= CompareText(x, y) <= 1
    ensures CompareText(x, y) == -1 <==> Before(x, y)
    ensures CompareText(x, y) == 1 <==> Before(y, x)
    ensures CompareText(x, y) == 0 <==> x == y
    ensures !(Before(x, y) && Before(y, x))
    decreases |x|
  {
    if x != "" && y != "" && x[0] == y[0] {
      TextOrder(x[1..], y[1..]);
      BeforeTail(x, y);
      BeforeTail(y, x);
      assert x == [x[0]] + x[1..] && y == [y[0]] + y[1..];
    } else {
      PartAtOnce(x, y);
      PartAtOnce(y, x);
    }
  }

  lemma BeforeTail(x: string, y: string)
    requires x != "" && y != "" && x[0] == y[0]
    ensures Before(x, y) <==> Before(x[1..], y[1..])
  {
    var t, u := x[1..], y[1..];
    if i :| 0 <= i <= |x| && i < |y| && x[..i] == y[..i] && (i == |x| || x[i] < y[i]) {
      assert i > 0 && t[..i - 1] == x[..i][1..] && u[..i - 1] == y[..i][1..];
    }
    if i :| 0 <= i <= |t| && i < |u| && t[..i] == u[..i] && (i == |t| || t[i] < u[i]) {
      assert x[..i + 1] == [x[0]] + t[..i] && y[..i + 1] == [y[0]] + u[..i];
    }
  }

  lemma PartAtOnce(x: string, y: string)
    requires x == "" || y == "" || x[0] != y[0]
    ensures Before(x, y) <==> y != "" && (x == "" || x[0] < y[0])
  {
    if y != "" && (x == "" || x[0] < y[0]) { assert x[..0] == y[..0]; }
    if i :| 0 < i <= |x| && i < |y| && x[..i] == y[..i] && (i == |x| || x[i] < y[i]) { SameStart(x, y, i); }
  }

  lemma SameStart(x: string, y: string, i: nat)
    requires 0 < i <= |x| && i <= |y| && x[..i] == y[..i]
    ensures x[0] == y[0]
  {
    assert x[..i][0] == y[..i][0];
  }

  // ---------------------------------------------------------------- lambdas and views

  /** EXEC succeeds exactly when there is fuel and the call leaves one value; the stack below the
      argument and the lambda is out of the call's reach. */
  lemma ExecLeavesOne(e: Env, f: nat, arg: Value, l: Value, s: Stack, t: Stack)
    ensures Step(e, f, EXEC, Push(arg, Push(l, s))) == Ok(t) <==>
      f > 0 && t.Push? && t.rest == s && Call(e, f - 1, l, arg) == Ok(Push(t.top, Empty))
  {
    hide Run;
  }

  /** APPLY fixes the first half of the argument: executing the result on x ends as executing the
      lambda on the pair does, one call deeper for a recursive lambda. */
  lemma ApplyFixesArgument(e: Env, f: nat, v: Value, l: Value, x: Value, s: Stack)
    requires f > 0 && (l.VLam? || l.VLamRec?)
    ensures var applied := Step(e, f, APPLY, Push(v, Push(l, s)));
      && applied.Ok? && applied.stack.Push? && applied.stack.rest == s
      && Step(e, if l.VLamRec? then f + 1 else f, EXEC, Push(x, applied.stack)) ==
         Step(e, f, EXEC, Push(VPair(v, x), Push(l, s)))
  {
    var h := Step(e, f, APPLY, Push(v, Push(l, s))).stack.top;
    if l.VLam? { AppliedCalls(e, f - 1, v, l.body, x); } else { AppliedRecCalls(e, f - 1, v, l.recBody, x); }
  }

  lemma AppliedCalls(e: Env, f: nat, v: Value, c: Code, x: Value)
    ensures Call(e, f, VLam(Do(PUSH(v), Do(PAIR, c))), x) == Call(e, f, VLam(c), VPair(v, x))
  {
    hide Run, Then, Step, Basic;
    StackMachine();
  }

  lemma AppliedRecCalls(e: Env, f: nat, v: Value, c: Code, x: Value)
    ensures Call(e, f + 1, VLam(Do(PUSH(v), Do(PAIR, Do(LAMBDA_REC(c), Do(SWAP, Do(EXEC, Done)))))), x) ==
      Step(e, f + 1, EXEC, Push(VPair(v, x), Push(VLamRec(c), Empty)))
  {
    var o := Step(e, f + 1, EXEC, Push(VPair(v, x), Push(VLamRec(c), Empty)));
    ThenDone(e, f + 1, o);
    hide Run, Then, Step, Basic;
    ControlRules();
    StackMachine();
  }

  lemma ThenDone(e: Env, f: nat, o: Outcome)
    ensures Then(e, f, o, Done) == o
  {}

  /** A view runs as the contract it belongs to, called by the contract that asks and without tez, on
      the pair of argument and storage; None exactly when there is no such view. */
  lemma ViewRunsThere(e: Env, f: nat, name: string, arg: Value, at: Account, s: Stack)
    ensures var o := Step(e, f, VIEW(name), Push(arg, Push(VAddr(at), s)));
      if at !in e.world || name !in e.world[at].views then o == Ok(Push(VNone, s))
      else if f == 0 then o == OutOfFuel
      else
        var there := e.(self := at, sender := e.self, amount := 0);
        var r := Run(there, f - 1, e.world[at].views[name], Push(VPair(arg, e.world[at].storage), Empty));
        o == match r { case Ok(Push(v, Empty)) => Ok(Push(VSome(v), s)) case Ok(_) => Stuck case _ => r }
  {
    hide Run;
  }

  // ---------------------------------------------------------------- tickets

  /** SPLIT_TICKET answers Some exactly when the parts add up; the two tickets then differ from the old
      one in their amounts alone, and JOIN_TICKETS makes the old one of them again. */
  lemma SplitAddsUp(e: Env, f: nat, who: Account, what: Value, n: nat, i: nat, j: nat, s: Stack)
    ensures var o := Step(e, f, SPLIT_TICKET, Push(VTicket(who, what, n), Push(VPair(VInt(i), VInt(j)), s)));
      && o.Ok? && o.stack.Push? && o.stack.rest == s
      && (o.stack.top == VNone <==> i + j != n)
      && (o.stack.top != VNone ==>
            && o.stack.top == VSome(VPair(VTicket(who, what, i), VTicket(who, what, j)))
            && Step(e, f, JOIN_TICKETS, Push(o.stack.top.v, s)) == Ok(Push(VSome(VTicket(who, what, n)), s)))
  {}

  /** JOIN_TICKETS answers Some exactly for two tickets of one ticketer with one content, and adds
      their amounts. */
  lemma JoinAddsUp(e: Env, f: nat, t: Value, u: Value, s: Stack)
    requires t.VTicket? && u.VTicket?
    ensures var o := Step(e, f, JOIN_TICKETS, Push(VPair(t, u), s));
      && o.Ok? && o.stack.Push? && o.stack.rest == s
      && (o.stack.top == VNone <==> t.ticketer != u.ticketer || t.content != u.content)
      && (o.stack.top != VNone ==> o.stack.top == VSome(VTicket(t.ticketer, t.content, t.amount + u.amount)))
  {}

  // ---------------------------------------------------------------- maps and depths

  /** What GET finds after UPDATE: the value put in, or nothing, under the updated key; what was there
      under every other. GET_AND_UPDATE does both at once. */
  lemma GetAfterUpdate(e: Env, f: nat, k: Value, v: Value, m: map<Value, Value>, j: Value, s: Stack)
    requires v.VSome? || v.VNone?
    ensures var updated := Step(e, f, UPDATE, Push(k, Push(v, Push(VMap(m), s))));
      && updated.Ok? && updated.stack.Push? && updated.stack.rest == s
      && Step(e, f, GET, Push(j, updated.stack)) ==
           (if j == k then Ok(Push(v, s)) else Step(e, f, GET, Push(j, Push(VMap(m), s))))
      && Step(e, f, GET, Push(j, Push(VMap(m), s))) == Ok(Push(if j in m then VSome(m[j]) else VNone, s))
      && Step(e, f, GET_AND_UPDATE, Push(k, Push(v, Push(VMap(m), s)))) ==
           Ok(Push(if k in m then VSome(m[k]) else VNone, updated.stack))
  {}

  /** DUG undoes DIG and DIG undoes DUG, at every depth. */
  lemma DigAndDug(e: Env, f: nat, n: nat, s: Stack)
    requires Has(s, n + 1)
    ensures var dug, buried := Step(e, f, DIG(n), s), Step(e, f, DUG(n), s);
      && dug.Ok? && Step(e, f, DUG(n), dug.stack) == Ok(s)
      && buried.Ok? && Step(e, f, DIG(n), buried.stack) == Ok(s)
  {
    Reinsert(s, n);
    Retake(s.rest, n, s.top);
  }

  lemma {:induction false} Reinsert(s: Stack, n: nat)
    requires Has(s, n + 1)
    ensures Has(Without(s, n), n) && Insert(Without(s, n), n, Nth(s, n)) == s
    decreases n
  {
    if n > 0 { Reinsert(s.rest, n - 1); }
  }

  lemma {:induction false} Retake(s: Stack, n: nat, v: Value)
    requires Has(s, n)
    ensures Has(Insert(s, n, v), n + 1) && Without(Insert(s, n, v), n) == s && Nth(Insert(s, n, v), n) == v
    decreases n
  {
    if n > 0 { Retake(s.rest, n - 1, v); }
  }

  /** DUP n is DIG to the same place with a copy left behind, and DROP n is n times DROP. */
  lemma DupnAndDropn(e: Env, f: nat, n: nat, s: Stack)
    requires n > 0 && Has(s, n)
    ensures var dup, dig := Step(e, f, DUPN(n), s), Step(e, f, DIG(n - 1), s);
      dup.Ok? && dig.Ok? && dig.stack.Push? && dup.stack == Push(dig.stack.top, s)
    ensures Step(e, f, DROPN(n), s) == Step(e, f, DROPN(n - 1), s.rest)
    ensures Step(e, f, DROPN(0), s) == Ok(s)
  {
    assert Has(s.rest, n - 1);
  }
  // ---------------------------------------------------------------- a chain of DIGs

  /** xs on top of a stack, the first element topmost. */
  function Piled(xs: seq<Value>, rest: Stack): Stack {
    if xs == [] then rest else Push(xs[0], Piled(xs[1..], rest))
  }

  /** DIG i; DIG i + 1; ...; DIG n - 1. */
  function Digs(i: nat, n: nat): Code
    requires i <= n
    decreases n - i
  {
    if i == n then Done else Do(DIG(i), Digs(i + 1, n))
  }

  function Reversed(xs: seq<Value>): (r: seq<Value>)
    ensures |r| == |xs| && forall i :: 0 <= i < |xs| ==> r[i] == xs[|xs| - 1 - i]
  {
    if xs == [] then [] else Reversed(xs[1..]) + [xs[0]]
  }

  lemma {:induction false} PiledAt(xs: seq<Value>, k: nat, rest: Stack)
    requires k < |xs|
    ensures Has(Piled(xs, rest), k + 1) && Nth(Piled(xs, rest), k) == xs[k]
    ensures Without(Piled(xs, rest), k) == Piled(xs[..k] + xs[k + 1..], rest)
    decreases k
  {
    if k == 0 {
      assert xs[..0] + xs[1..] == xs[1..];
    } else {
      PiledAt(xs[1..], k - 1, rest);
      var ys := xs[..k] + xs[k + 1..];
      assert ys[0] == xs[0] && ys[1..] == xs[1..][..k - 1] + xs[1..][k..];
    }
  }

  lemma {:induction false} DigsTurn(e: Env, f: nat, i: nat, xs: seq<Value>, rest: Stack)
    requires i <= |xs|
    ensures Run(e, f, Digs(i, |xs|), Piled(xs, rest)) == Ok(Piled(Reversed(xs[i..]) + xs[..i], rest))
    decreases |xs| - i
  {
    hide Run, Step, Piled, Reversed;
    if i == |xs| {
      NoneTurned(e, f, xs, Piled(xs, rest));
    } else {
      var ys := [xs[i]] + (xs[..i] + xs[i + 1..]);
      DigBrings(e, f, i, xs, rest);
      RunNext(e, f, DIG(i), Digs(i + 1, |xs|), Piled(xs, rest), Piled(ys, rest));
      DigsTurn(e, f, i + 1, ys, rest);
      OneTurned(xs, i);
    }
  }

  lemma NoneTurned(e: Env, f: nat, xs: seq<Value>, s: Stack)
    ensures Reversed(xs[|xs|..]) + xs[..|xs|] == xs && Run(e, f, Done, s) == Ok(s)
  {}

  lemma RunNext(e: Env, f: nat, i: Instr, n: Code, s: Stack, t: Stack)
    requires Step(e, f, i, s) == Ok(t)
    ensures Run(e, f, Do(i, n), s) == Run(e, f, n, t)
  {
    hide Step;
  }

  lemma DigBrings(e: Env, f: nat, i: nat, xs: seq<Value>, rest: Stack)
    requires i < |xs|
    ensures Step(e, f, DIG(i), Piled(xs, rest)) == Ok(Piled([xs[i]] + (xs[..i] + xs[i + 1..]), rest))
  {
    PiledAt(xs, i, rest);
    var ys := [xs[i]] + (xs[..i] + xs[i + 1..]);
    assert ys[0] == xs[i] && ys[1..] == xs[..i] + xs[i + 1..];
  }

  lemma OneTurned(xs: seq<Value>, i: nat)
    requires i < |xs|
    ensures var ys := [xs[i]] + (xs[..i] + xs[i + 1..]);
      Reversed(xs[i..]) + xs[..i] == Reversed(ys[i + 1..]) + ys[..i + 1]
  {
    var ys := [xs[i]] + (xs[..i] + xs[i + 1..]);
    assert ys[i + 1..] == xs[i..][1..] && ys[..i + 1] == [xs[i]] + xs[..i];
  }

  /** DIG 0; DIG 1; ...; DIG n - 1 turns the n topmost values around, and doing it twice changes nothing. */
  lemma DigsReverse(e: Env, f: nat, xs: seq<Value>, rest: Stack)
    ensures Run(e, f, Digs(0, |xs|), Piled(xs, rest)) == Ok(Piled(Reversed(xs), rest))
    ensures Run(e, f, Digs(0, |xs|), Piled(Reversed(xs), rest)) == Ok(Piled(xs, rest))
  {
    DigsTurn(e, f, 0, xs, rest);
    DigsTurn(e, f, 0, Reversed(xs), rest);
    assert xs[0..] == xs && Reversed(xs)[0..] == Reversed(xs);
    assert Reversed(xs) + xs[..0] == Reversed(xs);
    assert Reversed(Reversed(xs)) == xs;
    assert xs + Reversed(xs)[..0] == xs;
  }
}
