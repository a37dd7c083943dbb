/** What every contract of this project has in common: a call is accepted, with a new storage and
    something to emit, or refused, with the outcome the script fails with. */
module Contracts {
  import opened Michelson

  datatype Answer<S, O> = Accepted(storage: S, ops: O) | Refused(why: Outcome)

  function Fail<S, O>(message: string): Answer<S, O> { Refused(Failed(VStr(message))) }

  /** A refused call reverts. */
  function Next<S, O>(s: S, r: Answer<S, O>): S { if r.Accepted? then r.storage else s }

  // A contract in imperative form answers with what it emits, or with the failure it reverts for.

  datatype Reply<O> = Emitted(ops: O) | Reverted(why: Outcome)

  function Failing<O>(message: string): Reply<O> { Reverted(Failed(VStr(message))) }

  /** The contract has done what the specification says of the call. */
  predicate Follows<S(==), O(==)>(was: S, r: Answer<S, O>, now: S, reply: Reply<O>) {
    now == Next(was, r) && reply == if r.Accepted? then Emitted(r.ops) else Reverted(r.why)
  }

  /** Counting: the one thing added to a total. */
  function One(b: bool): int { if b then 1 else 0 }
}
