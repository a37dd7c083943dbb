/** Multi-asset token ledger (FA2) with operators, minting and batch transfers. */
module Fa2 {
  import opened Michelson
  import opened Contracts

  /** An owner's holding of one token id. */
  type Holding = (Account, nat)

  datatype Token = Token(metadata: map<string, string>, supply: nat)

  datatype Permission = Permission(owner: Account, operator: Account, token: nat)

  datatype Storage = Storage(
    administrator: Account, allTokens: nat, ledger: map<Holding, nat>, metadata: map<string, string>,
    operators: set<Permission>, paused: bool, tokens: map<nat, Token>)

  datatype Tx = Tx(to: Account, token: nat, amount: nat)
  datatype Transfer = Transfer(from: Account, txs: seq<Tx>)
  datatype OperatorUpdate = AddOperator(permission: Permission) | RemoveOperator(permission: Permission)

  datatype Call =
    | BalanceOf(requests: seq<Holding>, callback: Account, at: string)
    | Mint(to: Account, amount: nat, about: map<string, string>, id: nat)
    | MutezTransfer(tez: nat, destination: Account)
    | SetAdministrator(newAdministrator: Account)
    | SetMetadata(key: string, value: string)
    | SetPause(pause: bool)
    | TransferAll(transfers: seq<Transfer>)
    | UpdateOperators(updates: seq<OperatorUpdate>)

  datatype Op = Report(to: Account, at: string, balances: seq<(Holding, nat)>) | Pay(destination: Account, tez: nat)

  type Result = Answer<Storage, seq<Op>>

  function FailAt(line: int): Result { Refused(Failed(VInt(line))) }

  // ---------------------------------------------------------------- balance_of

  function Owned(ledger: map<Holding, nat>, h: Holding): nat {
    if h in ledger then ledger[h] else 0
  }

  function Balances(s: Storage, requests: seq<Holding>): seq<(Holding, nat)> {
    if requests == [] then [] else [(requests[0], Owned(s.ledger, requests[0]))] + Balances(s, requests[1..])
  }

  function Reported(s: Storage, requests: seq<Holding>, callback: Account, at: string): (r: Result)
    ensures r.Refused? ==> !r.why.Ok?
    ensures r.Accepted? ==> r.storage == s
  {
    if s.paused then FailAt(438)
    else if exists i :: 0 <= i < |requests| && requests[i].1 !in s.tokens then Fail("FA2_TOKEN_UNDEFINED")
    else Accepted(s, [Report(callback, at, Balances(s, requests))])
  }

  // ---------------------------------------------------------------- mint

  function Minted(e: Env, s: Storage, to: Account, amount: nat, about: map<string, string>, id: nat): (r: Result)
    ensures r.Refused? ==> !r.why.Ok?
    ensures r.Accepted? ==> r.ops == []
  {
    if e.sender != s.administrator then FailAt(539)
    else if id != s.allTokens then Fail("Token-IDs should be consecutive")
    else Accepted(s.(
      allTokens := if id + 1 <= s.allTokens then s.allTokens else id + 1,
      ledger := s.ledger[(to, id) := Owned(s.ledger, (to, id)) + amount],
      tokens := if id in s.tokens then s.tokens else s.tokens[id := Token(about, amount)]), [])
  }

  // ---------------------------------------------------------------- transfer

  predicate MaySend(e: Env, s: Storage, from: Account, token: nat) {
    e.sender == s.administrator || e.sender == from || Permission(from, e.sender, token) in s.operators
  }

  function Debited(ledger: map<Holding, nat>, h: Holding, amount: nat): map<Holding, nat>
    requires amount <= Owned(ledger, h)
  {
    ledger[h := Owned(ledger, h) - amount]
  }

  function Credited(ledger: map<Holding, nat>, h: Holding, amount: nat): map<Holding, nat> {
    ledger[h := Owned(ledger, h) + amount]
  }

  function Sent(e: Env, s: Storage, from: Account, tx: Tx): (r: Result)
    ensures r.Refused? ==> !r.why.Ok?
    ensures r.Accepted? ==> r.ops == []
  {
    if !MaySend(e, s, from, tx.token) then Fail("FA2_NOT_OPERATOR")
    else if tx.token !in s.tokens then Fail("FA2_TOKEN_UNDEFINED")
    else if tx.amount == 0 then Accepted(s, [])
    else if (from, tx.token) !in s.ledger then FailAt(423)
    else if s.ledger[(from, tx.token)] < tx.amount then Fail("FA2_INSUFFICIENT_BALANCE")
    else
      var debited := Debited(s.ledger, (from, tx.token), tx.amount);
      Accepted(s.(ledger := Credited(debited, (tx.to, tx.token), tx.amount)), [])
  }

  function SentAll(e: Env, s: Storage, from: Account, txs: seq<Tx>): (r: Result)
    ensures r.Refused? ==> !r.why.Ok?
    ensures r.Accepted? ==> r.ops == []
    decreases |txs|
  {
    if txs == [] then Accepted(s, [])
    else
      match Sent(e, s, from, txs[0])
      case Accepted(s', _) => SentAll(e, s', from, txs[1..])
      case refused => refused
  }

  function Transferred(e: Env, s: Storage, transfers: seq<Transfer>): (r: Result)
    ensures r.Refused? ==> !r.why.Ok?
    ensures r.Accepted? ==> r.ops == []
    decreases |transfers|
  {
    if transfers == [] then Accepted(s, [])
    else
      match SentAll(e, s, transfers[0].from, transfers[0].txs)
      case Accepted(s', _) => Transferred(e, s', transfers[1..])
      case refused => refused
  }

  // ---------------------------------------------------------------- update_operators

  function UpdatedOne(e: Env, s: Storage, u: OperatorUpdate): (r: Result)
    ensures r.Refused? ==> !r.why.Ok?
    ensures r.Accepted? ==> r.ops == []
  {
    if u.permission.owner != e.sender && s.administrator != e.sender then FailAt(if u.AddOperator? then 489 else 496)
    else if u.AddOperator? then Accepted(s.(operators := s.operators + {u.permission}), [])
    else Accepted(s.(operators := s.operators - {u.permission}), [])
  }

  function UpdatedAll(e: Env, s: Storage, updates: seq<OperatorUpdate>): (r: Result)
    ensures r.Refused? ==> !r.why.Ok?
    ensures r.Accepted? ==> r.ops == []
    decreases |updates|
  {
    if updates == [] then Accepted(s, [])
    else
      match UpdatedOne(e, s, updates[0])
      case Accepted(s', _) => UpdatedAll(e, s', updates[1..])
      case refused => refused
  }

  // ---------------------------------------------------------------- the whole script

  function Called(e: Env, s: Storage, call: Call): (r: Result)
    ensures r.Refused? ==> !r.why.Ok?
  {
    match call
    case BalanceOf(requests, callback, at) => Reported(s, requests, callback, at)
    case Mint(to, amount, about, id) => Minted(e, s, to, amount, about, id)
    case MutezTransfer(tez, destination) =>
      if e.sender != s.administrator then FailAt(346)
      else if !e.entrypoints(destination, "") then FailAt(349)
      else Accepted(s, [Pay(destination, tez)])
    case SetAdministrator(a) =>
      if e.sender != s.administrator then FailAt(518) else Accepted(s.(administrator := a), [])
    case SetMetadata(k, v) =>
      if e.sender != s.administrator then FailAt(533) else Accepted(s.(metadata := s.metadata[k := v]), [])
    case SetPause(p) =>
      if e.sender != s.administrator then FailAt(527) else Accepted(s.(paused := p), [])
    case TransferAll(transfers) => if s.paused then FailAt(395) else Transferred(e, s, transfers)
    case UpdateOperators(updates) => UpdatedAll(e, s, updates)
  }
}
