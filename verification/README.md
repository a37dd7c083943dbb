# What the Michelson contracts of this repository compute

The integration tests and examples of this repository carry complete Michelson programs: an English
auction house, a multi-asset FA2 ledger, an interest pool, a generic multisig, two permit stores, a
ticket wallet, a Dutch ticket auction, recursive lambdas, recursive on-chain views, and one contract
in both its macro form and its expanded form. This project states what they compute and proves it.

It has three layers.

1. **A stack machine.** `Michelson` is an evaluator for the instructions these programs use, on
   untyped values: stack, control, pairs, lists, sets, maps, lambdas (also recursive and partially
   applied), views, tickets, signatures, transfers. Mutez arithmetic fails outside 0 .. 2^63 - 1.
   Fuel bounds only the depth of EXEC and VIEW; `Fuel` proves that more fuel never changes a result.
   `Rules` derives one rewriting rule an instruction, `Chains` the access idioms of compiled code for
   every depth, `Encoding` how maps and lists of records appear as values, `Contracts` what a call
   answers. `Laws` says what single instructions promise without the machine's own helper functions:
   where mutez overflow, how strings are ordered, what APPLY, VIEW and the ticket instructions do.
2. **Scripts refine specifications.** Every contract is written down instruction by instruction
   (the upper-case constants) and proved, entrypoint by entrypoint, to compute a short specification
   over records and maps: same operations, same storage, same failure value, on every input. Long
   scripts are cut into named pieces, one lemma a piece.
3. **Laws and runs.** For each entrypoint, who may call it, when, and what it does to which field, said
   over the storage alone (the lemmas named `..AcceptedIff`, and `Fa2Laws` for batches of transfers).
   Over the specifications, invariants and exact accounts of every run of every
   entrypoint, with arbitrary callers, amounts and times. `Runs` holds the induction once;
   `Scripts` carries the results back: a run of the script leaves the encoding of what the run of the
   specification leaves, and for the two contracts that hold tez the balance, debited by the transfers
   the script emits, is the specification's too. `Readings` says how to read bids, lots, holdings,
   supplies and claims off a storage value, so these results speak of the script's storage alone. The contracts are also given in imperative form (the
   classes), each method equal to its specification, and `Serve` working off a whole run.

`Macros` and `MacroPairs` give the macro language of `macros.ts` a direct meaning of its own and prove
that expansion keeps it; `PoolMacro` relates the two copies of the pool that way. `FieldNames` runs the
annotated form of the record setters through the type checker of `michelson-typecheck.ts`: when a name
is accepted, and what becomes of the names in the record.

The oracles are parameters of every theorem: which addresses resolve to contracts, which signatures
verify, how keys hash, what other contracts offer as views. PACK and BLAKE2B are free constructors,
so they are injective. A failing call reverts, attached tez included.

Where messages or names promise something else than the code does, the model follows the code:

- `drop_price` does not have to lower the price (`DutchAuctionRuns.DropMayRaise`, and over runs
  `DutchAuctionRuns.PriceFallsIff`), and `configure`
  replaces a ticket that is still held (`DutchAuctionRuns.TicketIsAccountedFor`).
- The FA2 storage that is originated is not well-formed (`Fa2Runs.SeedIsNotBacked`). When the supply
  of a token is right after a run from any storage is `Fa2Runs.SupplyIsRightIff`; for the originated
  one it is `Fa2Runs.SeedOverRuns`.
- The expiring permits sign a counter that never moves (`PermitExpiryRuns.PermitsCanBeReplayed`) and
  store an expiry a user that is never read (`PermitExpiryRuns.UserExpiryIsNeverRead`).
- The pool pays interest that nobody funds and keeps tez attached to withdrawals without recording
  them; both are exact (`PoolRuns.GapIsExact`). Who is turned away for it is
  `PoolRuns.WithdrawalIsShort`; the originated pool turns its depositor away at once
  (`PoolRuns.OriginatedIsShort`).
- The expander ignores letters left over in a macro name, so PAIIR passes for PAIR
  (`MacroPairs.LeftoverIgnored`), and MAP_C..DR shows its body the record where MAP_C..AR does not
  (`Macros.MapSeesTheRecord`).
- SET_C[AD]+R keeps the contents of every other field but not every name: a name with a dot in it is cut
  to what follows the last dot, and the fields the path leads through lose theirs
  (`FieldNames.OtherNames`).
- "Auction time must be less than max_auction_time" also admits equality, and the pool's "No tez to
  withdraw!" means that the claim exceeds the liquidity.

## Model

| member | source | states |
|---|---|---|
| `Laws.MutezIsBounded` | packages/taquito-michel-codec/test/contracts_015/opcodes/mul_overflow.tz:3-16 | ADD and MUL on mutez give the exact result below 2 to the power 63 and overflow from there on |
| `Laws.SubUndoesAdd` | packages/taquito-michel-codec/test/contracts_015/opcodes/tez_add_sub.tz:1-5 | SUB_MUTEZ takes back what ADD added, and answers None if and only if the difference is negative |
| `Laws.EdivIsEuclid` | packages/taquito-michel-codec/test/contracts_015/opcodes/ediv_mutez.tz:3-12 | EDIV answers the only quotient and remainder with remainder below the divisor, and None for zero |
| `Laws.CompareOrders` | packages/taquito-michel-codec/test/contracts_015/opcodes/compare.tz:19-44 | COMPARE answers -1, 0 or 1: by size on numbers and mutez, by dictionary order on strings and addresses, where the first place of difference decides and a proper beginning comes first |
| `Laws.ExecLeavesOne` | packages/taquito-michel-codec/test/contracts_015/opcodes/exec_concat.tz:3-7 | EXEC succeeds if and only if the call leaves exactly one value, which is put on an untouched stack |
| `Laws.ApplyFixesArgument` | packages/taquito-michel-codec/test/contracts_015/opcodes/pexec.tz:3-6 | Executing what APPLY makes of a value and a lambda, on x, ends as executing the lambda on the pair does; for a recursive lambda one call deeper |
| `Laws.ViewRunsThere` | example/data/contractOnChainViews.ts:2-59 | VIEW runs the code of the contract asked, as that contract, called by the one that asks, without tez, on argument and its storage; None if and only if there is no such view |
| `Laws.SplitAddsUp` | packages/taquito-michel-codec/test/contracts_015/opcodes/ticket_split.tz:3-11 | SPLIT_TICKET answers Some if and only if the parts add up; only the amounts differ, and JOIN_TICKETS gives the ticket back |
| `Laws.JoinAddsUp` | packages/taquito-michel-codec/test/contracts_015/opcodes/ticket_join.tz:3-7 | JOIN_TICKETS answers Some if and only if ticketer and content agree, and adds the amounts |
| `Laws.GetAfterUpdate` | packages/taquito-michel-codec/test/contracts_015/opcodes/get_and_update_map.tz:3-9 | GET after UPDATE finds the value put in under that key and the old one under every other; GET_AND_UPDATE does both at once |
| `Laws.DigAndDug` | packages/taquito-michel-codec/test/contracts_015/opcodes/dugn.tz:3 | DIG n and DUG n undo each other at every depth |
| `Laws.DupnAndDropn` | packages/taquito-michel-codec/test/contracts_015/opcodes/dropn.tz:3 | DUP n copies what DIG would take, and DROP n is n times DROP |
| `Laws.DigsReverse` | packages/taquito-michel-codec/test/contracts_015/opcodes/dig_eq.tz:3-12 | For every n, DIG 0; DIG 1; ..; DIG n - 1 turns the n topmost values around, and doing it twice changes nothing |
| `AuctionScript.AuctionRefines` | integration-tests/data/contract-with-never-in-param.ts:29-1148 | The whole auction script, run on the stack machine, ends exactly as the specification `Auction.Called` says: same operations, same storage, same failure value, for every call, storage, sender, time and answer of CONTRACT |
| `AuctionScript.BidRefines` | integration-tests/data/contract-with-never-in-param.ts:178-647 | The bid entrypoint keeps the order of its guards and of its mutez overflows, refunds the previous bidder, and its three record rebuilds change exactly price, bidder, time and end |
| `AuctionScript.CancelRefines` | integration-tests/data/contract-with-never-in-param.ts:649-768 | Cancel: seller only, before the end, no tez; lots back to the seller, bid back to the bidder, record removed |
| `AuctionScript.ResolveRefines` | integration-tests/data/contract-with-never-in-param.ts:769-874 | Resolve: only after the end, no tez; lots to the highest bidder, bid to the seller, record removed |
| `AuctionScript.ConfigureRefines` | integration-tests/data/contract-with-never-in-param.ts:875-1147 | Configure: seven guards in their order with their messages, record stored under the next number, lots called in |
| `AuctionScript.DeliverRuns` | integration-tests/data/contract-with-never-in-param.ts:33-57 | The nested MAP turns every lot list into one FA2 transfer a lot, or fails if any address has no transfer entrypoint |
| `AuctionScript.EndedRuns` | integration-tests/data/contract-with-never-in-param.ts:100-141 | The ended test: strictly more than round_time since the last bid, or end_time reached |
| `Chains.RebuildGrafts` | integration-tests/data/contract-with-never-in-param.ts:402-500 | For every k: the chain of SWAP, DUP, DUG, CDRs, CAR, PAIR that compiled code uses to update a record replaces the tail behind field k and keeps fields 0..k |
| `AuctionRuns.Solvency` | integration-tests/data/contract-with-never-in-param.ts:355-361 | After every run over any number of auctions the tez balance is the initial surplus plus the bids of the live auctions, and live numbers stay below the counter |
| `AuctionRuns.RaiseIsLeast` | integration-tests/data/contract-with-never-in-param.ts:278-298 | The percentage raise is the least r with 100 * r >= percent * price |
| `AuctionRuns.BidAcceptedIff` | integration-tests/data/contract-with-never-in-param.ts:178-399 | A bid on an auction is accepted if and only if an implicit account that is not the seller sends it between start and end, no later than round_time after the last bid, with an amount that reaches the minimal raise, or the percentage (100 * raise >= percent * price), or the price while the seller is the highest bidder, the sums stay below 2 to the power 63, and the previous bidder can be paid |
| `AuctionRuns.BidDoes` | integration-tests/data/contract-with-never-in-param.ts:400-647 | An accepted bid writes down amount, bidder and time, keeps the auction open for extend_time at least and no longer than that or the old end, pays the previous bidder the previous bid, and changes nothing else |
| `AuctionRuns.ClosingAcceptedIff` | integration-tests/data/contract-with-never-in-param.ts:649-874 | cancel is accepted if and only if the seller calls it before the end, resolve if and only if the end has passed; both without tez, with lots that can be delivered and a payee that can be paid |
| `AuctionRuns.ConfigureAcceptedIff` | integration-tests/data/contract-with-never-in-param.ts:875-1132 | configure is accepted if and only if start and end are in order and within both limits, the opening price is attached and not zero, the round lasts and the lots can be called in; the new sale has every field as configured |
| `AuctionRuns.BidRefusalsAreTrue` | integration-tests/data/contract-with-never-in-param.ts:178-399 | Whatever reason a bid is refused for, it is the case |
| `AuctionRuns.ClosingRefusalsAreTrue` | integration-tests/data/contract-with-never-in-param.ts:649-874 | Whatever reason a cancel or resolve is refused for, it is the case |
| `AuctionRuns.EveryPayoutIsCovered` | integration-tests/data/contract-with-never-in-param.ts:617-647 | In every reachable state the transfers of an accepted call are covered by the balance |
| `AuctionRuns.AssetsInEscrow` | integration-tests/data/contract-with-never-in-param.ts:1133-1147 | Over every run of calls from outside, tokens received minus tokens sent equal the change of what live auctions list, for each FA2 address and token id |
| `AuctionRuns.CloseFlow` | integration-tests/data/contract-with-never-in-param.ts:695-710 | Closing an auction gives every listed token to the winner, takes it from the house, and moves nothing else |
| `AuctionRuns.ConfigureFlow` | integration-tests/data/contract-with-never-in-param.ts:1133-1147 | Opening an auction takes every listed token from the caller to the house, and moves nothing else |
| `AuctionRuns.ClosedExactlyOnce` | integration-tests/data/contract-with-never-in-param.ts:724-768 | Each auction number is opened at most once and closed at most once; exactly once if it was opened and is live no more |
| `AuctionRuns.EndingIsFinal` | integration-tests/data/contract-with-never-in-param.ts:198-218 | Once now > last bid + round_time or now >= end_time, no later bid or cancel is accepted on the auction and its record never changes; only resolve removes it |
| `AuctionRuns.BidDescends` | integration-tests/data/contract-with-never-in-param.ts:362-399 | An accepted bid never lowers the price and leaves end_time at least extend_time after now |
| `AuctionRuns.BidBound` | integration-tests/data/contract-with-never-in-param.ts:219-340 | After n >= 1 accepted bids the price is at least opening + (n - 1) * raise for every raise up to min_raise and up to percent * opening / 100 rounded up; price and end never fall; the seller is the highest bidder exactly while n = 0 |
| `AuctionRuns.OwedIsLeast` | integration-tests/data/contract-with-never-in-param.ts:278-298 | Rounded up means: at most every r with 100 * r >= percent * opening, the least of them included |
| `AuctionRuns.PriceSinceOpening` | integration-tests/data/contract-with-never-in-param.ts:1085-1132 | From an accepted configure on, under a number never used before, and over every run: the price is the attached amount before the first bid and then at least that plus n - 1 raises; start, round and extend time, lots, percentage and minimal raise are those of the configuration, each under its own name, the seller is the caller, and the end has not moved forward |
| `AuctionContract.AuctionHouse.Bid` | integration-tests/data/contract-with-never-in-param.ts:178-647 | Imperative form of bid, equal to the specification on every state |
| `AuctionContract.AuctionHouse.Deliver` | integration-tests/data/contract-with-never-in-param.ts:33-57 | The two nested loops that build the transfers |
| `AuctionContract.AuctionHouse.MoveBatch` | integration-tests/data/contract-with-never-in-param.ts:37-42 | The inner loop of a delivery: each token of a lot moved to the receiver |
| `AuctionContract.AuctionHouse.CloseOut` | integration-tests/data/contract-with-never-in-param.ts:695-768 | What cancel and resolve share: no tez, lots delivered, payee paid, record removed |
| `AuctionContract.AuctionHouse.Cancel` | integration-tests/data/contract-with-never-in-param.ts:649-768 | Imperative form of cancel |
| `AuctionContract.AuctionHouse.Resolve` | integration-tests/data/contract-with-never-in-param.ts:769-874 | Imperative form of resolve |
| `AuctionContract.AuctionHouse.Configure` | integration-tests/data/contract-with-never-in-param.ts:875-1147 | Imperative form of configure: next number used, counter advanced |
| `AuctionContract.AuctionHouse.Serve` | integration-tests/data/contract-with-never-in-param.ts:142-1148 | A whole run of calls leaves the state and balance of the specification and keeps the surplus over the live bids |
| `Scripts.AuctionScriptRuns` | integration-tests/data/contract-with-never-in-param.ts:142-1148 | After any run of the script its storage encodes, and its balance debited by the transfers it emits is, what the same run of the specification leaves |
| `Scripts.ScriptSolvency` | integration-tests/data/contract-with-never-in-param.ts:355-361 | Solvency of the script itself: after any run its balance exceeds the bids added up in its own storage by what it did at the start |
| `Scripts.ScriptEscrow` | integration-tests/data/contract-with-never-in-param.ts:1133-1147 | Escrow of the script itself: the tokens in the transfers it emitted over a run, in minus out, are the change of what the auctions in its own storage list |
| `Fa2Script.Fa2Refines` | integration-tests/data/fa2-for-token-metadata-view.ts:289-1917 | The whole FA2 script computes `Fa2.Called`: eight entrypoints, nested loops over any batch, every failure code |
| `Fa2Script.SendRefines` | integration-tests/data/fa2-for-token-metadata-view.ts:938-1682 | One pass of the inner loop: authority, definedness, balance check, debit, credit, also when sender and receiver coincide |
| `Fa2Script.InnerLoop` | integration-tests/data/fa2-for-token-metadata-view.ts:938-1682 | The inner ITER is the fold of single transfers, stopping at the first failure |
| `Fa2Script.OuterLoop` | integration-tests/data/fa2-for-token-metadata-view.ts:919-1684 | The outer ITER is the fold over the batch |
| `Fa2Script.MintRefines` | integration-tests/data/fa2-for-token-metadata-view.ts:453-728 | Mint: administrator, consecutive ids, counter, ledger entry added or created, token record created only if absent |
| `Fa2Script.UpdateLoop` | integration-tests/data/fa2-for-token-metadata-view.ts:1685-1903 | The ITER over operator updates, each checked against owner or administrator |
| `Fa2Script.BalanceLoop` | integration-tests/data/fa2-for-token-metadata-view.ts:306-452 | The MAP over balance requests answers each in order, zero without an entry, and fails on an undefined token |
| `Fa2Runs.TransferConserves` | integration-tests/data/fa2-for-token-metadata-view.ts:938-1682 | Every accepted batch leaves the sum over all owners of each token unchanged, including transfers to oneself |
| `Fa2Runs.TransferNet` | integration-tests/data/fa2-for-token-metadata-view.ts:938-1682 | Every balance after a batch is the balance before plus what the batch gives minus what it takes, read off the batch alone; whoever loses is the caller, or the caller is the administrator or in operators for that owner and token |
| `Fa2Laws.TransferAcceptedIff` | integration-tests/data/fa2-for-token-metadata-view.ts:919-1684 | transfer is accepted if and only if the contract is not paused and every move of the batch, in order, comes from its owner, the administrator or an operator of the owner for that token, is in a defined token, and is covered by what the owner holds after the moves before it |
| `Fa2Laws.StrangersAreRefused` | integration-tests/data/fa2-for-token-metadata-view.ts:1050-1100 | On every storage the first faulty move decides: FA2_NOT_OPERATOR if the caller is neither owner nor administrator nor operator, FA2_TOKEN_UNDEFINED if it is but the token is not defined |
| `Fa2Laws.UpdatesAcceptedIff` | integration-tests/data/fa2-for-token-metadata-view.ts:1685-1903 | update_operators is accepted if and only if every update comes from its owner or the administrator; afterwards a permission holds if and only if its last update adds it, or none removes it and it held before |
| `Fa2Laws.MintAcceptedIff` | integration-tests/data/fa2-for-token-metadata-view.ts:453-728 | mint is accepted if and only if the administrator asks for the next id; counter, holding and token record change as stated and nothing else |
| `Fa2Laws.AdministratorActs` | integration-tests/data/fa2-for-token-metadata-view.ts:729-916 | The other administrator entrypoints are accepted from nobody else, and change the one field they name or pay out |
| `Fa2Laws.BalancesAnswered` | integration-tests/data/fa2-for-token-metadata-view.ts:306-452 | balance_of answers if and only if the contract is not paused and every token is defined: one balance a request, in order, zero without an entry |
| `Fa2Runs.OnlyTheAuthorised` | integration-tests/data/fa2-for-token-metadata-view.ts:1685-1903 | No call lowers a balance unless the caller is the owner, the administrator or in operators for that owner and token, or changes an operator right unless the caller is its owner or the administrator |
| `Fa2Runs.SupplyIsHeld` | integration-tests/data/fa2-for-token-metadata-view.ts:474-726 | From a well-formed storage every run keeps total_supply equal to the sum of the holdings and the ids exactly those below all_tokens |
| `Fa2Runs.SupplyIsRightIff` | integration-tests/data/fa2-for-token-metadata-view.ts:616-726 | From every storage, over every run and for every token: the recorded supply minus what is held falls by exactly the amounts minted to an id that was defined already, so the supply of a defined token ends up right if and only if those amounts equal the difference at the start |
| `Fa2Runs.NeverMintedAgain` | integration-tests/data/fa2-for-token-metadata-view.ts:474-531 | A token below the counter, or not defined yet, is never minted again: over every run the difference between its supply and its holdings stays as it is |
| `Fa2Runs.MintedOnce` | integration-tests/data/fa2-for-token-metadata-view.ts:474-531 | Over every run an id is minted exactly as often as the counter passes it: once or never |
| `Fa2Runs.MintBacksIff` | integration-tests/data/fa2-for-token-metadata-view.ts:616-726 | One mint on any storage leaves the supply right if and only if the difference before was zero for a new id, the amount for an id that was defined already |
| `Fa2Runs.SeedIsNotBacked` | integration-tests/originate-known-contracts.ts:99-118 | The originated storage is not well-formed: token 2 exists although the counter is 2, and only a first mint of exactly 20000 would back its supply |
| `Fa2Runs.SeedOverRuns` | integration-tests/originate-known-contracts.ts:99-118 | Over every run from the originated storage each token but token 2 has the supply its owners hold; token 2 has it if and only if 20000 were minted to it, for which there is at most one mint |
| `Fa2Contract.TokenContract.TransferAll` | integration-tests/data/fa2-for-token-metadata-view.ts:919-1684 | Imperative form of transfer: the outer loop, with the ledger written only when the whole batch has passed |
| `Fa2Contract.TokenContract.Send` | integration-tests/data/fa2-for-token-metadata-view.ts:938-1682 | The inner loop |
| `Fa2Contract.TokenContract.Mint` | integration-tests/data/fa2-for-token-metadata-view.ts:453-728 | Imperative form of mint |
| `Fa2Contract.TokenContract.UpdateOperators` | integration-tests/data/fa2-for-token-metadata-view.ts:1685-1903 | Imperative form of update_operators |
| `Fa2Contract.TokenContract.BalanceOf` | integration-tests/data/fa2-for-token-metadata-view.ts:306-452 | Imperative form of balance_of |
| `Fa2Contract.TokenContract.Administer` | integration-tests/data/fa2-for-token-metadata-view.ts:729-916 | Imperative form of the administrator entrypoints other than mint |
| `Fa2Contract.TokenContract.Serve` | integration-tests/data/fa2-for-token-metadata-view.ts:289-1917 | A whole run of calls leaves the state of the specification; a well-formed ledger stays well-formed |
| `Scripts.Fa2ScriptRuns` | integration-tests/data/fa2-for-token-metadata-view.ts:289-1917 | Any run of the script leaves the encoding of what the specification leaves, so the supply theorem holds of the script |
| `Scripts.ScriptKeepsSupply` | integration-tests/data/fa2-for-token-metadata-view.ts:474-726 | If in the storage of the script every supply is held and the token ids are those below the counter, so it is after whatever run of calls the script executes |
| `Scripts.ScriptSupply` | integration-tests/data/fa2-for-token-metadata-view.ts:616-726 | For every storage, read off the storages and executions of the script alone: supply minus holdings of a token falls by exactly what is minted again |
| `Readings.SoundLedgerIff` | integration-tests/data/fa2-for-token-metadata-view.ts:474-726 | The condition on the script storage holds if and only if the ledger it encodes is well-formed |
| `Chains.FetchCopies` | integration-tests/data/deposit_contract.ts:397-457 | For every n and every stack tall enough, DIP { .. DUP .. }; SWAP nested n deep copies slot n to the top |
| `Chains.PutOverwrites` | integration-tests/data/deposit_contract.ts:641-688 | For every n, SWAP; DIP { .. SWAP; DROP .. } pops the top and overwrites slot n with it |
| `Chains.PokeOverwrites` | integration-tests/data/deposit_contract.ts:641-688 | For every n, the variant with DUP overwrites slot n and keeps a copy on top |
| `Deposit.InterestRuns` | integration-tests/data/deposit_contract.ts:80-109 | One tez of interest from 100 seconds on, nothing before |
| `Deposit.DepositRuns` | integration-tests/data/deposit_contract.ts:113-798 | The deposit lambda computes `Deposited`: first and further deposits, interest, overflow of either mutez sum |
| `Deposit.WithdrawRuns` | integration-tests/data/deposit_contract.ts:812-1512 | The withdraw lambda computes `Withdrawn`: claim with interest, liquidity guard, transfer, entry removed |
| `Deposit.PoolRefines` | integration-tests/data/deposit_contract.ts:25-1716 | The whole pool script computes the specification over (deposits, liquidity), for every call, environment and fuel from 2 on |
| `PoolRuns.DepositAcceptedIff` | integration-tests/data/deposit_contract.ts:113-798 | A deposit is accepted if and only if tez are attached and both sums stay below 2 to the power 63; the entry is worth what it was with interest plus the tez and starts anew, the liquidity gets the tez alone |
| `PoolRuns.WithdrawAcceptedIff` | integration-tests/data/deposit_contract.ts:812-1512 | A withdrawal is accepted if and only if there is an entry whose worth with interest is a mutez amount and within the liquidity, and the caller can be paid; it pays that worth and removes the entry |
| `PoolRuns.GapIsExact` | integration-tests/data/deposit_contract.ts:231-303 | Over every run the sum of the deposits minus the liquidity grows by exactly 1000000 for each accepted call of an account whose entry is at least 100 seconds old, and balance minus liquidity grows by exactly the tez attached to accepted withdrawals |
| `PoolRuns.EveryPayoutIsCovered` | integration-tests/data/deposit_contract.ts:1086-1271 | Every transfer the pool emits is covered by its balance |
| `PoolRuns.WithdrawalIsShort` | integration-tests/data/deposit_contract.ts:1008-1016 | On every pool: a depositor whose claim fits into mutez is turned away for want of tez if and only if the gap plus the interest due now is more than the others have in the pool |
| `PoolRuns.OriginatedIsShort` | integration-tests/data/deposit_contract.ts:1719-1733 | The originated storage promises five tez and has none: its depositor is turned away at once; after any run the gap is still at least five tez, some entry is left, and nobody can withdraw while the others have less than five tez in the pool |
| `PoolRuns.LoneDepositor` | integration-tests/data/deposit_contract.ts:1008-1016 | A concrete pool: five tez of one depositor cannot be withdrawn at 100 seconds, can at 99, and can at 100 with one tez of somebody else |
| `PoolRuns.AssertionNeverFails` | integration-tests/data/deposit_contract.ts:1218-1219 | The ASSERT_SOME after SUB_MUTEZ is unreachable: no call ends with its failure value |
| `PoolContract.DepositPool.Deposit` | integration-tests/data/deposit_contract.ts:113-798 | Imperative form of deposit |
| `PoolContract.DepositPool.Withdraw` | integration-tests/data/deposit_contract.ts:812-1512 | Imperative form of withdraw |
| `PoolContract.DepositPool.Serve` | integration-tests/data/deposit_contract.ts:25-1716 | A whole run of calls leaves the state and balance of the specification; the lead of the balance over the liquidity never falls |
| `Scripts.PoolScriptRuns` | integration-tests/data/deposit_contract.ts:25-1716 | After any run of the pool script its storage encodes, and its balance debited by the transfers it emits is, what the same run of the specification leaves |
| `Scripts.ScriptGap` | integration-tests/data/deposit_contract.ts:231-303 | The gap theorem of the script itself, read off its storage and its calls that succeed: exact growth of claims over liquidity and of balance over liquidity |
| `Lambdas.RecursiveLambdaIsFactorial` | integration-tests/data/lambda-rec.ts:45-127 | Executing the recursive lambda on n leaves n! above the untouched stack if and only if 0 <= n < fuel; for negative n no fuel is enough |
| `Lambdas.GeneratedIsFactorial` | integration-tests/data/lambda-rec.ts:7-22 | The stored lambda, re-applied with APPLY at every step, computes n! too and needs two calls a step |
| `Lambdas.FactoryRefines` | integration-tests/data/lambda-rec.ts:1-27 | The whole script on every storage: gen stores the lambda, exec needs one, runs whichever is stored and leaves its result |
| `Lambdas.EachExecNeedsItsGen` | integration-tests/data/lambda-rec.ts:1-27 | From any storage: between two accepted execs of a run there is a gen, and so the second of them leaves the factorial |
| `Lambdas.ExecLeavesFactorial` | integration-tests/data/lambda-rec.ts:1-27 | An accepted exec leaves the factorial of its argument if a gen came before it in the run, or if the run did not start with a lambda of another origin |
| `Lambdas.ForeignLambda` | integration-tests/data/lambda-rec.ts:1-27 | The condition is needed: a storage holding the identity lambda makes exec leave its argument |
| `Scripts.FactoryScriptRuns` | integration-tests/data/lambda-rec.ts:1-27 | Any run of the script leaves the encoding of what the specification leaves, from every storage |
| `Lambdas.ReduceMapTerminates` | integration-tests/data/lambda-rec.ts:29-43 | For every lambda that terminates on each element, with whatever fuel, there is fuel from which on the script stores exactly the images in order |
| `Lambdas.ReduceMapMaps` | integration-tests/data/lambda-rec.ts:29-43 | For every list, lambda and fuel the two ITER loops store exactly the images in order, or fail as the first failing call does |
| `Lambdas.MapAllIsPointwise` | integration-tests/data/lambda-rec.ts:29-43 | The image list exists if and only if every call succeeds, and then holds each result at its own place |
| `Views.FibViewIsFibonacci` | example/data/contractOnChainViews.ts:2-34 | Whoever calls the view gets the n-th Fibonacci number if and only if the fuel is at least max(1, n) |
| `Views.IsTwentyView` | example/data/contractOnChainViews.ts:36-59 | The mutually recursive views answer 20 for n <= 20 after 2 * (20 - n) further calls; above 20 no fuel is enough |
| `Macros.ExpansionKeepsMeaning` | packages/taquito-michel-codec/src/macros.ts:178-604 | For every program with macros, every stack and fuel, the expanded program ends exactly as the direct meaning says: same stack, same failure, or stuck at the same time |
| `Macros.PhraseKeepsMeaning` | packages/taquito-michel-codec/src/macros.ts:184-604 | The same for each single macro or instruction, through nested branches, DIP bodies and loops |
| `MacroPairs.PairsBuild` | packages/taquito-michel-codec/src/macros.ts:357-383 | P[PAI]+R over any tree: the PAIRs at their depths build the value of the tree from the topmost values, one a leaf, and are stuck if one is missing |
| `MacroPairs.UnpairsSpread` | packages/taquito-michel-codec/src/macros.ts:385-435 | UNP[PAI]+R over any tree, before and after the Edo protocol: the leaves are laid out in order, and a value of another shape is stuck |
| `MacroPairs.SpreadThenBuilt` | packages/taquito-michel-codec/src/macros.ts:357-435 | Unpairing along a tree and pairing along the same tree gives the value back |
| `MacroPairs.NamesParse` | packages/taquito-michel-codec/src/macros.ts:42-99 | The name of every tree is read back as the depths of that tree, for pairing and for unpairing |
| `MacroPairs.ParsedAreNames` | packages/taquito-michel-codec/src/macros.ts:42-99 | Whatever the parser accepts begins with the name of a tree, and its answer is that tree |
| `MacroPairs.AcceptedIff` | packages/taquito-michel-codec/src/macros.ts:42-99 | Letters are accepted if and only if a name is a prefix of them; what is left over is ignored |
| `MacroPairs.LeftoverIgnored` | packages/taquito-michel-codec/src/macros.ts:354-383 | PAIIR is accepted and read as PAIR |
| `Macros.SetExpands` | packages/taquito-michel-codec/src/macros.ts:101-138 | SET_C[AD]+R over any path, with and without a field annotation, replaces the field at its end by the second value of the stack |
| `Macros.SetThenGet` | packages/taquito-michel-codec/src/macros.ts:101-138 | For every path: what SET_C[AD]R sets C[AD]R reads back, and along a path that parts from it everything is read as before |
| `Macros.GetThenSet` | packages/taquito-michel-codec/src/macros.ts:101-138 | For every path: setting the value just read gives the record back |
| `Macros.GetReads` | packages/taquito-michel-codec/src/macros.ts:436-454 | C[AD]+R reads: A the first component, D the second, and a longer path one after the other |
| `FieldNames.SetterErases` | packages/taquito-michel-codec/src/macros.ts:456-505 | The annotated expansion, for every path, field and variable annotation, is the code of the macro once its annotations are erased; with a field annotation it is the form that reads the field first |
| `FieldNames.SetterChecks` | packages/taquito-michel-codec/src/michelson-typecheck.ts:749-787 | The type checker accepts the expansion of SET_C[AD]+R if and only if the path leads to a field and the name in the setter, if any, is the name of that field or the field has none; the type it then computes is the one stated |
| `FieldNames.SetFieldIsNamed` | packages/taquito-michel-codec/src/michelson-typecheck.ts:917-950 | The field that was set carries the name in the setter, or none |
| `FieldNames.OtherNames` | packages/taquito-michel-codec/src/macros.ts:101-138 | Every field across from the path keeps its contents, and its name if and only if there is no dot in it; the fields the path leads through lose their names |
| `Macros.MapReplacesField` | packages/taquito-michel-codec/src/macros.ts:101-138 | MAP_C[AD]+R over any path replaces the field by its image, for every program that works on the top value alone |
| `Macros.MapSeesTheRecord` | packages/taquito-michel-codec/src/macros.ts:506-538 | A program that looks further down shows the difference between the two ends: at A it sees the stack below the record, at D the record itself |
| `Macros.DupKeepsMeaning` | packages/taquito-michel-codec/src/macros.ts:554-601 | The expansions of DUP n before the Edo protocol copy slot n, for every n |
| `PoolMacro.PoolExpands` | integration-tests/data/contract_with_sub_mutez.ts:1233-1251 | Expanding the pool script with its ASSERT_SOME macro gives the script that spells the assertion out, instruction by instruction |
| `Macros.LambdaMeans` | packages/taquito-michel-codec/src/macros.ts:178-604 | A lambda the machine calls acts as the direct meaning of the program it was written as, recursive lambdas included |
| `PoolMacro.WithdrawMeans` | integration-tests/data/deposit_contract.ts:1218-1219 | The withdraw lambda with its ASSERT_SOME macro, by the direct meaning of its phrases, computes the specification of withdraw when the script calls it |
| `PoolMacro.PoolMeans` | integration-tests/data/deposit_contract.ts:1218-1219 | The macro form of the pool means what the specification says |
| `Macros.MiStrExpandsToMiObject` | integration-tests/data/contractWithUnpair.ts:61-138 | Expansion takes the macro form of the guessing contract to its expanded form, block by block |
| `Macros.MiStrMeans` | integration-tests/data/contractWithUnpair.ts:6-48 | What the guessing contract does, proved on the expanded form and carried back to the macro form |
| `Multisig.LoopWalks` | integration-tests/data/knownContract.ts:145-282 | The ITER over the keys consumes the signature list in step with the keys |
| `Multisig.MultisigRefines` | integration-tests/data/knownContract.ts:72-323 | The whole script computes the specification, for any lambda, key list and signature oracle |
| `MultisigRuns.MainAcceptsIff` | integration-tests/data/knownContract.ts:81-303 | main succeeds if and only if no tez are attached, the counter matches, there is one slot a key, every present signature is valid for the key at its own position, the threshold is reached, and the lambda does not fail |
| `MultisigRuns.MainEffect` | integration-tests/data/knownContract.ts:283-323 | An accepted main moves the counter on by one and either replaces threshold and keys by those named or keeps them and emits what the lambda answers to unit |
| `MultisigRuns.MessagesDiffer` | integration-tests/data/knownContract.ts:90-124 | Equal signed bytes are for the same contract, counter and action |
| `MultisigRuns.WalkCounts` | integration-tests/data/knownContract.ts:145-282 | The loop ends well if and only if there are enough slots and every signature fits, and then counts those present |
| `MultisigRuns.CounterCounts` | integration-tests/data/knownContract.ts:125-136 | Over every run the stored counter is its start plus the accepted main calls |
| `MultisigRuns.NoPayloadActsTwice` | integration-tests/data/knownContract.ts:81-136 | Two accepted main calls of one run never carry the same signed bytes |
| `MultisigRuns.MultisigContract.Act` | integration-tests/data/knownContract.ts:145-323 | Imperative form: the loop over keys with the remaining signatures and the valid count |
| `MultisigRuns.MultisigContract.Serve` | integration-tests/data/knownContract.ts:72-323 | A whole run of calls leaves the state of the specification and advances the counter by the number of actions |
| `Scripts.MultisigScriptRuns` | integration-tests/data/knownContract.ts:72-323 | Any run of the script leaves the encoding of what the specification leaves |
| `PermitSet.PermitSetRefines` | integration-tests/data/permit_admin_42_set.ts:8-119 | The whole script computes the specification |
| `PermitSetRuns.PermitAcceptedIff` | integration-tests/data/permit_admin_42_set.ts:12-72 | A permit is accepted if and only if its signature fits the packed chain id, contract, counter and hash; it is added to those of the account of the key and the counter moves on by one |
| `PermitSetRuns.WrappedAcceptedIff` | integration-tests/data/permit_admin_42_set.ts:73-119 | wrapped is accepted if and only if it names 42 and the administrator has a permit for it, which is removed |
| `PermitSetRuns.MessagesDiffer` | integration-tests/data/permit_admin_42_set.ts:23-36 | Equal signed bytes are for the same chain, contract, counter and hash |
| `PermitSetRuns.UsesArePaidFor` | integration-tests/data/permit_admin_42_set.ts:12-119 | Over every run the counter is its start plus the accepted permits, and accepted uses of wrapped plus what is pending balance renewals plus what was pending |
| `PermitSetRuns.UseNeedsNewPermit` | integration-tests/data/permit_admin_42_set.ts:73-119 | Between two accepted uses of wrapped the administrator key has had a new permit accepted |
| `PermitSetRuns.NoMessageTwice` | integration-tests/data/permit_admin_42_set.ts:12-72 | No signed message is accepted twice, the counter being inside the signed bytes |
| `PermitSetRuns.PermitContract.Permit` | integration-tests/data/permit_admin_42_set.ts:12-72 | Imperative form of permit |
| `PermitSetRuns.PermitContract.Wrapped` | integration-tests/data/permit_admin_42_set.ts:73-119 | Imperative form of wrapped |
| `PermitSetRuns.PermitContract.Serve` | integration-tests/data/permit_admin_42_set.ts:8-119 | A whole run of calls leaves the state of the specification |
| `Scripts.PermitSetScriptRuns` | integration-tests/data/permit_admin_42_set.ts:8-119 | Any run of the script leaves the encoding of what the specification leaves |
| `PermitExpiry.PermitExpiryRefines` | integration-tests/data/permit_admin_42_expiry.ts:16-392 | The whole script computes the specification, all four entrypoints |
| `PermitExpiryRuns.PermitAcceptedIff` | integration-tests/data/permit_admin_42_expiry.ts:21-93 | A permit is accepted if and only if its signature fits the packed chain id, contract, counter and hash; it is entered for the account of the key with the current time and no expiry of its own |
| `PermitExpiryRuns.WrappedAcceptedIff` | integration-tests/data/permit_admin_42_expiry.ts:299-392 | wrapped is accepted if and only if it names 42 and the caller is the administrator, or a permit of the administrator for this call is there with now < creation + own expiry, or < creation + default expiry if it has none |
| `PermitExpiryRuns.ExpiryAcceptedIff` | integration-tests/data/permit_admin_42_expiry.ts:94-281 | The expiry of one permit is set if and only if that permit is there and the caller is its owner or spends another permit of the owner for this very call that is in time; zero takes the own expiry away |
| `PermitExpiryRuns.DefaultAcceptedIff` | integration-tests/data/permit_admin_42_expiry.ts:282-298 | The default expiry is set if and only if the administrator asks |
| `PermitExpiryRuns.MessagesDiffer` | integration-tests/data/permit_admin_42_expiry.ts:21-56 | Equal signed bytes are for the same chain, contract, counter and hash |
| `PermitExpiryRuns.UsesArePaidFor` | integration-tests/data/permit_admin_42_expiry.ts:94-392 | Over every run the uses of a (user, hash) permit plus what is left balance its submissions while none was pending plus what was there |
| `PermitExpiryRuns.StepKeeps` | integration-tests/data/permit_admin_42_expiry.ts:57-281 | A use happens at a time strictly below creation plus the own expiry of the permit, or plus the default if it has none, and removes only that permit; nothing else changes which permits there are or when they were created |
| `PermitExpiryRuns.PermitsCanBeReplayed` | integration-tests/data/permit_admin_42_expiry.ts:21-56 | The counter is signed but never advanced: after any run a submission is accepted if and only if its signature fits the message of the first day |
| `PermitExpiryRuns.UserExpiryIsNeverRead` | integration-tests/data/permit_admin_42_expiry.ts:94-281 | Two storages that differ only in the expiries stored with the users accept the same calls and keep the same permits, over every run |
| `PermitExpiryRuns.ExpiringPermits.Permit` | integration-tests/data/permit_admin_42_expiry.ts:21-93 | Imperative form of permit |
| `PermitExpiryRuns.ExpiringPermits.Spend` | integration-tests/data/permit_admin_42_expiry.ts:94-171 | Imperative form of using a permit, shared by setExpiry and wrapped |
| `PermitExpiryRuns.ExpiringPermits.SetExpiry` | integration-tests/data/permit_admin_42_expiry.ts:94-281 | Imperative form of setExpiry |
| `PermitExpiryRuns.ExpiringPermits.DefaultExpiry` | integration-tests/data/permit_admin_42_expiry.ts:282-298 | Imperative form of defaultExpiry |
| `PermitExpiryRuns.ExpiringPermits.Wrapped` | integration-tests/data/permit_admin_42_expiry.ts:299-392 | Imperative form of wrapped |
| `PermitExpiryRuns.ExpiringPermits.Serve` | integration-tests/data/permit_admin_42_expiry.ts:16-392 | A whole run of calls leaves the state of the specification |
| `Scripts.PermitExpiryScriptRuns` | integration-tests/data/permit_admin_42_expiry.ts:16-392 | Any run of the script leaves the encoding of what the specification leaves |
| `TicketWallet.WalletRefines` | integration-tests/data/code_with_ticket_proto14.ts:181-284 | The whole wallet script computes the specification: join on receipt, split on sending |
| `TicketWalletRuns.TicketsAreConserved` | integration-tests/data/code_with_ticket_proto14.ts:193-277 | Over every run the tickets held of each ticketer are those at the start plus received minus sent, and every coin lies under its own ticketer; the manager stays |
| `TicketWalletRuns.OnlyCallersFail` | integration-tests/data/code_with_ticket_proto14.ts:193-277 | In every reachable state a call without tez fails only for its own fault, so the failures after JOIN_TICKETS, SPLIT_TICKET and the second GET_AND_UPDATE are unreachable |
| `TicketWalletRuns.Wallet.Receive` | integration-tests/data/code_with_ticket_proto14.ts:193-228 | Imperative form of receive |
| `TicketWalletRuns.Wallet.Send` | integration-tests/data/code_with_ticket_proto14.ts:229-277 | Imperative form of send: coin taken out, split, rest put back |
| `TicketWalletRuns.Wallet.Serve` | integration-tests/data/code_with_ticket_proto14.ts:181-284 | A whole run of calls leaves the state of the specification and conserves the tickets of each ticketer |
| `Scripts.WalletScriptRuns` | integration-tests/data/code_with_ticket_proto14.ts:181-284 | Any run of the script leaves the encoding of what the specification leaves |
| `DutchAuction.DutchRefines` | integration-tests/data/code_with_ticket_proto14.ts:417-1166 | The whole Dutch auction script computes the specification |
| `DutchAuctionRuns.BuyAcceptedIff` | integration-tests/data/code_with_ticket_proto14.ts:435-659 | buy is accepted if and only if somebody other than the administrator attaches exactly the price while the auction is in progress with a ticket and no more than round seconds have passed; tez to the administrator, ticket to the buyer |
| `DutchAuctionRuns.CancelAcceptedIff` | integration-tests/data/code_with_ticket_proto14.ts:660-773 | cancel is accepted if and only if the administrator calls it while the auction is in progress with a ticket, which is given back |
| `DutchAuctionRuns.ConfigureAcceptedIff` | integration-tests/data/code_with_ticket_proto14.ts:781-856 | configure is accepted if and only if the transaction is the administrator's and no auction is in progress; every field is set from the argument of its name |
| `DutchAuctionRuns.StartAcceptedIff` | integration-tests/data/code_with_ticket_proto14.ts:1023-1163 | start is accepted if and only if the transaction is the administrator's, nothing is in progress, the start time has come and there is a ticket; the round begins now |
| `DutchAuctionRuns.DropAcceptedIff` | integration-tests/data/code_with_ticket_proto14.ts:857-1016 | drop_price is accepted if and only if the administrator names at least the reserve after the round is over; a new round begins |
| `DutchAuctionRuns.SoldInItsRound` | integration-tests/data/code_with_ticket_proto14.ts:435-1163 | In a run from rest every sale happens no more than the round time after an accepted start or drop_price of the run, at the initial price or at one an accepted configure or drop_price has named |
| `DutchAuctionRuns.TicketIsAccountedFor` | integration-tests/data/code_with_ticket_proto14.ts:435-1163 | In every reachable state in_progress implies a ticket at key 0; the amount held is what configure brought in minus what it replaced and what left |
| `DutchAuctionRuns.OneTicketOneOwner` | integration-tests/data/code_with_ticket_proto14.ts:435-773 | Between two calls that hand the ticket out there is a configure that brought in the second |
| `DutchAuctionRuns.RoundOverIsFinal` | integration-tests/data/code_with_ticket_proto14.ts:435-1163 | Once a round is over, over every later run nothing but a drop_price or cancel of the administrator changes anything, whoever calls what: no buy, configure or start is accepted |
| `DutchAuctionRuns.BuyOrDrop` | integration-tests/data/code_with_ticket_proto14.ts:435-1016 | On every storage and at every moment at most one of buy and drop_price is accepted |
| `DutchAuctionRuns.IncomeOverRun` | integration-tests/data/code_with_ticket_proto14.ts:435-659 | Over every run the tez sent to the administrator is the sum of the prices in force at the sales, and at least r a sale if the administrator names no price below r in configure or drop_price |
| `DutchAuctionRuns.DroppedPriceKeepsReserve` | integration-tests/data/code_with_ticket_proto14.ts:857-1016 | A price set by drop_price stays at or above the reserve until the administrator configures again |
| `DutchAuctionRuns.PriceKeepsReserve` | integration-tests/data/code_with_ticket_proto14.ts:781-1016 | The price is at or above the reserve over every run that starts so or with an accepted drop and in which the administrator configures no opening price below its reserve |
| `DutchAuctionRuns.PriceFallsIff` | integration-tests/data/code_with_ticket_proto14.ts:857-1016 | Between two configurations of the administrator the price never rises in a run if and only if every accepted drop_price names at most the price in force |
| `DutchAuctionRuns.DropMayRaise` | integration-tests/data/code_with_ticket_proto14.ts:857-1016 | When its guards hold drop_price accepts exactly the prices from the reserve up, a higher price included |
| `DutchAuctionRuns.DutchContract.Buy` | integration-tests/data/code_with_ticket_proto14.ts:435-659 | Imperative form of buy |
| `DutchAuctionRuns.DutchContract.Cancel` | integration-tests/data/code_with_ticket_proto14.ts:660-773 | Imperative form of cancel |
| `DutchAuctionRuns.DutchContract.Configure` | integration-tests/data/code_with_ticket_proto14.ts:781-856 | Imperative form of configure |
| `DutchAuctionRuns.DutchContract.DropPrice` | integration-tests/data/code_with_ticket_proto14.ts:857-1016 | Imperative form of drop_price |
| `DutchAuctionRuns.DutchContract.Start` | integration-tests/data/code_with_ticket_proto14.ts:1023-1163 | Imperative form of start |
| `DutchAuctionRuns.DutchContract.Serve` | integration-tests/data/code_with_ticket_proto14.ts:417-1166 | A whole run of calls leaves the state of the specification, with a ticket whenever the auction is in progress |
| `Scripts.DutchScriptRuns` | integration-tests/data/code_with_ticket_proto14.ts:417-1166 | Any run of the script leaves the encoding of what the specification leaves |

## Left out

- The libraries (type checker, encoder, forger, signers, and the parser but for macro expansion), the network examples, configuration and the website: none of their logic is in these programs.
- Types, annotations, gas, storage fees and big map laziness: the machine is untyped, and an ill-typed program is stuck.
- COMPARE orders addresses by their text; the programs only ever test such comparisons for equality. Of the other comparable types COMPARE is left out.
- Cryptography: signature checks and key hashes are arbitrary functions.
- The auction's administrator entrypoint: its argument has the empty type `never`, so it cannot be called; it is part of the script and of no call.
- Token metadata of the FA2 ledger is text keyed by text; TZIP-16 contents are not read by the script.
- Transfers take effect in the step that emits them; the receivers' own code is not part of this model, so a token contract that answers with a call back is a further step of the run.
- Zero-amount tickets are allowed, as in the protocol these scripts are written for.
- The step constants, add, id and test_failwith views, `fa2_contract.ts` (its loop reads a balance snapshot, so it conserves nothing), the Sapling contracts, and the small or duplicate contracts.
- Of the macro expander: annotations other than those of SET_C[AD]+R (type annotations and several variable annotations of that macro too), the error values for misplaced arguments, and CAR n and CDR n (which become GET). DI..IP and DU..UP after the Edo protocol are the machine's DIP n and DUP n.
- Of the type checker: what SET_C[AD]+R expands to, on pairs of two components; right combs written with more, and all other instructions, are left out.
