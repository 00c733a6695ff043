# Aave V3 pool subgraph: store reconciliation

This project models the core of an Aave V3 subgraph. That core is the code that turns decoded
pool events (Borrow, Repay, LiquidationCall, Withdraw, Supply and three ignored
kinds) into entity writes in the indexer's key-value store. The handlers do four
kinds of step. Borrow and Repay do all four. LiquidationCall, Withdraw and Supply only
get-or-create and record. The three ignored kinds do nothing.

- **get-or-create**: it loads or lazily creates an Account, a Market, a Protocol
  and the per-(market, account) position `AccountAToken`;
- **accumulate**: it adds the event amount to a running total on the position and
  stamps the position's accrual block;
- **mark**: it writes a per-log `AccountATokenTransaction` marker, but only if
  none exists yet;
- **record**: it saves one event record under a key built from the transaction
  hash and a log index.

One value is derived: liquidation proceeds are `debt * 1000000 / rate`.

The project's files:

- `keys.dfy` (module `Keys`): the string keys. It renders log indices in decimal and
  joins parts with `-`. Its lemmas show that distinct inputs give distinct keys.
- `schema.dfy` (`Schema`): the entities as datatypes.
- `events.dfy` (`Events`): the decoded events. Each carries the log's address,
  transaction hash, log index, transaction log index, block number and timestamp.
- `helpers.dfy` (`Helpers`): the shared helpers.
  - Fresh entities with their defaults, and the proceeds formula.
  - The store as a value `Db` and the invariant `ValidDb` that the handlers keep.
  - Get-or-create stated on `Db`. `AccountOf`, `MarketOf` and the other `XOf` functions
    give the entity a helper returns. `WithAccount`, `WithMarket` and the other `WithX`
    functions give the store after the helper runs.
  - The class `Store`. It holds one map per entity kind. Its methods are the helpers
    themselves, written as imperative code against those fields.
    - Each get-or-create method (`GetAccount`, `GetProtocol`, `GetOrCreateProtocol`,
      `GetMarket`, `GetOrCreateAccountATokenTransaction`) is proved to return
      `XOf(old(State()))` and to leave the store at `WithX(old(State()))`.
    - `UpdateCommonATokenStats` returns the position from `AccountATokenOf` with its
      accrual block replaced, and leaves the store at `WithTransaction`.
    - Each `SaveX` method returns nothing and leaves the store at `PutX(old(State()), x)`.
    - `CreateAccount`, `CreateProtocol` and `CreateMarket` return the fresh entity and
      leave the store with it written under its id; `CreateMarket` first runs
      `getProtocol("AAVEV3")`.
- `effects.dfy` (`Effects`): for each event, a function `XEffect(db, e)`. It gives the
  store after the handler, built from the helpers' effects in the order the handler
  calls them. The module also proves that each effect keeps the store invariant.
- `properties.dfy` (`EventProperties`): what the handlers promise, stated on the effect
  functions. The promises cover exact accumulation, "nothing else changes", replay
  behaviour, record keys and fields, and the deposit–borrow–repay scenario.
- `pool.dfy` (`PoolMappings`): the handlers of the Pool data source. Each handler is a
  module-level method `HandleX(st: Store, e)` that follows the source statement by
  statement against the store it is given. Each is proved to
  leave the store at `XEffect(WithProtocolAt(old state, event address), e)`, and to keep
  the invariant.
- `mapping.dfy` (`LegacyMappings`): the older handler file, with module-level handlers of
  the same shape. They are proved to
  leave the store at `XEffect(old state, e)`. Its `getProtocol("AAVEV3")` call after
  `getMarket` is shown to change nothing and to return the market's own protocol, so
  both handler files share one effect function per event.

Inputs and conventions:

- Addresses and hashes are strings that hold no `-`.
- Amounts are unbounded integers, and the liquidation proceeds are `real`.
- The store's load and save are reads and writes of the class's map fields.

Behaviour of the code that the model keeps as written:

- The marker's result is ignored (src/helpers.ts:26-33), so replaying a log adds its
  amount again. This is proved as `BorrowReplayCountsTwice` and `RepayReplayCountsTwice`.
- `!liquidationRate` in `calculateLiquidationProfit` is only a null test
  (src/helpers.ts:147); a zero rate reaches the division. The model excludes that case;
  see `Helpers.CalculateLiquidationProfit` under "## Left out".
- Event records are keyed `txHash-transactionLogIndex`, except Borrow records, which are
  keyed by the transaction hash alone. Only the position marker uses `logIndex`.
- Every market points at the "AAVEV3" protocol, which `getProtocol` creates if it is
  missing. The Pool handlers also get-or-create a protocol keyed by the emitting pool's
  address.

## Model

| member | source | states |
|---|---|---|
| Keys.DecimalString | src/helpers.ts:69 | a log index renders as a non-empty string of decimal digits, with no separator |
| Keys.DecimalRoundTrip | src/helpers.ts:69 | reading the rendered digits back gives the index again |
| Keys.DecimalStringInjective | src/mappings/pool.ts:73-76 | two indices render to the same string exactly when they are equal |
| Keys.JoinSplit | src/helpers.ts:21 | `a-b` equals `c-d` exactly when `a = c` and `b = d`, provided `b` and `d` hold no `-` |
| Keys.PositionKey | src/helpers.ts:21 | the position key is `market-account`: the market id, a `-`, then the account id |
| Keys.MarkerKey | src/helpers.ts:65-69 | the marker key is `position-txHash-logIndex`, ending in the decimal digits of the log index |
| Keys.RecordKey | src/mappings/pool.ts:73-76 | the Repay, Liquidation, Withdraw and Deposit key is `txHash-transactionLogIndex`, ending in the decimal digits of the index |
| Keys.BorrowKey | src/mappings/pool.ts:36 | the Borrow key is the transaction hash alone |
| Keys.PositionKeyInjective | src/helpers.ts:21 | distinct (market, account) pairs get distinct position keys, and equal keys mean equal pairs |
| Keys.RecordKeyInjective | src/mappings/pool.ts:73-76 | `txHash-transactionLogIndex` keys are equal exactly when both hash and index are equal, so distinct logs never share a record |
| Keys.MarkerKeyInjective | src/helpers.ts:65-69 | `position-txHash-logIndex` keys are equal exactly when all three parts are equal |
| Helpers.CalculateLiquidationProfit | src/helpers.ts:146-153 | a null rate gives 0; otherwise `received * rate = debt * 1000000`, so the result is the debt scaled by a million and divided by the rate |
| Helpers.CreateAccountAToken | src/helpers.ts:37-55 | the new position carries the given id, market and account, accrual block 0, every balance and total 0 and `enteredMarket` false |
| Helpers.LiquidationProfitExamples | src/helpers.ts:146-153 | rate 500000 with debt 200 gives 400; a null rate gives 0 |
| Helpers.PlaceholderRateProceeds | src/helpers.ts:106 | with the rate 50000 that every market is created with, the proceeds are 20 times the debt |
| Helpers.GetAccountIdempotent | src/helpers.ts:130-136 | a stored account is returned as stored and the store is unchanged; a missing one is created with `hasBorrowed = false`; a second call changes nothing and returns the same account |
| Helpers.GetMarketIdempotent | src/helpers.ts:122-128 | a stored market is returned unchanged with no write; a second call changes nothing and returns the same market |
| Helpers.GetProtocolIdempotent | src/helpers.ts:138-144 | `getProtocol("AAVEV3")` writes nothing when the protocol exists; a second call changes nothing and returns the same protocol |
| Helpers.GetProtocolMissReturnsDefault | src/helpers.ts:138-144 | asked for an id it does not hold, `getProtocol` returns the "AAVEV3"/"Rinkeby"/"Pooled"/"Global" protocol and adds exactly the key "AAVEV3" |
| Helpers.GetOrCreateProtocolIdempotent | src/mappings/pool.ts:16 | the protocol keyed by the pool address is present afterwards; no write happens when it already exists; a second call changes nothing |
| Helpers.TransactionCreateIfAbsent | src/helpers.ts:58-83 | the marker is written only if absent; a second call, even with another timestamp or block, leaves the store unchanged and returns the first marker; exactly the marker key is added |
| Helpers.FreshAccountATokenDefaults | src/helpers.ts:37-55 | a never-seen pair starts from a position keyed `market-account` with the given market and account, accrual block 0, all seven balances 0 and `enteredMarket` false |
| Helpers.MarketOfValid | src/helpers.ts:86-111 | every market, stored or fresh, has protocol "AAVEV3", rate 50000, `lastUpdateTimestamp` 0 and null optional fields |
| Helpers.ProtocolPresentAfterMarket | src/mapping.ts:104-105 | after `getMarket`, the "AAVEV3" protocol exists, and `getProtocol("AAVEV3")` changes nothing and returns it |
| Helpers.WithAccountValid | src/helpers.ts:130-136 | `getAccount` keeps the store invariant |
| Helpers.WithProtocolValid | src/helpers.ts:138-144 | `getProtocol` keeps the store invariant |
| Helpers.WithProtocolAtValid | src/mappings/pool.ts:16 | `getOrCreateProtocol(address)` keeps the store invariant |
| Helpers.WithMarketValid | src/helpers.ts:122-128 | `getMarket`, including the protocol that `createMarket` may create, keeps the store invariant |
| Helpers.WithTransactionValid | src/helpers.ts:58-83 | writing a marker keeps the store invariant |
| Helpers.AccountATokenOfKeyed | src/helpers.ts:21-25 | the position `updateCommonATokenStats` starts from carries the key `market-account` as its id |
| Helpers.AccountOfAfterMarket | src/helpers.ts:122-128 | loading a market does not change what any account load returns |
| Helpers.AccountOfAfterAccount | src/helpers.ts:130-136 | loading one account does not change what any account load returns |
| Helpers.AccountOfKeyed | src/helpers.ts:130-136 | a loaded account carries the id it was asked for |
| Helpers.ProtocolAtValid | src/mappings/pool.ts:16 | the protocol kept under an address is the one `getOrCreateProtocol` creates for it |
| Helpers.TransactionOfKeyed | src/helpers.ts:65-70 | a loaded marker carries its composite key as its id |
| Helpers.Store.SaveAccount | src/mappings/pool.ts:20 | `save()` puts the account under its id and leaves every other table alone |
| Helpers.Store.SaveAccountAToken | src/mappings/pool.ts:34 | `save()` puts the position under its id and leaves every other table alone |
| Helpers.Store.SaveBorrow | src/mappings/pool.ts:49 | `save()` puts the Borrow record under its id and leaves every other table alone |
| Helpers.Store.SaveRepay | src/mappings/pool.ts:90 | `save()` puts the Repay record under its id and leaves every other table alone |
| Helpers.Store.SaveLiquidation | src/mappings/pool.ts:129 | `save()` puts the Liquidation record under its id and leaves every other table alone |
| Helpers.Store.SaveWithdraw | src/mappings/pool.ts:153 | `save()` puts the Withdraw record under its id and leaves every other table alone |
| Helpers.Store.SaveDeposit | src/mappings/pool.ts:180 | `save()` puts the Deposit record under its id and leaves every other table alone |
| Helpers.Store.CreateAccount | src/helpers.ts:6-11 | returns and saves the account with the given id and `hasBorrowed = false` |
| Helpers.Store.GetAccount | src/helpers.ts:130-136 | returns the stored account or the one `createAccount` saves, and leaves the store at `WithAccount` |
| Helpers.Store.CreateProtocol | src/helpers.ts:113-120 | saves and returns "AAVEV3" with network "Rinkeby", type "Pooled" and risk type "Global" |
| Helpers.Store.GetProtocol | src/helpers.ts:138-144 | returns the stored protocol or creates "AAVEV3", and leaves the store at `WithProtocol` |
| Helpers.Store.GetOrCreateProtocol | src/mappings/pool.ts:16 | returns the protocol under the address, creating it if absent, and leaves the store at `WithProtocolAt` |
| Helpers.Store.CreateMarket | src/helpers.ts:86-111 | makes sure the "AAVEV3" protocol exists, then saves and returns the market that points at it, with rate 50000, timestamp 0 and null optional fields |
| Helpers.Store.GetMarket | src/helpers.ts:122-128 | returns the stored market or the one `createMarket` saves, and leaves the store at `WithMarket` |
| Helpers.Store.GetOrCreateAccountATokenTransaction | src/helpers.ts:58-83 | returns the stored marker or a new one, and writes it only if absent |
| Helpers.Store.UpdateCommonATokenStats | src/helpers.ts:13-35 | returns the stored or fresh `market-account` position with only its accrual block replaced; writes the marker if absent and never saves the position |
| Effects.BorrowEffect | src/mappings/pool.ts:15-50 | after a Borrow the market and the borrower exist, the Borrow table gains exactly the event's record under the transaction hash, and the other record tables are unchanged |
| Effects.RepayEffect | src/mappings/pool.ts:53-91 | after a Repay the market, the user and the repayer exist, the Repay table gains exactly the event's record under `txHash-transactionLogIndex`, and the other record tables are unchanged |
| Effects.LiquidationEffect | src/mappings/pool.ts:93-130 | after a LiquidationCall the market, the liquidator and the liquidatee exist, positions and markers are unchanged, the Liquidation table gains exactly the record built from the market's rate, and the other record tables are unchanged |
| Effects.WithdrawEffect | src/mappings/pool.ts:132-154 | after a Withdraw the reserve's market, the user and the `to` account exist, positions and markers are unchanged, the Withdraw table gains exactly the event's record, and the other record tables are unchanged |
| Effects.DepositEffect | src/mappings/pool.ts:156-181 | after a Supply the reserve's market, the user and the on-behalf-of account exist, positions and markers are unchanged, the Deposit table gains exactly the event's record, and the other record tables are unchanged |
| Effects.BorrowEffectAsRun | src/mappings/pool.ts:17-49 | the Borrow effect equals the handler's sequence: the account is read after the market load, and the position after the borrower save |
| Effects.RepayEffectAsRun | src/mappings/pool.ts:55-90 | the Repay effect equals the handler's sequence: the position is read after the market and both accounts are loaded |
| Effects.LiquidationRateUsable | src/mappings/pool.ts:107 | in a valid store the rate the liquidation reads is the placeholder 50000 that `createMarket` sets (src/helpers.ts:106), which is not zero |
| Effects.BorrowEffectValid | src/mappings/pool.ts:15-50 | Borrow keeps the store invariant |
| Effects.RepayEffectValid | src/mappings/pool.ts:53-91 | Repay keeps the store invariant |
| Effects.LiquidationEffectValid | src/mappings/pool.ts:93-130 | LiquidationCall can always compute its proceeds and keeps the store invariant |
| Effects.WithdrawEffectValid | src/mappings/pool.ts:132-154 | Withdraw keeps the store invariant |
| Effects.DepositEffectValid | src/mappings/pool.ts:156-181 | Supply keeps the store invariant |
| EventProperties.MarketLoadMaterialises | src/helpers.ts:122-128 | in a valid store `getMarket` adds at most that market and the "AAVEV3" protocol, and every market and protocol already stored stays as it was |
| EventProperties.MarkerWriteAdds | src/helpers.ts:58-83 | the marker step adds at most its own key, and every marker already stored stays as it was |
| EventProperties.TwoAccountsLoaded | src/helpers.ts:130-136 | two `getAccount` calls add at most the two requested account keys |
| EventProperties.BorrowAddsAmount | src/mappings/pool.ts:22-34 | the (market, user) borrowed total grows by exactly the amount and the accrual block becomes the event's; the repaid total, balances, flags and ids are unchanged; the position is saved; the positions table changes only at the `market-user` key |
| EventProperties.BorrowOtherPairUntouched | src/mappings/pool.ts:22-34 | the position of every other (market, account) pair reads back unchanged |
| EventProperties.BorrowFlagsBorrower | src/mappings/pool.ts:17-20 | the borrower is saved with `hasBorrowed = true`; every other account is present exactly when it was before and reads back as before |
| EventProperties.BorrowWritesOnlyItsKeys | src/mappings/pool.ts:16-49 | the market and the "AAVEV3" protocol exist; the market and protocol tables gain at most the pool's market and "AAVEV3", and existing entries stay as they were; the marker table gains at most the log's marker key; the Borrow table changes only at the bare tx hash, to the event's record; the other record tables are unchanged |
| EventProperties.BorrowReplayCountsTwice | src/helpers.ts:26-33 | replaying one Borrow log adds its amount twice, while the markers stay as first written |
| EventProperties.BorrowTwiceOnPair | src/mappings/pool.ts:31-32 | two Borrows on one pair add both amounts, and the accrual block is the second one's |
| EventProperties.BorrowTotalsCommute | src/mappings/pool.ts:31-32 | two Borrows on one pair give the same borrowed total in either order; the accrual block is that of whichever came last |
| EventProperties.BorrowSameTransactionOverwrites | src/mappings/pool.ts:36 | a second Borrow in the same transaction replaces the first one's record, and exactly one key is added |
| EventProperties.BorrowNeverUndoes | src/mappings/pool.ts:15-50 | no borrowed flag is cleared, no position disappears and no running total shrinks |
| EventProperties.RepayAddsAmount | src/mappings/pool.ts:59-71 | the (market, user) repaid total grows by exactly the amount and the accrual block becomes the event's; the borrowed total and everything else in the position are unchanged; the positions table changes only at the `market-user` key |
| EventProperties.RepayOtherPairUntouched | src/mappings/pool.ts:59-71 | the repayer's own position, and every other pair's, read back unchanged |
| EventProperties.RepayKeepsAccounts | src/mappings/pool.ts:55-57 | both the user and the repayer exist afterwards; the account table gains at most those two keys; every account reads back as before, so no flag moves |
| EventProperties.RepayWritesOnlyItsKeys | src/mappings/pool.ts:55-90 | the market and protocol tables gain at most the pool's market and "AAVEV3", and existing entries stay as they were; the marker table gains at most the log's marker key; the Repay table changes only at `txHash-transactionLogIndex`, to the event's record; the other record tables are unchanged |
| EventProperties.RepayReplayCountsTwice | src/helpers.ts:26-33 | replaying one Repay log adds its amount twice, while the markers stay as first written |
| EventProperties.RepayNeverUndoes | src/mappings/pool.ts:53-91 | no borrowed flag is cleared, no position disappears and no running total shrinks |
| EventProperties.LiquidationRecorded | src/mappings/pool.ts:103-129 | the rate is usable; the record under `txHash-transactionLogIndex` has `received` equal to 20 times `debtToCover`, `from` the liquidatee, `to` and `market` the market, protocol "AAVEV3", the given liquidator and a null asset; the Liquidation table changes only at that key |
| EventProperties.LiquidationKeepsAccounts | src/mappings/pool.ts:99-100 | the liquidator and the liquidatee exist afterwards; the account table gains at most those two keys; every account reads back as before |
| EventProperties.LiquidationWritesOnlyItsKeys | src/mappings/pool.ts:95-129 | the market and protocol tables gain at most the pool's market and "AAVEV3", and existing entries stay as they were; positions, markers and the other record tables are unchanged |
| EventProperties.LiquidationsInOneTransactionKeptApart | src/mappings/pool.ts:103-106 | two liquidations in one transaction at distinct log indices leave two distinct records, each that event's own |
| EventProperties.WithdrawRecorded | src/mappings/pool.ts:138-153 | the record under `txHash-transactionLogIndex` goes to the user, from the reserve's market, under protocol "AAVEV3", with the amount and a null asset; the Withdraw table changes only at that key |
| EventProperties.WithdrawKeepsAccounts | src/mappings/pool.ts:135-136 | the user and the `to` account exist afterwards; the account table gains at most those two keys; every account reads back as before |
| EventProperties.WithdrawWritesOnlyItsKeys | src/mappings/pool.ts:134-153 | the market and protocol tables gain at most the reserve's market and "AAVEV3", and existing entries stay as they were; positions, markers and the other record tables are unchanged |
| EventProperties.DepositRecorded | src/mappings/pool.ts:161-180 | the record under `txHash-transactionLogIndex` goes from the user to the reserve's market, under protocol "AAVEV3", on behalf of the given account, with the amount and referral code; the Deposit table changes only at that key |
| EventProperties.DepositKeepsAccounts | src/mappings/pool.ts:159-160 | the user and the on-behalf-of account exist afterwards; the account table gains at most those two keys; every account reads back as before |
| EventProperties.DepositWritesOnlyItsKeys | src/mappings/pool.ts:158-180 | the market and protocol tables gain at most the reserve's market and "AAVEV3", and existing entries stay as they were; positions, markers and the other record tables are unchanged |
| EventProperties.DepositThenBorrow | src/mappings/pool.ts:15-50 | from an empty store, a deposit then a borrow by one user in one reserve leave a valid store with one Deposit and one Borrow record, no Repay record, the user flagged, and the pair's borrowed total at the borrowed amount |
| EventProperties.DepositBorrowRepayScenario | src/mappings/pool.ts:15-181 | from an empty store, a deposit of 100, a borrow of 40 and a repay of 40 leave one record of each kind, the user flagged, and the pair at 40 borrowed and 40 repaid |
| PoolMappings.HandleBorrow | src/mappings/pool.ts:15-50 | keeps the invariant and leaves the store at the Borrow effect, applied after the pool-address protocol is created |
| PoolMappings.HandleRepay | src/mappings/pool.ts:53-91 | keeps the invariant and leaves the store at the Repay effect, applied after the pool-address protocol is created |
| PoolMappings.HandleLiquidationCall | src/mappings/pool.ts:93-130 | the market's rate is usable; keeps the invariant and leaves the store at the LiquidationCall effect |
| PoolMappings.HandleWithdraw | src/mappings/pool.ts:132-154 | keeps the invariant and leaves the store at the Withdraw effect, with the market keyed by the reserve |
| PoolMappings.HandleDeposit | src/mappings/pool.ts:156-181 | keeps the invariant and leaves the store at the Supply effect, with the market keyed by the reserve |
| PoolMappings.HandleIsolationModeTotalDebtUpdated | src/mappings/pool.ts:184-186 | the store is unchanged |
| PoolMappings.HandleRebalanceStableBorrowRate | src/mappings/pool.ts:188-190 | the store is unchanged |
| PoolMappings.HandleSwapBorrowRateMode | src/mappings/pool.ts:192 | the store is unchanged |
| LegacyMappings.HandleBorrow | src/mapping.ts:16-51 | keeps the invariant and leaves the store at the Borrow effect |
| LegacyMappings.HandleRepay | src/mapping.ts:61-98 | keeps the invariant and leaves the store at the Repay effect |
| LegacyMappings.HandleLiquidation | src/mapping.ts:103-143 | the rate is usable; keeps the invariant and leaves the store at the LiquidationCall effect, with the protocol id from `getProtocol("AAVEV3")` |
| LegacyMappings.HandleWithdraw | src/mapping.ts:145-167 | keeps the invariant and leaves the store at the Withdraw effect |
| LegacyMappings.HandleDeposit | src/mapping.ts:169-194 | keeps the invariant and leaves the store at the Supply effect |
| LegacyMappings.HandleIsolationModeTotalDebtUpdated | src/mapping.ts:53-55 | the store is unchanged |
| LegacyMappings.HandleRebalanceStableBorrowRate | src/mapping.ts:57-59 | the store is unchanged |
| LegacyMappings.HandleSwapBorrowRateMode | src/mapping.ts:100 | the store is unchanged |

## Left out

- `src/mappings/poolAddressesProviderRegistry.ts` is not part of this model. It only
  registers a data-source template with the indexing runtime, which is a foreign call.
- Conversions from the indexer's types are left out: `toHexString`, `toHex`,
  `toBigDecimal` and `toI32`.
  - Ids are strings that hold no `-`.
  - Amounts are unbounded integers.
  - Block numbers and timestamps are stored as given; the truncation to 32 bits in the
    records is not modelled.
  - Decimal precision and rounding are not modelled. The proceeds are exact `real`
    division.
- `new BigInt(50000)` (src/helpers.ts:106), `new BigInt(0)` (src/helpers.ts:148) and
  `new BigInt(1000000)` (src/helpers.ts:151) are read as the integers they name, and
  `new BigDecimal(...)` of them as the same value. The library's own meaning of those
  constructors is not visible here. Another reading is possible: in the indexer's
  library `BigInt` extends `Uint8Array`, so `new BigInt(50000)` may be a 50000-byte
  zero buffer, that is a rate of zero, and every liquidation on a created market would
  then divide by zero. `Effects.LiquidationRateUsable` and the 20 × debt proceeds in
  `EventProperties.LiquidationRecorded` hold only under the integer reading.
- Helpers.CalculateLiquidationProfit: requires a rate other than `Some(0)`. On a zero
  rate the source divides by zero (src/helpers.ts:150-152), and what the library does
  then is not visible here. Every market the handlers create has the rate 50000, so no
  handler reaches that case (`Effects.LiquidationRateUsable`).
- `getOrCreateMarket` and `getOrCreateAccount`, which src/mappings/pool.ts:13 imports,
  are not defined in src/helpers.ts, so their bodies are not part of this model. The
  Pool handlers use `getMarket` (src/helpers.ts:122-128) and `getAccount`
  (src/helpers.ts:130-136) in their place (`Helpers.Store.GetMarket`,
  `Helpers.Store.GetAccount`).
- The body of `getOrCreateProtocol(address)` is not part of this model. It is modelled
  as a get-or-create keyed by the address that stores the protocol constants of
  `createProtocol` under that id.
- The two handler files write to differently named record types. Both are modelled
  with one set of record tables, one per kind.
- Schema fields that no handler ever sets are always null. These are the Market's asset,
  token-address, rate and index fields.
- Persistence, event decoding and delivery, chain reorganisations and concurrent
  delivery are left out. The store is a value that the handlers run against one at a time.
- Helpers.ValidDb records that each position and marker sits under its own id. It does
  not record how that id is built. Facts about a key's structure come from `Keys` and
  need each address to hold no `-`.
- Helpers.Store.GetAccount, Helpers.Store.GetMarket, Helpers.Store.GetOrCreateProtocol and
  Helpers.Store.UpdateCommonATokenStats state only the entity they return and the store
  they leave, and not that the store invariant is kept. The `With…Valid` and
  `…Keyed` lemmas state the invariant and id facts, and the handlers use those lemmas.
