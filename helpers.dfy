/** The shared helpers of the handlers: fresh entities with their defaults,
    the liquidation-proceeds formula, and the store with its get-or-create,
    marker and position operations. */
module Helpers {
  import opened Schema
  import opened Keys

  const ProtocolId: string := "AAVEV3"
  const Network: string := "Rinkeby"
  const ProtocolType: string := "Pooled"
  const RiskType: string := "Global"
  /** The rate every market is created with; no contract is read for it. */
  const PlaceholderLiquidityRate: int := 50000
  /** Liquidation proceeds treat the rate as parts per million. */
  const ProceedsScale: int := 1000000

  /** The account `createAccount` saves. */
  function NewAccount(accountId: string): Account {
    Account(accountId, false)
  }

  /** `createAccountAToken`: a position with every balance at zero. It is
      returned, not saved. */
  function CreateAccountAToken(id: string, accountId: string, marketId: string): (stats: AccountAToken)
    ensures stats.id == id && stats.market == marketId && stats.account == accountId
    ensures stats.accrualBlockNumber == 0 && stats.aTokenBalance == 0
    ensures stats.totalUnderlyingSupplied == 0 && stats.totalUnderlyingRedeemed == 0
    ensures stats.accountBorrowIndex == 0 && stats.totalUnderlyingBorrowed == 0
    ensures stats.totalUnderlyingRepaid == 0 && stats.storedBorrowBalance == 0
    ensures !stats.enteredMarket
  {
    AccountAToken(id, marketId, accountId, 0, 0, 0, 0, 0, 0, 0, 0, false)
  }

  /** The protocol `createProtocol` saves, under the given id. */
  function NewProtocol(id: string): Protocol {
    Protocol(id, Network, ProtocolType, RiskType)
  }

  /** The market `createMarket` saves, pointing at protocol `protocolId`. */
  function NewMarket(marketId: string, protocolId: string): Market {
    Market(marketId, protocolId, None, None, None, None, None, None, None,
           None, None, None, None, None, None, 0, None, None, Some(PlaceholderLiquidityRate))
  }

  /** `calculateLiquidationProfit`: zero when the rate is null, otherwise the
      debt scaled by a million and divided by the rate. A zero rate is not
      caught by the null test, so callers must not pass one. */
  function CalculateLiquidationProfit(liquidationRate: Option<int>, debt: int): (received: real)
    requires liquidationRate.Some? ==> liquidationRate.value != 0
    ensures liquidationRate.None? ==> received == 0.0
    ensures liquidationRate.Some? ==>
      received * liquidationRate.value as real == debt as real * ProceedsScale as real
  {
    match liquidationRate
    case None => 0.0
    case Some(rate) => debt as real * ProceedsScale as real / rate as real
  }

  lemma LiquidationProfitExamples()
    ensures CalculateLiquidationProfit(Some(500000), 200) == 400.0
    ensures CalculateLiquidationProfit(None, 200) == 0.0
  {
  }

  /** With the placeholder rate the proceeds are twenty times the debt. */
  lemma PlaceholderRateProceeds(debt: int)
    ensures CalculateLiquidationProfit(Some(PlaceholderLiquidityRate), debt) == 20.0 * debt as real
  {
  }

  /** The whole store as a value: one table per entity kind, keyed by id. */
  datatype Db = Db(
    accounts: map<string, Account>,
    markets: map<string, Market>,
    protocols: map<string, Protocol>,
    positions: map<string, AccountAToken>,
    transactions: map<string, AccountATokenTransaction>,
    borrows: map<string, Borrow>,
    repays: map<string, Repay>,
    liquidations: map<string, Liquidation>,
    withdraws: map<string, Withdraw>,
    deposits: map<string, Deposit>)

  const EmptyDb: Db := Db(map[], map[], map[], map[], map[], map[], map[], map[], map[], map[])

  /** Every entry of a table sits under its own id. */
  ghost predicate AccountsKeyed(t: map<string, Account>) {
    forall k :: k in t ==> t[k].id == k
  }

  /** Markets are never changed after `createMarket`. */
  ghost predicate MarketsAsCreated(t: map<string, Market>) {
    forall k :: k in t ==> t[k] == NewMarket(k, ProtocolId)
  }

  /** Protocols are never changed after creation. */
  ghost predicate ProtocolsAsCreated(t: map<string, Protocol>) {
    forall k :: k in t ==> t[k] == NewProtocol(k)
  }

  /** A position sits under its own id. */
  ghost predicate PositionsKeyed(t: map<string, AccountAToken>) {
    forall k :: k in t ==> t[k].id == k
  }

  /** A marker sits under its own id. */
  ghost predicate TransactionsKeyed(t: map<string, AccountATokenTransaction>) {
    forall k :: k in t ==> t[k].id == k
  }

  ghost predicate RecordsKeyed(db: Db) {
    && (forall k :: k in db.borrows ==> db.borrows[k].id == k)
    && (forall k :: k in db.repays ==> db.repays[k].id == k)
    && (forall k :: k in db.liquidations ==> db.liquidations[k].id == k)
    && (forall k :: k in db.withdraws ==> db.withdraws[k].id == k)
    && (forall k :: k in db.deposits ==> db.deposits[k].id == k)
  }

  /** What the handlers keep true of the store: every entity sits under its
      own id; markets and protocols are never changed after creation; a
      market exists only once the "AAVEV3" protocol does. */
  ghost predicate ValidDb(db: Db) {
    && AccountsKeyed(db.accounts)
    && MarketsAsCreated(db.markets)
    && (db.markets != map[] ==> ProtocolId in db.protocols)
    && ProtocolsAsCreated(db.protocols)
    && PositionsKeyed(db.positions)
    && TransactionsKeyed(db.transactions)
    && RecordsKeyed(db)
  }

  lemma EmptyDbValid()
    ensures ValidDb(EmptyDb)
  {
  }

  // Get-or-create, stated on the store value: `XOf` is the entity the helper
  // returns, `WithX` the store after it.

  function AccountOf(db: Db, accountId: string): Account {
    if accountId in db.accounts then db.accounts[accountId] else NewAccount(accountId)
  }

  function AccountsWith(t: map<string, Account>, accountId: string): map<string, Account> {
    if accountId in t then t else t[accountId := NewAccount(accountId)]
  }

  function WithAccount(db: Db, accountId: string): Db {
    db.(accounts := AccountsWith(db.accounts, accountId))
  }

  /** `getProtocol` looks up the given id but, on a miss, creates and returns
      the "AAVEV3" protocol whatever id was asked for. */
  function ProtocolOf(db: Db, protocolId: string): Protocol {
    if protocolId in db.protocols then db.protocols[protocolId] else NewProtocol(ProtocolId)
  }

  function ProtocolsWith(t: map<string, Protocol>, protocolId: string): map<string, Protocol> {
    if protocolId in t then t else t[ProtocolId := NewProtocol(ProtocolId)]
  }

  function WithProtocol(db: Db, protocolId: string): Db {
    db.(protocols := ProtocolsWith(db.protocols, protocolId))
  }

  /** `getOrCreateProtocol(address)` of the newer handlers, keyed by the
      pool's address. */
  function WithProtocolAt(db: Db, address: string): Db {
    db.(protocols := if address in db.protocols then db.protocols
                     else db.protocols[address := NewProtocol(address)])
  }

  /** `getOrCreateProtocol(address)`: the protocol kept under the address,
      or a fresh one keyed by it. */
  function ProtocolAt(db: Db, address: string): Protocol {
    if address in db.protocols then db.protocols[address] else NewProtocol(address)
  }

  function MarketOf(db: Db, marketId: string): Market {
    if marketId in db.markets then db.markets[marketId]
    else NewMarket(marketId, ProtocolOf(db, ProtocolId).id)
  }

  /** `getMarket`: a miss goes through `createMarket`, which first makes sure
      the "AAVEV3" protocol exists. */
  function WithMarket(db: Db, marketId: string): Db {
    db.(markets := if marketId in db.markets then db.markets
                   else db.markets[marketId := MarketOf(db, marketId)],
        protocols := if marketId in db.markets then db.protocols
                     else ProtocolsWith(db.protocols, ProtocolId))
  }

  /** The position `updateCommonATokenStats` starts from: the stored one, or
      a fresh one. */
  function AccountATokenOf(db: Db, marketId: string, accountId: string): AccountAToken {
    var k := PositionKey(marketId, accountId);
    if k in db.positions then db.positions[k] else CreateAccountAToken(k, accountId, marketId)
  }

  function TransactionOf(db: Db, positionId: string, txHash: string, timestamp: int, block: int, logIndex: nat)
    : AccountATokenTransaction
  {
    var k := MarkerKey(positionId, txHash, logIndex);
    if k in db.transactions then db.transactions[k]
    else AccountATokenTransaction(k, positionId, txHash, timestamp, block, logIndex)
  }

  function TransactionsWith(t: map<string, AccountATokenTransaction>, positionId: string, txHash: string,
                            timestamp: int, block: int, logIndex: nat): map<string, AccountATokenTransaction>
  {
    var k := MarkerKey(positionId, txHash, logIndex);
    if k in t then t else t[k := AccountATokenTransaction(k, positionId, txHash, timestamp, block, logIndex)]
  }

  function WithTransaction(db: Db, positionId: string, txHash: string, timestamp: int, block: int, logIndex: nat): Db {
    db.(transactions := TransactionsWith(db.transactions, positionId, txHash, timestamp, block, logIndex))
  }

  // Properties of get-or-create.

  /** `getAccount` returns a stored account untouched, creates a missing one
      with `hasBorrowed = false`, and a second call changes nothing. */
  lemma GetAccountIdempotent(db: Db, accountId: string)
    ensures accountId in db.accounts ==> WithAccount(db, accountId) == db && AccountOf(db, accountId) == db.accounts[accountId]
    ensures accountId !in db.accounts ==>
      WithAccount(db, accountId).accounts == db.accounts[accountId := Account(accountId, false)]
    ensures WithAccount(WithAccount(db, accountId), accountId) == WithAccount(db, accountId)
    ensures AccountOf(WithAccount(db, accountId), accountId) == AccountOf(db, accountId)
  {
  }

  lemma GetMarketIdempotent(db: Db, marketId: string)
    ensures marketId in db.markets ==> WithMarket(db, marketId) == db && MarketOf(db, marketId) == db.markets[marketId]
    ensures WithMarket(WithMarket(db, marketId), marketId) == WithMarket(db, marketId)
    ensures MarketOf(WithMarket(db, marketId), marketId) == MarketOf(db, marketId)
  {
  }

  lemma GetProtocolIdempotent(db: Db)
    ensures ProtocolId in db.protocols ==> WithProtocol(db, ProtocolId) == db
    ensures WithProtocol(WithProtocol(db, ProtocolId), ProtocolId) == WithProtocol(db, ProtocolId)
    ensures ProtocolOf(WithProtocol(db, ProtocolId), ProtocolId) == ProtocolOf(db, ProtocolId)
  {
  }

  /** Asked for any id it does not hold, `getProtocol` answers with the
      "AAVEV3" protocol and stores it under "AAVEV3", not under the id. */
  lemma GetProtocolMissReturnsDefault(db: Db, protocolId: string)
    requires protocolId !in db.protocols
    ensures ProtocolOf(db, protocolId) == Protocol(ProtocolId, "Rinkeby", "Pooled", "Global")
    ensures WithProtocol(db, protocolId).protocols.Keys == db.protocols.Keys + {ProtocolId}
  {
  }

  lemma GetOrCreateProtocolIdempotent(db: Db, address: string)
    ensures address in db.protocols ==> WithProtocolAt(db, address) == db
    ensures address in WithProtocolAt(db, address).protocols
    ensures WithProtocolAt(WithProtocolAt(db, address), address) == WithProtocolAt(db, address)
    ensures ProtocolAt(WithProtocolAt(db, address), address) == ProtocolAt(db, address)
  {
  }

  /** The marker is created only when absent: an existing one is returned as
      stored, even if the call carries another timestamp or block, and the
      store is left as it was. */
  lemma TransactionCreateIfAbsent(db: Db, positionId: string, txHash: string, timestamp: int, block: int, logIndex: nat,
                                  timestamp': int, block': int)
    ensures var db' := WithTransaction(db, positionId, txHash, timestamp, block, logIndex);
      && WithTransaction(db', positionId, txHash, timestamp', block', logIndex) == db'
      && TransactionOf(db', positionId, txHash, timestamp', block', logIndex)
         == TransactionOf(db, positionId, txHash, timestamp, block, logIndex)
      && db'.transactions.Keys == db.transactions.Keys + {MarkerKey(positionId, txHash, logIndex)}
  {
    var k := MarkerKey(positionId, txHash, logIndex);
    var db' := WithTransaction(db, positionId, txHash, timestamp, block, logIndex);
    assert k in db'.transactions;
    assert db'.transactions[k] == TransactionOf(db, positionId, txHash, timestamp, block, logIndex);
  }

  /** A pair never seen before starts from a position at all zeros. */
  lemma FreshAccountATokenDefaults(db: Db, marketId: string, accountId: string)
    requires PositionKey(marketId, accountId) !in db.positions
    ensures var p := AccountATokenOf(db, marketId, accountId);
      && p.id == PositionKey(marketId, accountId) && p.market == marketId && p.account == accountId
      && p.accrualBlockNumber == 0 && !p.enteredMarket
      && p.aTokenBalance == 0 && p.totalUnderlyingSupplied == 0 && p.totalUnderlyingRedeemed == 0
      && p.accountBorrowIndex == 0 && p.totalUnderlyingBorrowed == 0 && p.totalUnderlyingRepaid == 0
      && p.storedBorrowBalance == 0
  {
  }

  /** In a valid store every market, stored or fresh, is the one
      `createMarket` builds: protocol "AAVEV3", rate 50000, timestamp 0 and
      every optional field null. */
  lemma MarketOfValid(db: Db, marketId: string)
    requires ValidDb(db)
    ensures MarketOf(db, marketId) == NewMarket(marketId, ProtocolId)
    ensures var m := MarketOf(db, marketId);
      && m.id == marketId && m.protocol == "AAVEV3" && m.liquidityRate == Some(50000)
      && m.lastUpdateTimestamp == 0 && m.depositAsset.None? && m.borrowAsset.None? && m.name.None?
  {
  }

  /** After `getMarket`, `getProtocol("AAVEV3")` finds the protocol and
      changes nothing. */
  lemma ProtocolPresentAfterMarket(db: Db, marketId: string)
    requires ValidDb(db)
    ensures ProtocolId in WithMarket(db, marketId).protocols
    ensures WithProtocol(WithMarket(db, marketId), ProtocolId) == WithMarket(db, marketId)
    ensures ProtocolOf(WithMarket(db, marketId), ProtocolId) == NewProtocol(ProtocolId)
  {
    if marketId in db.markets {
      assert db.markets != map[];
    }
  }

  // The store's invariant survives every helper.

  lemma WithAccountValid(db: Db, accountId: string)
    requires ValidDb(db)
    ensures ValidDb(WithAccount(db, accountId))
  {
  }

  /** Adding the protocol a given id would be created as keeps the invariant. */
  lemma AddProtocolValid(db: Db, id: string)
    requires ValidDb(db)
    ensures ValidDb(db.(protocols := db.protocols[id := NewProtocol(id)]))
  {
    var t := db.protocols[id := NewProtocol(id)];
    assert ProtocolsAsCreated(t);
  }

  lemma WithProtocolValid(db: Db, protocolId: string)
    requires ValidDb(db)
    ensures ValidDb(WithProtocol(db, protocolId))
  {
    if protocolId !in db.protocols {
      AddProtocolValid(db, ProtocolId);
    }
  }

  lemma WithProtocolAtValid(db: Db, address: string)
    requires ValidDb(db)
    ensures ValidDb(WithProtocolAt(db, address))
  {
    if address !in db.protocols {
      AddProtocolValid(db, address);
    }
  }

  lemma AddMarketValid(db: Db, marketId: string)
    requires ValidDb(db) && ProtocolId in db.protocols
    ensures ValidDb(db.(markets := db.markets[marketId := NewMarket(marketId, ProtocolId)]))
  {
  }

  lemma WithMarketValid(db: Db, marketId: string)
    requires ValidDb(db)
    ensures ValidDb(WithMarket(db, marketId))
  {
    if marketId !in db.markets {
      WithProtocolValid(db, ProtocolId);
      assert MarketOf(db, marketId) == NewMarket(marketId, ProtocolId);
      AddMarketValid(WithProtocol(db, ProtocolId), marketId);
    }
  }

  lemma WithTransactionValid(db: Db, positionId: string, txHash: string, timestamp: int, block: int, logIndex: nat)
    requires ValidDb(db)
    ensures ValidDb(WithTransaction(db, positionId, txHash, timestamp, block, logIndex))
  {
  }

  /** The position `updateCommonATokenStats` starts from carries the pair's
      key as its id. */
  lemma AccountATokenOfKeyed(db: Db, marketId: string, accountId: string)
    requires ValidDb(db)
    ensures AccountATokenOf(db, marketId, accountId).id == PositionKey(marketId, accountId)
  {
  }

  /** Loading a market touches no account. */
  lemma AccountOfAfterMarket(db: Db, marketId: string, accountId: string)
    ensures AccountOf(WithMarket(db, marketId), accountId) == AccountOf(db, accountId)
  {
  }

  /** Loading one account (creating it if absent) does not change what
      loading any account answers. */
  lemma AccountOfAfterAccount(db: Db, first: string, second: string)
    ensures AccountOf(WithAccount(db, first), second) == AccountOf(db, second)
  {
  }

  /** A loaded account carries the id it was asked for. */
  lemma AccountOfKeyed(db: Db, accountId: string)
    requires ValidDb(db)
    ensures AccountOf(db, accountId).id == accountId
  {
  }

  /** In a valid store the protocol kept under an address is the one
      `getOrCreateProtocol` would create for it. */
  lemma ProtocolAtValid(db: Db, address: string)
    requires ValidDb(db)
    ensures ProtocolAt(db, address) == NewProtocol(address)
  {
  }

  /** A loaded marker carries its composite key as its id. */
  lemma TransactionOfKeyed(db: Db, positionId: string, txHash: string, timestamp: int, block: int, logIndex: nat)
    requires ValidDb(db)
    ensures TransactionOf(db, positionId, txHash, timestamp, block, logIndex).id == MarkerKey(positionId, txHash, logIndex)
  {
  }

  // `entity.save()` on the store value: overwrite whatever is under the id.

  function PutAccount(db: Db, account: Account): Db {
    db.(accounts := db.accounts[account.id := account])
  }

  function PutAccountAToken(db: Db, stats: AccountAToken): Db {
    db.(positions := db.positions[stats.id := stats])
  }

  function PutBorrow(db: Db, borrow: Borrow): Db {
    db.(borrows := db.borrows[borrow.id := borrow])
  }

  function PutRepay(db: Db, repay: Repay): Db {
    db.(repays := db.repays[repay.id := repay])
  }

  function PutLiquidation(db: Db, liquidation: Liquidation): Db {
    db.(liquidations := db.liquidations[liquidation.id := liquidation])
  }

  function PutWithdraw(db: Db, withdrawal: Withdraw): Db {
    db.(withdraws := db.withdraws[withdrawal.id := withdrawal])
  }

  function PutDeposit(db: Db, deposit: Deposit): Db {
    db.(deposits := db.deposits[deposit.id := deposit])
  }

  // Saving an entity under its own id keeps the invariant.

  lemma PutAccountValid(db: Db, account: Account)
    requires ValidDb(db)
    ensures ValidDb(PutAccount(db, account))
  {
  }

  lemma PutAccountATokenValid(db: Db, stats: AccountAToken)
    requires ValidDb(db)
    ensures ValidDb(PutAccountAToken(db, stats))
  {
  }

  lemma PutBorrowValid(db: Db, borrow: Borrow)
    requires ValidDb(db)
    ensures ValidDb(PutBorrow(db, borrow))
  {
  }

  lemma PutRepayValid(db: Db, repay: Repay)
    requires ValidDb(db)
    ensures ValidDb(PutRepay(db, repay))
  {
  }

  lemma PutLiquidationValid(db: Db, liquidation: Liquidation)
    requires ValidDb(db)
    ensures ValidDb(PutLiquidation(db, liquidation))
  {
  }

  lemma PutWithdrawValid(db: Db, withdrawal: Withdraw)
    requires ValidDb(db)
    ensures ValidDb(PutWithdraw(db, withdrawal))
  {
  }

  lemma PutDepositValid(db: Db, deposit: Deposit)
    requires ValidDb(db)
    ensures ValidDb(PutDeposit(db, deposit))
  {
  }

  /** The entity store: one table per entity kind. The helpers load, create
      and save through it exactly as the subgraph's store API does. */
  class Store {
    var accounts: map<string, Account>
    var markets: map<string, Market>
    var protocols: map<string, Protocol>
    var positions: map<string, AccountAToken>
    var transactions: map<string, AccountATokenTransaction>
    var borrows: map<string, Borrow>
    var repays: map<string, Repay>
    var liquidations: map<string, Liquidation>
    var withdraws: map<string, Withdraw>
    var deposits: map<string, Deposit>

    function State(): Db
      reads this
    {
      Db(accounts, markets, protocols, positions, transactions, borrows, repays, liquidations, withdraws, deposits)
    }

    ghost predicate Valid()
      reads this
    {
      ValidDb(State())
    }

    constructor ()
      ensures Valid() && State() == EmptyDb
    {
      accounts, markets, protocols, positions, transactions := map[], map[], map[], map[], map[];
      borrows, repays, liquidations, withdraws, deposits := map[], map[], map[], map[], map[];
    }

    // `entity.save()` for each kind.

    method SaveAccount(account: Account)
      modifies this`accounts
      ensures State() == PutAccount(old(State()), account)
    {
      accounts := accounts[account.id := account];
    }

    method SaveAccountAToken(stats: AccountAToken)
      modifies this`positions
      ensures State() == PutAccountAToken(old(State()), stats)
    {
      positions := positions[stats.id := stats];
    }

    method SaveBorrow(borrow: Borrow)
      modifies this`borrows
      ensures State() == PutBorrow(old(State()), borrow)
    {
      borrows := borrows[borrow.id := borrow];
    }

    method SaveRepay(repay: Repay)
      modifies this`repays
      ensures State() == PutRepay(old(State()), repay)
    {
      repays := repays[repay.id := repay];
    }

    method SaveLiquidation(liquidation: Liquidation)
      modifies this`liquidations
      ensures State() == PutLiquidation(old(State()), liquidation)
    {
      liquidations := liquidations[liquidation.id := liquidation];
    }

    method SaveWithdraw(withdrawal: Withdraw)
      modifies this`withdraws
      ensures State() == PutWithdraw(old(State()), withdrawal)
    {
      withdraws := withdraws[withdrawal.id := withdrawal];
    }

    method SaveDeposit(deposit: Deposit)
      modifies this`deposits
      ensures State() == PutDeposit(old(State()), deposit)
    {
      deposits := deposits[deposit.id := deposit];
    }

    method CreateAccount(accountId: string) returns (account: Account)
      modifies this`accounts
      ensures account == NewAccount(accountId) && account.id == accountId && !account.hasBorrowed
      ensures State() == PutAccount(old(State()), account)
    {
      account := Account(accountId, false);
      SaveAccount(account);
    }

    method GetAccount(accountId: string) returns (account: Account)
      modifies this`accounts
      ensures account == AccountOf(old(State()), accountId)
      ensures State() == WithAccount(old(State()), accountId)
    {
      if accountId in accounts {
        account := accounts[accountId];
      } else {
        account := CreateAccount(accountId);
      }
    }

    method CreateProtocol() returns (protocol: Protocol)
      modifies this`protocols
      ensures protocol == NewProtocol(ProtocolId)
      ensures State() == old(State()).(protocols := old(protocols)[ProtocolId := protocol])
    {
      protocol := Protocol(ProtocolId, Network, ProtocolType, RiskType);
      protocols := protocols[protocol.id := protocol];
    }

    method GetProtocol(protocolId: string) returns (protocol: Protocol)
      modifies this`protocols
      ensures protocol == ProtocolOf(old(State()), protocolId)
      ensures State() == WithProtocol(old(State()), protocolId)
    {
      if protocolId in protocols {
        protocol := protocols[protocolId];
      } else {
        protocol := CreateProtocol();
      }
    }

    /** `getOrCreateProtocol(address)`: get-or-create keyed by the address. */
    method GetOrCreateProtocol(address: string) returns (protocol: Protocol)
      modifies this`protocols
      ensures protocol == ProtocolAt(old(State()), address)
      ensures State() == WithProtocolAt(old(State()), address)
    {
      if address in protocols {
        protocol := protocols[address];
      } else {
        protocol := NewProtocol(address);
        protocols := protocols[address := protocol];
      }
    }

    method CreateMarket(marketId: string) returns (market: Market)
      modifies this`markets, this`protocols
      ensures market == NewMarket(marketId, ProtocolOf(old(State()), ProtocolId).id)
      ensures market.liquidityRate == Some(50000) && market.lastUpdateTimestamp == 0
      ensures State() == WithProtocol(old(State()), ProtocolId).(markets := old(markets)[marketId := market])
    {
      var protocol := GetProtocol(ProtocolId);
      market := NewMarket(marketId, protocol.id);
      markets := markets[marketId := market];
    }

    method GetMarket(marketId: string) returns (market: Market)
      modifies this`markets, this`protocols
      ensures market == MarketOf(old(State()), marketId)
      ensures State() == WithMarket(old(State()), marketId)
    {
      if marketId in markets {
        market := markets[marketId];
      } else {
        market := CreateMarket(marketId);
      }
    }

    method GetOrCreateAccountATokenTransaction(positionId: string, txHash: string, timestamp: int, block: int, logIndex: nat)
      returns (transaction: AccountATokenTransaction)
      modifies this`transactions
      ensures transaction == TransactionOf(old(State()), positionId, txHash, timestamp, block, logIndex)
      ensures State() == WithTransaction(old(State()), positionId, txHash, timestamp, block, logIndex)
    {
      var id := MarkerKey(positionId, txHash, logIndex);
      if id in transactions {
        transaction := transactions[id];
      } else {
        transaction := AccountATokenTransaction(id, positionId, txHash, timestamp, block, logIndex);
        transactions := transactions[id := transaction];
      }
    }

    /** Loads or creates the (market, account) position, writes the log's
        marker if absent, and returns the position with its accrual block
        stamped. The position itself is not saved here, and the marker's
        presence does not change what is returned. */
    method UpdateCommonATokenStats(marketId: string, accountId: string, txHash: string,
                                   timestamp: int, blockNumber: int, logIndex: nat)
      returns (stats: AccountAToken)
      modifies this`transactions
      ensures stats == AccountATokenOf(old(State()), marketId, accountId).(accrualBlockNumber := blockNumber)
      ensures State() == WithTransaction(old(State()), PositionKey(marketId, accountId), txHash, timestamp, blockNumber, logIndex)
    {
      var id := PositionKey(marketId, accountId);
      if id in positions {
        stats := positions[id];
      } else {
        stats := CreateAccountAToken(id, accountId, marketId);
      }
      var transaction := GetOrCreateAccountATokenTransaction(id, txHash, timestamp, blockNumber, logIndex);
      stats := stats.(accrualBlockNumber := blockNumber);
    }
  }
}
