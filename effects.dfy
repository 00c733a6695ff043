/** What each pool event does to the store, stated on the store value. The
    handlers of both handler files are proved against these functions, and
    the lemmas below state what the handlers promise. */
module Effects {
  import opened Schema
  import opened Keys
  import opened Events
  import opened Helpers

  /** The Borrow record of an event, keyed by the transaction hash alone. */
  function BorrowRecordOf(e: BorrowEvent): Borrow {
    Borrow(BorrowKey(e.log.txHash), e.log.address, e.user, e.onBehalfOf, e.amount,
           e.borrowRate, e.interestRateMode, e.log.blockNumber, e.log.timestamp)
  }

  function RepayRecordOf(e: RepayEvent): Repay {
    var id := RecordKey(e.log.txHash, e.log.transactionLogIndex);
    Repay(id, e.log.address, e.amount, e.user, e.repayer, e.useATokens, e.log.timestamp, e.log.blockNumber)
  }

  /** The Liquidation record: proceeds from the market's stored rate, from the
      liquidatee to the market. */
  function LiquidationRecordOf(market: Market, e: LiquidationCall): Liquidation
    requires market.liquidityRate.Some? ==> market.liquidityRate.value != 0
  {
    var id := RecordKey(e.log.txHash, e.log.transactionLogIndex);
    Liquidation(id, market.protocol, market.id, market.depositAsset, e.collateralAsset, e.debtToCover,
                e.debtAsset, e.liquidatedCollateralAmount, e.liquidator, e.user, market.id,
                CalculateLiquidationProfit(market.liquidityRate, e.debtToCover),
                e.log.blockNumber, e.log.timestamp)
  }

  /** The Withdraw record: to the withdrawing user (not the `to` account),
      from the reserve's market. */
  function WithdrawRecordOf(market: Market, e: WithdrawEvent): Withdraw {
    var id := RecordKey(e.log.txHash, e.log.transactionLogIndex);
    Withdraw(id, market.depositAsset, e.amount, e.user, market.id, e.log.blockNumber, e.log.timestamp,
             market.protocol, market.id)
  }

  function DepositRecordOf(market: Market, e: Supply): Deposit {
    var id := RecordKey(e.log.txHash, e.log.transactionLogIndex);
    Deposit(id, market.depositAsset, e.amount, e.user, market.id, e.onBehalfOf, e.log.blockNumber,
            e.log.timestamp, market.id, market.protocol, e.referralCode)
  }

  /** The (market, borrower) position as the Borrow handler saves it: the
      amount added to its borrowed total and the event's block stamped. */
  function BorrowedStats(db: Db, e: BorrowEvent): AccountAToken {
    var stats := AccountATokenOf(db, e.log.address, e.user).(accrualBlockNumber := e.log.blockNumber);
    stats.(totalUnderlyingBorrowed := stats.totalUnderlyingBorrowed + e.amount)
  }

  /** The (market, user) position as the Repay handler saves it. */
  function RepaidStats(db: Db, e: RepayEvent): AccountAToken {
    var stats := AccountATokenOf(db, e.log.address, e.user).(accrualBlockNumber := e.log.blockNumber);
    stats.(totalUnderlyingRepaid := stats.totalUnderlyingRepaid + e.amount)
  }

  /** Borrow, step by step as the handler runs: the market (keyed by the
      pool address) and the borrower are materialised; the borrower is saved
      flagged; the log's marker is written if absent; the (market, borrower)
      position is saved; the record is saved. */
  function BorrowEffect(db: Db, e: BorrowEvent): (r: Db)
    ensures e.log.address in r.markets && e.user in r.accounts
    ensures r.borrows == db.borrows[BorrowKey(e.log.txHash) := BorrowRecordOf(e)]
    ensures r.repays == db.repays && r.liquidations == db.liquidations && r.withdraws == db.withdraws && r.deposits == db.deposits
  {
    var m, u := e.log.address, e.user;
    var loaded := WithAccount(WithMarket(db, m), u);
    var flagged := PutAccount(loaded, AccountOf(db, u).(hasBorrowed := true));
    var marked := WithTransaction(flagged, PositionKey(m, u), e.log.txHash, e.log.timestamp, e.log.blockNumber, e.log.logIndex);
    PutBorrow(PutAccountAToken(marked, BorrowedStats(db, e)), BorrowRecordOf(e))
  }

  /** The Borrow effect, read as the handler runs it: the account is read
      after the market was loaded and the position after the borrower was
      saved, neither of which touches what is read. */
  lemma BorrowEffectAsRun(db: Db, e: BorrowEvent, loaded: Db, borrower: Account, flagged: Db, stamped: AccountAToken)
    requires loaded == WithMarket(db, e.log.address)
    requires borrower == AccountOf(loaded, e.user)
    requires flagged == PutAccount(WithAccount(loaded, e.user), borrower.(hasBorrowed := true))
    requires stamped == AccountATokenOf(flagged, e.log.address, e.user).(accrualBlockNumber := e.log.blockNumber)
    ensures BorrowEffect(db, e)
         == PutBorrow(PutAccountAToken(WithTransaction(flagged, PositionKey(e.log.address, e.user), e.log.txHash,
                                                       e.log.timestamp, e.log.blockNumber, e.log.logIndex),
                                       stamped.(totalUnderlyingBorrowed := stamped.totalUnderlyingBorrowed + e.amount)),
                      BorrowRecordOf(e))
  {
    AccountOfAfterMarket(db, e.log.address, e.user);
    assert flagged.positions == db.positions;
  }

  /** Repay: the market, the user and the repayer are materialised; the
      marker is written if absent; the (market, user) position is saved; the
      record is saved. No account is saved, so no flag changes. */
  function RepayEffect(db: Db, e: RepayEvent): (r: Db)
    ensures e.log.address in r.markets && e.user in r.accounts && e.repayer in r.accounts
    ensures r.repays == db.repays[RecordKey(e.log.txHash, e.log.transactionLogIndex) := RepayRecordOf(e)]
    ensures r.borrows == db.borrows && r.liquidations == db.liquidations && r.withdraws == db.withdraws && r.deposits == db.deposits
  {
    var m, u := e.log.address, e.user;
    var loaded := WithAccount(WithAccount(WithMarket(db, m), u), e.repayer);
    var marked := WithTransaction(loaded, PositionKey(m, u), e.log.txHash, e.log.timestamp, e.log.blockNumber, e.log.logIndex);
    PutRepay(PutAccountAToken(marked, RepaidStats(db, e)), RepayRecordOf(e))
  }

  /** The Repay effect, read as the handler runs it: the position is read
      once the market and both accounts were loaded, none of which touches
      it. */
  lemma RepayEffectAsRun(db: Db, e: RepayEvent, loaded: Db, stamped: AccountAToken)
    requires loaded == WithAccount(WithAccount(WithMarket(db, e.log.address), e.user), e.repayer)
    requires stamped == AccountATokenOf(loaded, e.log.address, e.user).(accrualBlockNumber := e.log.blockNumber)
    ensures RepayEffect(db, e)
         == PutRepay(PutAccountAToken(WithTransaction(loaded, PositionKey(e.log.address, e.user), e.log.txHash,
                                                      e.log.timestamp, e.log.blockNumber, e.log.logIndex),
                                      stamped.(totalUnderlyingRepaid := stamped.totalUnderlyingRepaid + e.amount)),
                     RepayRecordOf(e))
  {
    assert loaded.positions == db.positions;
  }

  /** The market's rate is null or non-zero, as the proceeds formula needs. */
  predicate RateUsable(db: Db, marketId: string) {
    var rate := MarketOf(db, marketId).liquidityRate;
    rate.Some? ==> rate.value != 0
  }

  /** LiquidationCall: the market, the liquidator and the liquidatee are
      materialised and the record is saved; no position changes. The
      proceeds are computed from the market's rate, which the formula cannot
      take when it is zero. */
  function LiquidationEffect(db: Db, e: LiquidationCall): (r: Db)
    requires RateUsable(db, e.log.address)
    ensures e.log.address in r.markets && e.liquidator in r.accounts && e.user in r.accounts
    ensures r.positions == db.positions && r.transactions == db.transactions
    ensures r.liquidations
         == db.liquidations[RecordKey(e.log.txHash, e.log.transactionLogIndex) := LiquidationRecordOf(MarketOf(db, e.log.address), e)]
    ensures r.borrows == db.borrows && r.repays == db.repays && r.withdraws == db.withdraws && r.deposits == db.deposits
  {
    var m := e.log.address;
    var db1 := WithAccount(WithAccount(WithMarket(db, m), e.liquidator), e.user);
    PutLiquidation(db1, LiquidationRecordOf(MarketOf(db, m), e))
  }

  /** Withdraw: the market is the reserve's; the user and the `to` account
      are materialised; only the record is saved. */
  function WithdrawEffect(db: Db, e: WithdrawEvent): (r: Db)
    ensures e.reserve in r.markets && e.user in r.accounts && e.to in r.accounts
    ensures r.positions == db.positions && r.transactions == db.transactions
    ensures r.withdraws == db.withdraws[RecordKey(e.log.txHash, e.log.transactionLogIndex) := WithdrawRecordOf(MarketOf(db, e.reserve), e)]
    ensures r.borrows == db.borrows && r.repays == db.repays && r.liquidations == db.liquidations && r.deposits == db.deposits
  {
    var db1 := WithAccount(WithAccount(WithMarket(db, e.reserve), e.user), e.to);
    PutWithdraw(db1, WithdrawRecordOf(MarketOf(db, e.reserve), e))
  }

  /** Supply: the market is the reserve's; the user and the on-behalf-of
      account are materialised; only the Deposit record is saved. */
  function DepositEffect(db: Db, e: Supply): (r: Db)
    ensures e.reserve in r.markets && e.user in r.accounts && e.onBehalfOf in r.accounts
    ensures r.positions == db.positions && r.transactions == db.transactions
    ensures r.deposits == db.deposits[RecordKey(e.log.txHash, e.log.transactionLogIndex) := DepositRecordOf(MarketOf(db, e.reserve), e)]
    ensures r.borrows == db.borrows && r.repays == db.repays && r.liquidations == db.liquidations && r.withdraws == db.withdraws
  {
    var db1 := WithAccount(WithAccount(WithMarket(db, e.reserve), e.user), e.onBehalfOf);
    PutDeposit(db1, DepositRecordOf(MarketOf(db, e.reserve), e))
  }

  /** In a valid store every market carries the placeholder rate, so the
      liquidation formula can always be applied. */
  lemma LiquidationRateUsable(db: Db, e: LiquidationCall)
    requires ValidDb(db)
    ensures MarketOf(db, e.log.address).liquidityRate == Some(PlaceholderLiquidityRate)
  {
    MarketOfValid(db, e.log.address);
  }

  // The store invariant survives every event.

  /** Materialising a market and two accounts keeps the invariant. */
  lemma MaterialiseValid(db: Db, marketId: string, first: string, second: string)
    requires ValidDb(db)
    ensures ValidDb(WithAccount(WithAccount(WithMarket(db, marketId), first), second))
  {
    WithMarketValid(db, marketId);
    WithAccountValid(WithMarket(db, marketId), first);
    WithAccountValid(WithAccount(WithMarket(db, marketId), first), second);
  }

  lemma BorrowEffectValid(db: Db, e: BorrowEvent)
    requires ValidDb(db)
    ensures ValidDb(BorrowEffect(db, e))
  {
    var m, u := e.log.address, e.user;
    WithMarketValid(db, m);
    var loaded := WithAccount(WithMarket(db, m), u);
    WithAccountValid(WithMarket(db, m), u);
    var flagged := PutAccount(loaded, AccountOf(db, u).(hasBorrowed := true));
    PutAccountValid(loaded, AccountOf(db, u).(hasBorrowed := true));
    var marked := WithTransaction(flagged, PositionKey(m, u), e.log.txHash, e.log.timestamp, e.log.blockNumber, e.log.logIndex);
    WithTransactionValid(flagged, PositionKey(m, u), e.log.txHash, e.log.timestamp, e.log.blockNumber, e.log.logIndex);
    PutAccountATokenValid(marked, BorrowedStats(db, e));
    PutBorrowValid(PutAccountAToken(marked, BorrowedStats(db, e)), BorrowRecordOf(e));
  }

  lemma RepayEffectValid(db: Db, e: RepayEvent)
    requires ValidDb(db)
    ensures ValidDb(RepayEffect(db, e))
  {
    var m, u := e.log.address, e.user;
    MaterialiseValid(db, m, u, e.repayer);
    var loaded := WithAccount(WithAccount(WithMarket(db, m), u), e.repayer);
    var marked := WithTransaction(loaded, PositionKey(m, u), e.log.txHash, e.log.timestamp, e.log.blockNumber, e.log.logIndex);
    WithTransactionValid(loaded, PositionKey(m, u), e.log.txHash, e.log.timestamp, e.log.blockNumber, e.log.logIndex);
    PutAccountATokenValid(marked, RepaidStats(db, e));
    PutRepayValid(PutAccountAToken(marked, RepaidStats(db, e)), RepayRecordOf(e));
  }

  lemma LiquidationEffectValid(db: Db, e: LiquidationCall)
    requires ValidDb(db)
    ensures RateUsable(db, e.log.address) && ValidDb(LiquidationEffect(db, e))
  {
    LiquidationRateUsable(db, e);
    MaterialiseValid(db, e.log.address, e.liquidator, e.user);
    PutLiquidationValid(WithAccount(WithAccount(WithMarket(db, e.log.address), e.liquidator), e.user),
                        LiquidationRecordOf(MarketOf(db, e.log.address), e));
  }

  lemma WithdrawEffectValid(db: Db, e: WithdrawEvent)
    requires ValidDb(db)
    ensures ValidDb(WithdrawEffect(db, e))
  {
    MaterialiseValid(db, e.reserve, e.user, e.to);
    PutWithdrawValid(WithAccount(WithAccount(WithMarket(db, e.reserve), e.user), e.to),
                     WithdrawRecordOf(MarketOf(db, e.reserve), e));
  }

  lemma DepositEffectValid(db: Db, e: Supply)
    requires ValidDb(db)
    ensures ValidDb(DepositEffect(db, e))
  {
    MaterialiseValid(db, e.reserve, e.user, e.onBehalfOf);
    PutDepositValid(WithAccount(WithAccount(WithMarket(db, e.reserve), e.user), e.onBehalfOf),
                    DepositRecordOf(MarketOf(db, e.reserve), e));
  }
}
