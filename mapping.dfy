/** The handlers of the earlier, single-file mapping. They differ from the
    Pool data source's handlers in two ways: no protocol is created for the
    emitting address, and the liquidation, withdrawal and deposit handlers
    ask for the "AAVEV3" protocol after loading the market and take the
    record's protocol from it. Since loading a market already makes sure
    that protocol exists, that request changes nothing and answers with the
    market's own protocol, so both handler sets share one effect per event. */
module LegacyMappings {
  import opened Schema
  import opened Keys
  import opened Events
  import opened Helpers
  import opened Effects

  method HandleBorrow(st: Store, e: BorrowEvent)
    requires st.Valid()
    modifies st
    ensures st.Valid()
    ensures st.State() == BorrowEffect(old(st.State()), e)
  {
    ghost var db := st.State();
    MarketOfValid(db, e.log.address);
    AccountOfKeyed(db, e.user);
    var market := st.GetMarket(e.log.address);
    ghost var loaded := st.State();
    AccountOfAfterMarket(db, e.log.address, e.user);
    var borrower := st.GetAccount(e.user);
    ghost var read := borrower;
    borrower := borrower.(hasBorrowed := true);
    st.SaveAccount(borrower);
    ghost var flagged := st.State();

    var aTokenStats := st.UpdateCommonATokenStats(market.id, borrower.id, e.log.txHash,
                                                  e.log.timestamp, e.log.blockNumber, e.log.logIndex);
    BorrowEffectAsRun(db, e, loaded, read, flagged, aTokenStats);
    aTokenStats := aTokenStats.(totalUnderlyingBorrowed := aTokenStats.totalUnderlyingBorrowed + e.amount);
    st.SaveAccountAToken(aTokenStats);

    var borrowId := BorrowKey(e.log.txHash);
    var borrow := Borrow(borrowId, market.id, borrower.id, e.onBehalfOf, e.amount, e.borrowRate,
                         e.interestRateMode, e.log.blockNumber, e.log.timestamp);
    st.SaveBorrow(borrow);
    BorrowEffectValid(db, e);
  }

  method HandleRepay(st: Store, e: RepayEvent)
    requires st.Valid()
    modifies st
    ensures st.Valid()
    ensures st.State() == RepayEffect(old(st.State()), e)
  {
    ghost var db := st.State();
    MarketOfValid(db, e.log.address);
    AccountOfKeyed(db, e.user);
    AccountOfKeyed(db, e.repayer);
    var market := st.GetMarket(e.log.address);
    AccountOfAfterMarket(db, e.log.address, e.user);
    var account := st.GetAccount(e.user);
    AccountOfAfterMarket(db, e.log.address, e.repayer);
    AccountOfAfterAccount(WithMarket(db, e.log.address), e.user, e.repayer);
    var repayer := st.GetAccount(e.repayer);
    ghost var loaded := st.State();

    var aTokenStats := st.UpdateCommonATokenStats(market.id, account.id, e.log.txHash,
                                                  e.log.timestamp, e.log.blockNumber, e.log.logIndex);
    RepayEffectAsRun(db, e, loaded, aTokenStats);
    aTokenStats := aTokenStats.(totalUnderlyingRepaid := aTokenStats.totalUnderlyingRepaid + e.amount);
    st.SaveAccountAToken(aTokenStats);

    var repayId := RecordKey(e.log.txHash, e.log.transactionLogIndex);
    var repay := Repay(repayId, market.id, e.amount, account.id, repayer.id, e.useATokens,
                       e.log.timestamp, e.log.blockNumber);
    st.SaveRepay(repay);
    RepayEffectValid(db, e);
  }

  method HandleLiquidation(st: Store, e: LiquidationCall)
    requires st.Valid()
    modifies st
    ensures st.Valid()
    ensures RateUsable(old(st.State()), e.log.address)
    ensures st.State() == LiquidationEffect(old(st.State()), e)
  {
    ghost var db := st.State();
    LiquidationEffectValid(db, e);
    MarketOfValid(db, e.log.address);
    ProtocolPresentAfterMarket(db, e.log.address);
    AccountOfKeyed(db, e.liquidator);
    AccountOfKeyed(db, e.user);
    var market := st.GetMarket(e.log.address);
    var protocol := st.GetProtocol(ProtocolId);
    var asset := market.depositAsset;
    var amount := e.debtToCover;
    var collateralAmount := e.liquidatedCollateralAmount;
    AccountOfAfterMarket(db, e.log.address, e.liquidator);
    var liquidator := st.GetAccount(e.liquidator);
    AccountOfAfterMarket(db, e.log.address, e.user);
    AccountOfAfterAccount(WithMarket(db, e.log.address), e.liquidator, e.user);
    var liquidatee := st.GetAccount(e.user);
    var liquidationId := RecordKey(e.log.txHash, e.log.transactionLogIndex);
    var received := CalculateLiquidationProfit(market.liquidityRate, amount);

    var liquidation := Liquidation(liquidationId, protocol.id, market.id, asset, e.collateralAsset,
                                   amount, e.debtAsset, collateralAmount, liquidator.id, liquidatee.id,
                                   market.id, received, e.log.blockNumber, e.log.timestamp);
    st.SaveLiquidation(liquidation);
  }

  method HandleWithdraw(st: Store, e: WithdrawEvent)
    requires st.Valid()
    modifies st
    ensures st.Valid()
    ensures st.State() == WithdrawEffect(old(st.State()), e)
  {
    ghost var db := st.State();
    WithdrawEffectValid(db, e);
    MarketOfValid(db, e.reserve);
    ProtocolPresentAfterMarket(db, e.reserve);
    AccountOfKeyed(db, e.user);
    var market := st.GetMarket(e.reserve);
    var protocol := st.GetProtocol(ProtocolId);
    AccountOfAfterMarket(db, e.reserve, e.user);
    var user := st.GetAccount(e.user);
    var to := st.GetAccount(e.to);
    var amount := e.amount;
    var withdrawId := RecordKey(e.log.txHash, e.log.transactionLogIndex);

    var withdrawal := Withdraw(withdrawId, market.depositAsset, amount, user.id, market.id,
                               e.log.blockNumber, e.log.timestamp, protocol.id, market.id);
    st.SaveWithdraw(withdrawal);
  }

  method HandleDeposit(st: Store, e: Supply)
    requires st.Valid()
    modifies st
    ensures st.Valid()
    ensures st.State() == DepositEffect(old(st.State()), e)
  {
    ghost var db := st.State();
    DepositEffectValid(db, e);
    MarketOfValid(db, e.reserve);
    ProtocolPresentAfterMarket(db, e.reserve);
    AccountOfKeyed(db, e.user);
    AccountOfKeyed(db, e.onBehalfOf);
    var market := st.GetMarket(e.reserve);
    var protocol := st.GetProtocol(ProtocolId);
    AccountOfAfterMarket(db, e.reserve, e.user);
    var user := st.GetAccount(e.user);
    AccountOfAfterMarket(db, e.reserve, e.onBehalfOf);
    AccountOfAfterAccount(WithMarket(db, e.reserve), e.user, e.onBehalfOf);
    var onBehalfOf := st.GetAccount(e.onBehalfOf);
    var amount := e.amount;
    var referralCode := e.referralCode;
    var depositId := RecordKey(e.log.txHash, e.log.transactionLogIndex);

    var deposit := Deposit(depositId, market.depositAsset, amount, user.id, market.id, onBehalfOf.id,
                           e.log.blockNumber, e.log.timestamp, market.id, protocol.id, referralCode);
    st.SaveDeposit(deposit);
  }

  // Events the mapping subscribes to but ignores.

  method HandleIsolationModeTotalDebtUpdated(st: Store, e: IsolationModeTotalDebtUpdated)
    ensures st.State() == old(st.State())
  {
  }

  method HandleRebalanceStableBorrowRate(st: Store, e: RebalanceStableBorrowRate)
    ensures st.State() == old(st.State())
  {
  }

  method HandleSwapBorrowRateMode(st: Store, e: SwapBorrowRateMode)
    ensures st.State() == old(st.State())
  {
  }
}
