/** The handlers of the current Pool data source. Each first makes sure a
    protocol keyed by the emitting pool's address exists, then does what the
    effect function of its event describes. */
module PoolMappings {
  import opened Schema
  import opened Keys
  import opened Events
  import opened Helpers
  import opened Effects

  method HandleBorrow(st: Store, e: BorrowEvent)
    requires st.Valid()
    modifies st
    ensures st.Valid()
    ensures st.State() == BorrowEffect(WithProtocolAt(old(st.State()), e.log.address), e)
  {
    WithProtocolAtValid(st.State(), e.log.address);
    var _ := st.GetOrCreateProtocol(e.log.address);
    ghost var db := st.State();
    MarketOfValid(db, e.log.address);
    AccountOfKeyed(db, e.user);
    var market := st.GetMarket(e.log.address);
    ghost var loaded := st.State();
    var borrower := st.GetAccount(e.user);
    ghost var read := borrower;
    AccountOfAfterMarket(db, e.log.address, e.user);
    borrower := borrower.(hasBorrowed := true);
    st.SaveAccount(borrower);
    ghost var flagged := st.State();

    var aTokenStats := st.UpdateCommonATokenStats(market.id, borrower.id, e.log.txHash,
                                                  e.log.timestamp, e.log.blockNumber, e.log.logIndex);
    BorrowEffectAsRun(db, e, loaded, read, flagged, aTokenStats);
    aTokenStats := aTokenStats.(totalUnderlyingBorrowed := aTokenStats.totalUnderlyingBorrowed + e.amount);
    st.SaveAccountAToken(aTokenStats);

    var borrowId := BorrowKey(e.log.txHash);
    var borrow := Borrow(borrowId, market.id, borrower.id, e.onBehalfOf, e.amount, e.borrowRate,
                         e.interestRateMode, e.log.blockNumber, e.log.timestamp);
    st.SaveBorrow(borrow);
    BorrowEffectValid(db, e);
  }

  method HandleRepay(st: Store, e: RepayEvent)
    requires st.Valid()
    modifies st
    ensures st.Valid()
    ensures st.State() == RepayEffect(WithProtocolAt(old(st.State()), e.log.address), e)
  {
    WithProtocolAtValid(st.State(), e.log.address);
    var _ := st.GetOrCreateProtocol(e.log.address);
    ghost var db := st.State();
    MarketOfValid(db, e.log.address);
    AccountOfKeyed(db, e.user);
    AccountOfKeyed(db, e.repayer);
    var market := st.GetMarket(e.log.address);
    AccountOfAfterMarket(db, e.log.address, e.user);
    var account := st.GetAccount(e.user);
    AccountOfAfterMarket(db, e.log.address, e.repayer);
    AccountOfAfterAccount(WithMarket(db, e.log.address), e.user, e.repayer);
    var repayer := st.GetAccount(e.repayer);
    ghost var loaded := st.State();

    var aTokenStats := st.UpdateCommonATokenStats(market.id, account.id, e.log.txHash,
                                                  e.log.timestamp, e.log.blockNumber, e.log.logIndex);
    RepayEffectAsRun(db, e, loaded, aTokenStats);
    aTokenStats := aTokenStats.(totalUnderlyingRepaid := aTokenStats.totalUnderlyingRepaid + e.amount);
    st.SaveAccountAToken(aTokenStats);

    var repayId := RecordKey(e.log.txHash, e.log.transactionLogIndex);
    var repay := Repay(repayId, market.id, e.amount, account.id, repayer.id, e.useATokens,
                       e.log.timestamp, e.log.blockNumber);
    st.SaveRepay(repay);
    RepayEffectValid(db, e);
  }

  /** The proceeds are computed from the rate of the market as loaded, which
      in a valid store is the non-zero placeholder. */
  method HandleLiquidationCall(st: Store, e: LiquidationCall)
    requires st.Valid()
    modifies st
    ensures st.Valid()
    ensures RateUsable(WithProtocolAt(old(st.State()), e.log.address), e.log.address)
    ensures st.State() == LiquidationEffect(WithProtocolAt(old(st.State()), e.log.address), e)
  {
    WithProtocolAtValid(st.State(), e.log.address);
    var _ := st.GetOrCreateProtocol(e.log.address);
    ghost var db := st.State();
    LiquidationEffectValid(db, e);
    MarketOfValid(db, e.log.address);
    AccountOfKeyed(db, e.liquidator);
    AccountOfKeyed(db, e.user);
    var market := st.GetMarket(e.log.address);
    var asset := market.depositAsset;
    var amount := e.debtToCover;
    var collateralAmount := e.liquidatedCollateralAmount;
    AccountOfAfterMarket(db, e.log.address, e.liquidator);
    var liquidator := st.GetAccount(e.liquidator);
    AccountOfAfterMarket(db, e.log.address, e.user);
    AccountOfAfterAccount(WithMarket(db, e.log.address), e.liquidator, e.user);
    var liquidatee := st.GetAccount(e.user);
    var liquidationId := RecordKey(e.log.txHash, e.log.transactionLogIndex);
    var received := CalculateLiquidationProfit(market.liquidityRate, amount);

    var liquidation := Liquidation(liquidationId, market.protocol, market.id, asset, e.collateralAsset,
                                   amount, e.debtAsset, collateralAmount, liquidator.id, liquidatee.id,
                                   market.id, received, e.log.blockNumber, e.log.timestamp);
    st.SaveLiquidation(liquidation);
  }

  /** The record goes to the withdrawing user; the `to` account is only
      materialised. */
  method HandleWithdraw(st: Store, e: WithdrawEvent)
    requires st.Valid()
    modifies st
    ensures st.Valid()
    ensures st.State() == WithdrawEffect(WithProtocolAt(old(st.State()), e.log.address), e)
  {
    WithProtocolAtValid(st.State(), e.log.address);
    var _ := st.GetOrCreateProtocol(e.log.address);
    ghost var db := st.State();
    WithdrawEffectValid(db, e);
    AccountOfKeyed(db, e.user);
    var market := st.GetMarket(e.reserve);
    AccountOfAfterMarket(db, e.reserve, e.user);
    var user := st.GetAccount(e.user);
    var to := st.GetAccount(e.to);
    var amount := e.amount;
    var withdrawId := RecordKey(e.log.txHash, e.log.transactionLogIndex);

    var withdrawal := Withdraw(withdrawId, market.depositAsset, amount, user.id, market.id,
                               e.log.blockNumber, e.log.timestamp, market.protocol, market.id);
    st.SaveWithdraw(withdrawal);
  }

  method HandleDeposit(st: Store, e: Supply)
    requires st.Valid()
    modifies st
    ensures st.Valid()
    ensures st.State() == DepositEffect(WithProtocolAt(old(st.State()), e.log.address), e)
  {
    WithProtocolAtValid(st.State(), e.log.address);
    var _ := st.GetOrCreateProtocol(e.log.address);
    ghost var db := st.State();
    DepositEffectValid(db, e);
    AccountOfKeyed(db, e.user);
    AccountOfKeyed(db, e.onBehalfOf);
    var market := st.GetMarket(e.reserve);
    AccountOfAfterMarket(db, e.reserve, e.user);
    var user := st.GetAccount(e.user);
    AccountOfAfterMarket(db, e.reserve, e.onBehalfOf);
    AccountOfAfterAccount(WithMarket(db, e.reserve), e.user, e.onBehalfOf);
    var onBehalfOf := st.GetAccount(e.onBehalfOf);
    var amount := e.amount;
    var referralCode := e.referralCode;
    var depositId := RecordKey(e.log.txHash, e.log.transactionLogIndex);

    var deposit := Deposit(depositId, market.depositAsset, amount, user.id, market.id, onBehalfOf.id,
                           e.log.blockNumber, e.log.timestamp, market.id, market.protocol, referralCode);
    st.SaveDeposit(deposit);
  }

  // Events the subgraph subscribes to but ignores.

  method HandleIsolationModeTotalDebtUpdated(st: Store, e: IsolationModeTotalDebtUpdated)
    ensures st.State() == old(st.State())
  {
  }

  method HandleRebalanceStableBorrowRate(st: Store, e: RebalanceStableBorrowRate)
    ensures st.State() == old(st.State())
  {
  }

  method HandleSwapBorrowRateMode(st: Store, e: SwapBorrowRateMode)
    ensures st.State() == old(st.State())
  {
  }
}
