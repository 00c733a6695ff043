/** The entities of the subgraph's store. Every entity is a value: loading one
    from the store yields a copy, and a change becomes visible only when the
    copy is saved back under its id. */
module Schema {

  datatype Option<+T> = None | Some(value: T)

  /** One per user address; `hasBorrowed` is set by the first borrow. */
  datatype Account = Account(id: string, hasBorrowed: bool)

  datatype Protocol = Protocol(id: string, network: string, protocolType: string, riskType: string)

  /** One per pool or reserve address. Only `protocol`, `lastUpdateTimestamp`
      and `liquidityRate` are ever given a value; the rest stay null. */
  datatype Market = Market(
    id: string,
    protocol: string,
    name: Option<string>,
    depositAsset: Option<string>,
    borrowAsset: Option<string>,
    aTokenAddress: Option<string>,
    stableDebtTokenAddress: Option<string>,
    variableDebtTokenAddress: Option<string>,
    interestRateStrategyAddress: Option<string>,
    accruedToTreasury: Option<int>,
    liquidityIndex: Option<int>,
    currentLiquidityRate: Option<int>,
    variableBorrowIndex: Option<int>,
    currentVariableBorrowRate: Option<int>,
    currentStableBorrowRate: Option<int>,
    lastUpdateTimestamp: int,
    unbacked: Option<int>,
    isolationModeTotalDebt: Option<int>,
    liquidityRate: Option<int>)

  /** The position of one account in one market, stored under
      `marketId-accountId`. */
  datatype AccountAToken = AccountAToken(
    id: string,
    market: string,
    account: string,
    accrualBlockNumber: int,
    aTokenBalance: int,
    totalUnderlyingSupplied: int,
    totalUnderlyingRedeemed: int,
    accountBorrowIndex: int,
    totalUnderlyingBorrowed: int,
    totalUnderlyingRepaid: int,
    storedBorrowBalance: int,
    enteredMarket: bool)

  /** The marker written for one log touching one position; `account` holds
      the position's id. */
  datatype AccountATokenTransaction = AccountATokenTransaction(
    id: string,
    account: string,
    txHash: string,
    timestamp: int,
    block: int,
    logIndex: nat)

  datatype Borrow = Borrow(
    id: string,
    market: string,
    borrower: string,
    onBehalfOf: string,
    amount: int,
    borrowRate: int,
    interestRateMode: int,
    blockNumber: int,
    blockTime: int)

  datatype Repay = Repay(
    id: string,
    market: string,
    amount: int,
    borrower: string,
    repayer: string,
    useATokens: bool,
    blockTime: int,
    blockNumber: int)

  datatype Liquidation = Liquidation(
    id: string,
    protocol: string,
    market: string,
    asset: Option<string>,
    collateralAsset: string,
    amount: int,
    debtAsset: string,
    collateralAmount: int,
    liquidator: string,
    from: string,
    to: string,
    received: real,
    blockNumber: int,
    blockTime: int)

  datatype Withdraw = Withdraw(
    id: string,
    asset: Option<string>,
    amount: int,
    to: string,
    from: string,
    blockNumber: int,
    blockTime: int,
    protocol: string,
    market: string)

  datatype Deposit = Deposit(
    id: string,
    asset: Option<string>,
    amount: int,
    from: string,
    to: string,
    onBehalfOf: string,
    blockNumber: int,
    blockTime: int,
    market: string,
    protocol: string,
    referralCode: int)
}
