/** The decoded pool events the handlers receive, reduced to the fields they
    read. Addresses and hashes are their hex strings; unsigned amounts are
    naturals. */
module Events {

  /** What the indexing runtime attaches to every log: the emitting contract,
      the transaction, the log's index in its block and in its transaction,
      and the block. */
  datatype LogMeta = LogMeta(
    address: string,
    txHash: string,
    logIndex: nat,
    transactionLogIndex: nat,
    blockNumber: nat,
    timestamp: nat)

  datatype BorrowEvent = BorrowEvent(
    log: LogMeta,
    user: string,
    onBehalfOf: string,
    amount: nat,
    borrowRate: nat,
    interestRateMode: int)

  datatype RepayEvent = RepayEvent(
    log: LogMeta,
    user: string,
    repayer: string,
    amount: nat,
    useATokens: bool)

  datatype LiquidationCall = LiquidationCall(
    log: LogMeta,
    collateralAsset: string,
    debtAsset: string,
    user: string,
    debtToCover: nat,
    liquidatedCollateralAmount: nat,
    liquidator: string)

  datatype WithdrawEvent = WithdrawEvent(
    log: LogMeta,
    reserve: string,
    user: string,
    to: string,
    amount: nat)

  datatype Supply = Supply(
    log: LogMeta,
    reserve: string,
    user: string,
    onBehalfOf: string,
    amount: nat,
    referralCode: int)

  datatype IsolationModeTotalDebtUpdated = IsolationModeTotalDebtUpdated(
    log: LogMeta,
    asset: string,
    totalDebt: nat)

  datatype RebalanceStableBorrowRate = RebalanceStableBorrowRate(
    log: LogMeta,
    reserve: string,
    user: string)

  datatype SwapBorrowRateMode = SwapBorrowRateMode(
    log: LogMeta,
    reserve: string,
    user: string,
    interestRateMode: int)
}
