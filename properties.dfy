/** What the event handlers promise about the store, stated on the effect
    functions both handler files are proved against. */
module EventProperties {
  import opened Schema
  import opened Keys
  import opened Events
  import opened Helpers
  import opened Effects

  /** Two readings of one position agree on everything the Borrow and Repay
      handlers do not write: its identity, its balances and its flags. */
  predicate UntouchedFieldsAgree(p: AccountAToken, q: AccountAToken) {
    && p.id == q.id && p.market == q.market && p.account == q.account
    && p.aTokenBalance == q.aTokenBalance
    && p.totalUnderlyingSupplied == q.totalUnderlyingSupplied
    && p.totalUnderlyingRedeemed == q.totalUnderlyingRedeemed
    && p.accountBorrowIndex == q.accountBorrowIndex
    && p.storedBorrowBalance == q.storedBorrowBalance
    && p.enteredMarket == q.enteredMarket
  }

  /** Nothing an event does is undone: a set borrowed flag stays set, and no
      position disappears or sees a running total shrink. */
  ghost predicate NeverUndone(before: Db, after: Db) {
    && (forall a :: a in before.accounts && before.accounts[a].hasBorrowed ==>
          a in after.accounts && after.accounts[a].hasBorrowed)
    && (forall k :: k in before.positions ==>
          && k in after.positions
          && after.positions[k].totalUnderlyingBorrowed >= before.positions[k].totalUnderlyingBorrowed
          && after.positions[k].totalUnderlyingRepaid >= before.positions[k].totalUnderlyingRepaid)
  }

  /** The market and protocol tables gain at most the given market and the
      "AAVEV3" protocol, and every entry already there stays as it was. */
  ghost predicate OnlyMarketMaterialised(before: Db, after: Db, marketId: string) {
    && after.markets.Keys == before.markets.Keys + {marketId}
    && (forall k :: k in before.markets ==> after.markets[k] == before.markets[k])
    && after.protocols.Keys == before.protocols.Keys + {ProtocolId}
    && (forall k :: k in before.protocols ==> after.protocols[k] == before.protocols[k])
  }

  /** The marker table gains at most the given key, and every marker already
      there stays as it was. */
  ghost predicate OnlyMarkerAdded(before: Db, after: Db, markerId: string) {
    && after.transactions.Keys == before.transactions.Keys + {markerId}
    && (forall k :: k in before.transactions ==> after.transactions[k] == before.transactions[k])
  }

  /** Loading a market in a valid store adds at most that market and the
      "AAVEV3" protocol. */
  lemma MarketLoadMaterialises(db: Db, marketId: string)
    requires ValidDb(db)
    ensures OnlyMarketMaterialised(db, WithMarket(db, marketId), marketId)
  {
  }

  /** Writing a marker adds at most its key. */
  lemma MarkerWriteAdds(db: Db, positionId: string, txHash: string, timestamp: int, block: int, logIndex: nat)
    ensures OnlyMarkerAdded(db, WithTransaction(db, positionId, txHash, timestamp, block, logIndex),
                            MarkerKey(positionId, txHash, logIndex))
  {
  }

  /** Loading two accounts adds at most those two account keys. */
  lemma TwoAccountsLoaded(db: Db, a: string, b: string)
    ensures WithAccount(WithAccount(db, a), b).accounts.Keys == db.accounts.Keys + {a, b}
  {
  }

  // Borrow

  /** A Borrow adds exactly its amount to the (market, borrower) borrowed
      total and stamps the event's block; the repaid total and every other
      field of the position stay as they were. */
  lemma BorrowAddsAmount(db: Db, e: BorrowEvent)
    requires ValidDb(db)
    ensures var before, after := AccountATokenOf(db, e.log.address, e.user),
                                 AccountATokenOf(BorrowEffect(db, e), e.log.address, e.user);
      && PositionKey(e.log.address, e.user) in BorrowEffect(db, e).positions
      && after.totalUnderlyingBorrowed == before.totalUnderlyingBorrowed + e.amount
      && after.accrualBlockNumber == e.log.blockNumber
      && after.totalUnderlyingRepaid == before.totalUnderlyingRepaid
      && UntouchedFieldsAgree(after, before)
    ensures BorrowEffect(db, e).positions == db.positions[PositionKey(e.log.address, e.user) := BorrowedStats(db, e)]
  {
    AccountATokenOfKeyed(db, e.log.address, e.user);
  }

  /** A Borrow leaves the position of every other (market, account) pair
      alone. */
  lemma BorrowOtherPairUntouched(db: Db, e: BorrowEvent, marketId: string, accountId: string)
    requires ValidDb(db)
    requires IsIdent(e.user) && IsIdent(accountId)
    requires marketId != e.log.address || accountId != e.user
    ensures AccountATokenOf(BorrowEffect(db, e), marketId, accountId) == AccountATokenOf(db, marketId, accountId)
  {
    PositionKeyInjective(marketId, accountId, e.log.address, e.user);
    AccountATokenOfKeyed(db, e.log.address, e.user);
  }

  /** A Borrow saves the borrower flagged and reads back every other account
      as before. */
  lemma BorrowFlagsBorrower(db: Db, e: BorrowEvent)
    requires ValidDb(db)
    ensures var r := BorrowEffect(db, e);
      && e.user in r.accounts && r.accounts[e.user] == Account(e.user, true)
      && (forall a :: a != e.user ==> (a in r.accounts <==> a in db.accounts) && AccountOf(r, a) == AccountOf(db, a))
  {
    AccountOfKeyed(db, e.user);
    var loaded := WithAccount(WithMarket(db, e.log.address), e.user);
    assert BorrowEffect(db, e).accounts == loaded.accounts[e.user := AccountOf(db, e.user).(hasBorrowed := true)];
  }

  /** Apart from the accounts and the position, a Borrow adds at most its
      market, the "AAVEV3" protocol and its marker, and saves its record under
      the transaction hash; the other record tables stay as they were. */
  lemma BorrowWritesOnlyItsKeys(db: Db, e: BorrowEvent)
    requires ValidDb(db)
    ensures var r := BorrowEffect(db, e);
      && e.log.address in r.markets && ProtocolId in r.protocols
      && OnlyMarketMaterialised(db, r, e.log.address)
      && OnlyMarkerAdded(db, r, MarkerKey(PositionKey(e.log.address, e.user), e.log.txHash, e.log.logIndex))
      && e.log.txHash in r.borrows && r.borrows[e.log.txHash] == BorrowRecordOf(e)
      && r.borrows == db.borrows[e.log.txHash := BorrowRecordOf(e)]
      && r.repays == db.repays && r.liquidations == db.liquidations
      && r.withdraws == db.withdraws && r.deposits == db.deposits
  {
    ProtocolPresentAfterMarket(db, e.log.address);
    var m, u := e.log.address, e.user;
    var loaded := WithMarket(db, m);
    MarketLoadMaterialises(db, m);
    var flagged := PutAccount(WithAccount(loaded, u), AccountOf(db, u).(hasBorrowed := true));
    var marked := WithTransaction(flagged, PositionKey(m, u), e.log.txHash, e.log.timestamp, e.log.blockNumber, e.log.logIndex);
    var r := BorrowEffect(db, e);
    assert r.markets == loaded.markets && r.protocols == loaded.protocols;
    assert r.transactions == marked.transactions;
    MarkerWriteAdds(flagged, PositionKey(m, u), e.log.txHash, e.log.timestamp, e.log.blockNumber, e.log.logIndex);
  }

  /** The marker does not gate the update: replaying the same Borrow log adds
      its amount a second time, while the markers stay as first written. */
  lemma BorrowReplayCountsTwice(db: Db, e: BorrowEvent)
    requires ValidDb(db)
    ensures var once := BorrowEffect(db, e);
      var twice := BorrowEffect(once, e);
      && AccountATokenOf(twice, e.log.address, e.user).totalUnderlyingBorrowed
         == AccountATokenOf(db, e.log.address, e.user).totalUnderlyingBorrowed + 2 * e.amount
      && twice.transactions == once.transactions
  {
    var once := BorrowEffect(db, e);
    BorrowEffectValid(db, e);
    BorrowAddsAmount(db, e);
    BorrowAddsAmount(once, e);
    BorrowFlagsBorrower(db, e);
  }

  /** Two Borrows on one pair, one after the other: both amounts are added
      and the accrual block is the second one's. */
  lemma BorrowTwiceOnPair(db: Db, e1: BorrowEvent, e2: BorrowEvent)
    requires ValidDb(db)
    requires e1.log.address == e2.log.address && e1.user == e2.user
    ensures var p := AccountATokenOf(BorrowEffect(BorrowEffect(db, e1), e2), e1.log.address, e1.user);
      && p.totalUnderlyingBorrowed == AccountATokenOf(db, e1.log.address, e1.user).totalUnderlyingBorrowed + e1.amount + e2.amount
      && p.accrualBlockNumber == e2.log.blockNumber
  {
    BorrowEffectValid(db, e1);
    BorrowAddsAmount(db, e1);
    BorrowAddsAmount(BorrowEffect(db, e1), e2);
  }

  /** Two Borrows on one pair reach the same borrowed total in either order;
      the accrual block is that of whichever came last. */
  lemma BorrowTotalsCommute(db: Db, e1: BorrowEvent, e2: BorrowEvent)
    requires ValidDb(db)
    requires e1.log.address == e2.log.address && e1.user == e2.user
    ensures var m, u := e1.log.address, e1.user;
      var r12 := AccountATokenOf(BorrowEffect(BorrowEffect(db, e1), e2), m, u);
      var r21 := AccountATokenOf(BorrowEffect(BorrowEffect(db, e2), e1), m, u);
      && r12.totalUnderlyingBorrowed == r21.totalUnderlyingBorrowed
      && r12.accrualBlockNumber == e2.log.blockNumber
      && r21.accrualBlockNumber == e1.log.blockNumber
  {
    BorrowTwiceOnPair(db, e1, e2);
    BorrowTwiceOnPair(db, e2, e1);
  }

  /** Borrow records are keyed by the transaction hash alone: a second Borrow
      in the same transaction replaces the first one's record. */
  lemma BorrowSameTransactionOverwrites(db: Db, e1: BorrowEvent, e2: BorrowEvent)
    requires e1.log.txHash == e2.log.txHash
    ensures var r := BorrowEffect(BorrowEffect(db, e1), e2);
      && r.borrows.Keys == db.borrows.Keys + {e1.log.txHash}
      && r.borrows[e1.log.txHash] == BorrowRecordOf(e2)
  {
  }

  lemma BorrowNeverUndoes(db: Db, e: BorrowEvent)
    requires ValidDb(db)
    ensures NeverUndone(db, BorrowEffect(db, e))
  {
    AccountATokenOfKeyed(db, e.log.address, e.user);
  }

  // Repay

  /** A Repay adds exactly its amount to the repaid total of the (market,
      user) position and stamps the event's block; nothing else in the
      position changes. */
  lemma RepayAddsAmount(db: Db, e: RepayEvent)
    requires ValidDb(db)
    ensures var before, after := AccountATokenOf(db, e.log.address, e.user),
                                 AccountATokenOf(RepayEffect(db, e), e.log.address, e.user);
      && PositionKey(e.log.address, e.user) in RepayEffect(db, e).positions
      && after.totalUnderlyingRepaid == before.totalUnderlyingRepaid + e.amount
      && after.accrualBlockNumber == e.log.blockNumber
      && after.totalUnderlyingBorrowed == before.totalUnderlyingBorrowed
      && UntouchedFieldsAgree(after, before)
    ensures RepayEffect(db, e).positions == db.positions[PositionKey(e.log.address, e.user) := RepaidStats(db, e)]
  {
    AccountATokenOfKeyed(db, e.log.address, e.user);
  }

  /** A Repay credits the user's position only: the repayer's own position in
      the market, and every other pair's, stay as they were. */
  lemma RepayOtherPairUntouched(db: Db, e: RepayEvent, marketId: string, accountId: string)
    requires ValidDb(db)
    requires IsIdent(e.user) && IsIdent(accountId)
    requires marketId != e.log.address || accountId != e.user
    ensures AccountATokenOf(RepayEffect(db, e), marketId, accountId) == AccountATokenOf(db, marketId, accountId)
  {
    PositionKeyInjective(marketId, accountId, e.log.address, e.user);
    AccountATokenOfKeyed(db, e.log.address, e.user);
  }

  /** A Repay materialises both the user and the repayer but every account
      reads back as before, so no borrowed flag moves. */
  lemma RepayKeepsAccounts(db: Db, e: RepayEvent)
    requires ValidDb(db)
    ensures var r := RepayEffect(db, e);
      && e.user in r.accounts && e.repayer in r.accounts
      && (forall a :: AccountOf(r, a) == AccountOf(db, a))
      && r.accounts.Keys == db.accounts.Keys + {e.user, e.repayer}
  {
    var m := e.log.address;
    var loaded := WithAccount(WithAccount(WithMarket(db, m), e.user), e.repayer);
    assert RepayEffect(db, e).accounts == loaded.accounts;
    TwoAccountsLoaded(WithMarket(db, m), e.user, e.repayer);
  }

  /** Apart from the accounts and the position, a Repay adds at most its
      market, the "AAVEV3" protocol and its marker, and saves its record under
      `txHash-transactionLogIndex`; the other record tables stay as they were. */
  lemma RepayWritesOnlyItsKeys(db: Db, e: RepayEvent)
    requires ValidDb(db)
    ensures var r := RepayEffect(db, e);
      && OnlyMarketMaterialised(db, r, e.log.address)
      && OnlyMarkerAdded(db, r, MarkerKey(PositionKey(e.log.address, e.user), e.log.txHash, e.log.logIndex))
      && RecordKey(e.log.txHash, e.log.transactionLogIndex) in r.repays
      && r.repays[RecordKey(e.log.txHash, e.log.transactionLogIndex)] == RepayRecordOf(e)
      && r.repays == db.repays[RecordKey(e.log.txHash, e.log.transactionLogIndex) := RepayRecordOf(e)]
      && r.borrows == db.borrows && r.liquidations == db.liquidations
      && r.withdraws == db.withdraws && r.deposits == db.deposits
  {
    var m, u := e.log.address, e.user;
    var r := RepayEffect(db, e);
    var loaded := WithAccount(WithAccount(WithMarket(db, m), u), e.repayer);
    var marked := WithTransaction(loaded, PositionKey(m, u), e.log.txHash, e.log.timestamp, e.log.blockNumber, e.log.logIndex);
    assert r.markets == loaded.markets && r.protocols == loaded.protocols;
    assert r.transactions == marked.transactions;
    MarketLoadMaterialises(db, m);
    MarkerWriteAdds(loaded, PositionKey(m, u), e.log.txHash, e.log.timestamp, e.log.blockNumber, e.log.logIndex);
  }

  /** Replaying the same Repay log adds its amount a second time. */
  lemma RepayReplayCountsTwice(db: Db, e: RepayEvent)
    requires ValidDb(db)
    ensures var once := RepayEffect(db, e);
      var twice := RepayEffect(once, e);
      && AccountATokenOf(twice, e.log.address, e.user).totalUnderlyingRepaid
         == AccountATokenOf(db, e.log.address, e.user).totalUnderlyingRepaid + 2 * e.amount
      && twice.transactions == once.transactions
  {
    var once := RepayEffect(db, e);
    RepayEffectValid(db, e);
    RepayAddsAmount(db, e);
    RepayAddsAmount(once, e);
  }

  lemma RepayNeverUndoes(db: Db, e: RepayEvent)
    requires ValidDb(db)
    ensures NeverUndone(db, RepayEffect(db, e))
  {
    AccountATokenOfKeyed(db, e.log.address, e.user);
  }

  // LiquidationCall

  /** The Liquidation record: from the liquidatee to the market, under the
      "AAVEV3" protocol, with proceeds twenty times the debt covered, since
      every market carries the placeholder rate. */
  lemma LiquidationRecorded(db: Db, e: LiquidationCall)
    requires ValidDb(db)
    ensures RateUsable(db, e.log.address)
    ensures var r, id := LiquidationEffect(db, e), RecordKey(e.log.txHash, e.log.transactionLogIndex);
      && id in r.liquidations
      && r.liquidations[id].received == 20.0 * e.debtToCover as real
      && r.liquidations[id].from == e.user && r.liquidations[id].to == e.log.address
      && r.liquidations[id].market == e.log.address && r.liquidations[id].protocol == ProtocolId
      && r.liquidations[id].liquidator == e.liquidator && r.liquidations[id].asset.None?
      && r.liquidations == db.liquidations[id := LiquidationRecordOf(MarketOf(db, e.log.address), e)]
  {
    LiquidationRateUsable(db, e);
    MarketOfValid(db, e.log.address);
    PlaceholderRateProceeds(e.debtToCover);
  }

  /** A LiquidationCall materialises the liquidator and the liquidatee, but every account reads
      back as before, so no borrowed flag moves. */
  lemma LiquidationKeepsAccounts(db: Db, e: LiquidationCall)
    requires ValidDb(db)
    ensures RateUsable(db, e.log.address)
    ensures var r := LiquidationEffect(db, e);
      && e.liquidator in r.accounts && e.user in r.accounts
      && (forall x :: AccountOf(r, x) == AccountOf(db, x))
      && r.accounts.Keys == db.accounts.Keys + {e.liquidator, e.user}
  {
    LiquidationRateUsable(db, e);
    var db1 := WithAccount(WithAccount(WithMarket(db, e.log.address), e.liquidator), e.user);
    assert LiquidationEffect(db, e).accounts == db1.accounts;
    TwoAccountsLoaded(WithMarket(db, e.log.address), e.liquidator, e.user);
  }

  /** Apart from its record and the accounts, a LiquidationCall adds at most its market
      and the "AAVEV3" protocol; no position, marker or other record is
      written. */
  lemma LiquidationWritesOnlyItsKeys(db: Db, e: LiquidationCall)
    requires ValidDb(db)
    ensures RateUsable(db, e.log.address)
    ensures var r := LiquidationEffect(db, e);
      && r.borrows == db.borrows && r.repays == db.repays
      && r.withdraws == db.withdraws && r.deposits == db.deposits
      && r.positions == db.positions && r.transactions == db.transactions
      && OnlyMarketMaterialised(db, r, e.log.address)
  {
    LiquidationRateUsable(db, e);
    var db1 := WithMarket(db, e.log.address);
    var r := LiquidationEffect(db, e);
    assert r.markets == db1.markets && r.protocols == db1.protocols;
    MarketLoadMaterialises(db, e.log.address);
  }

  /** Two liquidations in one transaction at distinct log indices leave two
      distinct records. */
  lemma LiquidationsInOneTransactionKeptApart(db: Db, e1: LiquidationCall, e2: LiquidationCall)
    requires ValidDb(db)
    requires e1.log.txHash == e2.log.txHash && e1.log.transactionLogIndex != e2.log.transactionLogIndex
    ensures RateUsable(LiquidationEffect(db, e1), e2.log.address)
    ensures var r := LiquidationEffect(LiquidationEffect(db, e1), e2);
      var id1, id2 := RecordKey(e1.log.txHash, e1.log.transactionLogIndex), RecordKey(e2.log.txHash, e2.log.transactionLogIndex);
      && id1 != id2
      && id1 in r.liquidations && id2 in r.liquidations
      && r.liquidations[id1] == LiquidationRecordOf(MarketOf(db, e1.log.address), e1)
      && r.liquidations[id2] == LiquidationRecordOf(MarketOf(db, e2.log.address), e2)
  {
    LiquidationEffectValid(db, e1);
    var r1 := LiquidationEffect(db, e1);
    LiquidationRateUsable(r1, e2);
    MarketOfValid(db, e2.log.address);
    MarketOfValid(r1, e2.log.address);
    RecordKeyInjective(e1.log.txHash, e1.log.transactionLogIndex, e2.log.txHash, e2.log.transactionLogIndex);
  }

  // Withdraw and Supply

  /** The Withdraw record: to the withdrawing user, from the reserve's
      market, under the "AAVEV3" protocol. */
  lemma WithdrawRecorded(db: Db, e: WithdrawEvent)
    requires ValidDb(db)
    ensures var r, id := WithdrawEffect(db, e), RecordKey(e.log.txHash, e.log.transactionLogIndex);
      && id in r.withdraws
      && r.withdraws[id].to == e.user && r.withdraws[id].from == e.reserve
      && r.withdraws[id].market == e.reserve && r.withdraws[id].protocol == ProtocolId
      && r.withdraws[id].amount == e.amount && r.withdraws[id].asset.None?
      && r.withdraws == db.withdraws[id := WithdrawRecordOf(MarketOf(db, e.reserve), e)]
  {
    MarketOfValid(db, e.reserve);
  }

  /** A Withdraw materialises the user and the `to` account, but every account reads
      back as before, so no borrowed flag moves. */
  lemma WithdrawKeepsAccounts(db: Db, e: WithdrawEvent)
    requires ValidDb(db)
    ensures var r := WithdrawEffect(db, e);
      && e.user in r.accounts && e.to in r.accounts
      && (forall x :: AccountOf(r, x) == AccountOf(db, x))
      && r.accounts.Keys == db.accounts.Keys + {e.user, e.to}
  {
    var db1 := WithAccount(WithAccount(WithMarket(db, e.reserve), e.user), e.to);
    assert WithdrawEffect(db, e).accounts == db1.accounts;
    TwoAccountsLoaded(WithMarket(db, e.reserve), e.user, e.to);
  }

  /** Apart from its record and the accounts, a Withdraw adds at most the reserve's market
      and the "AAVEV3" protocol; no position, marker or other record is
      written. */
  lemma WithdrawWritesOnlyItsKeys(db: Db, e: WithdrawEvent)
    requires ValidDb(db)
    ensures var r := WithdrawEffect(db, e);
      && r.borrows == db.borrows && r.repays == db.repays
      && r.liquidations == db.liquidations && r.deposits == db.deposits
      && r.positions == db.positions && r.transactions == db.transactions
      && OnlyMarketMaterialised(db, r, e.reserve)
  {
    var db1 := WithMarket(db, e.reserve);
    var r := WithdrawEffect(db, e);
    assert r.markets == db1.markets && r.protocols == db1.protocols;
    MarketLoadMaterialises(db, e.reserve);
  }

  /** The Deposit record of a Supply: from the user to the reserve's market,
      on behalf of the given account, with the referral code. */
  lemma DepositRecorded(db: Db, e: Supply)
    requires ValidDb(db)
    ensures var r, id := DepositEffect(db, e), RecordKey(e.log.txHash, e.log.transactionLogIndex);
      && id in r.deposits
      && r.deposits[id].from == e.user && r.deposits[id].to == e.reserve
      && r.deposits[id].onBehalfOf == e.onBehalfOf
      && r.deposits[id].market == e.reserve && r.deposits[id].protocol == ProtocolId
      && r.deposits[id].amount == e.amount && r.deposits[id].referralCode == e.referralCode
      && r.deposits == db.deposits[id := DepositRecordOf(MarketOf(db, e.reserve), e)]
  {
    MarketOfValid(db, e.reserve);
  }

  /** A Supply materialises the user and the on-behalf-of account, but every account reads
      back as before, so no borrowed flag moves. */
  lemma DepositKeepsAccounts(db: Db, e: Supply)
    requires ValidDb(db)
    ensures var r := DepositEffect(db, e);
      && e.user in r.accounts && e.onBehalfOf in r.accounts
      && (forall x :: AccountOf(r, x) == AccountOf(db, x))
      && r.accounts.Keys == db.accounts.Keys + {e.user, e.onBehalfOf}
  {
    var db1 := WithAccount(WithAccount(WithMarket(db, e.reserve), e.user), e.onBehalfOf);
    assert DepositEffect(db, e).accounts == db1.accounts;
    TwoAccountsLoaded(WithMarket(db, e.reserve), e.user, e.onBehalfOf);
  }

  /** Apart from its record and the accounts, a Supply adds at most the reserve's market
      and the "AAVEV3" protocol; no position, marker or other record is
      written. */
  lemma DepositWritesOnlyItsKeys(db: Db, e: Supply)
    requires ValidDb(db)
    ensures var r := DepositEffect(db, e);
      && r.borrows == db.borrows && r.repays == db.repays
      && r.liquidations == db.liquidations && r.withdraws == db.withdraws
      && r.positions == db.positions && r.transactions == db.transactions
      && OnlyMarketMaterialised(db, r, e.reserve)
  {
    var db1 := WithMarket(db, e.reserve);
    var r := DepositEffect(db, e);
    assert r.markets == db1.markets && r.protocols == db1.protocols;
    MarketLoadMaterialises(db, e.reserve);
  }

  /** The first two steps of the scenario below: from an empty store, a
      deposit and then a borrow by one user in one reserve leave a valid store
      with one Deposit and one Borrow record, no Repay record, the user
      flagged, and the pair's borrowed total at the borrowed amount. */
  lemma DepositThenBorrow(d: Supply, b: BorrowEvent)
    requires d.reserve == b.log.address && d.user == b.user
    ensures var s := BorrowEffect(DepositEffect(EmptyDb, d), b);
      var p := AccountATokenOf(s, b.log.address, b.user);
      && ValidDb(s)
      && s.deposits.Keys == {RecordKey(d.log.txHash, d.log.transactionLogIndex)}
      && s.borrows.Keys == {b.log.txHash} && s.repays == map[]
      && b.user in s.accounts && s.accounts[b.user].hasBorrowed
      && p.totalUnderlyingBorrowed == b.amount && p.totalUnderlyingRepaid == 0
  {
    EmptyDbValid();
    var s1 := DepositEffect(EmptyDb, d);
    DepositEffectValid(EmptyDb, d);
    assert s1.positions == map[];
    BorrowEffectValid(s1, b);
    BorrowAddsAmount(s1, b);
    BorrowFlagsBorrower(s1, b);
  }

  /** From an empty store, a deposit of 100, a borrow of 40 and a repay of 40
      by one user in one reserve leave one record of each kind, the user
      flagged, and the pair's totals at 40 borrowed and 40 repaid. */
  lemma DepositBorrowRepayScenario(d: Supply, b: BorrowEvent, r: RepayEvent)
    requires d.reserve == b.log.address == r.log.address
    requires d.user == b.user == r.user == r.repayer
    requires d.amount == 100 && b.amount == 40 && r.amount == 40
    ensures var s := RepayEffect(BorrowEffect(DepositEffect(EmptyDb, d), b), r);
      var p := AccountATokenOf(s, b.log.address, b.user);
      && |s.deposits| == 1 && |s.borrows| == 1 && |s.repays| == 1
      && b.user in s.accounts && s.accounts[b.user].hasBorrowed
      && p.totalUnderlyingBorrowed == 40 && p.totalUnderlyingRepaid == 40
  {
    var u := b.user;
    DepositThenBorrow(d, b);
    var s2 := BorrowEffect(DepositEffect(EmptyDb, d), b);
    var s3 := RepayEffect(s2, r);
    RepayAddsAmount(s2, r);
    RepayKeepsAccounts(s2, r);
    assert AccountOf(s3, u) == AccountOf(s2, u);
    assert s3.repays.Keys == {RecordKey(r.log.txHash, r.log.transactionLogIndex)};
  }
}
