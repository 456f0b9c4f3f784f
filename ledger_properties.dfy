/**
 * Properties of the ledger that relate several operations: market orders undo
 * each other exactly, a trade does not change what a wallet is worth, approvals
 * move value by the request's amount, and a decided request can never be
 * decided again.  The worked examples of a buy, a sell, a refused buy, a
 * refused withdrawal and a gold lock approved once are checked at the end.
 */
module LedgerProperties {
  import opened Common
  import opened AccountModels
  import opened InvestmentModels
  import opened Store
  import opened InvestmentViews

  // ----- Orders -----

  /** Selling what was just bought, at the same price, gives back a solvent wallet exactly. */
  lemma BuyThenSellRestores(w: Wallet, amount: real, value: real)
    requires Solvent(w)
    requires Settle(w, TransactionTypeCode(Buy), amount, value).Ok?
    ensures Settle(Settle(w, TransactionTypeCode(Buy), amount, value).value,
                   TransactionTypeCode(Sell), amount, value) == Ok(w)
  {
  }

  /** Buying back what was just sold, at the same price, gives back a solvent wallet exactly. */
  lemma SellThenBuyRestores(w: Wallet, amount: real, value: real)
    requires Solvent(w)
    requires Settle(w, TransactionTypeCode(Sell), amount, value).Ok?
    ensures Settle(Settle(w, TransactionTypeCode(Sell), amount, value).value,
                   TransactionTypeCode(Buy), amount, value) == Ok(w)
  {
  }

  /** A market order trades cash for gold at the current price, so the wallet is worth as much after it. */
  lemma SettleKeepsNetWorth(w: Wallet, transactionType: string, amount: real, price: real)
    requires Settle(w, transactionType, amount, amount * price).Ok?
    ensures NetWorth(Settle(w, transactionType, amount, amount * price).value, price) == NetWorth(w, price)
  {
  }

  /** A market order placed through the view keeps the wallet's worth at the price it was placed at. */
  lemma PlaceOrderKeepsNetWorth(w: Wallet, user: UserId, req: OrderRequest, price: real, now: Time)
    requires PlaceOrder(w, user, req, price, now).Ok?
    ensures NetWorth(PlaceOrder(w, user, req, price, now).value.0, price) == NetWorth(w, price)
  {
  }

  // ----- Approvals -----

  /** An approved deposit raises the wallet's worth by the amount, at any price. */
  lemma DepositRaisesNetWorth(d: DepositRequest, w: Wallet, admin: UserId, now: Time, price: real)
    ensures NetWorth(ReviewDeposit(d, w, ApproveAction, admin, now).1, price) == NetWorth(w, price) + d.amount
  {
  }

  /** An approved withdrawal lowers the wallet's worth by the amount, at any price. */
  lemma WithdrawalLowersNetWorth(d: WithdrawalRequest, w: Wallet, admin: UserId, now: Time, price: real)
    requires ReviewWithdrawal(d, w, ApproveAction, admin, now).Ok?
    ensures NetWorth(ReviewWithdrawal(d, w, ApproveAction, admin, now).value.1, price) == NetWorth(w, price) - d.amount
  {
  }

  /** An approved gold lock takes the locked gold, valued at the price, out of the wallet's worth. */
  lemma GoldLockLowersNetWorth(l: GoldLock, w: Wallet, admin: UserId, now: Time, price: real)
    requires ReviewGoldLock(l, w, ApproveAction, admin, now).Ok?
    ensures NetWorth(ReviewGoldLock(l, w, ApproveAction, admin, now).value.1, price)
            == NetWorth(w, price) - l.amount * price
  {
  }

  /** A deposit or withdrawal request decided as approved or rejected drops out of every approval queryset. */
  lemma FundDecisionIsFinal(caller: User, requests: map<nat, FundRequest>, pk: nat, d: FundRequest,
                            status: RequestStatus, admin: UserId, now: Time)
    requires status != Pending
    ensures pk !in FundApprovalQueryset(caller, requests[pk := DecideFund(d, status, admin, now)])
  {
  }

  /** A gold lock decided as approved or rejected drops out of every approval queryset. */
  lemma LockDecisionIsFinal(caller: User, locks: map<nat, GoldLock>, pk: nat, l: GoldLock,
                            status: RequestStatus, admin: UserId, now: Time)
    requires status != Pending
    ensures pk !in LockApprovalQueryset(caller, locks[pk := DecideLock(l, status, admin, now)])
  {
  }

  /** Approving or rejecting the same deposit twice: once the first call succeeds, the second finds nothing. */
  method DecideDepositTwice(db: Database, caller: UserId, pk: nat, action: string, first: Time, second: Time)
    returns (r1: Result<DepositRequest, ApiError>, r2: Result<DepositRequest, ApiError>)
    requires db.Valid() && caller in db.users
    requires action == ApproveAction || action == RejectAction
    modifies db`deposits, db`wallets
    ensures db.Valid()
    ensures r1.Ok? ==> r2 == Err(NotFound)
  {
    r1 := ApproveDeposit(db, caller, pk, action, first);
    r2 := ApproveDeposit(db, caller, pk, action, second);
  }

  /** Approving or rejecting the same withdrawal twice: once the first call succeeds, the second finds nothing. */
  method DecideWithdrawalTwice(db: Database, caller: UserId, pk: nat, action: string, first: Time, second: Time)
    returns (r1: Result<WithdrawalRequest, ApiError>, r2: Result<WithdrawalRequest, ApiError>)
    requires db.Valid() && caller in db.users
    requires action == ApproveAction || action == RejectAction
    modifies db`withdrawals, db`wallets
    ensures db.Valid()
    ensures r1.Ok? ==> r2 == Err(NotFound)
  {
    r1 := ApproveWithdrawal(db, caller, pk, action, first);
    r2 := ApproveWithdrawal(db, caller, pk, action, second);
  }

  /** Approving or rejecting the same gold lock twice: once the first call succeeds, the second finds nothing. */
  method DecideGoldLockTwice(db: Database, caller: UserId, pk: nat, action: string, first: Time, second: Time)
    returns (r1: Result<GoldLock, ApiError>, r2: Result<GoldLock, ApiError>)
    requires db.Valid() && caller in db.users
    requires action == ApproveAction || action == RejectAction
    modifies db`locks, db`wallets
    ensures db.Valid()
    ensures r1.Ok? ==> r2 == Err(NotFound)
  {
    r1 := ApproveGoldLock(db, caller, pk, action, first);
    r2 := ApproveGoldLock(db, caller, pk, action, second);
  }

  // ----- Worked examples -----

  /** Buying 10 gold at 50.00 with 1000.00 cash and no gold leaves 500.00 and 10 gold, executed. */
  lemma BuyExample(user: UserId, now: Time)
    ensures var r := PlaceOrder(Wallet(user, 1000.0, 0.0), user, OrderRequest("BUY", 10.0, None, None, None), 50.0, now);
            && r.Ok? && r.value.0 == Wallet(user, 500.0, 10.0)
            && r.value.1.status == Executed && r.value.1.executedPrice == Some(50.0)
  {
  }

  /** The same buy as written fails with a server error, and the wallet keeps its 1000.00. */
  lemma BuyExampleAsWritten(user: UserId)
    ensures Settle(Wallet(user, 1000.0, 0.0), "BUY", 10.0, 10.0 * 50.0) == Ok(Wallet(user, 500.0, 10.0))
    ensures SettleAsWritten(Wallet(user, 1000.0, 0.0), "BUY", 10.0, 10.0 * 50.0) == Err(ServerError)
  {
  }

  /** Selling 10 gold at 60.00 out of 500.00 cash and 10 gold leaves 1100.00 and no gold. */
  lemma SellExample(user: UserId, now: Time)
    ensures var r := PlaceOrder(Wallet(user, 500.0, 10.0), user, OrderRequest("SELL", 10.0, None, None, None), 60.0, now);
            && r.Ok? && r.value.0 == Wallet(user, 1100.0, 0.0)
  {
  }

  /** Buying 5 gold at 50.00 with only 100.00 cash is refused for want of cash. */
  lemma RefusedBuyExample(user: UserId, now: Time)
    ensures PlaceOrder(Wallet(user, 100.0, 0.0), user, OrderRequest("BUY", 5.0, None, None, None), 50.0, now)
            == Err(InsufficientBalance)
  {
  }

  /** Approving a withdrawal of 200.00 from 100.00 cash is refused; the request is not decided. */
  lemma RefusedWithdrawalExample(d: WithdrawalRequest, user: UserId, admin: UserId, now: Time)
    requires d.amount == 200.0
    ensures ReviewWithdrawal(d, Wallet(user, 100.0, 0.0), ApproveAction, admin, now) == Err(InsufficientBalance)
  {
  }

  /** Approving a lock of 5 gold out of 5 gold empties the holdings and approves the lock. */
  lemma GoldLockExample(l: GoldLock, user: UserId, admin: UserId, now: Time)
    requires l.amount == 5.0
    ensures var r := ReviewGoldLock(l, Wallet(user, 0.0, 5.0), ApproveAction, admin, now);
            && r.Ok? && r.value.1 == Wallet(user, 0.0, 0.0) && r.value.0.status == Approved
  {
  }
}
