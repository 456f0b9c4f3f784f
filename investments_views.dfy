/**
 * The views of the investments app that change or value the ledger: market and
 * deferred orders, portfolio snapshots, alert soft-deletion, price publication
 * and the administrators' approval of deposits, withdrawals and gold locks.
 * Each view runs as one atomic step: it answers an error and leaves every table
 * as it was, or it performs all of its writes.
 */
module InvestmentViews {
  import opened Common
  import opened AccountModels
  import opened InvestmentModels
  import opened Store

  /** The errors the views answer with; `ServerError` is an exception nothing catches. */
  datatype ApiError = NoGoldPrice | InsufficientBalance | InsufficientGoldHoldings | NotFound | Forbidden | ServerError

  // ----- Permissions and querysets -----

  /** The HTTP methods that only read. */
  const SafeMethods: set<string> := {"GET", "HEAD", "OPTIONS"}

  /**
   * `IsAdminOrReadOnly`: reads are open to everyone; anything else needs a
   * signed-in administrator.  `None` is the anonymous caller.
   */
  predicate HasPermission(httpMethod: string, caller: Option<User>): (allowed: bool)
    ensures httpMethod in SafeMethods ==> allowed
    ensures caller.None? ==> (allowed <==> httpMethod in SafeMethods)
    ensures allowed && httpMethod !in SafeMethods ==> caller.Some? && caller.value.isAdmin
    ensures caller.Some? && caller.value.isAdmin ==> allowed
  {
    httpMethod in SafeMethods || (caller.Some? && caller.value.isAdmin)
  }

  /** The approve views see a request only when the caller is an admin and it is still pending. */
  predicate Approvable(caller: User, status: RequestStatus) {
    caller.isAdmin && status == Pending
  }

  /** The keys the deposit and withdrawal approve views can find. */
  function FundApprovalQueryset(caller: User, requests: map<nat, FundRequest>): (r: set<nat>)
    ensures forall k :: k in r <==> k in requests && caller.isAdmin && requests[k].status == Pending
    ensures !caller.isAdmin ==> r == {}
  {
    set k | k in requests && Approvable(caller, requests[k].status)
  }

  /** The keys the gold-lock approve view can find. */
  function LockApprovalQueryset(caller: User, locks: map<nat, GoldLock>): (r: set<nat>)
    ensures forall k :: k in r <==> k in locks && caller.isAdmin && locks[k].status == Pending
    ensures !caller.isAdmin ==> r == {}
  {
    set k | k in locks && Approvable(caller, locks[k].status)
  }

  /** The alerts `PriceAlertView` lists and can delete for `user`: theirs, still active. */
  function ActiveAlerts(alerts: map<nat, PriceAlert>, user: UserId): (r: set<nat>)
    ensures forall k :: k in r <==> k in alerts && alerts[k].user == user && alerts[k].isActive
  {
    set k | k in alerts && alerts[k].user == user && alerts[k].isActive
  }

  // ----- Valuation -----

  /** What a wallet is worth at a gold price: cash plus gold at that price. */
  function NetWorth(w: Wallet, price: real): real {
    w.balance + w.goldHoldings * price
  }

  /** The snapshot `PortfolioSnapshotView` stores for a wallet at the current price. */
  function Snapshot(user: UserId, w: Wallet, price: real, date: Time): (s: PortfolioSnapshot)
    ensures s.user == user && s.date == date && s.goldPrice == price
    ensures s.cashBalance == w.balance && s.goldHoldings == w.goldHoldings
    ensures s.goldValue == s.goldHoldings * s.goldPrice
    ensures s.totalValue == s.cashBalance + s.goldValue == NetWorth(w, price)
    ensures Solvent(w) && price >= 0.0 ==> 0.0 <= s.cashBalance <= s.totalValue && s.goldValue >= 0.0
  {
    var goldValue := w.goldHoldings * price;
    PortfolioSnapshot(user, date, w.balance + goldValue, w.balance, goldValue, w.goldHoldings, price)
  }

  // ----- Orders -----

  /** The fields `TransactionListCreateView.create` reads from the request. */
  datatype OrderRequest = OrderRequest(
    transactionType: string, amount: real, orderType: Option<string>,
    limitPrice: Option<real>, stopPrice: Option<real>)

  /** The order type of a request: "MARKET" when the field is absent. */
  function RequestedOrderType(req: OrderRequest): (code: string)
    ensures req.orderType.None? ==> code == OrderTypeCode(DefaultOrderType)
    ensures req.orderType.Some? ==> code == req.orderType.value
  {
    req.orderType.GetOr(OrderTypeCode(Market))
  }

  /**
   * Whether a market order cannot be covered by the wallet: a BUY whose cost
   * exceeds the cash, or a SELL of more gold than is held.  `value` is the
   * order's worth at the current price, `amount * price`.
   */
  predicate Shortfall(w: Wallet, transactionType: string, amount: real, value: real) {
    || (transactionType == TransactionTypeCode(Buy) && w.balance < value)
    || (transactionType == TransactionTypeCode(Sell) && w.goldHoldings < amount)
  }

  /**
   * The wallet effect of a market order worth `value` (that is, `amount * price`):
   * a BUY pays `value` for `amount` gold, a SELL the reverse, any other type
   * moves nothing.
   */
  function Settle(w: Wallet, transactionType: string, amount: real, value: real): (r: Result<Wallet, ApiError>)
    ensures r.Err? <==> Shortfall(w, transactionType, amount, value)
    ensures r.Err? ==> r.error == if transactionType == TransactionTypeCode(Buy)
                                  then InsufficientBalance else InsufficientGoldHoldings
    ensures r.Ok? && transactionType == TransactionTypeCode(Buy) ==>
              r.value.balance == w.balance - value && r.value.goldHoldings == w.goldHoldings + amount
    ensures r.Ok? && transactionType == TransactionTypeCode(Sell) ==>
              r.value.balance == w.balance + value && r.value.goldHoldings == w.goldHoldings - amount
    ensures transactionType !in {TransactionTypeCode(Buy), TransactionTypeCode(Sell)} ==> r == Ok(w)
    ensures r.Ok? ==> r.value.owner == w.owner
    ensures r.Ok? && Solvent(w) && amount >= 0.0 && value >= 0.0 ==> Solvent(r.value)
  {
    if transactionType == TransactionTypeCode(Buy) then
      if w.balance < value then Err(InsufficientBalance)
      else Ok(w.(balance := w.balance - value, goldHoldings := w.goldHoldings + amount))
    else if transactionType == TransactionTypeCode(Sell) then
      if w.goldHoldings < amount then Err(InsufficientGoldHoldings)
      else Ok(w.(goldHoldings := w.goldHoldings - amount, balance := w.balance + value))
    else Ok(w)
  }

  /** A positive amount at a price that is not negative is worth nothing negative. */
  lemma OrderValueNonNegative(amount: real, price: real)
    requires amount >= 0.0 && price >= 0.0
    ensures amount * price >= 0.0
  {
  }

  /**
   * The settlement as written.  The guards compare the wallet's decimal columns
   * with floats, which Python allows; the updates then subtract a float from a
   * decimal column (`wallet.balance -= cost`, `wallet.gold_holdings -=
   * float(amount)`), which raises `TypeError`, so every trade that passes its
   * guard fails and the atomic block rolls it back.
   */
  function SettleAsWritten(w: Wallet, transactionType: string, amount: real, value: real): (r: Result<Wallet, ApiError>)
    ensures r.Ok? <==> transactionType !in {TransactionTypeCode(Buy), TransactionTypeCode(Sell)}
    ensures r.Ok? ==> r.value == w
  {
    if transactionType == TransactionTypeCode(Buy) then
      if w.balance < value then Err(InsufficientBalance) else Err(ServerError)
    else if transactionType == TransactionTypeCode(Sell) then
      if w.goldHoldings < amount then Err(InsufficientGoldHoldings) else Err(ServerError)
    else Ok(w)
  }

  /**
   * The settlement as written refuses what `Settle` refuses, with the same
   * error, and fails with a server error on every trade `Settle` performs.
   */
  lemma SettleAsWrittenNeverTrades(w: Wallet, transactionType: string, amount: real, value: real)
    ensures Settle(w, transactionType, amount, value).Err? ==>
              SettleAsWritten(w, transactionType, amount, value) == Settle(w, transactionType, amount, value)
    ensures Settle(w, transactionType, amount, value).Ok? ==>
              SettleAsWritten(w, transactionType, amount, value)
              == if transactionType in {TransactionTypeCode(Buy), TransactionTypeCode(Sell)} then Err(ServerError)
                 else Settle(w, transactionType, amount, value)
  {
  }

  /**
   * What `TransactionListCreateView.create` does once the current price is known:
   * a market order settles at `amount * price` and is logged EXECUTED at that
   * price; any other order type is logged PENDING with its limit and stop
   * prices, leaving the wallet alone.
   */
  function PlaceOrder(w: Wallet, user: UserId, req: OrderRequest, price: real, now: Time)
    : (r: Result<(Wallet, Transaction), ApiError>)
    ensures RequestedOrderType(req) == OrderTypeCode(Market) ==>
              var settled := Settle(w, req.transactionType, req.amount, req.amount * price);
              && (r.Err? <==> settled.Err?)
              && (r.Err? ==> r.error == settled.error)
              && (r.Ok? ==> r.value.0 == settled.value)
              && (r.Ok? ==> r.value.1.status == Executed && r.value.1.executedPrice == Some(price))
              && (r.Ok? ==> r.value.1.limitPrice.None? && r.value.1.stopPrice.None?)
    ensures RequestedOrderType(req) != OrderTypeCode(Market) ==>
              && r.Ok? && r.value.0 == w
              && r.value.1.status == TransactionPending && r.value.1.executedPrice.None?
              && r.value.1.limitPrice == req.limitPrice && r.value.1.stopPrice == req.stopPrice
    ensures r.Ok? ==> var t := r.value.1;
              && t.user == user && t.transactionType == req.transactionType
              && t.orderType == RequestedOrderType(req) && t.amount == req.amount
              && t.priceAtTransaction == price && t.timestamp == now
    ensures r.Ok? ==> r.value.0.owner == w.owner
  {
    var orderType := RequestedOrderType(req);
    if orderType == OrderTypeCode(Market) then
      match Settle(w, req.transactionType, req.amount, req.amount * price)
      case Err(e) => Err(e)
      case Ok(w') =>
        Ok((w', Transaction(user, req.transactionType, orderType, req.amount, None, None,
                            Some(price), now, price, Executed)))
    else
      Ok((w, Transaction(user, req.transactionType, orderType, req.amount, req.limitPrice,
                         req.stopPrice, None, now, price, TransactionPending)))
  }

  /** A market order the wallet cannot cover is refused with the error of `Settle`. */
  lemma MarketOrderRefused(w: Wallet, user: UserId, req: OrderRequest, price: real, now: Time)
    requires RequestedOrderType(req) == OrderTypeCode(Market)
    requires Settle(w, req.transactionType, req.amount, req.amount * price).Err?
    ensures PlaceOrder(w, user, req, price, now) == Err(Settle(w, req.transactionType, req.amount, req.amount * price).error)
  {
  }

  /** A market order the wallet covers is settled and logged EXECUTED at the price. */
  lemma MarketOrderExecuted(w: Wallet, user: UserId, req: OrderRequest, price: real, now: Time, settled: Wallet)
    requires RequestedOrderType(req) == OrderTypeCode(Market)
    requires Settle(w, req.transactionType, req.amount, req.amount * price) == Ok(settled)
    ensures PlaceOrder(w, user, req, price, now)
            == Ok((settled, Transaction(user, req.transactionType, OrderTypeCode(Market), req.amount, None, None,
                                        Some(price), now, price, Executed)))
  {
  }

  /** Any other order type leaves the wallet and is logged PENDING with its limit and stop prices. */
  lemma DeferredOrderRecorded(w: Wallet, user: UserId, req: OrderRequest, price: real, now: Time)
    requires RequestedOrderType(req) != OrderTypeCode(Market)
    ensures PlaceOrder(w, user, req, price, now)
            == Ok((w, Transaction(user, req.transactionType, RequestedOrderType(req), req.amount, req.limitPrice,
                                  req.stopPrice, None, now, price, TransactionPending)))
  {
  }

  /**
   * `TransactionListCreateView.create`.  With no published price it answers
   * `NoGoldPrice`; otherwise it does what `PlaceOrder` says, writing the wallet
   * and appending one transaction, or writing nothing on a shortfall.
   */
  method CreateTransaction(db: Database, user: UserId, req: OrderRequest, now: Time)
    returns (r: Result<Transaction, ApiError>)
    requires db.Valid() && user in db.users
    requires req.amount > 0.0
    modifies db`wallets, db`transactions
    ensures db.Valid()
    ensures Latest(db.prices).None? ==> r == Err(NoGoldPrice) && unchanged(db)
    ensures Latest(db.prices).Some? ==>
              var outcome := PlaceOrder(old(db.wallets[user]), user, req, Latest(db.prices).value.price, now);
              && (outcome.Err? ==> r == Err(outcome.error) && unchanged(db))
              && (outcome.Ok? ==> && r == Ok(outcome.value.1)
                                  && db.wallets == old(db.wallets)[user := outcome.value.0]
                                  && db.transactions == old(db.transactions) + [outcome.value.1])
  {
    var latest := Latest(db.prices);
    if latest.None? {
      return Err(NoGoldPrice);
    }
    var price := latest.value.price;
    var wallet := db.wallets[user];
    ghost var before := wallet;
    assert Solvent(before);
    var orderType := RequestedOrderType(req);
    var transaction;
    if orderType == OrderTypeCode(Market) {
      assert price >= 0.0 by {
        assert PricesValid(db.prices) && latest.value in db.prices;
      }
      OrderValueNonNegative(req.amount, price);
      var value := req.amount * price;
      if req.transactionType == TransactionTypeCode(Buy) {
        var cost := value;
        if wallet.balance < cost {
          MarketOrderRefused(before, user, req, price, now);
          return Err(InsufficientBalance);
        }
        wallet := wallet.(balance := wallet.balance - cost);
        wallet := wallet.(goldHoldings := wallet.goldHoldings + req.amount);
        assert Settle(before, req.transactionType, req.amount, value) == Ok(wallet);
      } else if req.transactionType == TransactionTypeCode(Sell) {
        if wallet.goldHoldings < req.amount {
          MarketOrderRefused(before, user, req, price, now);
          return Err(InsufficientGoldHoldings);
        }
        wallet := wallet.(goldHoldings := wallet.goldHoldings - req.amount);
        wallet := wallet.(balance := wallet.balance + value);
        assert Settle(before, req.transactionType, req.amount, value) == Ok(wallet);
      } else {
        assert Settle(before, req.transactionType, req.amount, value) == Ok(wallet);
      }
      transaction := Transaction(user, req.transactionType, orderType, req.amount, None, None,
                                 Some(price), now, price, Executed);
      MarketOrderExecuted(before, user, req, price, now, wallet);
      WalletUpdateValid(db.users, db.wallets, user, wallet);
      db.wallets := db.wallets[user := wallet];
    } else {
      transaction := Transaction(user, req.transactionType, orderType, req.amount, req.limitPrice,
                                 req.stopPrice, None, now, price, TransactionPending);
      DeferredOrderRecorded(before, user, req, price, now);
    }
    db.transactions := db.transactions + [transaction];
    r := Ok(transaction);
  }

  /**
   * `PortfolioSnapshotView.create`: values the caller's wallet at the current
   * price and appends the snapshot; the wallet is only read.
   */
  method CreateSnapshot(db: Database, user: UserId, today: Time) returns (r: Result<PortfolioSnapshot, ApiError>)
    requires db.Valid() && user in db.users
    modifies db`snapshots
    ensures db.Valid()
    ensures Latest(db.prices).None? ==> r == Err(NoGoldPrice) && unchanged(db)
    ensures Latest(db.prices).Some? ==>
              && r == Ok(Snapshot(user, db.wallets[user], Latest(db.prices).value.price, today))
              && db.snapshots == old(db.snapshots) + [r.value]
  {
    var wallet := db.wallets[user];
    var latest := Latest(db.prices);
    if latest.None? {
      return Err(NoGoldPrice);
    }
    var snapshot := Snapshot(user, wallet, latest.value.price, today);
    db.snapshots := db.snapshots + [snapshot];
    r := Ok(snapshot);
  }

  // ----- Alerts -----

  /**
   * The soft delete of one alert: the row stays, only its `isActive` flag is
   * cleared, so it drops out of its owner's active alerts and of nobody else's.
   */
  function Deactivate(alerts: map<nat, PriceAlert>, pk: nat): (r: map<nat, PriceAlert>)
    requires pk in alerts
    ensures r.Keys == alerts.Keys
    ensures r[pk] == alerts[pk].(isActive := false)
    ensures forall k :: k in alerts && k != pk ==> r[k] == alerts[k]
    ensures forall u :: ActiveAlerts(r, u) == ActiveAlerts(alerts, u) - {pk}
  {
    alerts[pk := alerts[pk].(isActive := false)]
  }

  /**
   * `PriceAlertView.destroy`: only one of the caller's active alerts can be
   * found; it is deactivated, never removed.
   */
  method DestroyAlert(db: Database, caller: UserId, pk: nat) returns (r: Result<(), ApiError>)
    requires db.Valid()
    modifies db`alerts
    ensures db.Valid()
    ensures pk !in ActiveAlerts(old(db.alerts), caller) ==> r == Err(NotFound) && unchanged(db)
    ensures pk in ActiveAlerts(old(db.alerts), caller) ==>
              r == Ok(()) && db.alerts == Deactivate(old(db.alerts), pk)
  {
    if pk !in db.alerts || db.alerts[pk].user != caller || !db.alerts[pk].isActive {
      return Err(NotFound);
    }
    var alert := db.alerts[pk];
    alert := alert.(isActive := false);
    db.alerts := db.alerts[pk := alert];
    r := Ok(());
  }

  // ----- Prices -----

  /** The method of a create request. */
  const PostMethod: string := "POST"

  /**
   * `GoldPriceListCreateView` creating a price: only an administrator may, and
   * the new entry is appended to the series.
   */
  method CreateGoldPrice(db: Database, caller: Option<User>, price: real, now: Time)
    returns (r: Result<GoldPrice, ApiError>)
    requires db.Valid()
    requires caller.Some? ==> caller.value.id in db.users && db.users[caller.value.id] == caller.value
    requires price >= 0.0
    modifies db`prices
    ensures db.Valid()
    ensures !HasPermission(PostMethod, caller) ==> r == Err(Forbidden) && unchanged(db)
    ensures HasPermission(PostMethod, caller) ==>
              r == Ok(GoldPrice(now, price)) && db.prices == old(db.prices) + [GoldPrice(now, price)]
    ensures r.Ok? && (forall q :: q in old(db.prices) ==> q.timestamp <= now) ==> Latest(db.prices) == Some(r.value)
  {
    if !HasPermission(PostMethod, caller) {
      return Err(Forbidden);
    }
    var entry := GoldPrice(now, price);
    if forall q :: q in db.prices ==> q.timestamp <= now {
      LatestOfAppend(db.prices, entry);
    }
    db.prices := db.prices + [entry];
    r := Ok(entry);
  }

  // ----- Approvals -----

  /** The action values the approve views act on. */
  const ApproveAction: string := "approve"
  const RejectAction: string := "reject"

  /** A request as the approve views leave it after a decision. */
  function DecideFund(d: FundRequest, status: RequestStatus, admin: UserId, now: Time): (r: FundRequest)
    ensures r.status == status && r.approvedBy == Some(admin) && r.approvedAt == Some(now)
    ensures r.user == d.user && r.amount == d.amount && r.currency == d.currency
    ensures r.txid == d.txid && r.created == d.created
  {
    d.(status := status, approvedAt := Some(now), approvedBy := Some(admin))
  }

  /** A gold lock as the approve view leaves it after a decision. */
  function DecideLock(l: GoldLock, status: RequestStatus, admin: UserId, now: Time): (r: GoldLock)
    ensures r.status == status && r.approvedBy == Some(admin) && r.approvedAt == Some(now)
    ensures r.user == l.user && r.amount == l.amount && r.interestRate == l.interestRate
    ensures r.startDate == l.startDate && r.endDate == l.endDate && r.created == l.created
    ensures r.matured == l.matured
  {
    l.(status := status, approvedAt := Some(now), approvedBy := Some(admin))
  }

  /**
   * The decision on a found deposit: "approve" credits the amount to the
   * owner's cash, "reject" records the refusal, any other action changes nothing.
   */
  function ReviewDeposit(d: DepositRequest, w: Wallet, action: string, admin: UserId, now: Time)
    : (r: (DepositRequest, Wallet))
    ensures action == ApproveAction ==>
              && r.0 == DecideFund(d, Approved, admin, now)
              && r.1.owner == w.owner && r.1.goldHoldings == w.goldHoldings
              && r.1.balance == w.balance + d.amount
    ensures action == RejectAction ==> r == (DecideFund(d, Rejected, admin, now), w)
    ensures action !in {ApproveAction, RejectAction} ==> r == (d, w)
    ensures Solvent(w) && d.amount >= 0.0 ==> Solvent(r.1)
  {
    if action == ApproveAction then
      (DecideFund(d, Approved, admin, now), w.(balance := w.balance + d.amount))
    else if action == RejectAction then
      (DecideFund(d, Rejected, admin, now), w)
    else
      (d, w)
  }

  /**
   * The decision on a found withdrawal: "approve" fails with
   * `InsufficientBalance` when the cash does not cover the amount, and
   * otherwise debits it; "reject" records the refusal; other actions change nothing.
   */
  function ReviewWithdrawal(d: WithdrawalRequest, w: Wallet, action: string, admin: UserId, now: Time)
    : (r: Result<(WithdrawalRequest, Wallet), ApiError>)
    ensures r.Err? <==> action == ApproveAction && w.balance < d.amount
    ensures r.Err? ==> r.error == InsufficientBalance
    ensures r.Ok? && action == ApproveAction ==>
              && r.value.0 == DecideFund(d, Approved, admin, now)
              && r.value.1.owner == w.owner && r.value.1.goldHoldings == w.goldHoldings
              && r.value.1.balance == w.balance - d.amount
    ensures action == RejectAction ==> r == Ok((DecideFund(d, Rejected, admin, now), w))
    ensures action !in {ApproveAction, RejectAction} ==> r == Ok((d, w))
    ensures r.Ok? && Solvent(w) ==> Solvent(r.value.1)
  {
    if action == ApproveAction then
      if w.balance < d.amount then Err(InsufficientBalance)
      else Ok((DecideFund(d, Approved, admin, now), w.(balance := w.balance - d.amount)))
    else if action == RejectAction then
      Ok((DecideFund(d, Rejected, admin, now), w))
    else
      Ok((d, w))
  }

  /**
   * The decision on a found gold lock: "approve" fails with
   * `InsufficientGoldHoldings` when the gold does not cover the amount, and
   * otherwise takes the amount out of the holdings; "reject" records the
   * refusal; other actions change nothing.
   */
  function ReviewGoldLock(l: GoldLock, w: Wallet, action: string, admin: UserId, now: Time)
    : (r: Result<(GoldLock, Wallet), ApiError>)
    ensures r.Err? <==> action == ApproveAction && w.goldHoldings < l.amount
    ensures r.Err? ==> r.error == InsufficientGoldHoldings
    ensures r.Ok? && action == ApproveAction ==>
              && r.value.0 == DecideLock(l, Approved, admin, now)
              && r.value.1.owner == w.owner && r.value.1.balance == w.balance
              && r.value.1.goldHoldings == w.goldHoldings - l.amount
    ensures action == RejectAction ==> r == Ok((DecideLock(l, Rejected, admin, now), w))
    ensures action !in {ApproveAction, RejectAction} ==> r == Ok((l, w))
    ensures r.Ok? && Solvent(w) ==> Solvent(r.value.1)
  {
    if action == ApproveAction then
      if w.goldHoldings < l.amount then Err(InsufficientGoldHoldings)
      else Ok((DecideLock(l, Approved, admin, now), w.(goldHoldings := w.goldHoldings - l.amount)))
    else if action == RejectAction then
      Ok((DecideLock(l, Rejected, admin, now), w))
    else
      Ok((l, w))
  }

  /**
   * `AdminDepositApproveView.update`: a request outside the caller's approval
   * queryset is not found; a found one is decided as `ReviewDeposit` says.
   */
  method ApproveDeposit(db: Database, caller: UserId, pk: nat, action: string, now: Time)
    returns (r: Result<DepositRequest, ApiError>)
    requires db.Valid() && caller in db.users
    modifies db`deposits, db`wallets
    ensures db.Valid()
    ensures pk !in FundApprovalQueryset(db.users[caller], old(db.deposits)) ==>
              r == Err(NotFound) && unchanged(db)
    ensures pk in FundApprovalQueryset(db.users[caller], old(db.deposits)) ==>
              var d := old(db.deposits[pk]);
              var outcome := ReviewDeposit(d, old(db.wallets[d.user]), action, caller, now);
              && r == Ok(outcome.0)
              && db.deposits == old(db.deposits)[pk := outcome.0]
              && db.wallets == old(db.wallets)[d.user := outcome.1]
  {
    if pk !in db.deposits || !Approvable(db.users[caller], db.deposits[pk].status) {
      return Err(NotFound);
    }
    var deposit := db.deposits[pk];
    var wallet := db.wallets[deposit.user];
    ghost var outcome := ReviewDeposit(deposit, wallet, action, caller, now);
    if action == ApproveAction {
      deposit := DecideFund(deposit, Approved, caller, now);
      wallet := wallet.(balance := wallet.balance + deposit.amount);
    } else if action == RejectAction {
      deposit := DecideFund(deposit, Rejected, caller, now);
    }
    assert outcome == (deposit, wallet);
    FundRequestUpdateValid(db.users, db.deposits, pk, deposit);
    WalletUpdateValid(db.users, db.wallets, deposit.user, wallet);
    db.deposits := db.deposits[pk := deposit];
    db.wallets := db.wallets[deposit.user := wallet];
    r := Ok(deposit);
  }

  /**
   * `AdminWithdrawalApproveView.update`: not found outside the approval
   * queryset; otherwise decided as `ReviewWithdrawal` says, and on its error
   * nothing is written and the request stays pending.
   */
  method ApproveWithdrawal(db: Database, caller: UserId, pk: nat, action: string, now: Time)
    returns (r: Result<WithdrawalRequest, ApiError>)
    requires db.Valid() && caller in db.users
    modifies db`withdrawals, db`wallets
    ensures db.Valid()
    ensures pk !in FundApprovalQueryset(db.users[caller], old(db.withdrawals)) ==>
              r == Err(NotFound) && unchanged(db)
    ensures pk in FundApprovalQueryset(db.users[caller], old(db.withdrawals)) ==>
              var d := old(db.withdrawals[pk]);
              var outcome := ReviewWithdrawal(d, old(db.wallets[d.user]), action, caller, now);
              && (outcome.Err? ==> r == Err(outcome.error) && unchanged(db))
              && (outcome.Ok? ==> && r == Ok(outcome.value.0)
                                  && db.withdrawals == old(db.withdrawals)[pk := outcome.value.0]
                                  && db.wallets == old(db.wallets)[d.user := outcome.value.1])
  {
    if pk !in db.withdrawals || !Approvable(db.users[caller], db.withdrawals[pk].status) {
      return Err(NotFound);
    }
    var withdrawal := db.withdrawals[pk];
    var wallet := db.wallets[withdrawal.user];
    ghost var outcome := ReviewWithdrawal(withdrawal, wallet, action, caller, now);
    if action == ApproveAction {
      if wallet.balance < withdrawal.amount {
        return Err(InsufficientBalance);
      }
      withdrawal := DecideFund(withdrawal, Approved, caller, now);
      wallet := wallet.(balance := wallet.balance - withdrawal.amount);
    } else if action == RejectAction {
      withdrawal := DecideFund(withdrawal, Rejected, caller, now);
    }
    assert outcome == Ok((withdrawal, wallet));
    FundRequestUpdateValid(db.users, db.withdrawals, pk, withdrawal);
    WalletUpdateValid(db.users, db.wallets, withdrawal.user, wallet);
    db.withdrawals := db.withdrawals[pk := withdrawal];
    db.wallets := db.wallets[withdrawal.user := wallet];
    r := Ok(withdrawal);
  }

  /**
   * `AdminGoldLockApproveView.update`: not found outside the approval
   * queryset; otherwise decided as `ReviewGoldLock` says, and on its error
   * nothing is written and the lock stays pending.
   */
  method ApproveGoldLock(db: Database, caller: UserId, pk: nat, action: string, now: Time)
    returns (r: Result<GoldLock, ApiError>)
    requires db.Valid() && caller in db.users
    modifies db`locks, db`wallets
    ensures db.Valid()
    ensures pk !in LockApprovalQueryset(db.users[caller], old(db.locks)) ==>
              r == Err(NotFound) && unchanged(db)
    ensures pk in LockApprovalQueryset(db.users[caller], old(db.locks)) ==>
              var l := old(db.locks[pk]);
              var outcome := ReviewGoldLock(l, old(db.wallets[l.user]), action, caller, now);
              && (outcome.Err? ==> r == Err(outcome.error) && unchanged(db))
              && (outcome.Ok? ==> && r == Ok(outcome.value.0)
                                  && db.locks == old(db.locks)[pk := outcome.value.0]
                                  && db.wallets == old(db.wallets)[l.user := outcome.value.1])
  {
    if pk !in db.locks || !Approvable(db.users[caller], db.locks[pk].status) {
      return Err(NotFound);
    }
    var lock := db.locks[pk];
    var wallet := db.wallets[lock.user];
    ghost var outcome := ReviewGoldLock(lock, wallet, action, caller, now);
    if action == ApproveAction {
      if wallet.goldHoldings < lock.amount {
        return Err(InsufficientGoldHoldings);
      }
      lock := DecideLock(lock, Approved, caller, now);
      wallet := wallet.(goldHoldings := wallet.goldHoldings - lock.amount);
    } else if action == RejectAction {
      lock := DecideLock(lock, Rejected, caller, now);
    }
    assert outcome == Ok((lock, wallet));
    LockUpdateValid(db.users, db.locks, pk, lock);
    WalletUpdateValid(db.users, db.wallets, lock.user, wallet);
    db.locks := db.locks[pk := lock];
    db.wallets := db.wallets[lock.user := wallet];
    r := Ok(lock);
  }
}
