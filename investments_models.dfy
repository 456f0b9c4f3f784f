/** The tables of the investments app: choices, defaults, decimal scales and orderings. */
module InvestmentModels {
  import opened Common

  /** Decimal places of the amount, price and rate columns. */
  const GoldAmountPlaces: nat := 4
  const PricePlaces: nat := 2
  const MoneyPlaces: nat := 2
  const RatePlaces: nat := 2

  // ----- Transaction -----

  /** Choices of `Transaction.transaction_type`. */
  datatype TransactionType = Buy | Sell

  /** The stored code of a transaction type; every code fits the column's max_length of 4. */
  function TransactionTypeCode(t: TransactionType): (code: string)
    ensures 0 < |code| <= 4
  {
    match t
    case Buy => "BUY"
    case Sell => "SELL"
  }

  /** Reads a code back; `None` for a string outside the choices. */
  function ParseTransactionType(code: string): (r: Option<TransactionType>)
    ensures r.Some? ==> TransactionTypeCode(r.value) == code
    ensures forall t :: TransactionTypeCode(t) == code ==> r == Some(t)
  {
    if code == "BUY" then Some(Buy) else if code == "SELL" then Some(Sell) else None
  }

  /** Choices of `Transaction.order_type`. */
  datatype OrderType = Market | Limit | Stop

  /** The default of `Transaction.order_type`. */
  const DefaultOrderType: OrderType := Market

  /** The stored code of an order type; every code fits the column's max_length of 6. */
  function OrderTypeCode(t: OrderType): (code: string)
    ensures 0 < |code| <= 6
  {
    match t
    case Market => "MARKET"
    case Limit => "LIMIT"
    case Stop => "STOP"
  }

  /** Reads a code back; `None` for a string outside the choices. */
  function ParseOrderType(code: string): (r: Option<OrderType>)
    ensures r.Some? ==> OrderTypeCode(r.value) == code
    ensures forall t :: OrderTypeCode(t) == code ==> r == Some(t)
  {
    if code == "MARKET" then Some(Market)
    else if code == "LIMIT" then Some(Limit)
    else if code == "STOP" then Some(Stop)
    else None
  }

  /** Choices of `Transaction.status`. */
  datatype TransactionStatus = TransactionPending | Executed | Cancelled

  /** The default of `Transaction.status`. */
  const DefaultTransactionStatus: TransactionStatus := TransactionPending

  /** The stored code of a transaction status; every code fits max_length 10. */
  function TransactionStatusCode(s: TransactionStatus): (code: string)
    ensures 0 < |code| <= 10
  {
    match s
    case TransactionPending => "PENDING"
    case Executed => "EXECUTED"
    case Cancelled => "CANCELLED"
  }

  /**
   * A row of the order log.  The type and order-type columns hold whatever
   * code the request carried: the row is created without checking the choices.
   */
  datatype Transaction = Transaction(
    user: UserId,
    transactionType: string,
    orderType: string,
    amount: real,
    limitPrice: Option<real>,
    stopPrice: Option<real>,
    executedPrice: Option<real>,
    timestamp: Time,
    priceAtTransaction: real,
    status: TransactionStatus)

  // ----- GoldPrice -----

  /** One published gold price. */
  datatype GoldPrice = GoldPrice(timestamp: Time, price: real)

  /** The series is in its declared ordering: newest first by timestamp. */
  ghost predicate PricesNewestFirst(s: seq<GoldPrice>) {
    forall i, j :: 0 <= i < j < |s| ==> s[i].timestamp >= s[j].timestamp
  }

  /**
   * `GoldPrice.objects.latest('timestamp')` over the series in insertion order:
   * an entry with the greatest timestamp, and `None` (the `DoesNotExist` case)
   * for an empty series.  The database may return any of several entries that
   * share the greatest timestamp; the model picks the later insert.
   */
  function Latest(prices: seq<GoldPrice>): (r: Option<GoldPrice>)
    ensures r.None? <==> |prices| == 0
    ensures r.Some? ==> r.value in prices
    ensures r.Some? ==> forall q :: q in prices ==> q.timestamp <= r.value.timestamp
  {
    if |prices| == 0 then None
    else
      var later := Latest(prices[1..]);
      if later.Some? && later.value.timestamp >= prices[0].timestamp then later
      else Some(prices[0])
  }

  /**
   * A price appended with a timestamp no earlier than any other (as `auto_now_add`
   * stamps it) becomes the current price.
   */
  lemma {:induction false} LatestOfAppend(prices: seq<GoldPrice>, p: GoldPrice)
    requires forall q :: q in prices ==> q.timestamp <= p.timestamp
    ensures Latest(prices + [p]) == Some(p)
  {
    if |prices| > 0 {
      assert (prices + [p])[1..] == prices[1..] + [p];
      LatestOfAppend(prices[1..], p);
    }
  }

  /** In the declared newest-first ordering, the head carries the current timestamp. */
  lemma HeadIsLatest(prices: seq<GoldPrice>)
    requires PricesNewestFirst(prices) && |prices| > 0
    ensures Latest(prices).Some? && Latest(prices).value.timestamp == prices[0].timestamp
  {
  }

  // ----- PortfolioSnapshot and PriceAlert -----

  /** A stored valuation of one wallet at one price. */
  datatype PortfolioSnapshot = PortfolioSnapshot(
    user: UserId, date: Time, totalValue: real, cashBalance: real,
    goldValue: real, goldHoldings: real, goldPrice: real)

  /** Choices of `PriceAlert.alert_type`. */
  datatype AlertType = Above | Below

  /** A price threshold a user watches; deleting it only clears `isActive`. */
  datatype PriceAlert = PriceAlert(
    user: UserId, targetPrice: real, alertType: AlertType,
    isActive: bool, created: Time, triggered: Option<Time>)

  /** An alert as created with its column defaults: active, never triggered. */
  function NewPriceAlert(user: UserId, targetPrice: real, alertType: AlertType, created: Time): (a: PriceAlert)
    ensures a.user == user && a.targetPrice == targetPrice && a.alertType == alertType
    ensures a.isActive && a.triggered.None? && a.created == created
  {
    PriceAlert(user, targetPrice, alertType, true, created, None)
  }

  // ----- MarketNews -----

  /** Choices of `MarketNews.sentiment`. */
  datatype Sentiment = Positive | Negative | Neutral

  /** A news item. */
  datatype MarketNews = MarketNews(
    title: string, summary: string, source: string, url: Option<string>,
    sentiment: Sentiment, publishedDate: Time, created: Time)

  /** The news table in its declared ordering: newest first by publication date. */
  ghost predicate NewsNewestFirst(s: seq<MarketNews>) {
    forall i, j :: 0 <= i < j < |s| ==> s[i].publishedDate >= s[j].publishedDate
  }

  /** The length of the news feed (`[:10]`). */
  const NewsFeedLength: nat := 10

  /**
   * The news feed: the first ten rows of the table in its declared ordering,
   * so no item left out was published after an item shown.
   */
  function LatestNews(ordered: seq<MarketNews>): (r: seq<MarketNews>)
    requires NewsNewestFirst(ordered)
    ensures |r| == if |ordered| < NewsFeedLength then |ordered| else NewsFeedLength
    ensures forall i :: 0 <= i < |r| ==> r[i] == ordered[i]
    ensures forall i, j :: 0 <= i < |r| <= j < |ordered| ==> r[i].publishedDate >= ordered[j].publishedDate
  {
    if |ordered| <= NewsFeedLength then ordered else ordered[..NewsFeedLength]
  }

  // ----- Deposit and withdrawal requests, gold locks -----

  /** Choices of `DepositRequest.currency` and `WithdrawalRequest.currency`. */
  datatype Currency = BTC | USDT | ETH

  /** The stored code of a currency; every code fits the column's max_length of 4. */
  function CurrencyCode(c: Currency): (code: string)
    ensures 0 < |code| <= 4
  {
    match c
    case BTC => "BTC"
    case USDT => "USDT"
    case ETH => "ETH"
  }

  /** The statuses of requests; only gold locks list `Matured` among their choices. */
  datatype RequestStatus = Pending | Approved | Rejected | Matured

  /** The default status of every request kind. */
  const DefaultRequestStatus: RequestStatus := Pending

  /** The stored code of a status; every code fits max_length 10. */
  function RequestStatusCode(s: RequestStatus): (code: string)
    ensures 0 < |code| <= 10
  {
    match s
    case Pending => "PENDING"
    case Approved => "APPROVED"
    case Rejected => "REJECTED"
    case Matured => "MATURED"
  }

  /** The status choices of deposit and withdrawal requests. */
  predicate IsFundRequestStatus(s: RequestStatus) {
    s != Matured
  }

  /**
   * A deposit or a withdrawal request: the two tables have the same columns.
   * `approvedAt` and `approvedBy` record whoever decided it, approve or reject.
   */
  datatype FundRequest = FundRequest(
    user: UserId, amount: real, currency: Currency, status: RequestStatus,
    txid: Option<string>, created: Time,
    approvedAt: Option<Time>, approvedBy: Option<UserId>)

  type DepositRequest = FundRequest
  type WithdrawalRequest = FundRequest

  /** A request as created with its column defaults: pending, undecided. */
  function NewFundRequest(user: UserId, amount: real, currency: Currency,
                          txid: Option<string>, created: Time): (r: FundRequest)
    ensures r.user == user && r.amount == amount && r.currency == currency
    ensures r.txid == txid && r.created == created
    ensures r.status == Pending && IsFundRequestStatus(r.status)
    ensures r.approvedAt.None? && r.approvedBy.None?
  {
    FundRequest(user, amount, currency, DefaultRequestStatus, txid, created, None, None)
  }

  /** A request to lock gold for a period at an interest rate. */
  datatype GoldLock = GoldLock(
    user: UserId, amount: real, startDate: Time, endDate: Time,
    interestRate: real, status: RequestStatus, matured: bool, created: Time,
    approvedAt: Option<Time>, approvedBy: Option<UserId>)

  /** A lock as created with its column defaults: pending, not matured, undecided. */
  function NewGoldLock(user: UserId, amount: real, startDate: Time, endDate: Time,
                       interestRate: real, created: Time): (l: GoldLock)
    ensures l.user == user && l.amount == amount && l.interestRate == interestRate
    ensures l.startDate == startDate && l.endDate == endDate && l.created == created
    ensures l.status == Pending && !l.matured
    ensures l.approvedAt.None? && l.approvedBy.None?
  {
    GoldLock(user, amount, startDate, endDate, interestRate, DefaultRequestStatus,
             false, created, None, None)
  }
}
