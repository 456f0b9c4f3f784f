/**
 * The database both apps write to: one table per model, each a map from
 * primary key to row or, for the append-only tables, a sequence in insertion
 * order.  The views change these tables in place.
 */
module Store {
  import opened Common
  import opened AccountModels
  import opened InvestmentModels

  /**
   * Every user is stored under its own id, below the next id to hand out;
   * usernames are unique, and so are the emails that are not empty.
   */
  ghost predicate UsersValid(users: map<UserId, User>, nextUserId: UserId) {
    && (forall id :: id in users ==> id < nextUserId && users[id].id == id)
    && UniqueUsernames(users)
    && UniqueEmails(users)
  }

  /** Each user owns exactly one wallet, and no wallet is overdrawn. */
  ghost predicate WalletsValid(users: map<UserId, User>, wallets: map<UserId, Wallet>) {
    && OneWalletPerUser(users, wallets)
    && forall id :: id in wallets ==> Solvent(wallets[id])
  }

  /** No published price is negative. */
  ghost predicate PricesValid(prices: seq<GoldPrice>) {
    forall i :: 0 <= i < |prices| ==> prices[i].price >= 0.0
  }

  /** Every deposit or withdrawal request belongs to a user and asks for a positive amount. */
  ghost predicate FundRequestsValid(users: map<UserId, User>, requests: map<nat, FundRequest>) {
    forall k :: k in requests ==> requests[k].user in users && requests[k].amount > 0.0
  }

  /** Every gold lock belongs to a user and locks a positive amount. */
  ghost predicate LocksValid(users: map<UserId, User>, locks: map<nat, GoldLock>) {
    forall k :: k in locks ==> locks[k].user in users && locks[k].amount > 0.0
  }

  /** Replacing one wallet by a solvent wallet of the same owner keeps the wallet table valid. */
  lemma WalletUpdateValid(users: map<UserId, User>, wallets: map<UserId, Wallet>, id: UserId, w: Wallet)
    requires WalletsValid(users, wallets) && id in wallets
    requires w.owner == id && Solvent(w)
    ensures WalletsValid(users, wallets[id := w])
  {
  }

  /** Rewriting a request without changing its owner or amount keeps the request table valid. */
  lemma FundRequestUpdateValid(users: map<UserId, User>, requests: map<nat, FundRequest>, pk: nat, d: FundRequest)
    requires FundRequestsValid(users, requests) && pk in requests
    requires d.user == requests[pk].user && d.amount == requests[pk].amount
    ensures FundRequestsValid(users, requests[pk := d])
  {
  }

  /** Rewriting a gold lock without changing its owner or amount keeps the lock table valid. */
  lemma LockUpdateValid(users: map<UserId, User>, locks: map<nat, GoldLock>, pk: nat, l: GoldLock)
    requires LocksValid(users, locks) && pk in locks
    requires l.user == locks[pk].user && l.amount == locks[pk].amount
    ensures LocksValid(users, locks[pk := l])
  {
  }

  class Database {
    var users: map<UserId, User>
    var nextUserId: UserId
    var wallets: map<UserId, Wallet>
    var prices: seq<GoldPrice>
    var transactions: seq<Transaction>
    var snapshots: seq<PortfolioSnapshot>
    var alerts: map<nat, PriceAlert>
    var deposits: map<nat, DepositRequest>
    var withdrawals: map<nat, WithdrawalRequest>
    var locks: map<nat, GoldLock>

    /**
     * The database invariant: keys agree with the rows, every user owns exactly
     * one wallet and every wallet is solvent, prices are not negative, and every
     * request belongs to a user and asks for a positive amount.
     */
    ghost predicate Valid()
      reads this
      ensures Valid() ==> forall id :: id in users ==> id in wallets && wallets[id].owner == id && Solvent(wallets[id])
      ensures Valid() ==> UniqueUsernames(users) && UniqueEmails(users)
    {
      && UsersValid(users, nextUserId)
      && WalletsValid(users, wallets)
      && PricesValid(prices)
      && FundRequestsValid(users, deposits)
      && FundRequestsValid(users, withdrawals)
      && LocksValid(users, locks)
    }

    /** An empty database. */
    constructor ()
      ensures Valid()
      ensures users == map[] && wallets == map[] && nextUserId == 0
      ensures prices == [] && transactions == [] && snapshots == []
      ensures alerts == map[] && deposits == map[] && withdrawals == map[] && locks == map[]
    {
      users, nextUserId, wallets := map[], 0, map[];
      prices, transactions, snapshots := [], [], [];
      alerts, deposits, withdrawals, locks := map[], map[], map[], map[];
    }
  }
}
