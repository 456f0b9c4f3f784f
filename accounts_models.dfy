/** The tables of the accounts app: the custom user and the wallet each user owns. */
module AccountModels {
  import opened Common

  /** A user row; `isAdmin` is the app's own role flag, the rest comes from Django's user. */
  datatype User = User(id: UserId, username: string, email: string,
                       isActive: bool, isStaff: bool, isAdmin: bool)

  /** A user as `create_user` stores it: active, neither staff nor admin. */
  function NewUser(id: UserId, username: string, email: string): (u: User)
    ensures u.id == id && u.username == username && u.email == email
    ensures !u.isAdmin && !u.isStaff && u.isActive
  {
    User(id, username, email, isActive := true, isStaff := false, isAdmin := false)
  }

  /** Decimal places of `Wallet.balance` and of `Wallet.gold_holdings`. */
  const BalancePlaces: nat := 2
  const GoldHoldingsPlaces: nat := 4

  /** A wallet row: cash and gold of the user it belongs to. */
  datatype Wallet = Wallet(owner: UserId, balance: real, goldHoldings: real)

  /** Neither cash nor gold is negative. */
  predicate Solvent(w: Wallet) {
    w.balance >= 0.0 && w.goldHoldings >= 0.0
  }

  /** A wallet as created with its column defaults. */
  function NewWallet(owner: UserId): (w: Wallet)
    ensures w.owner == owner && w.balance == 0.0 && w.goldHoldings == 0.0
    ensures Solvent(w)
  {
    Wallet(owner, 0.0, 0.0)
  }

  /**
   * The one-to-one link between users and wallets: wallets are keyed by their
   * owner, so no user has two, and every user has one.
   */
  ghost predicate OneWalletPerUser(users: map<UserId, User>, wallets: map<UserId, Wallet>) {
    && wallets.Keys == users.Keys
    && forall id :: id in wallets ==> wallets[id].owner == id
  }

  /** No two users share a username (the unique constraint on `username`). */
  ghost predicate UniqueUsernames(users: map<UserId, User>) {
    forall a, b :: a in users && b in users && a != b ==> users[a].username != users[b].username
  }

  /** No two users share an email, apart from the empty email of users who signed up without one. */
  ghost predicate UniqueEmails(users: map<UserId, User>) {
    forall a, b :: a in users && b in users && a != b && users[a].email != [] ==> users[a].email != users[b].email
  }
}
