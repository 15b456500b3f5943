/**
  The wallet and website records of firebase.js. The realtime database is a map
  from a path (`wallets/<uid>`, `websites/<uid>`) to the JSON value stored there;
  an absent path is what the SDK reports as a `null` snapshot.
*/
module WalletStore {
  import opened Wrappers

  /** A value the database can hold. Object children keep their key order. */
  datatype Value = Num(n: int) | Str(s: string) | Flag(b: bool) | Tree(children: seq<(string, Value)>)

  /** JavaScript truthiness; every object is truthy, even an empty one. */
  predicate Truthy(v: Value) {
    match v
    case Num(n) => n != 0
    case Str(s) => s != ""
    case Flag(b) => b
    case Tree(_) => true
  }

  type Store = map<string, Value>

  /** `wallets/${uid}` */
  function WalletPath(uid: string): string {
    "wallets/" + uid
  }

  /** `websites/${uid}` */
  function WebsitesPath(uid: string): string {
    "websites/" + uid
  }

  lemma WalletPathInjective(a: string, b: string)
    ensures WalletPath(a) == WalletPath(b) <==> a == b
  {
    assert WalletPath(a)[8..] == a && WalletPath(b)[8..] == b;
  }

  /** A wallet path is never a website path, whatever the two user ids. */
  lemma PathsDistinct(a: string, b: string)
    ensures WalletPath(a) != WebsitesPath(b)
  {
    assert WalletPath(a)[1] == 'a' && WebsitesPath(b)[1] == 'e';
  }

  predicate DistinctKeys(entries: seq<(string, Value)>) {
    forall i, j :: 0 <= i < j < |entries| ==> entries[i].0 != entries[j].0
  }

  /** What the bots keep there: a number under every wallet path, an object
      with distinct keys under every website path. */
  ghost predicate WellTyped(store: Store) {
    && (forall uid :: WalletPath(uid) in store ==> store[WalletPath(uid)].Num?)
    && (forall uid :: WebsitesPath(uid) in store ==>
          store[WebsitesPath(uid)].Tree? && DistinctKeys(store[WebsitesPath(uid)].children))
  }

  /** `(await db.ref(`wallets/${uid}`).once('value')).val() || 0` */
  function Wallet(store: Store, uid: string): (v: Value)
    ensures Truthy(v) || v == Num(0)
    ensures WalletPath(uid) in store && Truthy(store[WalletPath(uid)]) ==> v == store[WalletPath(uid)]
    ensures !(WalletPath(uid) in store && Truthy(store[WalletPath(uid)])) ==> v == Num(0)
  {
    var p := WalletPath(uid);
    if p in store && Truthy(store[p]) then store[p] else Num(0)
  }

  /** The balance as a number, which the wallet path holds in a well-typed store. */
  function Balance(store: Store, uid: string): (b: int)
    requires WellTyped(store)
    ensures WalletPath(uid) in store ==> b == store[WalletPath(uid)].n
    ensures WalletPath(uid) !in store ==> b == 0
  {
    Wallet(store, uid).n
  }

  /** `(await db.ref(`websites/${uid}`).once('value')).val() || {}` */
  function Websites(store: Store, uid: string): (v: Value)
    ensures Truthy(v)
    ensures WebsitesPath(uid) in store && Truthy(store[WebsitesPath(uid)]) ==> v == store[WebsitesPath(uid)]
    ensures !(WebsitesPath(uid) in store && Truthy(store[WebsitesPath(uid)])) ==> v == Tree([])
  {
    var p := WebsitesPath(uid);
    if p in store && Truthy(store[p]) then store[p] else Tree([])
  }

  /** The sites stored for `uid`, in key order; none when the path is empty. */
  function Sites(store: Store, uid: string): (entries: seq<(string, Value)>)
    requires WellTyped(store)
    ensures DistinctKeys(entries)
    ensures WebsitesPath(uid) !in store ==> entries == []
  {
    Websites(store, uid).children
  }

  /** The outcome of `deductFromWallet` on a balance: the new balance, or the
      "Insufficient funds" error when it would drop below zero. */
  function Deduct(current: int, amount: int): (r: Result<int, string>)
    ensures r.Success? <==> current - amount >= 0
    ensures r.Success? ==> r.value == current - amount
    ensures r.Failure? ==> r.error == "Insufficient funds"
  {
    var newBalance := current - amount;
    if newBalance < 0 then Failure("Insufficient funds") else Success(newBalance)
  }

  /** Writing a wallet is read back exactly, and no other wallet reads differently. */
  lemma WalletReadAfterWrite(store: Store, uid: string, other: string, amount: int)
    ensures Wallet(store[WalletPath(uid) := Num(amount)], uid) == Num(amount)
    ensures other != uid ==> Wallet(store[WalletPath(uid) := Num(amount)], other) == Wallet(store, other)
  {
    WalletPathInjective(uid, other);
  }

  /** A wallet write leaves every website record as it was. */
  lemma WalletWriteKeepsWebsites(store: Store, uid: string, other: string, amount: int)
    ensures Websites(store[WalletPath(uid) := Num(amount)], other) == Websites(store, other)
  {
    PathsDistinct(uid, other);
  }

  lemma WalletWriteWellTyped(store: Store, uid: string, amount: int)
    requires WellTyped(store)
    ensures WellTyped(store[WalletPath(uid) := Num(amount)])
  {
    var s := store[WalletPath(uid) := Num(amount)];
    forall u | WebsitesPath(u) in s
      ensures s[WebsitesPath(u)].Tree? && DistinctKeys(s[WebsitesPath(u)].children)
    {
      PathsDistinct(uid, u);
    }
  }

  /** Adding an amount and then deducting it succeeds exactly when the starting
      balance was not negative, and then gives that balance back. */
  lemma AddThenDeduct(store: Store, uid: string, amount: int)
    requires WellTyped(store)
    ensures var s := store[WalletPath(uid) := Num(Balance(store, uid) + amount)];
      WellTyped(s) &&
      Deduct(Balance(s, uid), amount) ==
        (if Balance(store, uid) >= 0 then Success(Balance(store, uid)) else Failure("Insufficient funds"))
  {
    WalletWriteWellTyped(store, uid, Balance(store, uid) + amount);
  }

  /** The entries of `uid` after a push: the old ones in order, then the new one. */
  function Pushed(store: Store, uid: string, key: string, data: Value): (s: Store)
    requires WellTyped(store)
    requires forall i :: 0 <= i < |Sites(store, uid)| ==> Sites(store, uid)[i].0 != key
    ensures WellTyped(s)
    ensures Sites(s, uid) == Sites(store, uid) + [(key, data)]
    ensures forall u :: u != uid ==> Sites(s, u) == Sites(store, u)
    ensures forall u :: Wallet(s, u) == Wallet(store, u)
  {
    var entries := Sites(store, uid) + [(key, data)];
    var s := store[WebsitesPath(uid) := Tree(entries)];
    forall u | WalletPath(u) in s ensures s[WalletPath(u)].Num? {
      PathsDistinct(u, uid);
    }
    forall u | u != uid ensures Sites(s, u) == Sites(store, u) {
      assert WebsitesPath(u)[9..] == u && WebsitesPath(uid)[9..] == uid;
    }
    forall u ensures Wallet(s, u) == Wallet(store, u) {
      PathsDistinct(u, uid);
    }
    s
  }

  /** The database client: the store plus the six functions firebase.js exports. */
  class Database {
    var store: Store

    ghost predicate Valid()
      reads this
    {
      WellTyped(store)
    }

    constructor(initial: Store)
      requires WellTyped(initial)
      ensures Valid() && store == initial
    {
      store := initial;
    }

    /** `getWallet(uid)` */
    method GetWallet(uid: string) returns (v: Value)
      ensures v == Wallet(store, uid)
    {
      v := Wallet(store, uid);
    }

    /** `getUserWebsites(uid)` */
    method GetUserWebsites(uid: string) returns (v: Value)
      ensures v == Websites(store, uid)
    {
      v := Websites(store, uid);
    }

    /** `setWallet(uid, amount)`: overwrites `wallets/<uid>` and nothing else. */
    method SetWallet(uid: string, amount: int)
      requires Valid()
      modifies this
      ensures Valid()
      ensures store == old(store)[WalletPath(uid) := Num(amount)]
    {
      WalletWriteWellTyped(store, uid, amount);
      store := store[WalletPath(uid) := Num(amount)];
    }

    /** `addToWallet(uid, amount)`: the amount may be negative; nothing checks it. */
    method AddToWallet(uid: string, amount: int) returns (newBalance: int)
      requires Valid()
      modifies this
      ensures Valid()
      ensures newBalance == Balance(old(store), uid) + amount
      ensures store == old(store)[WalletPath(uid) := Num(newBalance)]
      ensures Balance(store, uid) == newBalance
    {
      var current := GetWallet(uid);
      newBalance := current.n + amount;
      SetWallet(uid, newBalance);
    }

    /** `deductFromWallet(uid, amount)`: throws "Insufficient funds", writing
        nothing, when the balance would go below zero; a balance of exactly zero
        is allowed. */
    method DeductFromWallet(uid: string, amount: int) returns (r: Result<int, string>)
      requires Valid()
      modifies this
      ensures Valid()
      ensures r == Deduct(Balance(old(store), uid), amount)
      ensures r.Failure? ==> store == old(store)
      ensures r.Success? ==> store == old(store)[WalletPath(uid) := Num(r.value)] && Balance(store, uid) == r.value
    {
      var current := GetWallet(uid);
      var newBalance := current.n - amount;
      if newBalance < 0 {
        return Failure("Insufficient funds");
      }
      SetWallet(uid, newBalance);
      r := Success(newBalance);
    }

    /** `saveWebsiteData(uid, data)`: `push` appends `data` under a new key,
        which the SDK generates distinct from every key already there. */
    method SaveWebsiteData(uid: string, data: Value, key: string)
      requires Valid()
      requires forall i :: 0 <= i < |Sites(store, uid)| ==> Sites(store, uid)[i].0 != key
      modifies this
      ensures Valid()
      ensures store == Pushed(old(store), uid, key, data)
      ensures Sites(store, uid) == Sites(old(store), uid) + [(key, data)]
      ensures forall u :: u != uid ==> Sites(store, u) == Sites(old(store), u)
      ensures forall u :: Wallet(store, u) == Wallet(old(store), u)
    {
      store := Pushed(store, uid, key, data);
    }
  }
}
