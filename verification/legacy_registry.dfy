/**
 * The older server's data layer (server/src/db.py): plaintext passwords, lookup by
 * exact username and password, and vendor seeding with an empty fallback. A driver
 * exception is an input (`fault`); nothing in this file catches it, so it comes back
 * as `Raised` and the store is left as it was.
 */
module LegacyRegistry {
  import opened Common
  import opened Users
  import opened Vendors
  import Registry

  const NotConnected := "Database not connected."
  const AlreadyExists := "Username or Email already exists."
  const Invalid := "Invalid username or password."

  /** What a data-layer call gave the route: its answer, or the exception that escaped it. */
  function Answer<T>(s: Result<Registry.Step<T>>): (r: Result<T>)
    ensures r.Ok? <==> s.Ok?
    ensures s.Ok? ==> r.value == s.value.result
    ensures s.Raised? ==> r.message == s.message
  {
    match s
    case Ok(step) => Ok(step.result)
    case Raised(m) => Raised(m)
  }

  /** `register_user`: refuse a clash, else store the account exactly as sent; a driver error escapes. */
  function Register(db: Registry.Store, a: Account, fault: Option<string>): (s: Result<Registry.Step<Registration>>)
    ensures db.Offline? ==> s == Ok(Registry.Step(Refused(NotConnected), db))
    ensures s.Raised? <==> db.Online? && fault.Some?
    ensures s.Raised? ==> s.message == fault.value
    ensures s.Ok? && s.value.result.Registered? <==> db.Online? && fault.None? && !Taken(db.users, a)
    ensures s.Ok? && s.value.result.Registered? ==>
      s.value.result.note == None && s.value.store == Registry.Online(db.users + [a], db.vendors)
    ensures db.Online? && fault.None? && Taken(db.users, a) ==> s == Ok(Registry.Step(Refused(AlreadyExists), db))
  {
    match db
    case Offline => Ok(Registry.Step(Refused(NotConnected), db))
    case Online(users, vendors) =>
      if fault.Some? then Raised(fault.value)
      else if Taken(users, a) then Ok(Registry.Step(Refused(AlreadyExists), db))
      else Ok(Registry.Step(Registered(None), Registry.Online(users + [a], vendors)))
  }

  /** `find_one({"username": ..., "password": ...})`: the first account matching both. */
  function FirstMatch(accounts: seq<Account>, username: string, password: string): (r: Option<Account>)
    ensures r.Some? ==> r.value in accounts && r.value.username == username && r.value.password == password
    ensures r.None? <==> forall i :: 0 <= i < |accounts| ==> !(accounts[i].username == username && accounts[i].password == password)
    decreases |accounts|
  {
    if |accounts| == 0 then None
    else if accounts[0].username == username && accounts[0].password == password then Some(accounts[0])
    else
      var r := FirstMatch(accounts[1..], username, password);
      assert forall i :: 1 <= i < |accounts| ==> accounts[i] == accounts[1..][i - 1];
      r
  }

  /** `find_user`: the whole stored record, password included, when username and password both match; a driver error escapes. */
  function FindUser(db: Registry.Store, username: string, password: string, fault: Option<string>): (r: Result<Lookup<Account>>)
    ensures db.Offline? ==> r == Ok(NotFound(NotConnected))
    ensures r.Raised? <==> db.Online? && fault.Some?
    ensures r.Raised? ==> r.message == fault.value
    ensures db.Online? && fault.None? ==>
      (r.Ok? && r.value.Found? <==> exists i :: 0 <= i < |db.users| && db.users[i].username == username && db.users[i].password == password)
    ensures r.Ok? && r.value.Found? ==>
      r.value.record in db.users && r.value.record.username == username && r.value.record.password == password
    ensures db.Online? && fault.None? && !r.value.Found? ==> r == Ok(NotFound(Invalid))
  {
    match db
    case Offline => Ok(NotFound(NotConnected))
    case Online(users, _) =>
      if fault.Some? then Raised(fault.value)
      else
        match FirstMatch(users, username, password)
        case Some(x) => Ok(Found(x))
        case None => Ok(NotFound(Invalid))
  }

  /** `get_lvr_data`: seed an empty collection, then return it; without a database, the empty list; a driver error escapes. */
  function GetLvrData(db: Registry.Store, fault: Option<string>): (s: Result<Registry.Step<seq<Vendor>>>)
    ensures db.Offline? ==> s == Ok(Registry.Step([], db))
    ensures s.Raised? <==> db.Online? && fault.Some?
    ensures s.Raised? ==> s.message == fault.value
    ensures db.Online? && s.Ok? ==> s.value.store.Online? && s.value.result == s.value.store.vendors && |s.value.result| > 0
    ensures db.Online? && s.Ok? && |db.vendors| == 0 ==> s.value.store == Registry.Online(db.users, SeedVendors)
    ensures db.Online? && s.Ok? && |db.vendors| > 0 ==> s.value.store == db
  {
    match db
    case Offline => Ok(Registry.Step([], db))
    case Online(users, vendors) =>
      if fault.Some? then Raised(fault.value)
      else if |vendors| == 0 then Ok(Registry.Step(SeedVendors, Registry.Online(users, SeedVendors)))
      else Ok(Registry.Step(vendors, db))
  }

  /** Registration never lets two accounts share a username or an email. */
  lemma RegisterKeepsUnique(db: Registry.Store, a: Account, fault: Option<string>)
    requires db.Online? && Unique(db.users)
    ensures Register(db, a, fault).Ok? ==> Register(db, a, fault).value.store.Online? && Unique(Register(db, a, fault).value.store.users)
  {
    if !Taken(db.users, a) {
      AppendKeepsUnique(db.users, a, a);
    }
  }

  /** A freshly registered account logs in with its password, and the record returned carries that password in plain text. */
  lemma RegisterThenFind(db: Registry.Store, a: Account)
    requires Register(db, a, None).value.result.Registered?
    ensures FindUser(Register(db, a, None).value.store, a.username, a.password, None) == Ok(Found(a))
  {
    var users := db.users;
    assert forall i :: 0 <= i < |users| ==> users[i].username != a.username by {
      if exists i :: 0 <= i < |users| && users[i].username == a.username {
        assert Taken(users, a);
      }
    }
    FirstMatchOfAppended(users, a);
  }

  /**
   * Both builds keep their accounts in the same `shotweave` database. An account the
   * older server stored has its password in plain text, so the current server's
   * `checkpw` raises on it, and that user is refused with "Login failed: Invalid salt".
   */
  lemma PlainTextAccountRaises(db: Registry.Store, a: Account)
    requires Register(db, a, None).value.result.Registered?
    requires !Registry.WellFormed(a.password)
    ensures Registry.FindUser(Register(db, a, None).value.store, a.username, a.password, None)
      == NotFound(Registry.LoginFailed + Registry.InvalidSalt)
  {
    var users := db.users;
    assert forall i :: 0 <= i < |users| ==> users[i].username != a.username by {
      if exists i :: 0 <= i < |users| && users[i].username == a.username {
        assert Taken(users, a);
      }
    }
    Registry.FirstOfAppended(users, a);
  }

  lemma {:induction false} FirstMatchOfAppended(accounts: seq<Account>, b: Account)
    requires forall i :: 0 <= i < |accounts| ==> accounts[i].username != b.username
    ensures FirstMatch(accounts + [b], b.username, b.password) == Some(b)
    decreases |accounts|
  {
    if |accounts| > 0 {
      FirstMatchOfAppended(accounts[1..], b);
      assert (accounts + [b])[1..] == accounts[1..] + [b];
    }
  }

  /** Without a database the older server serves no vendors, where the current one serves `MOCK_VENDORS`. */
  lemma OfflineVendorsDiffer(mocksStamped: bool)
    ensures GetLvrData(Registry.Offline, None) == Ok(Registry.Step([], Registry.Offline))
    ensures Registry.GetLvrData(Registry.Offline, mocksStamped, None).served.vendors == SeedVendors
  {
  }

  /**
   * With a reachable database and no driver error, both servers store and serve the
   * same vendors; after a driver error the older one lets the exception escape where
   * the current one falls back to `MOCK_VENDORS`, stamped if it has seeded before.
   */
  lemma OnlineVendorsAgree(db: Registry.Store, mocksStamped: bool, fault: Option<string>)
    requires db.Online?
    ensures var current := Registry.GetLvrData(db, mocksStamped, fault);
      fault.None? ==> GetLvrData(db, fault) == Ok(Registry.Step(current.served.vendors, current.store))
    ensures fault.Some? ==> GetLvrData(db, fault) == Raised(fault.value)
    ensures fault.Some? ==>
      Registry.GetLvrData(db, mocksStamped, fault) == Registry.LvrStep(Listing(SeedVendors, mocksStamped), db, mocksStamped)
  {
  }
}
