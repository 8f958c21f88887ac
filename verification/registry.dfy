/**
 * The current server's data layer (src/server/src/db.py) over an in-memory store:
 * account registration and lookup with hashed passwords, and the vendor list with
 * seeding and fallbacks. A driver exception is an input (`fault`); when it happens
 * the store is left as it was.
 */
module Registry {
  import opened Common
  import opened Users
  import opened Vendors

  /** The database: not connected, or the `users` and `vendors` collections in natural order. */
  datatype Store = Offline | Online(users: seq<Account>, vendors: seq<Vendor>)

  const NotConnected := "Database not connected. Please try again later."
  const AlreadyExists := "Username or email already exists."
  const Invalid := "Invalid username or password."
  const RegisteredMessage := "User registered successfully."
  /** The `ValueError` bcrypt raises for a stored digest it cannot read. */
  const InvalidSalt := "Invalid salt"
  const LoginFailed := "Login failed: "

  /** Stand-in for bcrypt's digest format: a digest opens with the `$2b$` tag. */
  predicate WellFormed(digest: string) {
    |digest| >= 4 && digest[..4] == "$2b$"
  }

  /**
   * Stand-in for `bcrypt.hashpw`: a tagged copy of the password. Only what the code
   * relies on is used: the digest differs from the password and `CheckPw` accepts
   * exactly the password it was made from.
   */
  function Hash(password: string): (h: string)
    ensures h != password && WellFormed(h)
  {
    "$2b$" + password
  }

  /**
   * Stand-in for `bcrypt.checkpw`: a digest that is not of bcrypt's form raises
   * "Invalid salt"; otherwise the digest made from the password passes, and a
   * plain-text password never does.
   */
  function CheckPw(password: string, digest: string): (r: Result<bool>)
    ensures r.Raised? <==> !WellFormed(digest)
    ensures r.Raised? ==> r.message == InvalidSalt
    ensures digest == Hash(password) ==> r == Ok(true)
    ensures r == Ok(true) ==> digest != password
  {
    if !WellFormed(digest) then Raised(InvalidSalt) else Ok(digest == Hash(password))
  }

  lemma CheckPwAcceptsOnlyItsPassword(p: string, q: string)
    ensures CheckPw(p, Hash(p)) == Ok(true)
    ensures CheckPw(q, Hash(p)) == Ok(q == p)
  {
    if Hash(q) == Hash(p) {
      assert Hash(q)[4..] == q && Hash(p)[4..] == p;
    }
  }

  /** The result of an operation that may change the store. */
  datatype Step<+T> = Step(result: T, store: Store)

  /** `register_user`: refuse a clash, else store the account with its password hashed. */
  function Register(db: Store, a: Account, fault: Option<string>): (s: Step<Registration>)
    ensures db.Offline? ==> s == Step(Refused(NotConnected), db)
    ensures db.Online? && fault.Some? ==> s == Step(Refused("Registration failed: " + fault.value), db)
    ensures db.Online? && fault.None? && Taken(db.users, a) ==> s == Step(Refused(AlreadyExists), db)
    ensures s.result.Registered? <==> db.Online? && fault.None? && !Taken(db.users, a)
    ensures s.result.Registered? ==>
      && s.result.note == Some(RegisteredMessage)
      && s.store == Online(db.users + [a.(password := Hash(a.password))], db.vendors)
    ensures s.result.Refused? ==> s.store == db
  {
    match db
    case Offline => Step(Refused(NotConnected), db)
    case Online(users, vendors) =>
      if fault.Some? then Step(Refused("Registration failed: " + fault.value), db)
      else if Taken(users, a) then Step(Refused(AlreadyExists), db)
      else Step(Registered(Some(RegisteredMessage)), Online(users + [a.(password := Hash(a.password))], vendors))
  }

  /** `find_one({"username": ...})`: the first account with that username. */
  function FirstByUsername(accounts: seq<Account>, username: string): (r: Option<Account>)
    ensures r.Some? ==> r.value in accounts && r.value.username == username
    ensures r.None? <==> forall i :: 0 <= i < |accounts| ==> accounts[i].username != username
    decreases |accounts|
  {
    if |accounts| == 0 then None
    else if accounts[0].username == username then Some(accounts[0])
    else
      var r := FirstByUsername(accounts[1..], username);
      assert forall i :: 1 <= i < |accounts| ==> accounts[i] == accounts[1..][i - 1];
      r
  }

  /** An exception's answer never reads as a refused password. */
  lemma FailureIsNotInvalid(m: string)
    ensures LoginFailed + m != Invalid
  {
    assert (LoginFailed + m)[0] != Invalid[0];
  }

  /**
   * `find_user`: the public part of the account with that username, if the password
   * checks. An exception, from the driver or from `checkpw`, is answered with
   * "Login failed: " and its message.
   */
  function FindUser(db: Store, username: string, password: string, fault: Option<string>): (r: Lookup<User>)
    ensures db.Offline? ==> r == NotFound(NotConnected)
    ensures db.Online? && fault.Some? ==> r == NotFound(LoginFailed + fault.value)
    ensures r.Found? <==>
      db.Online? && fault.None? && FirstByUsername(db.users, username).Some?
      && CheckPw(password, FirstByUsername(db.users, username).value.password) == Ok(true)
    ensures r.Found? ==> r.record == PublicView(FirstByUsername(db.users, username).value)
    ensures (db.Online? && fault.None? && FirstByUsername(db.users, username).Some?
      && !WellFormed(FirstByUsername(db.users, username).value.password)) ==> r == NotFound(LoginFailed + InvalidSalt)
    ensures r == NotFound(Invalid) <==>
      db.Online? && fault.None? && (FirstByUsername(db.users, username).None?
      || CheckPw(password, FirstByUsername(db.users, username).value.password) == Ok(false))
  {
    match db
    case Offline => NotFound(NotConnected)
    case Online(users, _) =>
      if fault.Some? then FailureIsNotInvalid(fault.value); NotFound(LoginFailed + fault.value)
      else
        match FirstByUsername(users, username)
        case Some(x) =>
          (match CheckPw(password, x.password)
           case Ok(true) => Found(PublicView(x))
           case Ok(false) => NotFound(Invalid)
           case Raised(e) => FailureIsNotInvalid(e); NotFound(LoginFailed + e))
        case None => NotFound(Invalid)
  }

  /**
   * What `get_lvr_data` leaves behind: the dicts it returned, the database, and whether
   * the module's `MOCK_VENDORS` dicts now carry an ObjectId `_id`.
   */
  datatype LvrStep = LvrStep(served: Listing, store: Store, mocksStamped: bool)

  /** The collection is reachable and empty: the call seeds it from `MOCK_VENDORS`. */
  predicate Seeds(db: Store, fault: Option<string>) {
    db.Online? && fault.None? && |db.vendors| == 0
  }

  /**
   * `get_lvr_data`: seed an empty collection with the four vendors, then return the
   * collection read without `_id`; without a database, or on a driver error, return
   * `MOCK_VENDORS` itself. Seeding hands `MOCK_VENDORS` to `insert_many`, which writes
   * an ObjectId `_id` into each of those dicts, so once the process has seeded, its
   * fallback list is stamped. A driver error is taken to strike at the first driver call.
   */
  function GetLvrData(db: Store, mocksStamped: bool, fault: Option<string>): (s: LvrStep)
    ensures |s.served.vendors| > 0
    ensures db.Offline? || fault.Some? ==> s == LvrStep(Listing(SeedVendors, mocksStamped), db, mocksStamped)
    ensures Seeds(db, fault) ==> s == LvrStep(Listing(SeedVendors, false), Online(db.users, SeedVendors), true)
    ensures db.Online? && fault.None? && |db.vendors| > 0 ==> s == LvrStep(Listing(db.vendors, false), db, mocksStamped)
    ensures db.Online? && fault.None? ==> s.store.Online? && s.served.vendors == s.store.vendors
    ensures s.served.stamped <==> (db.Offline? || fault.Some?) && mocksStamped
    ensures s.mocksStamped <==> mocksStamped || Seeds(db, fault)
  {
    match db
    case Offline => LvrStep(Listing(SeedVendors, mocksStamped), db, mocksStamped)
    case Online(users, vendors) =>
      if fault.Some? then LvrStep(Listing(SeedVendors, mocksStamped), db, mocksStamped)
      else if |vendors| == 0 then LvrStep(Listing(SeedVendors, false), Online(users, SeedVendors), true)
      else LvrStep(Listing(vendors, false), db, mocksStamped)
  }

  /**
   * `get_lvr_data` with a copy handed to `insert_many` (`[dict(v) for v in MOCK_VENDORS]`):
   * the same lists and database as `GetLvrData`, but `MOCK_VENDORS` is never stamped.
   */
  function GetLvrDataCopying(db: Store, mocksStamped: bool, fault: Option<string>): (s: LvrStep)
    ensures s.served.vendors == GetLvrData(db, mocksStamped, fault).served.vendors
    ensures s.store == GetLvrData(db, mocksStamped, fault).store
    ensures s.mocksStamped == mocksStamped
    ensures s.served.stamped ==> mocksStamped
  {
    var s := GetLvrData(db, mocksStamped, fault);
    LvrStep(s.served, s.store, mocksStamped)
  }

  /** Registration never lets two accounts share a username or an email. */
  lemma RegisterKeepsUnique(db: Store, a: Account, fault: Option<string>)
    requires db.Online? && Unique(db.users)
    ensures Register(db, a, fault).store.Online? && Unique(Register(db, a, fault).store.users)
  {
    if fault.None? && !Taken(db.users, a) {
      AppendKeepsUnique(db.users, a, a.(password := Hash(a.password)));
    }
  }

  lemma {:induction false} FirstOfAppended(accounts: seq<Account>, b: Account)
    requires forall i :: 0 <= i < |accounts| ==> accounts[i].username != b.username
    ensures FirstByUsername(accounts + [b], b.username) == Some(b)
    decreases |accounts|
  {
    if |accounts| > 0 {
      FirstOfAppended(accounts[1..], b);
      assert (accounts + [b])[1..] == accounts[1..] + [b];
    }
  }

  /** A freshly registered account can log in with its password and gets back exactly its public fields. */
  lemma RegisterThenFind(db: Store, a: Account)
    requires Register(db, a, None).result.Registered?
    ensures FindUser(Register(db, a, None).store, a.username, a.password, None) == Found(PublicView(a))
  {
    var b := a.(password := Hash(a.password));
    assert forall i :: 0 <= i < |db.users| ==> db.users[i].username != b.username by {
      if exists i :: 0 <= i < |db.users| && db.users[i].username == b.username {
        assert Taken(db.users, a);
      }
    }
    FirstOfAppended(db.users, b);
    CheckPwAcceptsOnlyItsPassword(a.password, a.password);
  }

  /** A freshly registered account is refused with any other password. */
  lemma WrongPasswordRefused(db: Store, a: Account, q: string)
    requires Register(db, a, None).result.Registered? && q != a.password
    ensures FindUser(Register(db, a, None).store, a.username, q, None) == NotFound(Invalid)
  {
    RegisterThenFind(db, a);
    CheckPwAcceptsOnlyItsPassword(a.password, q);
  }

  /** An unknown username is refused with the same message as a wrong password. */
  lemma UnknownUsernameRefused(db: Store, username: string, password: string)
    requires db.Online? && forall i :: 0 <= i < |db.users| ==> db.users[i].username != username
    ensures FindUser(db, username, password, None) == NotFound(Invalid)
  {
  }

  /** Registering the same account twice: the second attempt is refused and changes nothing. */
  lemma SecondRegistrationRefused(db: Store, a: Account)
    requires Register(db, a, None).result.Registered?
    ensures var db' := Register(db, a, None).store; Register(db', a, None) == Step(Refused(AlreadyExists), db')
  {
    var db' := Register(db, a, None).store;
    assert db'.users[|db.users|].username == a.username;
    assert Taken(db'.users, a);
  }

  /** Seeding happens once: a second call leaves the store as the first left it and returns the same list. */
  lemma SeedingIsIdempotent(db: Store, mocksStamped: bool, fault: Option<string>)
    ensures var first := GetLvrData(db, mocksStamped, None);
      && GetLvrData(first.store, first.mocksStamped, fault).store == first.store
      && GetLvrData(first.store, first.mocksStamped, None).served == first.served
  {
  }

  /** A freshly connected, empty database serves the four seed vendors, and stamps `MOCK_VENDORS` doing so. */
  lemma EmptyDatabaseServesSeed(users: seq<Account>, mocksStamped: bool)
    ensures GetLvrData(Online(users, []), mocksStamped, None)
      == LvrStep(Listing(SeedVendors, false), Online(users, SeedVendors), true)
  {
  }
}
