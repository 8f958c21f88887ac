/** The people who use the console: their roles, client-side records and stored accounts. */
module Users {
  import opened Common

  /** The four roles the signup form offers. */
  datatype Role = ProducerCeo | LineProducer | UnitManager | VfxSupervisor

  /** The role strings the client and the server exchange. */
  function RoleName(r: Role): string {
    match r
    case ProducerCeo => "Producer/CEO"
    case LineProducer => "Line Producer"
    case UnitManager => "1st AD/Unit Manager"
    case VfxSupervisor => "VFX Supervisor/Director"
  }

  /** Recognises one of the four role strings; any other string is no role. */
  function ParseRole(s: string): Option<Role> {
    if s == "Producer/CEO" then Some(ProducerCeo)
    else if s == "Line Producer" then Some(LineProducer)
    else if s == "1st AD/Unit Manager" then Some(UnitManager)
    else if s == "VFX Supervisor/Director" then Some(VfxSupervisor)
    else None
  }

  /** Role names and role recognition are inverse to each other. */
  lemma RoleNameRoundTrip(r: Role, s: string)
    ensures ParseRole(RoleName(r)) == Some(r)
    ensures ParseRole(s) == Some(r) ==> RoleName(r) == s
  {
  }

  /**
   * The user record the client keeps: name, email, username and role. The role is a
   * plain string because a record restored from storage is not checked against the four.
   */
  datatype User = User(name: string, email: string, username: string, role: string)

  /** A stored account: the user record plus the stored password (hashed or plain). */
  datatype Account = Account(name: string, email: string, username: string, password: string, role: string)

  /** The public part of an account: everything but the password. */
  function PublicView(a: Account): (u: User)
    ensures u.name == a.name && u.email == a.email && u.username == a.username && u.role == a.role
  {
    User(a.name, a.email, a.username, a.role)
  }

  /** What a lookup of an account returns: the record found, or the reason it was not. */
  datatype Lookup<+T> = Found(record: T) | NotFound(message: string)

  /** What an attempt to register an account returns; the older server's success carries no message. */
  datatype Registration = Registered(note: Option<string>) | Refused(message: string)

  /** Some stored account already uses `a`'s username or email (the `$or` query of both servers). */
  predicate Taken(accounts: seq<Account>, a: Account) {
    exists i :: 0 <= i < |accounts| && (accounts[i].username == a.username || accounts[i].email == a.email)
  }

  /** No two stored accounts share a username or an email. */
  predicate Unique(accounts: seq<Account>) {
    forall i, j :: 0 <= i < j < |accounts| ==>
      accounts[i].username != accounts[j].username && accounts[i].email != accounts[j].email
  }

  /** Appending an account that clashes with nobody keeps the collection free of clashes. */
  lemma AppendKeepsUnique(accounts: seq<Account>, a: Account, b: Account)
    requires Unique(accounts) && !Taken(accounts, a)
    requires b.username == a.username && b.email == a.email
    ensures Unique(accounts + [b])
  {
    var r := accounts + [b];
    forall i, j | 0 <= i < j < |r|
      ensures r[i].username != r[j].username && r[i].email != r[j].email
    {
      if j == |accounts| {
        assert r[i] == accounts[i] && r[j] == b;
      } else {
        assert r[i] == accounts[i] && r[j] == accounts[j];
      }
    }
  }
}
