/**
 * The text a user record is stored as in the browser's storage slot. `JSON.stringify`
 * and `JSON.parse` are modelled by a JSON-shaped encoding with a fixed key order in
 * which `"` and `\` inside a field are escaped with a backslash. The order is the
 * alphabetical one: Flask's `jsonify` sorts the keys of the login reply, `response.json()`
 * keeps that order and `JSON.stringify` writes the keys in it.
 */
module Codec {
  import opened Common
  import opened Users
  import Text

  function Escape(f: string): string
    decreases |f|
  {
    if |f| == 0 then ""
    else (if f[0] == '"' || f[0] == '\\' then ['\\', f[0]] else [f[0]]) + Escape(f[1..])
  }

  /** Reads an escaped field up to and including its closing quote; returns the field and the rest. */
  function ReadField(s: string): Option<(string, string)>
    decreases |s|
  {
    if |s| == 0 then None
    else if s[0] == '"' then Some(("", s[1..]))
    else if s[0] == '\\' then
      if |s| < 2 then None
      else match ReadField(s[2..])
        case Some((f, rest)) => Some(([s[1]] + f, rest))
        case None => None
    else match ReadField(s[1..])
      case Some((f, rest)) => Some(([s[0]] + f, rest))
      case None => None
  }

  /** Consumes a fixed piece of syntax. */
  function Expect(s: string, lit: string): Option<string> {
    if Text.StartsWith(s, lit) then Some(s[|lit|..]) else None
  }

  const EmailKey := "{\"email\":\""
  const NameKey := ",\"name\":\""
  const RoleKey := ",\"role\":\""
  const UsernameKey := ",\"username\":\""
  const Close := "}"

  /** A key, its quoted field and whatever follows. */
  function Field(lit: string, f: string, rest: string): string {
    lit + Escape(f) + "\"" + rest
  }

  /** `JSON.stringify(user)`: an object opening with the email key and closed by a brace. */
  function Serialize(u: User): (s: string)
    ensures Text.StartsWith(s, EmailKey) && s[|s| - 1] == '}'
  {
    var tail := Field(NameKey, u.name, Field(RoleKey, u.role, Field(UsernameKey, u.username, Close)));
    var s := Field(EmailKey, u.email, tail);
    assert s[..|EmailKey|] == EmailKey;
    assert s[|s| - 1] == Field(UsernameKey, u.username, Close)[|Field(UsernameKey, u.username, Close)| - 1];
    s
  }

  /** Reads `lit` followed by a quoted field. */
  function KeyedField(s: string, lit: string): Option<(string, string)> {
    match Expect(s, lit)
    case None => None
    case Some(t) => ReadField(t)
  }

  /** Parses a stored user record; `None` is the exception `JSON.parse` throws. */
  function Parse(s: string): (r: Option<User>)
    ensures r.Some? ==> Text.StartsWith(s, EmailKey)
  {
    match KeyedField(s, EmailKey)
    case None => None
    case Some((email, s1)) =>
      match KeyedField(s1, NameKey)
      case None => None
      case Some((name, s2)) =>
        match KeyedField(s2, RoleKey)
        case None => None
        case Some((role, s3)) =>
          match KeyedField(s3, UsernameKey)
          case None => None
          case Some((username, s4)) =>
            if s4 == Close then Some(User(name, email, username, role)) else None
  }

  lemma {:induction false} ReadEscaped(f: string, rest: string)
    ensures ReadField(Escape(f) + "\"" + rest) == Some((f, rest))
    decreases |f|
  {
    if |f| == 0 {
      assert Escape(f) + "\"" + rest == "\"" + rest;
    } else {
      ReadEscaped(f[1..], rest);
      var tail := Escape(f[1..]) + "\"" + rest;
      if f[0] == '"' || f[0] == '\\' {
        assert Escape(f) + "\"" + rest == ['\\', f[0]] + tail;
        assert (['\\', f[0]] + tail)[2..] == tail;
      } else {
        assert Escape(f) + "\"" + rest == [f[0]] + tail;
        assert ([f[0]] + tail)[1..] == tail;
      }
      assert [f[0]] + f[1..] == f;
    }
  }

  lemma KeyedFieldOf(lit: string, f: string, rest: string)
    ensures KeyedField(Field(lit, f, rest), lit) == Some((f, rest))
  {
    var s := Field(lit, f, rest);
    assert s[..|lit|] == lit;
    assert s[|lit|..] == Escape(f) + "\"" + rest;
    ReadEscaped(f, rest);
  }

  /** What is stored is read back unchanged: `JSON.parse(JSON.stringify(u))` is `u`. */
  lemma ParseSerialize(u: User)
    ensures Parse(Serialize(u)) == Some(u)
  {
    var r3 := Field(UsernameKey, u.username, Close);
    var r2 := Field(RoleKey, u.role, r3);
    var r1 := Field(NameKey, u.name, r2);
    KeyedFieldOf(EmailKey, u.email, r1);
    KeyedFieldOf(NameKey, u.name, r2);
    KeyedFieldOf(RoleKey, u.role, r3);
    KeyedFieldOf(UsernameKey, u.username, Close);
  }

  /** The empty string and a truncated record are not user records. */
  lemma MalformedIsRejected()
    ensures Parse("") == None
    ensures Parse("{") == None
  {
  }
}
