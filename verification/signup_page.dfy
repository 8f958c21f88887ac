/** The signup page of the current client (src/client/src/pages/Signup.tsx). */
module SignupPage {
  import opened Common
  import opened Users
  import opened Forms
  import Text
  import Session

  const InitialForm: Form<string> :=
    map["name" := "", "email" := "", "username" := "", "password" := "", "role" := "Producer/CEO"]

  /** The values of the role `<select>`, in display order. */
  const RoleOptions: seq<string> := ["Producer/CEO", "Line Producer", "1st AD/Unit Manager", "VFX Supervisor/Director"]

  const RedirectNote := " Redirecting to login..."
  const FailurePrefix := "Signup Failed: "
  const NetworkMessage := "Network " + "error" + ". Check server status."

  /** What `/api/signup` answered: `success` with a message, `success` false with a message, or no answer. */
  datatype SignupReply = Created(message: string) | Refused(message: string) | Unreachable

  /** The effect of one submission: the body sent, the status message and the delayed navigation. No user is produced. */
  datatype Outcome = Outcome(body: Form<string>, message: string, next: Option<string>)

  /** `handleChange`: `{ ...formData, [name]: value }` sets the named input and keeps every other one. */
  function HandleChange(form: Form<string>, field: string, value: string): (r: Form<string>)
    ensures field in r && r[field] == value
    ensures r.Keys == form.Keys + {field}
    ensures forall k :: k in form && k != field ==> r[k] == form[k]
  {
    Update(form, field, value)
  }

  function Submit(form: Form<string>, reply: SignupReply): (o: Outcome)
    ensures o.body == form
    ensures o.next.Some? <==> reply.Created?
    ensures reply.Created? ==> o.next == Some("/login") && Text.StartsWith(o.message, reply.message)
    ensures reply.Refused? ==> Text.StartsWith(o.message, FailurePrefix)
    ensures reply.Created? ==> o.message == reply.message + RedirectNote
    ensures reply.Refused? ==> o.message == FailurePrefix + reply.message
    ensures reply.Unreachable? ==> o.message == NetworkMessage
  {
    match reply
    case Created(m) =>
      assert (m + RedirectNote)[..|m|] == m;
      Outcome(form, m + RedirectNote, Some("/login"))
    case Refused(m) =>
      assert (FailurePrefix + m)[..|FailurePrefix|] == FailurePrefix;
      Outcome(form, FailurePrefix + m, None)
    case Unreachable => Outcome(form, NetworkMessage, None)
  }

  /** The form starts empty with the first role option selected, and every field is one the server requires. */
  lemma InitialFormShape()
    ensures InitialForm.Keys == {"name", "email", "username", "password", "role"}
    ensures forall k :: k in InitialForm && k != "role" ==> InitialForm[k] == ""
    ensures InitialForm["role"] == RoleOptions[0]
  {
  }

  /** The selectable roles are exactly the role strings the dashboard switch does not turn away. */
  lemma RoleOptionsAreDispatched(role: string)
    ensures role in RoleOptions <==> !Session.Dashboard(role).Redirect?
  {
  }

  /** Refusals and network errors are red; a created account is green when the server's message has no `F` and no doubled `r`. */
  lemma OutcomeTone(form: Form<string>, reply: SignupReply)
    ensures !reply.Created? ==> MessageTone(Submit(form, reply).message) == Red
    ensures reply.Created? && 'F' !in reply.message && Text.NoPair(reply.message, 'r', 'r')
      ==> MessageTone(Submit(form, reply).message) == Green
  {
    match reply
    case Created(m) =>
      if 'F' !in m && Text.NoPair(m, 'r', 'r') {
        var a, b := " Redirecting", " to login...";
        assert RedirectNote == a + b;
        assert 'F' !in a && 'F' !in b;
        assert Text.NoPair(a, 'r', 'r') && Text.NoPair(b, 'r', 'r');
        Text.NoPairConcat(a, b, 'r', 'r');
        Text.NoPairConcat(m, RedirectNote, 'r', 'r');
        GreenWithout(m + RedirectNote);
      }
    case Refused(m) =>
      assert FailurePrefix + m == "Signup " + "Failed" + (": " + m);
      RedAround("Signup ", "Failed", ": " + m);
    case Unreachable =>
      RedAround("Network ", "error", ". Check server status.");
  }
}
