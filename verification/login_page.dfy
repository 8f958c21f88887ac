/** The login page of the older client build (client/src/pages/Login.tsx). */
module LoginPage {
  import opened Common
  import opened Users
  import opened Forms
  import Text

  const InitialForm: Form<string> := map["username" := "", "password" := ""]

  const SuccessMessage := "Login " + "successful. " + "Redirecting " + "to dashboard..."
  const FailurePrefix := "Login Failed: "
  const NetworkMessage := "Network " + "error" + ". Check if the Flask server is running on port 5000."

  /** What `/api/login` answered, as the page reads it: `success` with a user, `success` false with a message, or no answer. */
  datatype LoginReply = Accepted(user: User) | Refused(message: string) | Unreachable

  /**
   * The effect of one submission: the request body sent, the user handed to
   * `onLogin` (if any), the status message and the delayed navigation.
   */
  datatype Outcome = Outcome(body: Form<string>, signedIn: Option<User>, message: string, next: Option<string>)

  /** `handleChange`: `{ ...formData, [name]: value }` sets the named input and keeps every other one. */
  function HandleChange(form: Form<string>, field: string, value: string): (r: Form<string>)
    ensures field in r && r[field] == value
    ensures r.Keys == form.Keys + {field}
    ensures forall k :: k in form && k != field ==> r[k] == form[k]
  {
    Update(form, field, value)
  }

  /** `handleSubmit`: post the form and turn the reply into an outcome. */
  function Submit(form: Form<string>, reply: LoginReply): (o: Outcome)
    ensures o.body == form
    ensures o.signedIn.Some? <==> reply.Accepted?
    ensures reply.Accepted? ==> o.signedIn == Some(reply.user) && o.next == Some("/dashboard")
    ensures !reply.Accepted? ==> o.next == None
    ensures reply.Accepted? ==> o.message == SuccessMessage
    ensures reply.Refused? ==> o.message == FailurePrefix + reply.message
    ensures reply.Unreachable? ==> o.message == NetworkMessage
  {
    match reply
    case Accepted(u) => Outcome(form, Some(u), SuccessMessage, Some("/dashboard"))
    case Refused(m) => Outcome(form, None, FailurePrefix + m, None)
    case Unreachable => Outcome(form, None, NetworkMessage, None)
  }

  /** The success message has no capital `F`. */
  lemma SuccessLacksF()
    ensures 'F' !in SuccessMessage
  {
    var a, b, c, d := "Login ", "successful. ", "Redirecting ", "to dashboard...";
    assert 'F' !in a;
    assert 'F' !in b;
    assert 'F' !in c;
    assert 'F' !in d;
  }

  /** The success message has no doubled `r`. */
  lemma SuccessLacksDoubleR()
    ensures Text.NoPair(SuccessMessage, 'r', 'r')
  {
    var a, b, c, d := "Login ", "successful. ", "Redirecting ", "to dashboard...";
    assert Text.NoPair(a, 'r', 'r');
    assert Text.NoPair(b, 'r', 'r');
    assert Text.NoPair(c, 'r', 'r');
    assert Text.NoPair(d, 'r', 'r');
    Text.NoPairConcat(a, b, 'r', 'r');
    Text.NoPairConcat(a + b, c, 'r', 'r');
    Text.NoPairConcat(a + b + c, d, 'r', 'r');
  }

  /** The success message is green: it has no `F` and no doubled `r`. */
  lemma SuccessMessageIsGreen()
    ensures MessageTone(SuccessMessage) == Green
  {
    SuccessLacksF();
    SuccessLacksDoubleR();
    GreenWithout(SuccessMessage);
  }

  /**
   * The status line is green exactly when the login went through: a refusal, whatever
   * the server's message, and a network error are shown red.
   */
  lemma OutcomeTone(form: Form<string>, reply: LoginReply)
    ensures MessageTone(Submit(form, reply).message) == Green <==> reply.Accepted?
  {
    match reply
    case Accepted(_) => SuccessMessageIsGreen();
    case Refused(m) =>
      assert FailurePrefix + m == "Login " + "Failed" + (": " + m);
      RedAround("Login ", "Failed", ": " + m);
    case Unreachable =>
      RedAround("Network ", "error", ". Check if the Flask server is running on port 5000.");
  }

  /** Typing into one input leaves the other as it was. */
  lemma ChangeTouchesOneField(form: Form<string>, value: string)
    requires form.Keys == InitialForm.Keys
    ensures HandleChange(form, "username", value)["password"] == form["password"]
    ensures HandleChange(form, "password", value)["username"] == form["username"]
    ensures HandleChange(form, "username", value).Keys == InitialForm.Keys
  {
  }
}
