/**
 * The form state the pages keep and their shared `handleChange`:
 * `setFormData({ ...formData, [name]: value })`, and the status-message colour rule
 * the login and signup pages share.
 */
module Forms {
  import opened Common
  import Text

  /** A form: the value of each named input. */
  type Form<V> = map<string, V>

  /** The spread-and-override update: only the named input takes the new value. */
  function Update<V>(form: Form<V>, field: string, value: V): (r: Form<V>)
    ensures field in r && r[field] == value
    ensures r.Keys == form.Keys + {field}
    ensures forall k :: k in form && k != field ==> r[k] == form[k]
  {
    form[field := value]
  }

  /** The login and signup status line: red when it mentions `Failed` or `error`, else green. */
  function MessageTone(message: string): (t: Tone)
    ensures t == Red || t == Green
  {
    if Text.Contains(message, "Failed") || Text.Contains(message, "error") then Red else Green
  }

  /** A message built around a word the rule looks for is red, whatever surrounds it. */
  lemma RedAround(before: string, word: string, after: string)
    requires word == "Failed" || word == "error"
    ensures MessageTone(before + word + after) == Red
  {
    Text.ContainsSpliced(before, word, after);
  }

  /** A message with no `F` and no doubled `r` is green. */
  lemma GreenWithout(message: string)
    requires 'F' !in message && Text.NoPair(message, 'r', 'r')
    ensures MessageTone(message) == Green
  {
    Text.MissingChar(message, "Failed", 'F');
    assert "error"[1] == 'r' && "error"[2] == 'r';
    Text.MissingPair(message, "error", 1);
  }
}
