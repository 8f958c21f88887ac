/** The unit manager's daily progress report form (src/client/src/pages/ExecutorDashboard.tsx). */
module Executor {
  import opened Common
  import opened Numerals
  import Text

  /** The report being filled in. `dailySpend` is what `parseFloat(...) || 0` produced. */
  datatype Report = Report(scenesShot: int, dailySpend: real, delayMinutes: int, notes: string)

  const EmptyReport := Report(0, 0.0, 0, "")

  const SubmittingMessage := "Submitting DPR " + "and Expense Log..."

  /** The three number inputs and the notes input. */
  datatype Field = ScenesShot | DailySpend | DelayMinutes | Notes

  /**
   * One `onChange`: the scene and delay inputs go through `parseInt(value) || 0`, the
   * spend input through `parseFloat(value) || 0` (its parse, `None` for `NaN`, is given),
   * and the notes are kept as typed.
   */
  function Change(r: Report, field: Field, text: string, spend: Option<real>): (q: Report)
    ensures q.scenesShot == (if field.ScenesShot? then ParseIntOrZero(text) else r.scenesShot)
    ensures q.delayMinutes == (if field.DelayMinutes? then ParseIntOrZero(text) else r.delayMinutes)
    ensures q.dailySpend == (if field.DailySpend? then spend.GetOr(0.0) else r.dailySpend)
    ensures q.notes == (if field.Notes? then text else r.notes)
  {
    match field
    case ScenesShot => r.(scenesShot := ParseIntOrZero(text))
    case DelayMinutes => r.(delayMinutes := ParseIntOrZero(text))
    case DailySpend => r.(dailySpend := spend.GetOr(0.0))
    case Notes => r.(notes := text)
  }

  /** The bracketed word: `SUCCESS` when at least one scene was shot, `WARNING` otherwise. */
  function StatusWord(scenes: int): (w: string)
    ensures w == "SUCCESS" <==> scenes > 0
    ensures w == "WARNING" <==> scenes <= 0
  {
    if scenes > 0 then "SUCCESS" else "WARNING"
  }

  const Middle := "] DPR for " + "Day 5 " + "submitted! " + "Scenes: "
  const Tail := ". Data is " + "now feeding " + "the AI Risk Meter."

  /**
   * The confirmation shown once the mocked submission completes: the status word in
   * brackets, then the fixed text, then the submitted count, which reads back as itself.
   */
  function Confirmation(scenes: int): (c: string)
    ensures var head := "[" + StatusWord(scenes) + Middle;
      && |c| >= |head| + |Tail| && c[..|head|] == head && c[|c| - |Tail|..] == Tail
      && ParseInt(c[|head|..|c| - |Tail|]) == Some(scenes)
  {
    var head := "[" + StatusWord(scenes) + Middle;
    Text.Framed(head, IntString(scenes), Tail);
    ParseIntOfIntString(scenes);
    head + IntString(scenes) + Tail
  }

  /** The form and status line after `handleDPRSubmit` and its timer have run: nothing is sent anywhere. */
  datatype Submitted = Submitted(report: Report, message: string)

  function Submit(r: Report): (s: Submitted)
    ensures s.report == EmptyReport
    ensures s.message == Confirmation(r.scenesShot)
  {
    Submitted(EmptyReport, Confirmation(r.scenesShot))
  }

  /** The status line's colour: green if it mentions `SUCCESS`, else orange if it mentions `WARNING`, else gray. */
  function DprTone(message: string): (t: Tone)
    ensures t == Green || t == Orange || t == Gray
  {
    if Text.Contains(message, "SUCCESS") then Green
    else if Text.Contains(message, "WARNING") then Orange
    else Gray
  }

  /** A message with `SUCCESS` in it is green, whatever else it says. */
  lemma GreenAround(before: string, after: string)
    ensures DprTone(before + "SUCCESS" + after) == Green
  {
    Text.ContainsSpliced(before, "SUCCESS", after);
  }

  /** A message with `WARNING` in it and no `C` (so no `SUCCESS`) is orange. */
  lemma OrangeAround(before: string, after: string)
    requires 'C' !in before + "WARNING" + after
    ensures DprTone(before + "WARNING" + after) == Orange
  {
    Text.ContainsSpliced(before, "WARNING", after);
    Text.MissingChar(before + "WARNING" + after, "SUCCESS", 'C');
  }

  /** A message with neither a `C` nor a `W` is gray. */
  lemma GrayWithout(message: string)
    requires 'C' !in message && 'W' !in message
    ensures DprTone(message) == Gray
  {
    Text.MissingChar(message, "SUCCESS", 'C');
    Text.MissingChar(message, "WARNING", 'W');
  }

  /** A numeral has no letters. */
  lemma NumeralHasNoLetter(i: int, c: char)
    requires !IsDigit(c) && c != '-'
    ensures c !in IntString(i)
  {
    if i < 0 {
      assert IntString(i) == "-" + NatString(-i);
    }
  }

  /** The fixed parts of the confirmation have no capital `C`. */
  lemma MiddleLacksC()
    ensures 'C' !in Middle
  {
    var a, b, c, d := "] DPR for ", "Day 5 ", "submitted! ", "Scenes: ";
    assert 'C' !in a;
    assert 'C' !in b;
    assert 'C' !in c;
    assert 'C' !in d;
  }

  lemma TailLacksC()
    ensures 'C' !in Tail
  {
    var e, f, g := ". Data is ", "now feeding ", "the AI Risk Meter.";
    assert 'C' !in e;
    assert 'C' !in f;
    assert 'C' !in g;
  }

  /** The warning confirmation has no capital `C`, so it cannot be mistaken for a success. */
  lemma WarningLacksC(scenes: int)
    requires scenes <= 0
    ensures 'C' !in Confirmation(scenes)
  {
    MiddleLacksC();
    TailLacksC();
    NumeralHasNoLetter(scenes, 'C');
    assert StatusWord(scenes) == "WARNING";
  }

  /** The confirmation after a day with scenes is green, and after a day without, orange. */
  lemma ConfirmationTone(scenes: int)
    ensures DprTone(Confirmation(scenes)) == (if scenes > 0 then Green else Orange)
  {
    var rest := Middle + IntString(scenes) + Tail;
    Text.Regroup("[", StatusWord(scenes), Middle, IntString(scenes), Tail);
    if scenes > 0 {
      GreenAround("[", rest);
    } else {
      WarningLacksC(scenes);
      OrangeAround("[", rest);
    }
  }

  /** The confirmation's second character tells a success from a warning. */
  lemma StatusInSecondPlace(n: int)
    ensures |Confirmation(n)| > 1 && Confirmation(n)[1] == StatusWord(n)[0]
  {
  }

  /** The confirmation carries the submitted count: different counts give different messages. */
  lemma ConfirmationDeterminesCount(m: int, n: int)
    requires Confirmation(m) == Confirmation(n)
    ensures m == n
  {
    if StatusWord(m) != StatusWord(n) {
      StatusInSecondPlace(m);
      StatusInSecondPlace(n);
    }
  }

  /** While the timer runs the status line is gray. */
  lemma SubmittingIsGray()
    ensures DprTone(SubmittingMessage) == Gray
  {
    var a, b := "Submitting DPR ", "and Expense Log...";
    assert 'C' !in a && 'C' !in b && 'W' !in a && 'W' !in b;
    GrayWithout(SubmittingMessage);
  }

  /** A submission made after the confirmation appears starts from the cleared form: it reports zero scenes. */
  lemma SubmitResets(r: Report)
    ensures Submit(Submit(r).report).message == Confirmation(0)
  {
  }

  /** Typing a scene count and submitting reports that count back, and the form is then empty again. */
  lemma TypedCountIsReported(r: Report, n: int)
    ensures Submit(Change(r, ScenesShot, IntString(n), None)).message == Confirmation(n)
    ensures Change(EmptyReport, ScenesShot, IntString(n), None).scenesShot == n
  {
    ParseIntOfIntString(n);
  }

  /** A scene count typed as something that is not a number is reported as zero scenes, with a warning. */
  lemma GarbageCountWarns(r: Report, text: string)
    requires forall i :: 0 <= i < |text| ==> !IsDigit(text[i])
    ensures DprTone(Submit(Change(r, ScenesShot, text, None)).message) == Orange
  {
    NoDigitsReadsAsZero(text);
    ConfirmationTone(0);
  }
}
