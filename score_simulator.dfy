/**
 * The score input of components/ScoreSimulator.tsx.
 *
 * The form keeps a `scores` object keyed by subject id: four ENEM areas
 * with a maximum of 45 correct answers each and the essay (`redacao`)
 * scored up to 1000.  Each keystroke is parsed with `parseInt(value, 10)`;
 * a value inside `[0, max]` is stored, the empty string stores 0, and
 * anything else is ignored (rejected, not clamped).
 */
module ScoreSimulator {
  import opened JsParseInt

  /** The `scores` object: a JavaScript object from subject id to number. */
  type Scores = map<string, int>

  /** The maximum that `handleScoreChange` allows for a subject. */
  function MaxFor(subject: string): (max: int)
    ensures max == 1000 <==> subject == "redacao"
    ensures max == 45 <==> subject != "redacao"
  {
    if subject == "redacao" then 1000 else 45
  }

  /** Every stored score lies between 0 and its subject's maximum. */
  ghost predicate InBounds(scores: Scores) {
    forall k :: k in scores ==> 0 <= scores[k] <= MaxFor(k)
  }

  /** The state the form starts in. */
  function InitialScores(): (scores: Scores)
    ensures scores.Keys == {"linguagens", "humanas", "natureza", "matematica", "redacao"}
    ensures InBounds(scores)
  {
    map["linguagens" := 25, "humanas" := 25, "natureza" := 25, "matematica" := 25, "redacao" := 700]
  }

  /**
   * The update `handleScoreChange(subject, value)` makes to `scores`.
   * Only the named key may change, and when it changes it is given a value
   * within its bounds: the value `parseInt` reads when that lies in range,
   * 0 for the empty string, and otherwise nothing changes (no clamping).
   */
  function ScoreChange(prev: Scores, subject: string, value: string): (next: Scores)
    ensures (ParseInt(value).Int? && 0 <= ParseInt(value).value <= MaxFor(subject)) ==>
      next == prev[subject := ParseInt(value).value]
    ensures value != "" && !(ParseInt(value).Int? && 0 <= ParseInt(value).value <= MaxFor(subject)) ==>
      next == prev
    ensures forall k :: k in prev && k != subject ==> k in next && next[k] == prev[k]
    ensures next.Keys <= prev.Keys + {subject}
    ensures next == prev || (subject in next && 0 <= next[subject] <= MaxFor(subject))
    ensures InBounds(prev) ==> InBounds(next)
  {
    var num := ParseInt(value);
    var max := MaxFor(subject);
    if num.Int? && 0 <= num.value <= max then prev[subject := num.value]
    else if value == "" then prev[subject := 0]
    else prev
  }

  /** A numeral within bounds, possibly followed by other text, is stored. */
  lemma StoresNumeral(prev: Scores, subject: string, n: nat, rest: string)
    requires n <= MaxFor(subject)
    requires rest == [] || !IsDigit(rest[0])
    ensures ScoreChange(prev, subject, Decimal(n) + rest) == prev[subject := n]
  {
    ParseIntOfNumeral("", "", n, rest);
    assert "" + "" + Decimal(n) + rest == Decimal(n) + rest;
  }

  /** A numeral above the maximum changes nothing: there is no clamping. */
  lemma RejectsAboveMaximum(prev: Scores, subject: string, n: nat, rest: string)
    requires n > MaxFor(subject)
    requires rest == [] || !IsDigit(rest[0])
    ensures ScoreChange(prev, subject, Decimal(n) + rest) == prev
  {
    ParseIntOfNumeral("", "", n, rest);
    assert "" + "" + Decimal(n) + rest == Decimal(n) + rest;
  }

  /** A negative numeral changes nothing. */
  lemma RejectsNegative(prev: Scores, subject: string, n: nat, rest: string)
    requires n > 0
    requires rest == [] || !IsDigit(rest[0])
    ensures ScoreChange(prev, subject, "-" + Decimal(n) + rest) == prev
  {
    ParseIntOfNumeral("", "-", n, rest);
    assert "" + "-" + Decimal(n) + rest == "-" + Decimal(n) + rest;
  }

  /** Text with no digits after the white space and sign changes nothing, unless it is empty. */
  lemma RejectsNaN(prev: Scores, subject: string, value: string)
    requires value != ""
    requires ParseInt(value).NaN?
    ensures ScoreChange(prev, subject, value) == prev
  {
  }

  /** The empty string stores 0. */
  lemma EmptyStoresZero(prev: Scores, subject: string)
    ensures ScoreChange(prev, subject, "") == prev[subject := 0]
  {
  }

  /** "12abc" stores 12 under a 45-point subject. */
  lemma StoresDigitPrefix(prev: Scores)
    ensures ScoreChange(prev, "linguagens", "12abc") == prev["linguagens" := 12]
  {
    assert Decimal(12) == Decimal(1) + ['2'];
    assert Decimal(12) + "abc" == "12abc";
    StoresNumeral(prev, "linguagens", 12, "abc");
  }

  /** "50" is ignored under a 45-point subject. */
  lemma IgnoresFifty(prev: Scores)
    ensures ScoreChange(prev, "linguagens", "50") == prev
  {
    assert Decimal(50) == Decimal(5) + ['0'];
    RejectsAboveMaximum(prev, "linguagens", 50, "");
    assert "50" + "" == "50";
  }

  /** The form's state: the `scores` record it edits and submits. */
  class ScoreForm {
    var scores: Scores

    ghost predicate Valid()
      reads this
    {
      InBounds(scores)
    }

    /** The form starts at 25 per area and 700 for the essay. */
    constructor ()
      ensures scores == InitialScores() && Valid()
    {
      scores := InitialScores();
    }

    /** `handleScoreChange(subject, value)`; keeps every score within bounds. */
    method HandleScoreChange(subject: string, value: string)
      requires Valid()
      modifies this
      ensures scores == ScoreChange(old(scores), subject, value)
      ensures Valid()
    {
      scores := ScoreChange(scores, subject, value);
    }

    /** `handleSubmit`: hands the current scores, unmodified, to `onGenerate`. */
    method HandleSubmit() returns (submitted: Scores)
      requires Valid()
      ensures submitted == scores && InBounds(submitted)
    {
      submitted := scores;
    }
  }

  /** Typing "50" into the first area leaves it at 25, and what is submitted stays in bounds. */
  method RejectionScenario()
  {
    var form := new ScoreForm();
    form.HandleScoreChange("linguagens", "50");
    IgnoresFifty(InitialScores());
    assert form.scores["linguagens"] == 25;
    var sent := form.HandleSubmit();
    assert sent["linguagens"] <= 45;
  }
}
