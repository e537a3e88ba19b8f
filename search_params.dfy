/**
 * The search parameters chat.js builds for the patient searches by birth
 * date (`searchPatientsByDate`), by gender (`searchPatientsByGender`) and by
 * approximate age (`searchPatientsByAge`). Parameters are name/value pairs
 * in the order they are appended to the URL.
 */
module SearchParams {
  import opened Common
  import opened Text

  type Params = seq<(string, string)>

  // ---------------------------------------------------------------------------
  // Birth year
  // ---------------------------------------------------------------------------

  /**
   * `\b(19|20)\d{2}\b` matches at `p`: "19" or "20", two more digits, and a
   * word boundary on both sides (the first and last characters are digits,
   * so the boundaries only depend on the neighbouring characters).
   */
  predicate YearAt(s: string, p: nat) {
    p + 4 <= |s|
    && (p == 0 || !IsWordChar(s[p - 1]))
    && ((s[p] == '1' && s[p + 1] == '9') || (s[p] == '2' && s[p + 1] == '0'))
    && IsDigit(s[p + 2]) && IsDigit(s[p + 3])
    && (p + 4 == |s| || !IsWordChar(s[p + 4]))
  }

  /** The leftmost index at which the year pattern matches. */
  function FirstYear(q: string): (r: Option<nat>)
    ensures r.Some? ==> YearAt(q, r.value) && forall p :: 0 <= p < r.value ==> !YearAt(q, p)
    ensures r.None? ==> forall p :: 0 <= p <= |q| ==> !YearAt(q, p)
  {
    var P := (p: nat) => YearAt(q, p);
    assert forall p: nat :: P(p) == YearAt(q, p);
    FirstWhere(P, 0, |q|)
  }

  /** A four-digit year of the twentieth or twenty-first century, 1900 to 2099. */
  predicate IsYear(y: string) {
    |y| == 4 && (forall k :: 0 <= k < 4 ==> IsDigit(y[k])) && 1900 <= DigitsValue(y) <= 2099
  }

  /** `yearMatch[0]`: the year the query mentions, if any. */
  function FindYear(q: string): (y: Option<string>)
    ensures y.None? <==> forall p :: 0 <= p <= |q| ==> !YearAt(q, p)
    ensures y.Some? ==> IsYear(y.value) && Contains(q, y.value)
    ensures y.Some? ==> FirstYear(q).Some? && y.value == q[FirstYear(q).value..FirstYear(q).value + 4]
  {
    match FirstYear(q)
    case Some(p) =>
      var y := q[p..p + 4];
      ContainsAt(q, y, p);
      YearValue(y);
      Some(y)
    case None => None
  }

  /** A token that starts with "19" or "20" and ends in two digits lies between 1900 and 2099. */
  lemma YearValue(y: string)
    requires |y| == 4 && ((y[0] == '1' && y[1] == '9') || (y[0] == '2' && y[1] == '0'))
    requires IsDigit(y[2]) && IsDigit(y[3])
    ensures IsYear(y)
  {
    var d0, d1, d2, d3 := y[0] as int - '0' as int, y[1] as int - '0' as int,
                          y[2] as int - '0' as int, y[3] as int - '0' as int;
    assert y[..3][..2] == y[..2] && y[..2][..1] == y[..1] && y[..1][..0] == [];
    assert DigitsValue(y[..1]) == d0;
    assert DigitsValue(y[..2]) == 10 * d0 + d1;
    assert DigitsValue(y[..3]) == 100 * d0 + 10 * d1 + d2;
    assert DigitsValue(y) == 1000 * d0 + 100 * d1 + 10 * d2 + d3;
  }

  /** Which part of the year a birth-date query asks for. */
  datatype YearPart = SecondHalf | FirstHalf | WholeYear

  /** "latter half"/"second half" before "first half"/"early", as the source tests them. */
  function YearPartOf(lq: string): YearPart {
    if Contains(lq, "latter half") || Contains(lq, "second half") then SecondHalf
    else if Contains(lq, "first half") || Contains(lq, "early") then FirstHalf
    else WholeYear
  }

  /** The first and last day (`MM-DD`) of a part of the year. */
  function PartBounds(part: YearPart): (string, string) {
    match part
    case SecondHalf => ("07-01", "12-31")
    case FirstHalf => ("01-01", "06-30")
    case WholeYear => ("01-01", "12-31")
  }

  /** The parameters of `searchPatientsByDate`. */
  function BirthDateParams(q: string): (ps: Params)
    ensures |ps| >= 1 && ps[0] == ("_count", "20")
    ensures FindYear(q).None? <==> |ps| == 1
  {
    match FindYear(q)
    case None => [("_count", "20")]
    case Some(y) =>
      var (first, last) := PartBounds(YearPartOf(Lower(q)));
      [("_count", "20"), ("birthdate", "ge" + y + "-" + first), ("birthdate:le", y + "-" + last)]
  }

  /**
   * With a year in the query, the search covers July to December for "latter
   * half" or "second half", January to June for "first half" or "early", and
   * the whole year otherwise; without a year no birth date is sent at all.
   */
  lemma BirthDateRanges(q: string)
    ensures FindYear(q).None? ==> BirthDateParams(q) == [("_count", "20")]
    ensures FindYear(q).Some? ==>
      var y := FindYear(q).value;
      var lq := Lower(q);
      && |BirthDateParams(q)| == 3
      && (Contains(lq, "latter half") || Contains(lq, "second half") ==>
            BirthDateParams(q)[1..] == [("birthdate", "ge" + y + "-07-01"), ("birthdate:le", y + "-12-31")])
      && (!(Contains(lq, "latter half") || Contains(lq, "second half"))
          && (Contains(lq, "first half") || Contains(lq, "early")) ==>
            BirthDateParams(q)[1..] == [("birthdate", "ge" + y + "-01-01"), ("birthdate:le", y + "-06-30")])
      && (!(Contains(lq, "latter half") || Contains(lq, "second half"))
          && !(Contains(lq, "first half") || Contains(lq, "early")) ==>
            BirthDateParams(q)[1..] == [("birthdate", "ge" + y + "-01-01"), ("birthdate:le", y + "-12-31")])
  {
    if FindYear(q).Some? {
      var y := FindYear(q).value;
      assert ("ge" + y + "-") + "07-01" == "ge" + y + "-07-01";
      assert ("ge" + y + "-") + "01-01" == "ge" + y + "-01-01";
      assert (y + "-") + "12-31" == y + "-12-31";
      assert (y + "-") + "06-30" == y + "-06-30";
    }
  }

  // ---------------------------------------------------------------------------
  // Gender
  // ---------------------------------------------------------------------------

  /** The gender `searchPatientsByGender` sends: "male", "female", or empty. */
  function GenderOf(q: string): (g: string)
    ensures g == "male" <==> ContainsLower(q, "male") && !ContainsLower(q, "female")
    ensures g == "female" <==> ContainsLower(q, "female")
    ensures g == "" <==> !ContainsLower(q, "male")
  {
    var lq := Lower(q);
    if Contains(lq, "male") && !Contains(lq, "female") then "male"
    else if Contains(lq, "female") then
      FemaleMentionsMale(lq);
      "female"
    else ""
  }

  /** Every text that contains "female" contains "male". */
  lemma FemaleMentionsMale(s: string)
    requires Contains(s, "female")
    ensures Contains(s, "male")
  {
    assert "female"[2..6] == "male";
    ContainsAt("female", "male", 2);
    ContainsTransitive(s, "female", "male");
  }

  /** The parameters of `searchPatientsByGender`; the gender is sent even when empty. */
  function GenderParams(q: string): (ps: Params)
    ensures |ps| == 2 && ps[0] == ("gender", GenderOf(q)) && ps[1] == ("_count", "20")
    ensures ps[0].1 in {"male", "female", ""}
  {
    [("gender", GenderOf(q)), ("_count", "20")]
  }

  // ---------------------------------------------------------------------------
  // Age
  // ---------------------------------------------------------------------------

  /**
   * `years?\s*old` (flag `i`) matches at `p`. An optional "s" that is present
   * is taken; giving it back leaves an "s" where `\s*old` needs white space or
   * an "o", so only the greedy reading matters.
   */
  predicate YearsOldAt(s: string, p: nat) {
    MatchesAt(s, p, "year")
    && var r := p + 4 + (if p + 4 < |s| && LowerChar(s[p + 4]) == 's' then 1 else 0);
       MatchesAt(s, r + RunLength(s, r, IsSpace), "old")
  }

  /** Where the unit of `(\d+)\s*(?:years?\s*old|age)` would start after the digits at `p`. */
  function AgeUnitStart(s: string, p: nat): nat {
    var n := RunLength(s, p, IsDigit);
    p + n + RunLength(s, p + n, IsSpace)
  }

  /**
   * The age pattern matches at `p`: a maximal run of digits, optional white
   * space, then "year(s) old" or "age". A shorter run of digits is followed by
   * a digit, which neither white space nor the unit accepts.
   */
  predicate AgeAt(s: string, p: nat) {
    RunLength(s, p, IsDigit) > 0
    && (YearsOldAt(s, AgeUnitStart(s, p)) || MatchesAt(s, AgeUnitStart(s, p), "age"))
  }

  function FirstAge(q: string): (r: Option<nat>)
    ensures r.Some? ==> r.value <= |q| && AgeAt(q, r.value) && forall p :: 0 <= p < r.value ==> !AgeAt(q, p)
    ensures r.None? ==> forall p :: 0 <= p <= |q| ==> !AgeAt(q, p)
  {
    var P := (p: nat) => AgeAt(q, p);
    assert forall p: nat :: P(p) == AgeAt(q, p);
    FirstWhere(P, 0, |q|)
  }

  /** The decimal value of the maximal run of digits at `p`, as `parseInt` reads it. */
  function NumberAt(s: string, p: nat): nat
    requires p <= |s|
  {
    var n := RunLength(s, p, IsDigit);
    var d := s[p..p + n];
    assert forall k :: 0 <= k < |d| ==> d[k] == s[p + k];
    DigitsValue(d)
  }

  /** A digit just before a match of the age pattern starts a match of its own. */
  lemma DigitExtendsAge(s: string, p: nat)
    requires p <= |s| && AgeAt(s, p)
    ensures p > 0 && IsDigit(s[p - 1]) ==> AgeAt(s, p - 1)
  {
    if p > 0 && IsDigit(s[p - 1]) {
      assert RunLength(s, p - 1, IsDigit) == 1 + RunLength(s, p, IsDigit);
      assert AgeUnitStart(s, p - 1) == AgeUnitStart(s, p);
    }
  }

  /**
   * `parseInt(ageMatch[1])`: the whole number in front of the leftmost
   * "years old" or "age" (no digit precedes it, and the run of digits is
   * maximal).
   */
  function AgeOf(q: string): (age: Option<nat>)
    ensures age.None? <==> forall p :: 0 <= p <= |q| ==> !AgeAt(q, p)
    ensures age.Some? ==> FirstAge(q).Some? && age.value == NumberAt(q, FirstAge(q).value)
    ensures age.Some? ==> var p := FirstAge(q).value; p == 0 || !IsDigit(q[p - 1])
  {
    match FirstAge(q)
    case Some(p) =>
      DigitExtendsAge(q, p);
      Some(NumberAt(q, p))
    case None => None
  }

  /** The warning given when the query names no age. */
  const NoAgeMessage: string := "Please specify an age (e.g., \"25 years old\" or \"age 30\")"

  /** The birth year searched for an age: the current year minus the age. */
  function BirthYear(currentYear: int, age: nat): (y: int)
    ensures y + age == currentYear
  {
    currentYear - age
  }

  /** The parameters of `searchPatientsByAge`: every patient born in the computed birth year. */
  function AgeParams(birthYear: int): (ps: Params)
    ensures |ps| == 3 && ps[2] == ("_count", "20")
    ensures ps[0].0 == "birthdate" && ps[1].0 == "birthdate:le"
    ensures ps[0].1 == "ge" + IntToString(birthYear) + "-01-01" && ps[1].1 == IntToString(birthYear) + "-12-31"
  {
    var y := IntToString(birthYear);
    [("birthdate", "ge" + y + "-01-01"), ("birthdate:le", y + "-12-31"), ("_count", "20")]
  }

  /**
   * An age `a` (what `AgeOf` reads from the query) asks for every patient
   * born in the calendar year `currentYear - a`, January 1st to December
   * 31st: the whole-year bounds the birth-date search uses.
   */
  lemma AgeRange(currentYear: int, a: nat)
    ensures var y := IntToString(currentYear - a);
            AgeParams(BirthYear(currentYear, a))
              == [("birthdate", "ge" + y + "-" + PartBounds(WholeYear).0),
                  ("birthdate:le", y + "-" + PartBounds(WholeYear).1), ("_count", "20")]
  {
    var y := IntToString(currentYear - a);
    assert ("ge" + y + "-") + "01-01" == "ge" + y + "-01-01";
    assert (y + "-") + "12-31" == y + "-12-31";
  }

  /**
   * The pattern needs the number before the unit: "age 30", the example the
   * warning itself suggests, names no age.
   */
  lemma AgeNeedsNumberFirst()
    ensures AgeOf("age 30").None?
  {
    NoAgeMatch("age 30");
  }

  lemma NoAgeMatch(s: string)
    requires s == "age 30"
    ensures forall p :: 0 <= p <= |s| ==> !AgeAt(s, p)
  {
    forall p | 0 <= p <= |s| ensures !AgeAt(s, p) {
      if p < 4 {
        assert !IsDigit(s[p]);
      } else if p < 6 {
        NothingAfterNumber(s, p);
      }
    }
  }

  /** In "age 30" the digits end the text, so no unit follows them. */
  lemma NothingAfterNumber(s: string, p: nat)
    requires s == "age 30" && 4 <= p < 6
    ensures AgeUnitStart(s, p) == 6
    ensures !YearsOldAt(s, 6) && !MatchesAt(s, 6, "age")
  {
    assert RunLength(s, 6, IsDigit) == 0 && RunLength(s, 6, IsSpace) == 0;
    assert RunLength(s, 5, IsDigit) == 1;
  }
}
