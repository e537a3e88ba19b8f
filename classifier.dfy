/**
 * How chat.js reads a query without the language model: the three-tier
 * patient-id extractor (`extractPatientId`), the name capture used by the
 * "get/show patient" rule, and the ordered cascade of
 * `processQueryWithPatternMatching` (repeated verbatim in `processQuery`).
 *
 * Every regular expression is modelled by the position at which
 * `String.prototype.match` finds it: the leftmost start index at which the
 * pattern succeeds (`FirstWhere`), with the backtracking of each pattern
 * worked out into plain conditions on maximal character runs.
 */
module Classifier {
  import opened Common
  import opened Text

  // ---------------------------------------------------------------------------
  // extractPatientId
  // ---------------------------------------------------------------------------

  /** The offsets of the four dashes in a UUID. */
  predicate IsDashSlot(k: int) {
    k == 8 || k == 13 || k == 18 || k == 23
  }

  /** `[0-9a-f]{8}-[0-9a-f]{4}-[0-9a-f]{4}-[0-9a-f]{4}-[0-9a-f]{12}` with the `i` flag matches at `p`. */
  predicate UuidAt(s: string, p: nat) {
    p + 36 <= |s|
    && forall k :: 0 <= k < 36 ==> (if IsDashSlot(k) then s[p + k] == '-' else IsHexDigit(s[p + k]))
  }

  /** A token shaped like a UUID. */
  predicate IsUuid(t: string) {
    |t| == 36 && UuidAt(t, 0)
  }

  /** Characters of `[a-z0-9\-]` under the `i` flag. */
  predicate IsIdChar(c: char) {
    IsAlnum(c) || c == '-'
  }

  /** A non-empty run of id characters. */
  predicate IsToken(t: string) {
    t != [] && forall k :: 0 <= k < |t| ==> IsIdChar(t[k])
  }

  /** Length of the keyword of `(?:patient|for|id)` found at `p` (alternatives in that order), 0 for none. */
  function KeywordLength(s: string, p: nat): nat {
    if MatchesAt(s, p, "patient") then 7
    else if MatchesAt(s, p, "for") then 3
    else if MatchesAt(s, p, "id") then 2
    else 0
  }

  /** Where the captured token of `(?:patient|for|id)\s+([a-z0-9\-]+)` begins for a match at `p`. */
  function TokenStart(s: string, p: nat): nat {
    var a := p + KeywordLength(s, p);
    a + RunLength(s, a, IsSpace)
  }

  /**
   * The second-tier pattern matches at `p`. The keywords begin with different
   * letters and neither `\s+` nor the token class can give back a character
   * the next item would accept, so only the greedy reading has to be checked.
   */
  predicate KeywordTokenAt(s: string, p: nat) {
    KeywordLength(s, p) > 0
    && RunLength(s, p + KeywordLength(s, p), IsSpace) > 0
    && RunLength(s, TokenStart(s, p), IsIdChar) > 0
  }

  /**
   * `\b([a-z0-9]{8,})\b` with the `i` flag matches at `p`: a word boundary
   * before, at least eight letters or digits, and a boundary after the
   * maximal run (a shorter run is followed by a letter or digit, so it
   * never ends at a boundary).
   */
  predicate LongWordAt(s: string, p: nat) {
    p <= |s|
    && (p == 0 || !IsWordChar(s[p - 1]))
    && var n := RunLength(s, p, IsAlnum);
       n >= 8 && (p + n == |s| || !IsWordChar(s[p + n]))
  }

  /** The leftmost index at which a UUID starts. */
  function FirstUuid(q: string): (r: Option<nat>)
    ensures r.Some? ==> UuidAt(q, r.value) && forall p :: 0 <= p < r.value ==> !UuidAt(q, p)
    ensures r.None? ==> forall p :: 0 <= p <= |q| ==> !UuidAt(q, p)
  {
    var P := (p: nat) => UuidAt(q, p);
    assert forall p: nat :: P(p) == UuidAt(q, p);
    FirstWhere(P, 0, |q|)
  }

  /** The leftmost index at which the second-tier pattern matches. */
  function FirstKeywordToken(q: string): (r: Option<nat>)
    ensures r.Some? ==> r.value <= |q| && KeywordTokenAt(q, r.value)
    ensures r.Some? ==> forall p :: 0 <= p < r.value ==> !KeywordTokenAt(q, p)
    ensures r.None? ==> forall p :: 0 <= p <= |q| ==> !KeywordTokenAt(q, p)
  {
    var P := (p: nat) => KeywordTokenAt(q, p);
    assert forall p: nat :: P(p) == KeywordTokenAt(q, p);
    FirstWhere(P, 0, |q|)
  }

  /** The leftmost index at which the third-tier pattern matches. */
  function FirstLongWord(q: string): (r: Option<nat>)
    ensures r.Some? ==> LongWordAt(q, r.value) && forall p :: 0 <= p < r.value ==> !LongWordAt(q, p)
    ensures r.None? ==> forall p :: 0 <= p <= |q| ==> !LongWordAt(q, p)
  {
    var P := (p: nat) => LongWordAt(q, p);
    assert forall p: nat :: P(p) == LongWordAt(q, p);
    FirstWhere(P, 0, |q|)
  }

  /** A run of id characters inside the query is a non-empty token of the query. */
  lemma RunIsToken(q: string, b: nat, n: nat)
    requires 0 < n && b + n <= |q|
    requires forall k :: b <= k < b + n ==> IsIdChar(q[k])
    ensures IsToken(q[b..b + n]) && Contains(q, q[b..b + n])
  {
    ContainsAt(q, q[b..b + n], b);
    var t := q[b..b + n];
    forall k | 0 <= k < |t| ensures IsIdChar(t[k]) {
      assert t[k] == q[b + k];
    }
  }

  /** The 36 characters of a UUID match are a UUID-shaped token made of id characters. */
  lemma UuidToken(q: string, p: nat)
    requires UuidAt(q, p)
    ensures IsUuid(q[p..p + 36])
    ensures forall k :: p <= k < p + 36 ==> IsIdChar(q[k])
  {
    var t := q[p..p + 36];
    forall k | 0 <= k < 36 ensures (if IsDashSlot(k) then t[k] == '-' else IsHexDigit(t[k])) {
      assert t[k] == q[p + k];
    }
    forall k | p <= k < p + 36 ensures IsIdChar(q[k]) {
      assert IsDashSlot(k - p) ==> q[p + (k - p)] == '-';
    }
  }

  /** The first tier of `extractPatientId`: the leftmost UUID-shaped token. */
  function UuidTier(q: string): (id: Option<string>)
    ensures id.None? <==> FirstUuid(q).None?
    ensures id.Some? ==> id.value == q[FirstUuid(q).value..FirstUuid(q).value + 36]
    ensures id.Some? ==> IsUuid(id.value) && IsToken(id.value) && Contains(q, id.value)
  {
    match FirstUuid(q)
    case Some(p) =>
      UuidToken(q, p);
      RunIsToken(q, p, 36);
      Some(q[p..p + 36])
    case None => None
  }

  /** The second tier: the token after the leftmost "patient", "for" or "id" followed by white space. */
  function KeywordTier(q: string): (id: Option<string>)
    ensures id.None? <==> FirstKeywordToken(q).None?
    ensures id.Some? ==> IsToken(id.value) && Contains(q, id.value)
    ensures id.Some? ==>
              var b := TokenStart(q, FirstKeywordToken(q).value);
              var e := b + |id.value|;
              e <= |q| && id.value == q[b..e] && (e == |q| || !IsIdChar(q[e]))
  {
    match FirstKeywordToken(q)
    case Some(p) =>
      var b := TokenStart(q, p);
      var n := RunLength(q, b, IsIdChar);
      assert n > 0 && b + n <= |q|;
      RunIsToken(q, b, n);
      Some(q[b..b + n])
    case None => None
  }

  /** The third tier: the leftmost whole word of at least eight letters and digits. */
  function LongWordTier(q: string): (id: Option<string>)
    ensures id.None? <==> FirstLongWord(q).None?
    ensures id.Some? ==> IsToken(id.value) && Contains(q, id.value)
    ensures id.Some? ==>
              var b := FirstLongWord(q).value;
              var e := b + |id.value|;
              && |id.value| >= 8
              && (forall k :: 0 <= k < |id.value| ==> IsAlnum(id.value[k]))
              && e <= |q| && id.value == q[b..e]
              && (b == 0 || !IsWordChar(q[b - 1]))
              && (e == |q| || !IsWordChar(q[e]))
  {
    match FirstLongWord(q)
    case Some(p) =>
      RunIsToken(q, p, RunLength(q, p, IsAlnum));
      Some(q[p..p + RunLength(q, p, IsAlnum)])
    case None => None
  }

  /**
   * `extractPatientId`: the leftmost UUID-shaped token; otherwise the token
   * after the leftmost "patient", "for" or "id"; otherwise the leftmost word
   * of at least eight letters and digits; `null` only when all three fail.
   */
  function ExtractPatientId(q: string): (id: Option<string>)
    ensures id.None? <==> FirstUuid(q).None? && FirstKeywordToken(q).None? && FirstLongWord(q).None?
    ensures FirstUuid(q).Some? ==> id == UuidTier(q)
    ensures FirstUuid(q).None? && FirstKeywordToken(q).Some? ==> id == KeywordTier(q)
    ensures FirstUuid(q).None? && FirstKeywordToken(q).None? ==> id == LongWordTier(q)
    ensures id.Some? ==> IsToken(id.value) && Contains(q, id.value)
  {
    if UuidTier(q).Some? then UuidTier(q)
    else if KeywordTier(q).Some? then KeywordTier(q)
    else LongWordTier(q)
  }

  /** A UUID anywhere in the query wins over every other kind of token: the leftmost one is returned. */
  lemma UuidWins(q: string, p: nat)
    requires UuidAt(q, p)
    ensures ExtractPatientId(q).Some? && IsUuid(ExtractPatientId(q).value)
    ensures FirstUuid(q).Some? && FirstUuid(q).value <= p
  {
  }

  // ---------------------------------------------------------------------------
  // The name capture of the "get/show patient" rule
  // ---------------------------------------------------------------------------

  /** `['""]`: a single or a double quote. */
  predicate IsQuote(c: char) {
    c == '\'' || c == '"'
  }

  /** Characters of `[a-zA-Z\s]`. */
  predicate IsNameChar(c: char) {
    IsAsciiLetter(c) || IsSpace(c)
  }

  /** A string made only of `[a-zA-Z\s]` characters. */
  predicate AllNameChars(t: string) {
    forall k :: 0 <= k < |t| ==> IsNameChar(t[k])
  }

  /** Length of the verb of `(?:show|get)` found at `p`, 0 for none. */
  function VerbLength(s: string, p: nat): nat {
    if MatchesAt(s, p, "show") then 4 else if MatchesAt(s, p, "get") then 3 else 0
  }

  /**
   * The group captured by `(?:show|get)\s+patient\s+['""]?([a-zA-Z\s]+)['""]?`
   * (flag `i`) for a match starting at `p`, if the pattern matches there.
   * With `b` the index after the second white-space run: a quote at `b`
   * followed by name characters captures those; otherwise the name
   * characters at `b`; failing both, a second white-space run of two or more
   * gives back its last character, which becomes a one-character capture.
   */
  function NameCaptureAt(s: string, p: nat): (name: Option<string>)
    ensures name.Some? ==> name.value != [] && AllNameChars(name.value)
  {
    var v := VerbLength(s, p);
    var w1 := RunLength(s, p + v, IsSpace);
    if v == 0 || w1 == 0 || !MatchesAt(s, p + v + w1, "patient") then None
    else
      var c := p + v + w1 + 7;
      var w := RunLength(s, c, IsSpace);
      var b := c + w;
      if w == 0 then None
      else if b < |s| && IsQuote(s[b]) && RunLength(s, b + 1, IsNameChar) > 0 then
        Some(NameRun(s, b + 1))
      else if RunLength(s, b, IsNameChar) > 0 then
        Some(NameRun(s, b))
      else if w >= 2 then
        assert IsSpace(s[c + (w - 1)]);
        Some([s[b - 1]])
      else None
  }

  /** The run of name characters at `b`, when there is one: a non-empty string of name characters. */
  function NameRun(s: string, b: nat): (t: string)
    requires RunLength(s, b, IsNameChar) > 0
    ensures t != [] && AllNameChars(t)
    ensures b + |t| <= |s| && t == s[b..b + |t|]
    ensures b + |t| == |s| || !IsNameChar(s[b + |t|])
  {
    var n := RunLength(s, b, IsNameChar);
    var t := s[b..b + n];
    assert forall k :: 0 <= k < |t| ==> t[k] == s[b + k];
    t
  }

  /** The leftmost index at which the name pattern matches. */
  function FirstNameMatch(q: string): (r: Option<nat>)
    ensures r.Some? ==> NameCaptureAt(q, r.value).Some?
    ensures r.Some? ==> forall p :: 0 <= p < r.value ==> NameCaptureAt(q, p).None?
    ensures r.None? ==> forall p :: 0 <= p <= |q| ==> NameCaptureAt(q, p).None?
  {
    var P := (p: nat) => NameCaptureAt(q, p).Some?;
    assert forall p: nat :: P(p) == NameCaptureAt(q, p).Some?;
    FirstWhere(P, 0, |q|)
  }

  /** `query.match(...)[1]` for the name pattern: the capture at the leftmost start that matches. */
  function NameCapture(q: string): (name: Option<string>)
    ensures name.None? <==> FirstNameMatch(q).None?
    ensures name.Some? ==> name == NameCaptureAt(q, FirstNameMatch(q).value)
    ensures name.Some? ==> name.value != [] && AllNameChars(name.value)
  {
    match FirstNameMatch(q)
    case Some(p) => NameCaptureAt(q, p)
    case None => None
  }

  // ---------------------------------------------------------------------------
  // The cascade
  // ---------------------------------------------------------------------------

  /** The handler a query is sent to, with the argument the handler receives. */
  datatype Route =
    | ListAllPatients
    | PatientsWithCondition(conditionText: string)
    | GetPatient(patientId: string)
    | PatientsByName(name: string)
    | MedicationsForPatient(patientId: string)
    | Medications(query: string)
    | Observations(query: string)
    | Conditions(query: string)
    | AssessQuality
    | CarePlans(query: string)
    | PatientsByBirthDate(query: string)
    | PatientsByGender(query: string)
    | PatientsByAge(query: string)
    | Help

  /**
   * What the cascade looks at in a query: the query itself, its lower-cased
   * form, the id `extractPatientId` finds and the group the name pattern
   * captures.
   */
  datatype Reading = Reading(query: string, lower: string, patientId: Option<string>, name: Option<string>)

  function ReadQuery(q: string): (r: Reading)
    ensures r.query == q && r.lower == Lower(q)
  {
    Reading(q, Lower(q), ExtractPatientId(q), NameCapture(q))
  }

  /** The rules of the cascade, one per `if` of the source. */
  datatype Rule =
    | AllPatientsRule | DiabetesRule | LookupRule | PatientMedicationRule | ObservationRule
    | MedicationRule | ConditionRule | QualityRule | CarePlanRule | BirthRule | GenderRule | AgeRule

  /** The rules in the order the source tests them. */
  const Cascade: seq<Rule> := [
    AllPatientsRule, DiabetesRule, LookupRule, PatientMedicationRule, ObservationRule,
    MedicationRule, ConditionRule, QualityRule, CarePlanRule, BirthRule, GenderRule, AgeRule
  ]

  /** The position of a rule in the cascade. */
  function RuleIndex(rule: Rule): (k: nat)
    ensures k < |Cascade| && Cascade[k] == rule
  {
    match rule
    case AllPatientsRule => 0
    case DiabetesRule => 1
    case LookupRule => 2
    case PatientMedicationRule => 3
    case ObservationRule => 4
    case MedicationRule => 5
    case ConditionRule => 6
    case QualityRule => 7
    case CarePlanRule => 8
    case BirthRule => 9
    case GenderRule => 10
    case AgeRule => 11
  }

  /** The result of the "get/show patient" rule: an id lookup, else a search for the trimmed name, else nothing. */
  function PatientLookup(r: Reading): (route: Option<Route>)
    ensures route.Some? <==> r.patientId.Some? || r.name.Some?
    ensures r.patientId.Some? ==> route == Some(GetPatient(r.patientId.value))
  {
    match r.patientId
    case Some(id) => Some(GetPatient(id))
    case None =>
      match r.name
      case Some(name) => Some(PatientsByName(Trim(name)))
      case None => None
  }

  /** Whether a rule takes the query: its substring tests on the lower-cased query hold. */
  predicate Fires(rule: Rule, r: Reading) {
    var lq := r.lower;
    match rule
    case AllPatientsRule => Contains(lq, "all patients") || lq == "show patients"
    case DiabetesRule => Contains(lq, "patient") && Contains(lq, "diabetes")
    case LookupRule =>
      (Contains(lq, "get patient") || Contains(lq, "show patient")) && PatientLookup(r).Some?
    case PatientMedicationRule =>
      (Contains(lq, "med") || Contains(lq, "prescription") || Contains(lq, "drug"))
      && (Contains(lq, "for") || Contains(lq, "patient"))
    case ObservationRule => Contains(lq, "observation") || Contains(lq, "lab") || Contains(lq, "vital")
    case MedicationRule => Contains(lq, "medication") || Contains(lq, "prescription")
    case ConditionRule => Contains(lq, "condition") || Contains(lq, "diagnos")
    case QualityRule => Contains(lq, "data quality") || Contains(lq, "check quality")
    case CarePlanRule => Contains(lq, "care plan")
    case BirthRule => Contains(lq, "born") || Contains(lq, "birth")
    case GenderRule => (Contains(lq, "male") || Contains(lq, "female")) && Contains(lq, "patient")
    case AgeRule => Contains(lq, "age") || Contains(lq, "years old")
  }

  /** Where a rule that takes the query sends it. */
  function RouteOf(rule: Rule, r: Reading): Route
    requires Fires(rule, r)
  {
    match rule
    case AllPatientsRule => ListAllPatients
    case DiabetesRule => PatientsWithCondition("diabetes")
    case LookupRule => PatientLookup(r).value
    case PatientMedicationRule =>
      if r.patientId.Some? then MedicationsForPatient(r.patientId.value) else Medications(r.query)
    case ObservationRule => Observations(r.query)
    case MedicationRule => Medications(r.query)
    case ConditionRule => Conditions(r.query)
    case QualityRule => AssessQuality
    case CarePlanRule => CarePlans(r.query)
    case BirthRule => PatientsByBirthDate(r.query)
    case GenderRule => PatientsByGender(r.query)
    case AgeRule => PatientsByAge(r.query)
  }

  /** The chain of `if`s of `processQueryWithPatternMatching`, on a read query. */
  function Decide(r: Reading): (route: Route)
    ensures route == Help <==> forall rule :: !Fires(rule, r)
  {
    if Fires(AllPatientsRule, r) then RouteOf(AllPatientsRule, r)
    else if Fires(DiabetesRule, r) then RouteOf(DiabetesRule, r)
    else if Fires(LookupRule, r) then RouteOf(LookupRule, r)
    else if Fires(PatientMedicationRule, r) then RouteOf(PatientMedicationRule, r)
    else if Fires(ObservationRule, r) then RouteOf(ObservationRule, r)
    else if Fires(MedicationRule, r) then RouteOf(MedicationRule, r)
    else if Fires(ConditionRule, r) then RouteOf(ConditionRule, r)
    else if Fires(QualityRule, r) then RouteOf(QualityRule, r)
    else if Fires(CarePlanRule, r) then RouteOf(CarePlanRule, r)
    else if Fires(BirthRule, r) then RouteOf(BirthRule, r)
    else if Fires(GenderRule, r) then RouteOf(GenderRule, r)
    else if Fires(AgeRule, r) then RouteOf(AgeRule, r)
    else Help
  }

  /** `processQueryWithPatternMatching`: the handler the query is sent to. */
  function Classify(q: string): Route {
    Decide(ReadQuery(q))
  }

  /** The position in the cascade of the first rule that takes the query. */
  function FirstFiring(r: Reading): Option<nat> {
    FirstWhere((k: nat) => k < |Cascade| && Fires(Cascade[k], r), 0, |Cascade| - 1)
  }

  /**
   * First match wins: the query goes where the earliest rule of the cascade
   * that takes it sends it, and to the help text exactly when no rule takes it.
   */
  lemma DecideIsFirstMatch(r: Reading)
    ensures FirstFiring(r).Some? ==> Decide(r) == RouteOf(Cascade[FirstFiring(r).value], r)
    ensures FirstFiring(r).None? <==> Decide(r) == Help
  {
    var P := (k: nat) => k < |Cascade| && Fires(Cascade[k], r);
    assert forall k: nat :: P(k) == (k < |Cascade| && Fires(Cascade[k], r));
    match FirstFiring(r)
    case None =>
      forall rule ensures !Fires(rule, r) {
        assert !P(RuleIndex(rule));
      }
    case Some(k) =>
      assert forall j :: 0 <= j < k ==> !P(j);
      if k > 0 { assert !P(0); }
      if k > 1 { assert !P(1); }
      if k > 2 { assert !P(2); }
      if k > 3 { assert !P(3); }
      if k > 4 { assert !P(4); }
      if k > 5 { assert !P(5); }
      if k > 6 { assert !P(6); }
      if k > 7 { assert !P(7); }
      if k > 8 { assert !P(8); }
      if k > 9 { assert !P(9); }
      if k > 10 { assert !P(10); }
  }

  /** "all patients" anywhere sends the query to the patient list, whatever else it mentions. */
  lemma AllPatientsWins(q: string)
    requires ContainsLower(q, "all patients")
    ensures Classify(q) == ListAllPatients
  {
  }

  /**
   * A query naming a patient and diabetes is a condition search, even when it
   * also mentions medications or a patient id, unless it asks for all patients.
   */
  lemma DiabetesBeforeMedication(r: Reading)
    requires Contains(r.lower, "patient") && Contains(r.lower, "diabetes")
    requires !Contains(r.lower, "all patients")
    ensures Decide(r) == PatientsWithCondition("diabetes")
  {
    ShowPatientsLacksDiabetes();
  }

  lemma ShowPatientsLacksDiabetes()
    ensures !Contains("show patients", "diabetes")
  {
    var s := "show patients";
    forall i: nat | i <= 13 ensures !OccursAt(s, "diabetes", i) {
      if i + 8 <= 13 {
        assert s[i..i + 8][0] == s[i];
        assert s[i] != 'd' by {
          if i == 0 {} else if i == 1 {} else if i == 2 {} else if i == 3 {} else if i == 4 {}
        }
      }
    }
  }

  /**
   * "get patient" or "show patient" with neither an id nor a capturable name
   * does not stop the cascade: a later rule, or the help text, decides.
   */
  lemma LookupFallsThrough(r: Reading)
    requires r.patientId.None? && r.name.None?
    ensures !Fires(LookupRule, r)
    ensures !Decide(r).GetPatient? && !Decide(r).PatientsByName?
  {
  }

  /** A query that mentions "female" and "patient" and that no earlier rule takes is a gender search. */
  lemma GenderRuleCatchesFemale(r: Reading)
    requires Contains(r.lower, "female") && Contains(r.lower, "patient")
    requires forall k :: 0 <= k < 10 ==> !Fires(Cascade[k], r)
    ensures Decide(r) == PatientsByGender(r.query)
  {
    assert Contains("female", "male") by {
      assert "female"[2..6] == "male";
      ContainsAt("female", "male", 2);
    }
    ContainsTransitive(r.lower, "female", "male");
    assert !Fires(Cascade[0], r) && !Fires(Cascade[1], r) && !Fires(Cascade[2], r) && !Fires(Cascade[3], r);
    assert !Fires(Cascade[4], r) && !Fires(Cascade[5], r) && !Fires(Cascade[6], r) && !Fires(Cascade[7], r);
    assert !Fires(Cascade[8], r) && !Fires(Cascade[9], r);
  }
}
