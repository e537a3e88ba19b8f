/**
 * What each handler of chat.js answers, as a function of what the server
 * returns. A reply has the type the source gives it (`success`, `warning`,
 * `error`, `info`); success replies carry the structured content the source
 * renders as Markdown, warnings and errors carry the exact message.
 */
module Replies {
  import opened Common
  import opened Text
  import opened Fhir
  import opened Transport
  import opened Classifier
  import opened SearchParams

  datatype ReplyKind = Success | Warning | Error | Info

  /** A related-data block of the patient summary: fetch failed, nothing found, or the entries. */
  datatype Section = Unavailable | NoneFound | Listed(total: int, items: seq<Resource>)

  /** A condition as listed under its patient: code text, clinical status and onset. */
  datatype ConditionNote = ConditionNote(code: string, status: string, onset: Option<string>)

  /** The conditions found for one patient (an entry of the source's `patientMap`). */
  datatype PatientGroup = PatientGroup(patientId: string, notes: seq<ConditionNote>)

  /** A patient shown in a condition search: the formatted name when the lookup succeeded. */
  datatype ShownPatient = ShownPatient(patientId: string, name: Option<string>, notes: seq<ConditionNote>)

  datatype Availability = GoodAvailability | LimitedAvailability | PoorAvailability

  /** One line of the chat's data-availability check. */
  datatype AvailabilityRow = AvailabilityRow(
    resourceType: string, accessible: bool, total: int, orphaned: nat, error: Option<string>)

  datatype Body =
    | Message(text: string)
    | HelpText(extended: bool)
    | Listing(total: int, shown: seq<Resource>, more: nat)
    | PatientDetail(patient: Resource, conditions: Section, medications: Section)
    | ConditionMatches(conditionText: string, patientCount: nat, patients: seq<ShownPatient>, more: nat)
    | NameMatches(name: string, found: seq<Resource>)
    | AvailabilityReport(rows: seq<AvailabilityRow>, score: int, availability: Availability)

  datatype Reply = Reply(kind: ReplyKind, body: Body)

  /** What `makeRequest(endpoint, params)` returns or throws while `server` is selected. */
  function Fetch(env: Env, server: string, endpoint: string, params: Params): Result<Resource> {
    Request(env, Target(server, endpoint, params))
  }

  // ---------------------------------------------------------------------------
  // The list handlers
  // ---------------------------------------------------------------------------

  /**
   * A list handler: one request, a warning when the bundle has no entries,
   * an error naming the thrown message, otherwise the entries (at most `cap`
   * of them when a cap is given).
   */
  datatype Search = Search(
    endpoint: string, params: Params, emptyMessage: string,
    errorPrefix: string, errorSuffix: string, cap: Option<nat>)

  /** The reply of a list handler to what its request gave. */
  function SearchReply(res: Result<Resource>, s: Search): (r: Reply)
    ensures r.kind == Error <==> res.Failed?
    ensures res.Failed? ==> r.body == Message(s.errorPrefix + res.message + s.errorSuffix)
    ensures r.kind == Warning <==> res.Ok? && !HasEntries(res.value)
    ensures r.kind == Warning ==> r.body == Message(s.emptyMessage)
    ensures r.kind == Success <==> res.Ok? && HasEntries(res.value)
  {
    match res
    case Failed(m) => Reply(Error, Message(s.errorPrefix + m + s.errorSuffix))
    case Ok(b) =>
      if !HasEntries(b) then Reply(Warning, Message(s.emptyMessage))
      else
        var es := b.entry.value;
        match s.cap
        case None => Reply(Success, Listing(DisplayedTotal(b), es, 0))
        case Some(c) =>
          if |es| > c then Reply(Success, Listing(DisplayedTotal(b), es[..c], |es| - c))
          else Reply(Success, Listing(DisplayedTotal(b), es, 0))
  }

  /**
   * A capped listing shows the first `cap` entries (all of them when there
   * are no more), and counts every entry it leaves out.
   */
  lemma SearchCap(res: Result<Resource>, s: Search)
    requires s.cap.Some? && res.Ok? && HasEntries(res.value)
    ensures var r := SearchReply(res, s);
            var es := res.value.entry.value;
            && r.body.Listing?
            && r.body.total == DisplayedTotal(res.value)
            && |r.body.shown| == (if |es| > s.cap.value then s.cap.value else |es|)
            && r.body.shown == es[..|r.body.shown|]
            && |r.body.shown| + r.body.more == |es|
  {
  }

  /** An uncapped listing shows every entry and counts none as more. */
  lemma SearchUncapped(res: Result<Resource>, s: Search)
    requires s.cap.None? && res.Ok? && HasEntries(res.value)
    ensures var r := SearchReply(res, s);
            && r.body.Listing?
            && r.body.total == DisplayedTotal(res.value)
            && r.body.shown == res.value.entry.value
            && r.body.more == 0
  {
  }

  /** `params.patient = patientId` when the query names a patient. */
  function WithPatient(base: Params, q: string): (ps: Params)
    ensures ExtractPatientId(q).None? ==> ps == base
    ensures ExtractPatientId(q).Some? ==> ps == base + [("patient", ExtractPatientId(q).value)]
  {
    match ExtractPatientId(q)
    case Some(id) => base + [("patient", id)]
    case None => base
  }

  const AllPatientsSearch: Search :=
    Search("Patient", [("_count", "10")], "No patients found in this server.",
           "Failed to fetch patients: ", "", None)

  function ObservationSearch(q: string): Search {
    Search("Observation", WithPatient([("_count", "10"), ("_sort", "-date")], q), "No observations found.",
           "Failed to fetch observations: ", "", None)
  }

  function PatientMedicationSearch(id: string): Search {
    Search("MedicationRequest", [("patient", id), ("_count", "20")],
           "No medications found for patient " + id + ".",
           "Failed to fetch medications for patient " + id + ": ", "", None)
  }

  function MedicationSearch(q: string): Search {
    Search("MedicationRequest", WithPatient([("_count", "10")], q), "No medications found.",
           "Failed to fetch medications: ", "", None)
  }

  function ConditionSearch(q: string): Search {
    Search("Condition", WithPatient([("_count", "10")], q), "No conditions found.",
           "Failed to fetch conditions: ", "", None)
  }

  function CarePlanSearch(q: string): Search {
    Search("CarePlan", WithPatient([("_count", "10")], q), "No care plans found.",
           "Failed to fetch care plans: ", "", None)
  }

  /** The parameters carry a `patient` filter. */
  predicate FiltersByPatient(ps: Params) {
    exists k :: 0 <= k < |ps| && ps[k].0 == "patient"
  }

  /** A patient filter is present exactly when the query names a patient, and is then last and by that id. */
  predicate PatientFiltered(ps: Params, q: string) {
    && (FiltersByPatient(ps) <==> ExtractPatientId(q).Some?)
    && (ExtractPatientId(q).Some? ==> |ps| > 0 && ps[|ps| - 1] == ("patient", ExtractPatientId(q).value))
  }

  lemma WithPatientFilter(base: Params, q: string)
    requires !FiltersByPatient(base)
    ensures PatientFiltered(WithPatient(base, q), q)
  {
    var ps := WithPatient(base, q);
    if ExtractPatientId(q).Some? {
      assert ps[|base|].0 == "patient";
    }
  }

  /**
   * The observation, medication, condition and care-plan listings filter by
   * patient exactly when `extractPatientId` finds an id in the query, and
   * then by that id.
   */
  lemma PatientFilter(q: string)
    ensures PatientFiltered(ObservationSearch(q).params, q)
    ensures PatientFiltered(MedicationSearch(q).params, q)
    ensures PatientFiltered(ConditionSearch(q).params, q)
    ensures PatientFiltered(CarePlanSearch(q).params, q)
  {
    var sorted: Params := [("_count", "10"), ("_sort", "-date")];
    var plain: Params := [("_count", "10")];
    assert !FiltersByPatient(sorted) by {
      forall k | 0 <= k < |sorted| ensures sorted[k].0 != "patient" { }
    }
    assert !FiltersByPatient(plain);
    WithPatientFilter(sorted, q);
    WithPatientFilter(plain, q);
  }

  function BirthDateSearch(q: string): Search {
    Search("Patient", BirthDateParams(q),
           "No patients found matching that birth date criteria. This might be due to how the FHIR server handles date searches.",
           "Failed to search patients by birth date: ",
           ". Note: Some FHIR servers may not support advanced date searches.", None)
  }

  /** The gender search lists at most ten patients. */
  function GenderSearch(q: string): Search {
    var g := GenderOf(q);
    Search("Patient", GenderParams(q), "No " + g + " patients found.",
           "Failed to search patients by gender: ", "", Some(10))
  }

  function AgeSearch(age: nat, birthYear: int): Search {
    Search("Patient", AgeParams(birthYear), "No patients found around age " + NatToString(age) + ".",
           "Failed to search patients by age: ", "", None)
  }

  /** Running a list handler against the server. */
  function RunSearchOf(env: Env, server: string, s: Search): Reply {
    SearchReply(Fetch(env, server, s.endpoint, s.params), s)
  }

  // ---------------------------------------------------------------------------
  // getPatient
  // ---------------------------------------------------------------------------

  /** A related-data request: unavailable when it throws, empty when the bundle has no entries. */
  function SectionOf(res: Result<Resource>): (s: Section)
    ensures s == Unavailable <==> res.Failed?
    ensures s.Listed? ==> res.Ok? && HasEntries(res.value) && s.items == res.value.entry.value
  {
    match res
    case Failed(_) => Unavailable
    case Ok(b) => if HasEntries(b) then Listed(DisplayedTotal(b), b.entry.value) else NoneFound
  }

  function PatientNotFoundMessage(id: string): string {
    "Patient with ID \"" + id + "\" not found."
  }

  /** `getPatient`: the patient, then up to five conditions and five medication requests. */
  function PatientReplyOf(env: Env, server: string, id: string): Reply {
    match Fetch(env, server, "Patient/" + id, [])
    case Failed(m) =>
      if Contains(m, "404") then Reply(Error, Message(PatientNotFoundMessage(id)))
      else Reply(Error, Message("Failed to fetch patient: " + m))
    case Ok(p) =>
      var conditions := Fetch(env, server, "Condition", [("patient", id), ("_count", "5")]);
      var meds := Fetch(env, server, "MedicationRequest", [("patient", id), ("_count", "5")]);
      Reply(Success, PatientDetail(p, SectionOf(conditions), SectionOf(meds)))
  }

  /**
   * Partial success: once the patient is fetched the reply is a success,
   * whatever the condition and medication requests do; a related request
   * that throws only marks its section unavailable.
   */
  lemma PatientPartialSuccess(env: Env, server: string, id: string)
    ensures Fetch(env, server, "Patient/" + id, []).Ok? <==> PatientReplyOf(env, server, id).kind == Success
    ensures PatientReplyOf(env, server, id).kind == Success ==>
      var d := PatientReplyOf(env, server, id).body;
      && d.PatientDetail?
      && d.patient == Fetch(env, server, "Patient/" + id, []).value
      && (d.conditions == Unavailable <==> Fetch(env, server, "Condition", [("patient", id), ("_count", "5")]).Failed?)
      && (d.medications == Unavailable
          <==> Fetch(env, server, "MedicationRequest", [("patient", id), ("_count", "5")]).Failed?)
  {
  }

  /** An error mentioning status 404 is reported as an unknown patient id; any other failure is passed on. */
  lemma PatientErrors(env: Env, server: string, id: string)
    requires Fetch(env, server, "Patient/" + id, []).Failed?
    ensures var m := Fetch(env, server, "Patient/" + id, []).message;
            PatientReplyOf(env, server, id)
            == Reply(Error, Message(if Contains(m, "404") then PatientNotFoundMessage(id) else "Failed to fetch patient: " + m))
  {
  }

  // ---------------------------------------------------------------------------
  // findPatientsWithCondition
  // ---------------------------------------------------------------------------

  function NoConditionMessage(text: string): string {
    "No conditions found matching \"" + text + "\"."
  }

  /** The condition's code text contains the search text, both lower-cased. */
  predicate MentionsCondition(c: Resource, text: string) {
    Contains(Lower(CodeText(c.code)), Lower(text))
  }

  /** The client-side filter applied to the unfiltered fallback search. */
  function MatchingConditions(cs: seq<Resource>, text: string): (r: seq<Resource>)
    ensures forall c :: c in r <==> c in cs && MentionsCondition(c, text)
    ensures |r| <= |cs|
  {
    if cs == [] then []
    else (if MentionsCondition(cs[0], text) then [cs[0]] else []) + MatchingConditions(cs[1..], text)
  }

  /** `subject.reference.split('/').pop()` when the condition has a reference. */
  function ConditionPatientId(c: Resource): (id: Option<string>)
    ensures id.Some? <==> HasReference(c)
    ensures id.Some? ==> '/' !in id.value
  {
    if HasReference(c) then Some(LastSegment(c.subjectReference.value)) else None
  }

  /** The id is what follows the last slash of the reference: the whole reference when it has none. */
  lemma ConditionPatientIdIsLastSegment(c: Resource)
    requires HasReference(c)
    ensures var id := ConditionPatientId(c).value;
            var ref := c.subjectReference.value;
            && '/' !in id
            && |id| <= |ref| && id == ref[|ref| - |id|..]
            && (|id| < |ref| ==> ref[|ref| - |id| - 1] == '/')
  {
  }

  function NoteOf(c: Resource): ConditionNote {
    ConditionNote(CodeText(c.code), StatusCode(c.clinicalStatus), c.onsetDateTime)
  }

  /** The patient ids of the conditions that have a reference, in order, with repetitions. */
  function ReferencedIds(cs: seq<Resource>): (ids: seq<string>)
    ensures |ids| <= |cs|
  {
    if cs == [] then []
    else
      var id := ConditionPatientId(cs[|cs| - 1]);
      ReferencedIds(cs[..|cs| - 1]) + (if id.Some? then [id.value] else [])
  }

  /** The notes of the conditions that refer to patient `id`, in order. */
  function NotesFor(cs: seq<Resource>, id: string): seq<ConditionNote> {
    if cs == [] then []
    else
      NotesFor(cs[..|cs| - 1], id)
      + (if ConditionPatientId(cs[|cs| - 1]) == Some(id) then [NoteOf(cs[|cs| - 1])] else [])
  }

  /**
   * The `patientMap` the source fills: one group per referenced patient, in
   * the order the patients are first referenced, each holding that
   * patient's conditions in order.
   */
  function GroupsOf(cs: seq<Resource>): (gs: seq<PatientGroup>)
    ensures |gs| == |FirstSeen(ReferencedIds(cs))|
    ensures forall k :: 0 <= k < |gs| ==> gs[k].patientId == FirstSeen(ReferencedIds(cs))[k]
  {
    var ids := FirstSeen(ReferencedIds(cs));
    seq(|ids|, k requires 0 <= k < |ids| => PatientGroup(ids[k], NotesFor(cs, ids[k])))
  }

  /** Each referenced patient has exactly one group; conditions without a reference are dropped. */
  lemma GroupsExact(cs: seq<Resource>)
    ensures forall i, j :: 0 <= i < j < |GroupsOf(cs)| ==> GroupsOf(cs)[i].patientId != GroupsOf(cs)[j].patientId
    ensures forall id :: (exists k :: 0 <= k < |GroupsOf(cs)| && GroupsOf(cs)[k].patientId == id)
                         <==> id in ReferencedIds(cs)
  {
    FirstSeenExact(ReferencedIds(cs));
    var gs, ids := GroupsOf(cs), FirstSeen(ReferencedIds(cs));
    forall id ensures (exists k :: 0 <= k < |gs| && gs[k].patientId == id) <==> id in ids {
      if id in ids {
        var k :| 0 <= k < |ids| && ids[k] == id;
        assert gs[k].patientId == id;
      }
    }
  }

  /** The notes and referenced ids after one more condition. */
  lemma SnocUnfold(cs: seq<Resource>, c: Resource)
    ensures ReferencedIds(cs + [c])
      == ReferencedIds(cs) + (if ConditionPatientId(c).Some? then [ConditionPatientId(c).value] else [])
    ensures forall id ::
      NotesFor(cs + [c], id) == NotesFor(cs, id) + (if ConditionPatientId(c) == Some(id) then [NoteOf(c)] else [])
  {
    assert (cs + [c])[..|cs|] == cs;
  }

  /** A condition without a patient reference leaves the groups as they are. */
  lemma GroupsSnocUnreferenced(cs: seq<Resource>, c: Resource)
    requires ConditionPatientId(c).None?
    ensures GroupsOf(cs + [c]) == GroupsOf(cs)
  {
    SnocUnfold(cs, c);
    var ids := FirstSeen(ReferencedIds(cs));
    assert ReferencedIds(cs + [c]) == ReferencedIds(cs);
    forall j | 0 <= j < |ids| ensures GroupsOf(cs + [c])[j] == GroupsOf(cs)[j] {
      assert NotesFor(cs + [c], ids[j]) == NotesFor(cs, ids[j]);
    }
  }

  /** A condition of a patient already grouped at `k` adds one note to that group and changes no other. */
  lemma GroupsSnocKnown(cs: seq<Resource>, c: Resource, k: nat)
    requires k < |GroupsOf(cs)|
    requires ConditionPatientId(c) == Some(GroupsOf(cs)[k].patientId)
    ensures GroupsOf(cs + [c])
      == GroupsOf(cs)[k := PatientGroup(GroupsOf(cs)[k].patientId, GroupsOf(cs)[k].notes + [NoteOf(c)])]
  {
    var id := ConditionPatientId(c).value;
    var ids := FirstSeen(ReferencedIds(cs));
    IdsSnocKnown(cs, c, k);
    SnocUnfold(cs, c);
    var gs, gs' := GroupsOf(cs), GroupsOf(cs + [c]);
    var updated := gs[k := PatientGroup(id, gs[k].notes + [NoteOf(c)])];
    assert |gs'| == |ids| == |updated|;
    forall j | 0 <= j < |ids| ensures gs'[j] == updated[j] {
      assert gs'[j] == PatientGroup(ids[j], NotesFor(cs + [c], ids[j]));
      assert gs[j] == PatientGroup(ids[j], NotesFor(cs, ids[j]));
      if j != k {
        assert NotesFor(cs + [c], ids[j]) == NotesFor(cs, ids[j]);
      } else {
        assert NotesFor(cs + [c], id) == NotesFor(cs, id) + [NoteOf(c)];
      }
    }
  }

  /** The first-seen ids are unchanged by a condition of a patient already grouped at `k`, the only one with that id. */
  lemma IdsSnocKnown(cs: seq<Resource>, c: Resource, k: nat)
    requires k < |GroupsOf(cs)|
    requires ConditionPatientId(c) == Some(GroupsOf(cs)[k].patientId)
    ensures FirstSeen(ReferencedIds(cs + [c])) == FirstSeen(ReferencedIds(cs))
    ensures forall j :: 0 <= j < |GroupsOf(cs)| && j != k ==> FirstSeen(ReferencedIds(cs))[j] != ConditionPatientId(c).value
  {
    var id := ConditionPatientId(c).value;
    var ids := FirstSeen(ReferencedIds(cs));
    SnocUnfold(cs, c);
    FirstSeenSnoc(ReferencedIds(cs), id);
    FirstSeenExact(ReferencedIds(cs));
    assert ids[k] == id;
  }

  /** A condition of a patient not yet grouped appends a group holding just its note. */
  lemma GroupsSnocNew(cs: seq<Resource>, c: Resource)
    requires ConditionPatientId(c).Some?
    requires forall j :: 0 <= j < |GroupsOf(cs)| ==> GroupsOf(cs)[j].patientId != ConditionPatientId(c).value
    ensures GroupsOf(cs + [c]) == GroupsOf(cs) + [PatientGroup(ConditionPatientId(c).value, [NoteOf(c)])]
  {
    var id := ConditionPatientId(c).value;
    var ids := FirstSeen(ReferencedIds(cs));
    IdsSnocNew(cs, c);
    SnocUnfold(cs, c);
    NotesForAbsent(cs, id);
    var ids' := FirstSeen(ReferencedIds(cs + [c]));
    var gs, gs' := GroupsOf(cs), GroupsOf(cs + [c]);
    assert ids' == ids + [id];
    assert |gs'| == |ids| + 1;
    forall j | 0 <= j < |gs'| ensures gs'[j] == (gs + [PatientGroup(id, [NoteOf(c)])])[j] {
      if j < |ids| {
        GroupsSnocNewKeeps(cs, c, j);
      } else {
        assert j == |ids|;
        assert gs'[j] == PatientGroup(id, NotesFor(cs + [c], id));
        assert NotesFor(cs + [c], id) == [NoteOf(c)];
      }
    }
  }

  /** A condition of a new patient leaves each earlier group as it was. */
  lemma GroupsSnocNewKeeps(cs: seq<Resource>, c: Resource, j: nat)
    requires ConditionPatientId(c).Some?
    requires FirstSeen(ReferencedIds(cs + [c])) == FirstSeen(ReferencedIds(cs)) + [ConditionPatientId(c).value]
    requires j < |FirstSeen(ReferencedIds(cs))|
    requires FirstSeen(ReferencedIds(cs))[j] != ConditionPatientId(c).value
    ensures j < |GroupsOf(cs + [c])| && j < |GroupsOf(cs)|
    ensures GroupsOf(cs + [c])[j] == GroupsOf(cs)[j]
  {
    var ids := FirstSeen(ReferencedIds(cs));
    SnocUnfold(cs, c);
    assert FirstSeen(ReferencedIds(cs + [c]))[j] == ids[j];
    assert NotesFor(cs + [c], ids[j]) == NotesFor(cs, ids[j]);
  }

  /** The first-seen ids after a condition of a patient not yet grouped. */
  lemma IdsSnocNew(cs: seq<Resource>, c: Resource)
    requires ConditionPatientId(c).Some?
    requires forall j :: 0 <= j < |GroupsOf(cs)| ==> GroupsOf(cs)[j].patientId != ConditionPatientId(c).value
    ensures ConditionPatientId(c).value !in ReferencedIds(cs)
    ensures FirstSeen(ReferencedIds(cs + [c])) == FirstSeen(ReferencedIds(cs)) + [ConditionPatientId(c).value]
  {
    var id := ConditionPatientId(c).value;
    var ids := FirstSeen(ReferencedIds(cs));
    SnocUnfold(cs, c);
    FirstSeenSnoc(ReferencedIds(cs), id);
    FirstSeenExact(ReferencedIds(cs));
    forall j | 0 <= j < |ids| ensures ids[j] != id {
      assert GroupsOf(cs)[j].patientId == ids[j];
    }
  }

  /** A patient no condition refers to has no notes. */
  lemma {:induction false} NotesForAbsent(cs: seq<Resource>, id: string)
    requires id !in ReferencedIds(cs)
    ensures NotesFor(cs, id) == []
  {
    if cs != [] {
      var init := cs[..|cs| - 1];
      assert ReferencedIds(cs) == ReferencedIds(init)
        + (if ConditionPatientId(cs[|cs| - 1]).Some? then [ConditionPatientId(cs[|cs| - 1]).value] else []);
      NotesForAbsent(init, id);
    }
  }

  /** How many patients the condition search shows before "...and N more patients". */
  const ShownPatientLimit: nat := 5

  /** A shown patient: the formatted name when `Patient/<id>` can be fetched, else the bare id. */
  function ShownOf(env: Env, server: string, g: PatientGroup): (s: ShownPatient)
    ensures s.patientId == g.patientId && s.notes == g.notes
    ensures s.name.Some? <==> Fetch(env, server, "Patient/" + g.patientId, []).Ok?
    ensures s.name.Some? ==> s.name.value == FormatName(Fetch(env, server, "Patient/" + g.patientId, []).value.name)
  {
    match Fetch(env, server, "Patient/" + g.patientId, [])
    case Ok(p) => ShownPatient(g.patientId, Some(FormatName(p.name)), g.notes)
    case Failed(_) => ShownPatient(g.patientId, None, g.notes)
  }

  /** The reply listing the patients of a set of matching conditions. */
  function MatchesReply(env: Env, server: string, text: string, cs: seq<Resource>): (r: Reply)
    ensures r.kind == Success && r.body.ConditionMatches?
    ensures |r.body.patients| == if |GroupsOf(cs)| > ShownPatientLimit then ShownPatientLimit else |GroupsOf(cs)|
    ensures r.body.patientCount == |GroupsOf(cs)|
    ensures |r.body.patients| + r.body.more == |GroupsOf(cs)|
    ensures forall k :: 0 <= k < |r.body.patients| ==> r.body.patients[k] == ShownOf(env, server, GroupsOf(cs)[k])
  {
    var gs := GroupsOf(cs);
    var n := if |gs| > ShownPatientLimit then ShownPatientLimit else |gs|;
    var shown := seq(n, k requires 0 <= k < n => ShownOf(env, server, gs[k]));
    Reply(Success, ConditionMatches(text, |gs|, shown, |gs| - n))
  }

  /**
   * `findPatientsWithCondition`: a `code:text` search; when it returns no
   * entries, an unfiltered search filtered on the client.
   */
  function ConditionReplyOf(env: Env, server: string, text: string): Reply {
    match Fetch(env, server, "Condition", [("_count", "100"), ("code:text", text)])
    case Failed(m) => Reply(Error, Message("Failed to search conditions: " + m))
    case Ok(b) =>
      if HasEntries(b) then MatchesReply(env, server, text, b.entry.value)
      else
        match Fetch(env, server, "Condition", [("_count", "100")])
        case Failed(m) => Reply(Error, Message("Failed to search conditions: " + m))
        case Ok(all) =>
          if all.entry.None? then Reply(Warning, Message(NoConditionMessage(text)))
          else
            var matched := MatchingConditions(all.entry.value, text);
            if matched == [] then Reply(Warning, Message(NoConditionMessage(text)))
            else MatchesReply(env, server, text, matched)
  }

  /**
   * Nothing found is a warning naming the text, never an error: the reply is
   * an error only when a request throws, and a warning only when neither
   * search yields a condition (after the client-side filter).
   */
  lemma ConditionReplyKinds(env: Env, server: string, text: string)
    ensures var first := Fetch(env, server, "Condition", [("_count", "100"), ("code:text", text)]);
            var fallback := Fetch(env, server, "Condition", [("_count", "100")]);
            var r := ConditionReplyOf(env, server, text);
            && (r.kind == Error <==> first.Failed? || (!HasEntries(first.value) && fallback.Failed?))
            && (r.kind == Warning <==>
                  first.Ok? && !HasEntries(first.value) && fallback.Ok?
                  && (fallback.value.entry.None?
                      || forall c :: c in fallback.value.entry.value ==> !MentionsCondition(c, text)))
            && (r.kind == Warning ==> r.body == Message(NoConditionMessage(text)))
            && r.kind != Info
  {
    var first := Fetch(env, server, "Condition", [("_count", "100"), ("code:text", text)]);
    var fallback := Fetch(env, server, "Condition", [("_count", "100")]);
    if first.Ok? && !HasEntries(first.value) && fallback.Ok? && fallback.value.entry.Some? {
      var matched := MatchingConditions(fallback.value.entry.value, text);
      if matched != [] {
        assert matched[0] in matched;
      }
    }
  }

  /**
   * When the `code:text` search finds nothing, the patients listed are
   * exactly those of the fallback conditions whose code text contains the
   * search text, ignoring case.
   */
  lemma FallbackFiltersByText(env: Env, server: string, text: string)
    requires var first := Fetch(env, server, "Condition", [("_count", "100"), ("code:text", text)]);
             first.Ok? && !HasEntries(first.value)
    requires var fallback := Fetch(env, server, "Condition", [("_count", "100")]);
             fallback.Ok? && fallback.value.entry.Some?
    requires ConditionReplyOf(env, server, text).kind == Success
    ensures var all := Fetch(env, server, "Condition", [("_count", "100")]).value.entry.value;
            var matched := MatchingConditions(all, text);
            && ConditionReplyOf(env, server, text) == MatchesReply(env, server, text, matched)
            && forall c :: c in matched <==> c in all && MentionsCondition(c, text)
  {
  }

  // ---------------------------------------------------------------------------
  // searchPatientsByName
  // ---------------------------------------------------------------------------

  /** The three searches tried for a name, in order. */
  function NameSearchParams(name: string): (pss: seq<Params>)
    ensures |pss| == 3
  {
    [[("name", name), ("_count", "20")], [("family", name), ("_count", "20")], [("given", name), ("_count", "20")]]
  }

  /** The entries a search contributes: none when it throws or has no `entry`. */
  function Hits(res: Result<Resource>): seq<Resource> {
    if res.Ok? && res.value.entry.Some? then res.value.entry.value else []
  }

  /** The entries of the first `n` name searches, concatenated in order. */
  function NameHits(env: Env, server: string, name: string, n: nat): seq<Resource>
    requires n <= 3
  {
    if n == 0 then []
    else NameHits(env, server, name, n - 1) + Hits(Fetch(env, server, "Patient", NameSearchParams(name)[n - 1]))
  }

  /** The name searches are concatenated: `name` hits, then `family`, then `given`. */
  lemma NameHitsOrder(env: Env, server: string, name: string)
    ensures NameHits(env, server, name, 3)
      == Hits(Fetch(env, server, "Patient", [("name", name), ("_count", "20")]))
       + Hits(Fetch(env, server, "Patient", [("family", name), ("_count", "20")]))
       + Hits(Fetch(env, server, "Patient", [("given", name), ("_count", "20")]))
  {
    var pss := NameSearchParams(name);
    assert NameHits(env, server, name, 1) == Hits(Fetch(env, server, "Patient", pss[0]));
    assert NameHits(env, server, name, 2) == NameHits(env, server, name, 1) + Hits(Fetch(env, server, "Patient", pss[1]));
  }

  /** `filter((p, i, self) => i === self.findIndex(q => q.resource.id === p.resource.id))`. */
  function DedupById(ps: seq<Resource>): (r: seq<Resource>)
    ensures |r| <= |ps|
  {
    if ps == [] then []
    else
      var init := DedupById(ps[..|ps| - 1]);
      var p := ps[|ps| - 1];
      if exists j :: 0 <= j < |ps| - 1 && ps[j].id == p.id then init else init + [p]
  }

  /** Whether entry `i` is the first with its id. */
  predicate FirstWithId(ps: seq<Resource>, i: nat)
    requires i < |ps|
  {
    forall j :: 0 <= j < i ==> ps[j].id != ps[i].id
  }

  /** `x` is an entry of `ps` that no earlier entry shares its id with. */
  ghost predicate IsFirstOfId(ps: seq<Resource>, x: Resource) {
    exists i :: 0 <= i < |ps| && ps[i] == x && FirstWithId(ps, i)
  }

  /** Every kept entry is the first of the input with its id. */
  lemma {:induction false} DedupKeepsFirsts(ps: seq<Resource>)
    ensures forall k :: 0 <= k < |DedupById(ps)| ==> IsFirstOfId(ps, DedupById(ps)[k])
  {
    if ps != [] {
      var init, p := ps[..|ps| - 1], ps[|ps| - 1];
      DedupKeepsFirsts(init);
      var r, r0 := DedupById(ps), DedupById(init);
      forall k | 0 <= k < |r| ensures IsFirstOfId(ps, r[k]) {
        if k < |r0| {
          assert r[k] == r0[k];
          assert IsFirstOfId(init, r0[k]);
          var i :| 0 <= i < |init| && init[i] == r0[k] && FirstWithId(init, i);
          assert ps[i] == r[k] && FirstWithId(ps, i);
        } else {
          assert r[k] == p && FirstWithId(ps, |ps| - 1);
        }
      }
    }
  }

  /** No two kept entries share an id. */
  lemma {:induction false} DedupDistinctIds(ps: seq<Resource>)
    ensures forall i, j :: 0 <= i < j < |DedupById(ps)| ==> DedupById(ps)[i].id != DedupById(ps)[j].id
  {
    if ps != [] {
      var init, p := ps[..|ps| - 1], ps[|ps| - 1];
      DedupDistinctIds(init);
      DedupKeepsFirsts(init);
      var r, r0 := DedupById(ps), DedupById(init);
      if r != r0 {
        assert r == r0 + [p];
        forall k | 0 <= k < |r0| ensures r0[k].id != p.id {
          assert IsFirstOfId(init, r0[k]);
          var i :| 0 <= i < |init| && init[i] == r0[k] && FirstWithId(init, i);
          assert ps[i] == init[i];
        }
      }
    }
  }

  /** Some entry of `r` has id `id`. */
  ghost predicate HasId(r: seq<Resource>, id: Option<string>) {
    exists k :: 0 <= k < |r| && r[k].id == id
  }

  /** Every id of the input has a kept entry. */
  lemma {:induction false} DedupCoversIds(ps: seq<Resource>)
    ensures forall i :: 0 <= i < |ps| ==> HasId(DedupById(ps), ps[i].id)
  {
    if ps != [] {
      var init, p := ps[..|ps| - 1], ps[|ps| - 1];
      DedupCoversIds(init);
      var r, r0 := DedupById(ps), DedupById(init);
      assert forall k :: 0 <= k < |r0| ==> r[k] == r0[k];
      forall i | 0 <= i < |ps| ensures HasId(r, ps[i].id) {
        if i < |init| {
          assert ps[i] == init[i];
          assert HasId(r0, init[i].id);
          var k :| 0 <= k < |r0| && r0[k].id == init[i].id;
          assert r[k].id == ps[i].id;
        } else if r == r0 {
          var j :| 0 <= j < |ps| - 1 && ps[j].id == p.id;
          assert ps[j] == init[j];
          assert HasId(r0, init[j].id);
          var k :| 0 <= k < |r0| && r0[k].id == init[j].id;
          assert r[k].id == ps[i].id;
        } else {
          assert r[|r| - 1] == p;
        }
      }
    }
  }

  function NoNameMessage(name: string): string {
    "No patients found with name \"" + name + "\". Try searching for \"all patients\" to see available names."
  }

  /** `searchPatientsByName`: the de-duplicated hits of the three searches, or a warning. */
  function NameReplyOf(env: Env, server: string, name: string): (r: Reply)
    ensures r.kind == Warning <==> NameHits(env, server, name, 3) == []
    ensures r.kind == Warning || r.kind == Success
  {
    var unique := DedupById(NameHits(env, server, name, 3));
    if unique == [] then
      DedupCoversIds(NameHits(env, server, name, 3));
      Reply(Warning, Message(NoNameMessage(name)))
    else Reply(Success, NameMatches(name, unique))
  }

  // ---------------------------------------------------------------------------
  // assessDataQuality (the chat's availability check)
  // ---------------------------------------------------------------------------

  const AvailabilityTypes: seq<string> := ["Patient", "Observation", "Condition", "MedicationRequest"]

  /** An entry that refers to a patient whose `Patient/<id>` cannot be fetched. */
  predicate IsOrphan(env: Env, server: string, e: Resource) {
    HasReference(e) && Fetch(env, server, "Patient/" + LastSegment(e.subjectReference.value), []).Failed?
  }

  /** How many of `entries` (the first three of a bundle) refer to a patient that cannot be fetched. */
  function OrphansAmong(env: Env, server: string, entries: seq<Resource>): (n: nat)
    ensures n <= |entries|
  {
    if entries == [] then 0
    else
      var e := entries[|entries| - 1];
      OrphansAmong(env, server, entries[..|entries| - 1]) + (if IsOrphan(env, server, e) then 1 else 0)
  }

  /** One more entry adds one orphan exactly when it is one. */
  lemma OrphansAmongSnoc(env: Env, server: string, es: seq<Resource>, e: Resource)
    ensures OrphansAmong(env, server, es + [e]) == OrphansAmong(env, server, es) + (if IsOrphan(env, server, e) then 1 else 0)
  {
    assert (es + [e])[..|es|] == es;
  }

  function Min(a: nat, b: nat): nat {
    if a < b then a else b
  }

  /** One resource type: accessible with its `total || 0`, and orphans among its first three entries. */
  function RowOf(env: Env, server: string, resourceType: string): (row: AvailabilityRow)
    ensures row.accessible <==> Fetch(env, server, resourceType, [("_count", "10")]).Ok?
    ensures row.orphaned <= 3
    ensures resourceType == "Patient" ==> row.orphaned == 0
  {
    match Fetch(env, server, resourceType, [("_count", "10")])
    case Failed(m) => AvailabilityRow(resourceType, false, 0, 0, Some(m))
    case Ok(b) =>
      var orphaned :=
        if resourceType != "Patient" && HasEntries(b)
        then OrphansAmong(env, server, b.entry.value[..Min(3, |b.entry.value|)])
        else 0;
      AvailabilityRow(resourceType, true, b.total.GetOr(0), orphaned, None)
  }

  function AccessibleRows(rows: seq<AvailabilityRow>): (n: nat)
    ensures n <= |rows|
  {
    if rows == [] then 0
    else AccessibleRows(rows[..|rows| - 1]) + (if rows[|rows| - 1].accessible then 1 else 0)
  }

  /** `(accessible / resourceTypes.length) * 100`. */
  function AvailabilityScore(accessible: nat): int {
    accessible * 100 / |AvailabilityTypes|
  }

  /** The verdict line: good from 80, limited from 50, poor below. */
  function AvailabilityOf(score: int): (a: Availability)
    ensures a == GoodAvailability <==> score >= 80
    ensures a == LimitedAvailability <==> 50 <= score < 80
    ensures a == PoorAvailability <==> score < 50
  {
    if score >= 80 then GoodAvailability else if score >= 50 then LimitedAvailability else PoorAvailability
  }

  function AvailabilityRows(env: Env, server: string): (rows: seq<AvailabilityRow>)
    ensures |rows| == |AvailabilityTypes|
    ensures forall k :: 0 <= k < |rows| ==> rows[k] == RowOf(env, server, AvailabilityTypes[k])
  {
    seq(|AvailabilityTypes|, k requires 0 <= k < |AvailabilityTypes| => RowOf(env, server, AvailabilityTypes[k]))
  }

  /**
   * The availability check reports one row per resource type, in the order
   * probed, each accessible exactly when that type's listing request succeeded.
   */
  lemma AvailabilityRowsFollowTypes(env: Env, server: string)
    ensures var rows := AvailabilityRows(env, server);
            |rows| == |AvailabilityTypes|
            && forall k :: 0 <= k < |rows| ==>
                 rows[k].resourceType == AvailabilityTypes[k]
                 && (rows[k].accessible <==> Fetch(env, server, AvailabilityTypes[k], [("_count", "10")]).Ok?)
  {
  }

  function QualityReplyOf(env: Env, server: string): (r: Reply)
    ensures r.kind == Info && r.body.AvailabilityReport?
  {
    var rows := AvailabilityRows(env, server);
    var score := AvailabilityScore(AccessibleRows(rows));
    Reply(Info, AvailabilityReport(rows, score, AvailabilityOf(score)))
  }

  /** The score is 25 points per accessible resource type, so one of 0, 25, 50, 75 and 100. */
  lemma AvailabilityScoreSteps(accessible: nat)
    requires accessible <= 4
    ensures AvailabilityScore(accessible) == 25 * accessible
    ensures AvailabilityScore(accessible) in {0, 25, 50, 75, 100}
  {
  }

  /**
   * The bands in terms of accessible types: good only when all four are
   * accessible, limited with two or three, poor with none or one.
   */
  lemma AvailabilityBands(accessible: nat)
    requires accessible <= 4
    ensures AvailabilityOf(AvailabilityScore(accessible)) == GoodAvailability <==> accessible == 4
    ensures AvailabilityOf(AvailabilityScore(accessible)) == LimitedAvailability <==> accessible == 2 || accessible == 3
    ensures AvailabilityOf(AvailabilityScore(accessible)) == PoorAvailability <==> accessible <= 1
  {
  }

  /**
   * Orphaned references never change the score: two servers whose listing
   * requests succeed and fail alike score the same, however their patient
   * lookups behave.
   */
  lemma OrphansDoNotAffectScore(env1: Env, env2: Env, server: string)
    requires forall k :: 0 <= k < |AvailabilityTypes| ==>
      Fetch(env1, server, AvailabilityTypes[k], [("_count", "10")]).Ok?
      == Fetch(env2, server, AvailabilityTypes[k], [("_count", "10")]).Ok?
    ensures QualityReplyOf(env1, server).body.score == QualityReplyOf(env2, server).body.score
  {
    var r1, r2 := AvailabilityRows(env1, server), AvailabilityRows(env2, server);
    AccessibleRowsAgree(r1, r2);
  }

  lemma {:induction false} AccessibleRowsAgree(r1: seq<AvailabilityRow>, r2: seq<AvailabilityRow>)
    requires |r1| == |r2|
    requires forall k :: 0 <= k < |r1| ==> r1[k].accessible == r2[k].accessible
    ensures AccessibleRows(r1) == AccessibleRows(r2)
  {
    if r1 != [] {
      AccessibleRowsAgree(r1[..|r1| - 1], r2[..|r2| - 1]);
    }
  }

  // ---------------------------------------------------------------------------
  // Dispatch
  // ---------------------------------------------------------------------------

  /** The routes whose handler is one generic search over a fixed endpoint. */
  predicate IsListRoute(route: Route) {
    route.ListAllPatients? || route.MedicationsForPatient? || route.Medications? || route.Observations?
    || route.Conditions? || route.CarePlans? || route.PatientsByBirthDate? || route.PatientsByGender?
  }

  /** The search a list route runs. */
  function ListSearch(route: Route): Search
    requires IsListRoute(route)
  {
    match route
    case ListAllPatients => AllPatientsSearch
    case MedicationsForPatient(id) => PatientMedicationSearch(id)
    case Medications(q) => MedicationSearch(q)
    case Observations(q) => ObservationSearch(q)
    case Conditions(q) => ConditionSearch(q)
    case CarePlans(q) => CarePlanSearch(q)
    case PatientsByBirthDate(q) => BirthDateSearch(q)
    case PatientsByGender(q) => GenderSearch(q)
  }

  /** The reply of the handler a route names; `extendedHelp` selects the longer help text of `processQuery`. */
  function Answer(env: Env, server: string, route: Route, currentYear: int, extendedHelp: bool): Reply {
    if IsListRoute(route) then RunSearchOf(env, server, ListSearch(route))
    else match route
    case PatientsWithCondition(text) => ConditionReplyOf(env, server, text)
    case GetPatient(id) => PatientReplyOf(env, server, id)
    case PatientsByName(name) => NameReplyOf(env, server, name)
    case AssessQuality => QualityReplyOf(env, server)
    case PatientsByAge(q) =>
      (match AgeOf(q)
       case None => Reply(Warning, Message(NoAgeMessage))
       case Some(age) => RunSearchOf(env, server, AgeSearch(age, BirthYear(currentYear, age))))
    case Help => Reply(Info, HelpText(extendedHelp))
  }

  /** A query no rule takes is answered with the help text, an `info` reply and never an error. */
  lemma UnmatchedIsHelp(env: Env, server: string, r: Reading, currentYear: int, extendedHelp: bool)
    requires forall rule :: !Fires(rule, r)
    ensures Answer(env, server, Decide(r), currentYear, extendedHelp) == Reply(Info, HelpText(extendedHelp))
  {
  }
}
