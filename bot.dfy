/**
 * The `FHIRChatBot` object of chat.js: the selected server and the smart-mode
 * state are fields, and each handler that works step by step (the relay loop,
 * the patient grouping, the three name searches, the availability check) is a
 * method proved equal to the specification function of module Replies.
 */
module Bot {
  import opened Common
  import opened Text
  import opened Fhir
  import opened Transport
  import opened Classifier
  import opened SearchParams
  import opened Replies

  /** The position of the group of patient `id`, or `|groups|` when it has none yet. */
  method FindGroup(groups: seq<PatientGroup>, id: string) returns (k: nat)
    ensures k <= |groups|
    ensures k < |groups| ==> groups[k].patientId == id
    ensures forall j :: 0 <= j < k ==> groups[j].patientId != id
  {
    k := 0;
    while k < |groups| && groups[k].patientId != id
      invariant k <= |groups|
      invariant forall j :: 0 <= j < k ==> groups[j].patientId != id
    {
      k := k + 1;
    }
  }

  /** Keeps the first entry of each id, in order, by a search of the earlier entries. */
  method DedupEntries(all: seq<Resource>) returns (unique: seq<Resource>)
    ensures unique == DedupById(all)
  {
    unique := [];
    var i := 0;
    while i < |all|
      invariant 0 <= i <= |all|
      invariant unique == DedupById(all[..i])
    {
      var j := 0;
      while j < i && all[j].id != all[i].id
        invariant 0 <= j <= i
        invariant forall m :: 0 <= m < j ==> all[m].id != all[i].id
      {
        j := j + 1;
      }
      assert all[..i + 1][..i] == all[..i];
      if j == i {
        unique := unique + [all[i]];
      }
      i := i + 1;
    }
    assert all[..|all|] == all;
  }

  /** What `processQuery` does with a query: hand it to the smart path, or answer it by the pattern rules. */
  datatype Routed = SmartPath | Answered(reply: Reply)

  class ChatBot {
    /** The base URL requests go to. */
    var currentServer: string
    /** Whether the user switched smart mode on. */
    var smartMode: bool
    /** Whether a language-model engine is loaded (`llmEngine` is not null). */
    var engineLoaded: bool

    /** A new bot talks to the server selected on the page, with smart mode off and no engine. */
    constructor(serverUrl: string)
      ensures currentServer == serverUrl && !smartMode && !engineLoaded
    {
      currentServer := serverUrl;
      smartMode := false;
      engineLoaded := false;
    }

    /** The page selects another server; the smart-mode state is kept. */
    method SelectServer(url: string)
      modifies this
      ensures currentServer == url
      ensures smartMode == old(smartMode) && engineLoaded == old(engineLoaded)
    {
      currentServer := url;
    }

    /**
     * The smart-mode toggle. Switching on runs `initializeWebLLM`, which
     * always installs the mock engine; switching off drops the engine.
     */
    method ToggleSmartMode()
      modifies this
      ensures smartMode == !old(smartMode)
      ensures engineLoaded == smartMode
      ensures currentServer == old(currentServer)
    {
      smartMode := !smartMode;
      engineLoaded := smartMode;
    }

    /**
     * `makeRequest`: walks the planned attempts and returns the body of the
     * first that succeeds; when all fail it throws the last error (wrapped
     * on a local page). `tried` lists the attempts made, in order.
     */
    method MakeRequest(env: Env, endpoint: string, params: Params) returns (res: Result<Resource>, tried: seq<Attempt>)
      ensures res == Request(env, Target(currentServer, endpoint, params))
      ensures var plan := Plan(env.isLocalhost, Target(currentServer, endpoint, params));
              && 0 < |tried| <= |plan| && tried == plan[..|tried|]
              && (forall k :: 0 <= k < |tried| - 1 ==> !env.net(tried[k]).Fetched?)
              && (res.Ok? <==> env.net(tried[|tried| - 1]).Fetched?)
              && (res.Failed? ==> tried == plan)
    {
      var t := Target(currentServer, endpoint, params);
      var plan := Plan(env.isLocalhost, t);
      tried := [];
      var i := 0;
      while i < |plan|
        invariant 0 <= i <= |plan|
        invariant tried == plan[..i]
        invariant forall k :: 0 <= k < i ==> !env.net(plan[k]).Fetched?
        invariant FirstFetched(plan, env.net, 0) == FirstFetched(plan, env.net, i)
      {
        var outcome := env.net(plan[i]);
        tried := tried + [plan[i]];
        if outcome.Fetched? {
          res := Ok(outcome.body);
          return;
        }
        i := i + 1;
      }
      var last := FailureMessage(env.net(plan[|plan| - 1]));
      res := Failed(if env.isLocalhost then AllFailedMessage(last) else last);
    }

    /** A request made by a handler, which only needs what it yields. */
    method Get(env: Env, endpoint: string, params: Params) returns (res: Result<Resource>)
      ensures res == Fetch(env, currentServer, endpoint, params)
    {
      var tried;
      res, tried := MakeRequest(env, endpoint, params);
    }

    /** A list handler: one request and its reply. */
    method RunSearch(env: Env, s: Search) returns (r: Reply)
      ensures r == RunSearchOf(env, currentServer, s)
    {
      var res := Get(env, s.endpoint, s.params);
      r := SearchReply(res, s);
    }

    /** `getPatient`: the patient, then its conditions and medication requests, each allowed to fail. */
    method GetPatient(env: Env, id: string) returns (r: Reply)
      ensures r == PatientReplyOf(env, currentServer, id)
    {
      var patient := Get(env, "Patient/" + id, []);
      if patient.Failed? {
        if Contains(patient.message, "404") {
          r := Reply(Error, Message(PatientNotFoundMessage(id)));
        } else {
          r := Reply(Error, Message("Failed to fetch patient: " + patient.message));
        }
        return;
      }
      var conditions := Get(env, "Condition", [("patient", id), ("_count", "5")]);
      var meds := Get(env, "MedicationRequest", [("patient", id), ("_count", "5")]);
      r := Reply(Success, PatientDetail(patient.value, SectionOf(conditions), SectionOf(meds)));
    }

    /** Fills the patient map: one group per referenced patient, in first-reference order. */
    method GroupByPatient(cs: seq<Resource>) returns (groups: seq<PatientGroup>)
      ensures groups == GroupsOf(cs)
    {
      groups := [];
      var i := 0;
      while i < |cs|
        invariant 0 <= i <= |cs|
        invariant groups == GroupsOf(cs[..i])
      {
        var c := cs[i];
        assert cs[..i + 1] == cs[..i] + [c];
        var id := ConditionPatientId(c);
        if id.Some? {
          var k := FindGroup(groups, id.value);
          if k < |groups| {
            GroupsSnocKnown(cs[..i], c, k);
            groups := groups[k := PatientGroup(groups[k].patientId, groups[k].notes + [NoteOf(c)])];
          } else {
            GroupsSnocNew(cs[..i], c);
            groups := groups + [PatientGroup(id.value, [NoteOf(c)])];
          }
        } else {
          GroupsSnocUnreferenced(cs[..i], c);
        }
        i := i + 1;
      }
      assert cs[..|cs|] == cs;
    }

    /** The count-bounded loop that looks up at most five of the grouped patients. */
    method ListMatches(env: Env, text: string, cs: seq<Resource>) returns (r: Reply)
      ensures r == MatchesReply(env, currentServer, text, cs)
    {
      var groups := GroupByPatient(cs);
      var shown: seq<ShownPatient> := [];
      var more := 0;
      var count := 0;
      while count < |groups|
        invariant 0 <= count <= |groups| && count <= ShownPatientLimit
        invariant |shown| == count
        invariant forall k :: 0 <= k < count ==> shown[k] == ShownOf(env, currentServer, groups[k])
        invariant more == 0
      {
        if count >= ShownPatientLimit {
          more := |groups| - count;
          break;
        }
        var g := groups[count];
        var patient := Get(env, "Patient/" + g.patientId, []);
        if patient.Ok? {
          shown := shown + [ShownPatient(g.patientId, Some(FormatName(patient.value.name)), g.notes)];
        } else {
          shown := shown + [ShownPatient(g.patientId, None, g.notes)];
        }
        count := count + 1;
      }
      var n := if |groups| > ShownPatientLimit then ShownPatientLimit else |groups|;
      var server := currentServer;
      assert shown == seq(n, k requires 0 <= k < n => ShownOf(env, server, groups[k]));
      r := Reply(Success, ConditionMatches(text, |groups|, shown, more));
    }

    /** `findPatientsWithCondition`: the `code:text` search, else the filtered unfiltered one. */
    method FindPatientsWithCondition(env: Env, text: string) returns (r: Reply)
      ensures r == ConditionReplyOf(env, currentServer, text)
    {
      var first := Get(env, "Condition", [("_count", "100"), ("code:text", text)]);
      if first.Failed? {
        r := Reply(Error, Message("Failed to search conditions: " + first.message));
        return;
      }
      if HasEntries(first.value) {
        r := ListMatches(env, text, first.value.entry.value);
        return;
      }
      var all := Get(env, "Condition", [("_count", "100")]);
      if all.Failed? {
        r := Reply(Error, Message("Failed to search conditions: " + all.message));
      } else if all.value.entry.None? {
        r := Reply(Warning, Message(NoConditionMessage(text)));
      } else {
        var matched := MatchingConditions(all.value.entry.value, text);
        if matched == [] {
          r := Reply(Warning, Message(NoConditionMessage(text)));
        } else {
          r := ListMatches(env, text, matched);
        }
      }
    }

    /** `searchPatientsByName`: three searches whose entries are collected, then de-duplicated by id. */
    method SearchPatientsByName(env: Env, name: string) returns (r: Reply)
      ensures r == NameReplyOf(env, currentServer, name)
    {
      var all := CollectNameHits(env, name);
      var unique := DedupEntries(all);
      if unique == [] {
        r := Reply(Warning, Message(NoNameMessage(name)));
      } else {
        r := Reply(Success, NameMatches(name, unique));
      }
    }

    /** The entries of the three name searches, in the order they were made. */
    method CollectNameHits(env: Env, name: string) returns (all: seq<Resource>)
      ensures all == NameHits(env, currentServer, name, 3)
    {
      var searches := NameSearchParams(name);
      all := [];
      var n := 0;
      while n < 3
        invariant 0 <= n <= 3
        invariant all == NameHits(env, currentServer, name, n)
      {
        var res := Get(env, "Patient", searches[n]);
        if res.Ok? && res.value.entry.Some? {
          all := all + res.value.entry.value;
        }
        n := n + 1;
      }
    }

    /** Whether an entry refers to a patient that cannot be fetched; an entry without a reference is not checked. */
    method CheckOrphan(env: Env, e: Resource) returns (missing: bool)
      ensures missing == IsOrphan(env, currentServer, e)
    {
      missing := false;
      if HasReference(e) {
        var patient := Get(env, "Patient/" + LastSegment(e.subjectReference.value), []);
        missing := patient.Failed?;
      }
    }

    /** Counts, among the first entries of a listing, those whose patient cannot be fetched. */
    method CountOrphans(env: Env, entries: seq<Resource>) returns (orphaned: nat)
      ensures orphaned == OrphansAmong(env, currentServer, entries)
    {
      orphaned := 0;
      var j := 0;
      while j < |entries|
        invariant 0 <= j <= |entries|
        invariant orphaned == OrphansAmong(env, currentServer, entries[..j])
      {
        var e := entries[j];
        assert entries[..j + 1] == entries[..j] + [e];
        OrphansAmongSnoc(env, currentServer, entries[..j], e);
        var missing := CheckOrphan(env, e);
        if missing {
          orphaned := orphaned + 1;
        }
        j := j + 1;
      }
      assert entries[..|entries|] == entries;
    }

    /** `assessDataQuality`: one listing per resource type, then the share that answered. */
    method AssessDataQuality(env: Env) returns (r: Reply)
      ensures r == QualityReplyOf(env, currentServer)
    {
      var rows: seq<AvailabilityRow> := [];
      var t := 0;
      while t < |AvailabilityTypes|
        invariant 0 <= t <= |AvailabilityTypes|
        invariant |rows| == t
        invariant forall k :: 0 <= k < t ==> rows[k] == RowOf(env, currentServer, AvailabilityTypes[k])
      {
        var resourceType := AvailabilityTypes[t];
        var res := Get(env, resourceType, [("_count", "10")]);
        var row: AvailabilityRow;
        if res.Failed? {
          row := AvailabilityRow(resourceType, false, 0, 0, Some(res.message));
        } else {
          var b := res.value;
          var orphaned := 0;
          if resourceType != "Patient" && HasEntries(b) {
            orphaned := CountOrphans(env, b.entry.value[..Min(3, |b.entry.value|)]);
          }
          row := AvailabilityRow(resourceType, true, b.total.GetOr(0), orphaned, None);
        }
        rows := rows + [row];
        t := t + 1;
      }
      assert rows == AvailabilityRows(env, currentServer);
      var score := AvailabilityScore(AccessibleRows(rows));
      r := Reply(Info, AvailabilityReport(rows, score, AvailabilityOf(score)));
    }

    /** Runs the handler a route names. */
    method Execute(env: Env, route: Route, currentYear: int, extendedHelp: bool) returns (r: Reply)
      ensures r == Answer(env, currentServer, route, currentYear, extendedHelp)
    {
      if IsListRoute(route) {
        r := ExecuteListing(env, route);
      } else {
        r := ExecuteHandler(env, route, currentYear, extendedHelp);
      }
    }

    /** The routes answered by one generic search. */
    method ExecuteListing(env: Env, route: Route) returns (r: Reply)
      requires IsListRoute(route)
      ensures r == Answer(env, currentServer, route, 0, false)
    {
      r := RunSearch(env, ListSearch(route));
    }

    /** The routes with a handler of their own, the age search and the help text. */
    method ExecuteHandler(env: Env, route: Route, currentYear: int, extendedHelp: bool) returns (r: Reply)
      requires !IsListRoute(route)
      ensures r == Answer(env, currentServer, route, currentYear, extendedHelp)
    {
      match route
      case PatientsWithCondition(text) => r := FindPatientsWithCondition(env, text);
      case GetPatient(id) => r := GetPatient(env, id);
      case PatientsByName(name) => r := SearchPatientsByName(env, name);
      case AssessQuality => r := AssessDataQuality(env);
      case PatientsByAge(q) =>
        var age := AgeOf(q);
        if age.None? {
          r := Reply(Warning, Message(NoAgeMessage));
        } else {
          r := RunSearch(env, AgeSearch(age.value, BirthYear(currentYear, age.value)));
        }
      case Help => r := Reply(Info, HelpText(extendedHelp));
    }

    /** `processQueryWithPatternMatching`: the rule cascade, with the short help text. */
    method ProcessQueryWithPatternMatching(env: Env, q: string, currentYear: int) returns (r: Reply)
      ensures r == Answer(env, currentServer, Classify(q), currentYear, false)
    {
      r := Execute(env, Classify(q), currentYear, false);
    }

    /**
     * `processQuery`: the smart path when smart mode is on and an engine is
     * loaded; otherwise the rule cascade, with the longer help text.
     */
    method ProcessQuery(env: Env, q: string, currentYear: int) returns (out: Routed)
      ensures out == SmartPath <==> smartMode && engineLoaded
      ensures out.Answered? ==> out.reply == Answer(env, currentServer, Classify(q), currentYear, true)
    {
      if smartMode && engineLoaded {
        return SmartPath;
      }
      var r := Execute(env, Classify(q), currentYear, true);
      out := Answered(r);
    }
  }
}
