/**
 * The data-quality assessor of app.js (`FHIRQualityAssessor`): per-resource
 * validation, penalty scoring, the orphaned-reference check, the per-server
 * mean over accessible resources, and the presentation bands of
 * `displayOverallScore`. The network is the oracle `get`, from a URL to the
 * outcome of fetching it.
 */
module Quality {
  import opened Common
  import opened Text
  import opened Fhir

  /** One finding about a resource type: severity, a code tag and a human-readable text. */
  datatype Issue = Issue(severity: string, code: string, details: string)

  /** The result of `validateFHIRResponse`; `totalResources` is `data_quality.total_resources`. */
  datatype Validation = Validation(isValid: bool, issues: seq<Issue>, totalResources: Option<int>)

  /** The result of `checkOrphanedReferences`. */
  datatype OrphanCheck = OrphanCheck(orphanedCount: nat, totalRefs: nat)

  /** The per-resource record built by `assessResource`. */
  datatype ResourceAssessment = ResourceAssessment(
    accessible: bool,
    totalAvailable: int,
    score: int,
    issues: seq<Issue>,
    error: Option<string>)

  /** The record built by `assessServer`; `overall` is the mean over accessible resources. */
  datatype ServerAssessment = ServerAssessment(
    server: string,
    resources: seq<(string, ResourceAssessment)>,
    overall: real)

  /** The resource types `assessServer` probes, in the order it probes them. */
  const TrackedTypes: seq<string> := ["Patient", "Observation", "Condition", "MedicationRequest"]

  const EmptyResourceIssue := Issue("info", "empty-resource", "No resources found")

  /** An OperationOutcome issue with the defaults 'unknown' / 'No details'. */
  function IssueFromOutcome(i: OutcomeIssue): Issue {
    Issue(OrElse(i.severity, "unknown"), OrElse(i.code, "unknown"), OrElse(i.detailsText, "No details"))
  }

  /** What `validateFHIRResponse` computes for a response. */
  function ValidationOf(response: Resource): (v: Validation)
    ensures response.resourceType == "OperationOutcome" ==>
              !v.isValid && |v.issues| == |response.issue.GetOr([])|
    ensures response.resourceType != "OperationOutcome" ==> v.isValid
    ensures response.resourceType == "Bundle" ==>
              (EmptyResourceIssue in v.issues <==> response.total == Some(0))
  {
    if response.resourceType == "OperationOutcome" then
      var raw := response.issue.GetOr([]);
      Validation(false, seq(|raw|, k requires 0 <= k < |raw| => IssueFromOutcome(raw[k])), None)
    else if response.resourceType == "Bundle" then
      Validation(true, if response.total == Some(0) then [EmptyResourceIssue] else [],
                 Some(response.total.GetOr(0)))
    else
      Validation(true, [], None)
  }

  /** `validateFHIRResponse`: one issue per OperationOutcome issue, or the empty-bundle check. */
  method ValidateFhirResponse(response: Resource) returns (v: Validation)
    ensures v == ValidationOf(response)
    ensures response.resourceType == "OperationOutcome" ==>
              forall k :: 0 <= k < |v.issues| ==> v.issues[k] == IssueFromOutcome(response.issue.value[k])
  {
    if response.resourceType == "OperationOutcome" {
      var issues: seq<Issue> := [];
      if response.issue.Some? {
        var raw := response.issue.value;
        var i := 0;
        while i < |raw|
          invariant 0 <= i <= |raw|
          invariant |issues| == i
          invariant forall k :: 0 <= k < i ==> issues[k] == IssueFromOutcome(raw[k])
        {
          issues := issues + [IssueFromOutcome(raw[i])];
          i := i + 1;
        }
      }
      return Validation(false, issues, None);
    }
    var issues: seq<Issue> := [];
    var quality: Option<int> := None;
    if response.resourceType == "Bundle" {
      quality := Some(response.total.GetOr(0));
      if response.total == Some(0) {
        issues := issues + [EmptyResourceIssue];
      }
    }
    v := Validation(true, issues, quality);
  }

  /** The points one issue costs: 30 per error, 10 per warning, 5 per info. */
  function Penalty(severity: string): nat {
    if severity == "error" then 30
    else if severity == "warning" then 10
    else if severity == "info" then 5
    else 0
  }

  function PenaltySum(issues: seq<Issue>): nat {
    if issues == [] then 0 else PenaltySum(issues[..|issues| - 1]) + Penalty(issues[|issues| - 1].severity)
  }

  /** The score `calculateQualityScore` assigns: 0 when invalid, else 100 less the penalties, floored at 0. */
  function QualityScore(v: Validation): (score: int)
    ensures 0 <= score <= 100
    ensures !v.isValid ==> score == 0
  {
    if !v.isValid then 0
    else
      var s := 100 - PenaltySum(v.issues) - (if v.totalResources == Some(0) then 50 else 0);
      if s < 0 then 0 else s
  }

  /** `calculateQualityScore`: starts at 100 and deducts per issue, then for an empty server. */
  method CalculateQualityScore(v: Validation) returns (score: int)
    ensures score == QualityScore(v)
  {
    if !v.isValid {
      return 0;
    }
    score := 100;
    var i := 0;
    while i < |v.issues|
      invariant 0 <= i <= |v.issues|
      invariant score == 100 - PenaltySum(v.issues[..i])
    {
      assert v.issues[..i + 1][..i] == v.issues[..i];
      score := score - Penalty(v.issues[i].severity);
      i := i + 1;
    }
    assert v.issues[..i] == v.issues;
    if v.totalResources == Some(0) {
      score := score - 50;
    }
    if score < 0 {
      score := 0;
    }
  }

  /**
   * A Bundle scores 45 when `total` is exactly 0 (info issue plus empty penalty),
   * 50 when `total` is absent (empty penalty only), and 100 otherwise.
   */
  lemma BundleScore(response: Resource)
    requires response.resourceType == "Bundle"
    ensures QualityScore(ValidationOf(response)) ==
              if response.total == Some(0) then 45
              else if response.total.None? then 50
              else 100
  {
    var v := ValidationOf(response);
    if response.total == Some(0) {
      assert v.issues == [EmptyResourceIssue];
      assert PenaltySum(v.issues) == PenaltySum([]) + 5;
    } else {
      assert v.issues == [];
    }
  }

  /** The id in a `Patient/<id>` subject reference: `ref.split('/')[1]`. */
  function PatientRefId(r: Resource): (id: Option<string>)
    ensures id.Some? <==> HasReference(r) && StartsWith(r.subjectReference.value, "Patient/")
    ensures id.Some? ==>
              var ref := r.subjectReference.value;
              && '/' !in id.value
              && StartsWith(ref, "Patient/" + id.value)
              && (|ref| == 8 + |id.value| || ref[8 + |id.value|] == '/')
  {
    if HasReference(r) && StartsWith(r.subjectReference.value, "Patient/")
    then Some(UntilSlash(r.subjectReference.value[8..]))
    else None
  }

  /** The ids of every `Patient/` reference among `entries`, in order and with repetitions. */
  function AllPatientRefIds(entries: seq<Resource>): (ids: seq<string>)
    ensures forall id :: id in ids <==> exists k :: 0 <= k < |entries| && PatientRefId(entries[k]) == Some(id)
  {
    if entries == [] then []
    else
      var init := entries[..|entries| - 1];
      var id := PatientRefId(entries[|entries| - 1]);
      assert forall k :: 0 <= k < |init| ==> init[k] == entries[k];
      AllPatientRefIds(init) + (if id.Some? then [id.value] else [])
  }

  /** The distinct patient ids referenced by `entries`, in first-seen order (the `Set` of the source). */
  function PatientRefIds(entries: seq<Resource>): seq<string> {
    FirstSeen(AllPatientRefIds(entries))
  }

  /** The set of referenced patient ids. */
  ghost function PatientRefIdSet(entries: seq<Resource>): set<string> {
    set k | 0 <= k < |entries| && PatientRefId(entries[k]).Some? :: PatientRefId(entries[k]).value
  }

  /** The id list holds every referenced id exactly once. */
  lemma PatientRefIdsExact(entries: seq<Resource>)
    ensures Distinct(PatientRefIds(entries))
    ensures forall id :: id in PatientRefIds(entries) <==> id in PatientRefIdSet(entries)
  {
    FirstSeenExact(AllPatientRefIds(entries));
  }

  /** One more entry adds its id to the list when the id is new. */
  lemma PatientRefIdsSnoc(entries: seq<Resource>, e: Resource)
    ensures PatientRefIds(entries + [e]) ==
      if PatientRefId(e).Some? && PatientRefId(e).value !in PatientRefIds(entries)
      then PatientRefIds(entries) + [PatientRefId(e).value]
      else PatientRefIds(entries)
  {
    assert (entries + [e])[..|entries|] == entries;
    var ids := AllPatientRefIds(entries);
    if PatientRefId(e).Some? {
      assert AllPatientRefIds(entries + [e]) == ids + [PatientRefId(e).value];
      FirstSeenSnoc(ids, PatientRefId(e).value);
    } else {
      assert AllPatientRefIds(entries + [e]) == ids;
    }
  }

  /** A lookup answered 404, or one that threw, counts as an orphaned reference. */
  predicate IsOrphan(o: FetchOutcome) {
    o.NetworkError? || (o.HttpError? && o.status == 404)
  }

  function PatientUrl(server: string, id: string): string {
    server + "/Patient/" + id
  }

  function OrphanCount(ids: seq<string>, server: string, get: string -> FetchOutcome): (n: nat)
    ensures n <= |ids|
  {
    if ids == [] then 0
    else OrphanCount(ids[..|ids| - 1], server, get)
         + (if IsOrphan(get(PatientUrl(server, ids[|ids| - 1]))) then 1 else 0)
  }

  /** `checkOrphanedReferences`: collect the distinct `Patient/` ids, then look each one up. */
  method CheckOrphanedReferences(server: string, bundle: Resource, get: string -> FetchOutcome)
    returns (check: OrphanCheck)
    ensures check.totalRefs == |PatientRefIdSet(bundle.entry.GetOr([]))|
    ensures check.orphanedCount == OrphanCount(PatientRefIds(bundle.entry.GetOr([])), server, get)
    ensures check.orphanedCount <= check.totalRefs
  {
    var entries := bundle.entry.GetOr([]);
    var refs: seq<string> := [];
    var i := 0;
    while i < |entries|
      invariant 0 <= i <= |entries|
      invariant refs == PatientRefIds(entries[..i])
    {
      assert entries[..i + 1] == entries[..i] + [entries[i]];
      PatientRefIdsSnoc(entries[..i], entries[i]);
      var id := PatientRefId(entries[i]);
      if id.Some? && id.value !in refs {
        refs := refs + [id.value];
      }
      i := i + 1;
    }
    assert entries[..i] == entries;
    var orphaned := 0;
    var j := 0;
    while j < |refs|
      invariant 0 <= j <= |refs|
      invariant orphaned == OrphanCount(refs[..j], server, get)
    {
      assert refs[..j + 1][..j] == refs[..j];
      if IsOrphan(get(PatientUrl(server, refs[j]))) {
        orphaned := orphaned + 1;
      }
      j := j + 1;
    }
    assert refs[..j] == refs;
    PatientRefIdsExact(entries);
    DistinctCardinality(refs, PatientRefIdSet(entries));
    check := OrphanCheck(orphaned, |refs|);
  }

  /** The URL `assessResource` fetches for a resource type. */
  function ResourceUrl(server: string, resourceType: string): string {
    server + "/" + resourceType + "?_count=10"
  }

  function OrphanIssue(count: nat): Issue {
    Issue("warning", "orphaned-references", "Found " + NatToString(count) + " orphaned patient references")
  }

  /** What `assessResource` records for one resource type. */
  function AssessmentOf(server: string, resourceType: string, get: string -> FetchOutcome): ResourceAssessment {
    match get(ResourceUrl(server, resourceType))
    case NetworkError(m) =>
      ResourceAssessment(false, 0, 0, [Issue("error", "network-error", m)], Some(m))
    case HttpError(status, text) =>
      ResourceAssessment(false, 0, 0, [], Some(FailureMessage(HttpError(status, text))))
    case Fetched(bundle) =>
      var v := ValidationOf(bundle);
      var base := ResourceAssessment(true, bundle.total.GetOr(0), QualityScore(v), v.issues, None);
      if resourceType != "Patient" && bundle.entry.Some? then
        var orphans := OrphanCount(PatientRefIds(bundle.entry.value), server, get);
        if orphans > 0
        then base.(issues := base.issues + [OrphanIssue(orphans)], score := base.score - 20)
        else base
      else base
  }

  /** `assessResource`: fetch ten entries, validate, score, and check references. */
  method AssessResource(server: string, resourceType: string, get: string -> FetchOutcome)
    returns (a: ResourceAssessment)
    ensures a == AssessmentOf(server, resourceType, get)
  {
    a := ResourceAssessment(false, 0, 0, [], None);
    var response := get(ResourceUrl(server, resourceType));
    if response.NetworkError? {
      a := a.(error := Some(response.message));
      a := a.(issues := a.issues + [Issue("error", "network-error", response.message)]);
      return;
    }
    if response.HttpError? {
      a := a.(error := Some(FailureMessage(response)));
      return;
    }
    var bundle := response.body;
    a := a.(accessible := true, totalAvailable := bundle.total.GetOr(0));
    var validation := ValidateFhirResponse(bundle);
    var score := CalculateQualityScore(validation);
    a := a.(issues := validation.issues, score := score);
    if resourceType != "Patient" && bundle.entry.Some? {
      var check := CheckOrphanedReferences(server, bundle, get);
      if check.orphanedCount > 0 {
        a := a.(issues := a.issues + [OrphanIssue(check.orphanedCount)]);
        a := a.(score := a.score - 20);
      }
    }
  }

  /** A non-ok HTTP status leaves the resource inaccessible, with the status text and no issues. */
  lemma HttpErrorIsInaccessible(server: string, resourceType: string, get: string -> FetchOutcome,
                                status: int, text: string)
    requires get(ResourceUrl(server, resourceType)) == HttpError(status, text)
    ensures var a := AssessmentOf(server, resourceType, get);
            !a.accessible && a.score == 0 && a.issues == [] && a.error.Some?
            && Contains(a.error.value, text)
  {
    var m := "HTTP " + IntToString(status) + ": ";
    assert (m + text)[|m|..|m| + |text|] == text;
    ContainsAt(m + text, text, |m|);
  }

  /** A thrown fetch leaves the resource inaccessible with exactly one error-severity network-error issue. */
  lemma NetworkErrorIsInaccessible(server: string, resourceType: string, get: string -> FetchOutcome, m: string)
    requires get(ResourceUrl(server, resourceType)) == NetworkError(m)
    ensures var a := AssessmentOf(server, resourceType, get);
            !a.accessible && a.error == Some(m) && |a.issues| == 1
            && a.issues[0].severity == "error" && a.issues[0].code == "network-error"
  {
  }

  /**
   * The orphan penalty: only a non-Patient resource whose response has `entry`
   * and some unresolvable reference loses 20 points, after the floor at 0, and
   * gains one orphaned-references warning.
   */
  lemma OrphanPenalty(server: string, resourceType: string, get: string -> FetchOutcome, bundle: Resource)
    requires get(ResourceUrl(server, resourceType)) == Fetched(bundle)
    ensures var a := AssessmentOf(server, resourceType, get);
            var v := ValidationOf(bundle);
            var penalised := resourceType != "Patient" && bundle.entry.Some?
                             && OrphanCount(PatientRefIds(bundle.entry.value), server, get) > 0;
            a.accessible
            && a.score == QualityScore(v) - (if penalised then 20 else 0)
            && |a.issues| == |v.issues| + (if penalised then 1 else 0)
            && (penalised ==> a.issues[|a.issues| - 1].code == "orphaned-references")
  {
  }

  /**
   * Every accessible resource scores between -20 and 100; only an
   * OperationOutcome response (score 0 before the orphan penalty) can go below 0.
   */
  lemma {:induction false} AssessmentScoreBounds(server: string, resourceType: string, get: string -> FetchOutcome)
    ensures var a := AssessmentOf(server, resourceType, get);
            -20 <= a.score <= 100
    ensures var a := AssessmentOf(server, resourceType, get);
            a.score < 0 ==> get(ResourceUrl(server, resourceType)).Fetched?
                            && get(ResourceUrl(server, resourceType)).body.resourceType == "OperationOutcome"
  {
    var o := get(ResourceUrl(server, resourceType));
    if o.Fetched? {
      var b := o.body;
      if b.resourceType == "Bundle" {
        BundleScore(b);
      } else if b.resourceType != "OperationOutcome" {
        assert ValidationOf(b).issues == [];
      }
    }
  }

  /** The number of accessible resources and the sum of their scores. */
  function AccessibleCount(rs: seq<(string, ResourceAssessment)>): (n: nat)
    ensures n <= |rs|
  {
    if rs == [] then 0
    else AccessibleCount(rs[..|rs| - 1]) + (if rs[|rs| - 1].1.accessible then 1 else 0)
  }

  function AccessibleSum(rs: seq<(string, ResourceAssessment)>): int {
    if rs == [] then 0
    else AccessibleSum(rs[..|rs| - 1]) + (if rs[|rs| - 1].1.accessible then rs[|rs| - 1].1.score else 0)
  }

  /** The overall score: the mean over accessible resources, 0 when none is accessible. */
  function MeanScore(rs: seq<(string, ResourceAssessment)>): real {
    if AccessibleCount(rs) > 0 then AccessibleSum(rs) as real / AccessibleCount(rs) as real else 0.0
  }

  /** The per-type assessments of `assessServer`, in probing order. */
  function AssessmentsOf(server: string, types: seq<string>, get: string -> FetchOutcome)
    : (rs: seq<(string, ResourceAssessment)>)
    ensures |rs| == |types|
    ensures forall k :: 0 <= k < |types| ==> rs[k] == (types[k], AssessmentOf(server, types[k], get))
  {
    seq(|types|, k requires 0 <= k < |types| => (types[k], AssessmentOf(server, types[k], get)))
  }

  /**
   * Each recorded assessment is keyed by the type probed at that position,
   * and a type counts as accessible exactly when its listing request got an
   * ok response.
   */
  lemma AssessmentsFollowTypes(server: string, types: seq<string>, get: string -> FetchOutcome)
    ensures var rs := AssessmentsOf(server, types, get);
            |rs| == |types|
            && forall k :: 0 <= k < |types| ==>
                 rs[k].0 == types[k]
                 && (rs[k].1.accessible <==> get(ResourceUrl(server, types[k])).Fetched?)
  {
  }

  /** `assessServer`: assess each tracked type and average the accessible scores. */
  method AssessServer(server: string, get: string -> FetchOutcome) returns (s: ServerAssessment)
    ensures s.server == server
    ensures s.resources == AssessmentsOf(server, TrackedTypes, get)
    ensures s.overall == MeanScore(s.resources)
  {
    var resources: seq<(string, ResourceAssessment)> := [];
    var totalScore := 0;
    var validResources := 0;
    var i := 0;
    while i < |TrackedTypes|
      invariant 0 <= i <= |TrackedTypes|
      invariant resources == AssessmentsOf(server, TrackedTypes[..i], get)
      invariant totalScore == AccessibleSum(resources)
      invariant validResources == AccessibleCount(resources)
    {
      var a := AssessResource(server, TrackedTypes[i], get);
      assert resources + [(TrackedTypes[i], a)] == AssessmentsOf(server, TrackedTypes[..i + 1], get);
      assert (resources + [(TrackedTypes[i], a)])[..|resources|] == resources;
      resources := resources + [(TrackedTypes[i], a)];
      if a.accessible {
        totalScore := totalScore + a.score;
        validResources := validResources + 1;
      }
      i := i + 1;
    }
    assert TrackedTypes[..i] == TrackedTypes;
    var overall := if validResources > 0 then totalScore as real / validResources as real else 0.0;
    s := ServerAssessment(server, resources, overall);
  }

  /** Bounds on the accessible scores carry over to their sum. */
  lemma {:induction false} SumBounds(rs: seq<(string, ResourceAssessment)>, lo: int, hi: int)
    requires forall k :: 0 <= k < |rs| && rs[k].1.accessible ==> lo <= rs[k].1.score <= hi
    ensures lo * AccessibleCount(rs) <= AccessibleSum(rs) <= hi * AccessibleCount(rs)
  {
    if rs != [] {
      var init, last := rs[..|rs| - 1], rs[|rs| - 1];
      forall k | 0 <= k < |init| && init[k].1.accessible ensures lo <= init[k].1.score <= hi {
        assert init[k] == rs[k];
      }
      SumBounds(init, lo, hi);
      if last.1.accessible {
        MulSucc(lo, AccessibleCount(init));
        MulSucc(hi, AccessibleCount(init));
      }
    }
  }

  lemma MulSucc(a: int, c: int)
    ensures a * (c + 1) == a * c + a
  {
  }

  /** When every accessible score lies in `lo..hi` (with `lo <= 0`), so does the overall mean. */
  lemma MeanBounds(rs: seq<(string, ResourceAssessment)>, lo: int, hi: int)
    requires lo <= 0 <= hi
    requires forall k :: 0 <= k < |rs| && rs[k].1.accessible ==> lo <= rs[k].1.score <= hi
    ensures lo as real <= MeanScore(rs) <= hi as real
  {
    SumBounds(rs, lo, hi);
    var n := AccessibleCount(rs);
    if n > 0 {
      IntMeanBounds(AccessibleSum(rs), n, lo, hi);
    }
  }

  lemma IntMeanBounds(sum: int, n: int, lo: int, hi: int)
    requires n > 0 && lo * n <= sum <= hi * n
    ensures lo as real <= sum as real / n as real <= hi as real
  {
    assert (lo * n) as real == lo as real * n as real;
    assert (hi * n) as real == hi as real * n as real;
    DivideBounds(sum as real, n as real, lo as real, hi as real);
  }

  lemma DivideBounds(sum: real, n: real, lo: real, hi: real)
    requires n > 0.0 && lo * n <= sum <= hi * n
    ensures lo <= sum / n <= hi
  {
    var q := sum / n;
    assert q * n == sum;
    assert (hi - q) * n == hi * n - sum;
    assert (q - lo) * n == sum - lo * n;
  }

  /**
   * The overall score lies in -20..100, and in 0..100 whenever no probed
   * resource answered with an OperationOutcome.
   */
  lemma OverallScoreBounds(server: string, get: string -> FetchOutcome)
    ensures var rs := AssessmentsOf(server, TrackedTypes, get);
            -20.0 <= MeanScore(rs) <= 100.0
    ensures (forall t :: t in TrackedTypes && get(ResourceUrl(server, t)).Fetched?
                         ==> get(ResourceUrl(server, t)).body.resourceType != "OperationOutcome")
            ==> 0.0 <= MeanScore(AssessmentsOf(server, TrackedTypes, get)) <= 100.0
  {
    var rs := AssessmentsOf(server, TrackedTypes, get);
    forall k | 0 <= k < |rs| ensures -20 <= rs[k].1.score <= 100 {
      AssessmentScoreBounds(server, TrackedTypes[k], get);
    }
    MeanBounds(rs, -20, 100);
    if forall t :: t in TrackedTypes && get(ResourceUrl(server, t)).Fetched?
                   ==> get(ResourceUrl(server, t)).body.resourceType != "OperationOutcome" {
      forall k | 0 <= k < |rs| ensures 0 <= rs[k].1.score <= 100 {
        AssessmentScoreBounds(server, TrackedTypes[k], get);
      }
      MeanBounds(rs, 0, 100);
    }
  }

  /** Inaccessible resources leave the denominator: the mean is taken over the accessible ones only. */
  lemma {:induction false} InaccessibleExcluded(rs: seq<(string, ResourceAssessment)>, k: nat)
    requires k < |rs| && !rs[k].1.accessible
    ensures AccessibleCount(rs) == AccessibleCount(rs[..k] + rs[k + 1..])
    ensures AccessibleSum(rs) == AccessibleSum(rs[..k] + rs[k + 1..])
  {
    if k < |rs| - 1 {
      var init := rs[..|rs| - 1];
      var r := rs[..k] + rs[k + 1..];
      assert |r| == |init| > 0;
      assert r[..|r| - 1] == init[..k] + init[k + 1..];
      assert r[|r| - 1] == rs[|rs| - 1];
      InaccessibleExcluded(init, k);
    } else {
      assert rs[..k] + rs[k + 1..] == rs[..|rs| - 1];
    }
  }

  /** Every resource accessible with a perfect score gives an overall score of 100. */
  lemma {:induction false} PerfectServer(rs: seq<(string, ResourceAssessment)>)
    requires rs != []
    requires forall k :: 0 <= k < |rs| ==> rs[k].1.accessible && rs[k].1.score == 100
    ensures MeanScore(rs) == 100.0
  {
    AllAccessibleSum(rs);
    var n := |rs| as real;
    assert (100 * |rs|) as real == 100.0 * n;
    assert 100.0 * n / n == 100.0;
  }

  lemma {:induction false} AllAccessibleSum(rs: seq<(string, ResourceAssessment)>)
    requires forall k :: 0 <= k < |rs| ==> rs[k].1.accessible && rs[k].1.score == 100
    ensures AccessibleCount(rs) == |rs| && AccessibleSum(rs) == 100 * |rs|
  {
    if rs != [] {
      AllAccessibleSum(rs[..|rs| - 1]);
    }
  }

  /** The presentation bands of `displayOverallScore`. */
  datatype Band = Excellent | Good | Fair | Poor

  /** Bands are evaluated top-down: >= 80, >= 60, >= 40, else POOR. */
  function ScoreBand(score: real): (b: Band)
    ensures b == Excellent <==> score >= 80.0
    ensures b == Good <==> 60.0 <= score < 80.0
    ensures b == Fair <==> 40.0 <= score < 60.0
    ensures b == Poor <==> score < 40.0
  {
    if score >= 80.0 then Excellent
    else if score >= 60.0 then Good
    else if score >= 40.0 then Fair
    else Poor
  }

  function BandRank(b: Band): nat {
    match b
    case Poor => 0
    case Fair => 1
    case Good => 2
    case Excellent => 3
  }

  /** A higher score never lands in a lower band. */
  lemma BandMonotone(s1: real, s2: real)
    requires s1 <= s2
    ensures BandRank(ScoreBand(s1)) <= BandRank(ScoreBand(s2))
  {
  }
}
