/**
 * The FHIR JSON the client receives, projected onto the fields its logic
 * inspects, the outcome of one HTTP fetch, and the small formatters that
 * chat.js applies to resources (`formatName`, `getCodeText`,
 * `formatObservationValue`).
 */
module Fhir {
  import opened Common
  import opened Text

  datatype Coding = Coding(display: Option<string>, code: Option<string>)

  datatype CodeableConcept = CodeableConcept(text: Option<string>, coding: Option<seq<Coding>>)

  datatype HumanName = HumanName(given: Option<seq<string>>, family: Option<string>)

  /** `valueQuantity`; `value` is the number as JavaScript prints it. */
  datatype Quantity = Quantity(value: Option<string>, unit: Option<string>)

  /** One entry of an OperationOutcome's `issue` array (`details.text` flattened). */
  datatype OutcomeIssue = OutcomeIssue(severity: Option<string>, code: Option<string>, detailsText: Option<string>)

  /**
   * A JSON object returned by a FHIR server: a Bundle (`total`, `entry`), an
   * OperationOutcome (`issue`) or a single resource. `entry` holds the
   * `entry[i].resource` objects; `subjectReference` is `subject.reference`.
   */
  datatype Resource = Resource(
    resourceType: string,
    id: Option<string>,
    total: Option<int>,
    entry: Option<seq<Resource>>,
    issue: Option<seq<OutcomeIssue>>,
    name: Option<seq<HumanName>>,
    subjectReference: Option<string>,
    code: Option<CodeableConcept>,
    clinicalStatus: Option<CodeableConcept>,
    valueQuantity: Option<Quantity>,
    valueString: Option<string>,
    valueCodeableConcept: Option<CodeableConcept>,
    onsetDateTime: Option<string>)

  /** What one `fetch` gives: a parsed 2xx body, a non-2xx status, or a thrown error. */
  datatype FetchOutcome =
    | Fetched(body: Resource)
    | HttpError(status: int, statusText: string)
    | NetworkError(message: string)

  /** JavaScript truthiness of an optional string: present and not empty. */
  predicate Truthy(s: Option<string>) {
    s.Some? && s.value != ""
  }

  /** `s || fallback` for an optional string. */
  function OrElse(s: Option<string>, fallback: string): (r: string)
    ensures Truthy(s) ==> r == s.value
    ensures !Truthy(s) ==> r == fallback
  {
    if Truthy(s) then s.value else fallback
  }

  /** The message of the error thrown for a failed fetch. */
  function FailureMessage(o: FetchOutcome): string
    requires !o.Fetched?
  {
    match o
    case HttpError(status, text) => "HTTP " + IntToString(status) + ": " + text
    case NetworkError(m) => m
  }

  /** `bundle.entry && bundle.entry.length > 0`. */
  predicate HasEntries(r: Resource) {
    r.entry.Some? && |r.entry.value| > 0
  }

  /** `bundle.total || bundle.entry.length`: the count shown above a listing. */
  function DisplayedTotal(r: Resource): int {
    if r.total.Some? && r.total.value != 0 then r.total.value else |r.entry.GetOr([])|
  }

  /** `resource.subject && resource.subject.reference` is truthy. */
  predicate HasReference(r: Resource) {
    Truthy(r.subjectReference)
  }

  /** `formatName`: the first name's given names and family name, or "Unknown Name". */
  function FormatName(names: Option<seq<HumanName>>): (r: string)
    ensures r != ""
    ensures names.None? || names.value == [] ==> r == "Unknown Name"
    ensures r == "Unknown Name" || (!IsSpace(r[0]) && !IsSpace(r[|r| - 1]))
  {
    if names.None? || names.value == [] then "Unknown Name"
    else
      var n := names.value[0];
      var given := if n.given.Some? then Join(n.given.value, " ") else "";
      var full := Trim(given + " " + OrElse(n.family, ""));
      if full == "" then "Unknown Name" else full
  }

  lemma TrimKeeps(s: string)
    requires s == [] || (!IsSpace(s[0]) && !IsSpace(s[|s| - 1]))
    ensures Trim(s) == s
  {
  }

  /**
   * A first name with given names `g` and family name `f`, neither empty nor
   * padded with white space, is rendered as `g + " " + f`.
   */
  lemma FormatNameGivenFamily(g: string, f: string, rest: seq<HumanName>)
    requires g != [] && !IsSpace(g[0]) && !IsSpace(g[|g| - 1])
    requires f != [] && !IsSpace(f[0]) && !IsSpace(f[|f| - 1])
    ensures FormatName(Some([HumanName(Some([g]), Some(f))] + rest)) == g + " " + f
  {
    var s := g + " " + f;
    assert s[0] == g[0] && s[|s| - 1] == f[|f| - 1];
    TrimKeeps(s);
  }

  /** `getCodeText`: `text`, else the first coding's `display`, else its `code`, else "Unknown". */
  function CodeText(code: Option<CodeableConcept>): (r: string)
    ensures r != ""
    ensures code.Some? && Truthy(code.value.text) ==> r == code.value.text.value
    ensures code.None? ==> r == "Unknown"
    ensures code.Some? && !Truthy(code.value.text) ==>
              var cs := code.value.coding;
              if cs.Some? && |cs.value| > 0 then
                r == (if Truthy(cs.value[0].display) then cs.value[0].display.value
                      else OrElse(cs.value[0].code, "Unknown"))
              else r == "Unknown"
  {
    if code.None? then "Unknown"
    else if Truthy(code.value.text) then code.value.text.value
    else if code.value.coding.Some? && |code.value.coding.value| > 0 then
      var c := code.value.coding.value[0];
      if Truthy(c.display) then c.display.value else OrElse(c.code, "Unknown")
    else "Unknown"
  }

  /** `formatObservationValue`: quantity with unit, else string, else coded value, else a placeholder. */
  function ObservationValue(obs: Resource): (r: string)
    ensures r != ""
    ensures obs.valueQuantity.Some? ==>
              var q := obs.valueQuantity.value;
              r == (if q.value.Some? then q.value.value else "undefined") + " " + OrElse(q.unit, "")
    ensures obs.valueQuantity.None? && Truthy(obs.valueString) ==> r == obs.valueString.value
    ensures obs.valueQuantity.None? && !Truthy(obs.valueString) && obs.valueCodeableConcept.None?
            ==> r == "No value recorded"
    ensures obs.valueQuantity.None? && !Truthy(obs.valueString) && obs.valueCodeableConcept.Some?
            ==> r == CodeText(obs.valueCodeableConcept)
  {
    if obs.valueQuantity.Some? then
      var q := obs.valueQuantity.value;
      (if q.value.Some? then q.value.value else "undefined") + " " + OrElse(q.unit, "")
    else if Truthy(obs.valueString) then obs.valueString.value
    else if obs.valueCodeableConcept.Some? then CodeText(obs.valueCodeableConcept)
    else "No value recorded"
  }

  /** The status has a first coding whose `code` is truthy. */
  predicate HasFirstCode(status: Option<CodeableConcept>) {
    status.Some? && status.value.coding.Some? && |status.value.coding.value| > 0
    && Truthy(status.value.coding.value[0].code)
  }

  /** `clinicalStatus?.coding?.[0]?.code || 'unknown'`. */
  function StatusCode(status: Option<CodeableConcept>): (r: string)
    ensures r != ""
    ensures HasFirstCode(status) ==> r == status.value.coding.value[0].code.value
    ensures !HasFirstCode(status) ==> r == "unknown"
  {
    if status.Some? && status.value.coding.Some? && |status.value.coding.value| > 0
    then OrElse(status.value.coding.value[0].code, "unknown")
    else "unknown"
  }
}
