/** The local part of verify mode: the lookup tables between the service's numeric codes
    and the string names, the request validators, the consent pre-processing done before
    storage, and the in-place remapping of the service's responses. The service calls
    themselves are not modelled: each remap takes the response it would receive. */
module VerifyController {
  import opened Wrappers
  import opened JsSemantics
  import opened Privacy
  import opened Requests

  // ---------------------------------------------------------------------------
  // Lookup tables

  /** Consent state name to the service's code. */
  const InternalConsentTypes: map<string, int> :=
    map["allow" := 1, "deny" := 2, "opt_in" := 3, "opt_out" := 4, "transparent" := 5]

  /** The service's consent state code to its name. */
  const ExternalConsentTypes: map<int, string> :=
    map[1 := "allow", 2 := "deny", 3 := "opt_in", 4 := "opt_out", 5 := "transparent"]

  /** The service's display type code to its name. */
  const ExternalConsentDisplayTypes: map<int, string> :=
    map[1 := "do_not_show", 2 := "transparent", 3 := "opt_in_or_out", 4 := "allow_or_deny"]

  /** The service's consent status code to its name. */
  const ExternalConsentStatusTypes: map<int, string> :=
    map[1 := "active", 2 := "expired", 3 := "future", 8 := "none"]

  /** The two consent state tables are inverse bijections between the five names and the codes 1 to 5. */
  lemma ConsentTablesInverse()
    ensures InternalConsentTypes.Keys == ConsentTypeNames
    ensures ExternalConsentTypes.Keys == {1, 2, 3, 4, 5}
    ensures forall s :: s in InternalConsentTypes ==>
              InternalConsentTypes[s] in ExternalConsentTypes && ExternalConsentTypes[InternalConsentTypes[s]] == s
    ensures forall n :: n in ExternalConsentTypes ==>
              ExternalConsentTypes[n] in InternalConsentTypes && InternalConsentTypes[ExternalConsentTypes[n]] == n
  {
  }

  /** The tables name exactly the values of the enumerations. */
  lemma TablesMatchEnums(t: ConsentType)
    ensures t.Name() in InternalConsentTypes && ExternalConsentTypes[InternalConsentTypes[t.Name()]] == t.Name()
    ensures ExternalConsentStatusTypes == map[1 := Active.Name(), 2 := Expired.Name(), 3 := Future.Name(), 8 := NoConsent.Name()]
    ensures ExternalConsentDisplayTypes
            == map[1 := DoNotShow.Name(), 2 := TransparentDisplay.Name(), 3 := OptInOrOut.Name(), 4 := AllowOrDeny.Name()]
  {
  }

  /** A coded field of a service response: a numeric code as the service sends it, a name
      once remapped, or undefined. */
  datatype Coded = Code(code: int) | Named(name: string) | Undefined

  /** `table[v]`: a code in the table gives its name; anything else gives undefined. */
  function Decode(table: map<int, string>, v: Coded): (r: Coded)
    ensures r.Named? <==> v.Code? && v.code in table
    ensures r.Named? ==> r.name == table[v.code]
    ensures !r.Code?
  {
    if v.Code? && v.code in table then Named(table[v.code]) else Undefined
  }

  /** `InternalConsentTypes[consent.state]`: the code of a known state name, else undefined. */
  function StateCode(state: Option<string>): (r: Option<int>)
    ensures r.Some? <==> state.Some? && state.value in ConsentTypeNames
    ensures r.Some? ==> r.value in ExternalConsentTypes && ExternalConsentTypes[r.value] == state.value
  {
    if state.Some? && state.value in InternalConsentTypes then Some(InternalConsentTypes[state.value]) else None
  }

  // ---------------------------------------------------------------------------
  // Request validators

  const InvalidItemsRequest: HttpError :=
    HttpError(400, "INVALID_REQUEST", "Invalid request: subjectId and items are required")
  const InvalidConsentsRequest: HttpError :=
    HttpError(400, "INVALID_REQUEST", "Invalid request: array of consents is required")

  /** `validateRequest`: the error to throw, or none. */
  function ValidateRequest(body: PrivacyRequest): (r: Option<HttpError>)
    ensures r.Some? <==> !Truthy(body.subjectId) || body.items.None? || body.items.value == []
    ensures r.Some? ==> r.value.statusCode == 400 && r.value.messageId == "INVALID_REQUEST"
  {
    if !Truthy(body.subjectId) || body.items.None? || |body.items.value| == 0 then Some(InvalidItemsRequest) else None
  }

  /** `validateConsentsRequest`: the error to throw, or none. */
  function ValidateConsentsRequest(consents: Option<seq<ConsentInput>>): (r: Option<HttpError>)
    ensures r.Some? <==> consents.None? || consents.value == []
    ensures r.Some? ==> r.value.statusCode == 400 && r.value.messageId == "INVALID_REQUEST"
  {
    if consents.None? || |consents.value| == 0 then Some(InvalidConsentsRequest) else None
  }

  // ---------------------------------------------------------------------------
  // Consent pre-processing

  /** A consent as sent to the service: every input field carried over (the spread), the
      state replaced by its code, `isGlobal` forced on, `isExternalSubject` defaulted. */
  datatype ProcessedConsent = ProcessedConsent(
    id: Option<string>,
    purposeId: Option<string>,
    accessTypeId: Option<string>,
    attributeId: Option<string>,
    attributeValue: Option<string>,
    startTime: Option<int>,
    endTime: Option<int>,
    isGlobal: bool,
    status: Option<string>,
    state: Option<int>,
    geoIP: Option<string>,
    customAttributes: Option<map<string, string>>,
    subjectId: Option<string>,
    isExternalSubject: bool)

  function Prepared(c: ConsentInput): ProcessedConsent {
    ProcessedConsent(c.id, c.purposeId, c.accessTypeId, c.attributeId, c.attributeValue,
                     c.startTime, c.endTime, true, c.status, StateCode(c.state), c.geoIP,
                     c.customAttributes, c.subjectId, c.isExternalSubject.GetOr(false))
  }

  /** The client IP after scanning `cs`: the last truthy `geoIP`, else `ip`. */
  function LastGeoIP(cs: seq<ConsentInput>, ip: string): string {
    if cs == [] then ip
    else if Truthy(cs[|cs| - 1].geoIP) then cs[|cs| - 1].geoIP.value
    else LastGeoIP(cs[..|cs| - 1], ip)
  }

  const MissingIdsMessage: string := "subjectId and purposeId are required for each consent"

  /** `processConsents`: the whole batch fails if any consent lacks an id; otherwise every
      consent is prepared and the client IP is the last truthy `geoIP`. */
  method ProcessConsents(consents: seq<ConsentInput>, initialClientIp: string)
    returns (r: Result<(seq<ProcessedConsent>, string), string>)
    ensures r.Failure? <==> exists i :: 0 <= i < |consents| && !HasRequiredIds(consents[i])
    ensures r.Failure? ==> r.error == MissingIdsMessage
    ensures r.Success? ==>
              && |r.value.0| == |consents|
              && (forall i :: 0 <= i < |consents| ==> r.value.0[i] == Prepared(consents[i]))
              && r.value.1 == LastGeoIP(consents, initialClientIp)
  {
    var clientIp := initialClientIp;
    var processed: seq<ProcessedConsent> := [];
    var i := 0;
    while i < |consents|
      invariant 0 <= i <= |consents|
      invariant forall j :: 0 <= j < i ==> HasRequiredIds(consents[j])
      invariant |processed| == i && forall j :: 0 <= j < i ==> processed[j] == Prepared(consents[j])
      invariant clientIp == LastGeoIP(consents[..i], initialClientIp)
    {
      var consent := consents[i];
      if !Truthy(consent.subjectId) || !Truthy(consent.purposeId) {
        return Failure(MissingIdsMessage);
      }
      assert consents[..i + 1][..i] == consents[..i];
      if Truthy(consent.geoIP) {
        clientIp := consent.geoIP.value;
      }
      processed := processed + [Prepared(consent)];
      i := i + 1;
    }
    assert consents[..i] == consents;
    r := Success((processed, clientIp));
  }

  /** With no truthy `geoIP` in the batch, the initial IP is kept. */
  lemma {:induction false} LastGeoIPDefault(cs: seq<ConsentInput>, ip: string)
    requires forall j :: 0 <= j < |cs| ==> !Truthy(cs[j].geoIP)
    ensures LastGeoIP(cs, ip) == ip
  {
    if cs != [] {
      var n := |cs| - 1;
      forall j | 0 <= j < n ensures !Truthy(cs[..n][j].geoIP) {
        assert cs[..n][j] == cs[j];
      }
      LastGeoIPDefault(cs[..n], ip);
    }
  }

  /** Otherwise it is the `geoIP` of the last consent that has a truthy one. */
  lemma {:induction false} LastGeoIPIsLast(cs: seq<ConsentInput>, ip: string, i: nat)
    requires i < |cs| && Truthy(cs[i].geoIP)
    requires forall j :: i < j < |cs| ==> !Truthy(cs[j].geoIP)
    ensures LastGeoIP(cs, ip) == cs[i].geoIP.value
  {
    var n := |cs| - 1;
    if i < n {
      forall j | i < j < n ensures !Truthy(cs[..n][j].geoIP) {
        assert cs[..n][j] == cs[j];
      }
      LastGeoIPIsLast(cs[..n], ip, i);
      assert cs[..n][i] == cs[i];
    }
  }

  /** Every prepared consent is global, has its subject-kind defaulted, and carries the
      code of its state, which the external table maps back to the state name. */
  lemma PreparedShape(c: ConsentInput)
    ensures var p := Prepared(c);
            && p.isGlobal
            && (c.isExternalSubject.None? ==> !p.isExternalSubject)
            && (c.isExternalSubject.Some? ==> p.isExternalSubject == c.isExternalSubject.value)
            && (p.state.Some? <==> c.state.Some? && c.state.value in ConsentTypeNames)
            && (p.state.Some? ==> ExternalConsentTypes[p.state.value] == c.state.value)
            && p.subjectId == c.subjectId && p.purposeId == c.purposeId
  {
  }

  /** A state sent to the service as its code comes back, through the store-response
      remap, as the same name. */
  lemma StateRoundTrip(s: string)
    requires s in ConsentTypeNames
    ensures StateCode(Some(s)).Some?
    ensures Decode(ExternalConsentTypes, Code(StateCode(Some(s)).value)) == Named(s)
  {
  }

  // ---------------------------------------------------------------------------
  // Error strings

  /** A result's `error` field: absent, a string from the service, or split into its parts. */
  datatype ErrorField = NoError | RawError(text: string) | ParsedError(messageId: string, messageDescription: string)

  /** Splits `"CSxxx description"` at the first space; a string without the `CS` prefix
      has id "unknown"; a `CS` string without a space gets an empty id (indexOf is -1). */
  function SplitError(e: string): (r: ErrorField)
    ensures r.ParsedError?
    ensures !StartsWith(e, "CS") ==> r == ParsedError("unknown", e)
    ensures StartsWith(e, "CS") && ' ' in e ==>
              && r.messageId + " " + r.messageDescription == e
              && ' ' !in r.messageId
              && StartsWith(r.messageId, "CS")
    ensures StartsWith(e, "CS") && ' ' !in e ==> r == ParsedError("", e)
  {
    if StartsWith(e, "CS") then
      var delimiterIndex := IndexOf(e, ' ');
      var messageId := Substring(e, 0, delimiterIndex);
      var description := Substring(e, delimiterIndex + 1, |e|);
      if delimiterIndex >= 0 then
        assert e[0] != ' ' && e[1] != ' ' by { assert e[..2] == "CS"; }
        assert messageId[..2] == e[..2];
        assert messageId + " " + description == e[..delimiterIndex] + [e[delimiterIndex]] + e[delimiterIndex + 1..];
        ParsedError(messageId, description)
      else
        ParsedError(messageId, description)
    else
      ParsedError("unknown", e)
  }

  /** A service error code is split from its text at the first space. */
  lemma SplitErrorCoded()
    ensures SplitError("CS42 Denied") == ParsedError("CS42", "Denied")
  {
    var e := "CS42 Denied";
    assert e[..2] == "CS";
    assert IndexOf(e, ' ') == 4 by {
      assert e[4] == ' ' && e[..4] == "CS42";
    }
    assert e[..4] == "CS42" && e[5..] == "Denied";
  }

  /** A message without the `CS` prefix keeps its text under the id "unknown"; a prefixed
      message without a space keeps its text under an empty id. */
  lemma SplitErrorUncoded()
    ensures SplitError("timeout") == ParsedError("unknown", "timeout")
    ensures SplitError("CSX") == ParsedError("", "CSX")
  {
    assert !StartsWith("timeout", "CS") by { assert "timeout"[..2][0] == 't'; }
    assert StartsWith("CSX", "CS") by { assert "CSX"[..2] == "CS"; }
  }

  // ---------------------------------------------------------------------------
  // Store response

  /** A consent as returned by the service; `fields` are its other properties. */
  datatype RemoteConsent = RemoteConsent(state: Coded, fields: map<string, string>)

  /** One entry of the service's store response. */
  datatype RemoteStoreResult = RemoteStoreResult(
    result: string,
    op: Option<string>,
    value: Option<RemoteConsent>,
    consent: Option<RemoteConsent>,
    error: ErrorField)

  /** What the service sends: an error, when present, is a string. */
  predicate FromService(x: RemoteStoreResult) {
    !x.error.ParsedError?
  }

  /** The remap of one result: `value` becomes `consent` with its state named, `op` is
      dropped, and a non-empty error string is split. */
  function RemapStoreResult(x: RemoteStoreResult): (y: RemoteStoreResult)
    requires FromService(x)
    ensures y.result == x.result && y.op.None? && y.value.None?
    ensures x.value.Some? ==> y.consent == Some(x.value.value.(state := Decode(ExternalConsentTypes, x.value.value.state)))
    ensures x.value.None? ==> y.consent == x.consent
    ensures x.error.RawError? && x.error.text != "" ==> y.error == SplitError(x.error.text)
    ensures x.error.NoError? || x.error == RawError("") ==> y.error == x.error
  {
    var withConsent :=
      if x.value.Some? then
        var v := x.value.value;
        x.(consent := Some(v.(state := Decode(ExternalConsentTypes, v.state))), value := None)
      else x;
    var withoutOp := withConsent.(op := None);
    if withoutOp.error.RawError? && withoutOp.error.text != "" then
      withoutOp.(error := SplitError(withoutOp.error.text))
    else withoutOp
  }

  /** `processConsentStoreResponse`: remaps every result in place. */
  method ProcessConsentStoreResponse(results: Option<array<RemoteStoreResult>>)
    requires results.Some? ==> forall i :: 0 <= i < results.value.Length ==> FromService(results.value[i])
    modifies if results.Some? then {results.value} else {}
    ensures results.Some? ==>
              forall i :: 0 <= i < results.value.Length ==> results.value[i] == RemapStoreResult(old(results.value[i]))
  {
    if results.Some? {
      var a := results.value;
      var i := 0;
      while i < a.Length
        invariant 0 <= i <= a.Length
        invariant forall k :: 0 <= k < i ==> a[k] == RemapStoreResult(old(a[k]))
        invariant forall k :: i <= k < a.Length ==> a[k] == old(a[k])
      {
        a[i] := RemapStoreResult(a[i]);
        i := i + 1;
      }
    }
  }

  /** The HTTP code of a verify-mode store response: 207 if the response status is
      "error" or some result failed, else 200. With a status other than "error" and no
      result list, reading the list fails and the request ends in a 500. */
  function StoreResponseCode(status: Option<string>, results: Option<seq<RemoteStoreResult>>): (r: Result<int, HttpError>)
    ensures status == Some("error") ==> r == Success(207)
    ensures status != Some("error") && results.None? ==> r.Failure? && r.error.statusCode == 500
    ensures r.Success? ==>
              (r.value == 207 <==> status == Some("error")
                                   || exists i :: 0 <= i < |results.value| && results.value[i].result == StoreFailure.Name())
    ensures r.Success? ==> r.value in {200, 207}
  {
    if status == Some("error") then Success(207)
    else if results.None? then Failure(HttpError(500, "INTERNAL_ERROR", "Cannot read properties of undefined (reading 'some')"))
    else if exists i :: 0 <= i < |results.value| && results.value[i].result == StoreFailure.Name() then Success(207)
    else Success(200)
  }

  // ---------------------------------------------------------------------------
  // Assessment response

  /** A decision as the service returns it; `fields` are its properties. */
  datatype RemoteDecision = RemoteDecision(fields: map<string, string>)

  /** An entry's `result`: a list of decisions, a single decision, or absent. */
  datatype RemoteResult = ResultList(decisions: seq<RemoteDecision>) | ResultObject(decision: RemoteDecision) | NoResult

  datatype RemoteAssessment = RemoteAssessment(fields: map<string, string>, result: RemoteResult)

  /** A non-empty result list is replaced by its first element; anything else is kept. */
  function Collapse(x: RemoteAssessment): (y: RemoteAssessment)
    ensures x.result.ResultList? && x.result.decisions != [] ==>
              y == RemoteAssessment(x.fields, ResultObject(x.result.decisions[0]))
    ensures !(x.result.ResultList? && x.result.decisions != []) ==> y == x
    ensures !y.result.ResultList? || y.result.decisions == []
  {
    if x.result.ResultList? && |x.result.decisions| > 0 then x.(result := ResultObject(x.result.decisions[0])) else x
  }

  /** Collapsing twice is collapsing once. */
  lemma CollapseIdempotent(x: RemoteAssessment)
    ensures Collapse(Collapse(x)) == Collapse(x)
  {
  }

  /** The remap inside the assessment call: collapses every entry in place. */
  method CollapseAssessment(assessment: Option<array<RemoteAssessment>>)
    modifies if assessment.Some? then {assessment.value} else {}
    ensures assessment.Some? ==>
              forall i :: 0 <= i < assessment.value.Length ==> assessment.value[i] == Collapse(old(assessment.value[i]))
  {
    if assessment.Some? {
      var a := assessment.value;
      var i := 0;
      while i < a.Length
        invariant 0 <= i <= a.Length
        invariant forall k :: 0 <= k < i ==> a[k] == Collapse(old(a[k]))
        invariant forall k :: i <= k < a.Length ==> a[k] == old(a[k])
      {
        a[i] := Collapse(a[i]);
        i := i + 1;
      }
    }
  }

  // ---------------------------------------------------------------------------
  // Metadata response

  datatype RemoteMetadataConsent = RemoteMetadataConsent(state: Coded, status: Coded, fields: map<string, string>)

  datatype RemoteMetadataItem = RemoteMetadataItem(
    consentType: Coded,
    consent: Option<RemoteMetadataConsent>,
    fields: map<string, string>)

  /** A document list as the service returns it. */
  type DocumentList = seq<map<string, string>>

  datatype RemoteMetadata = RemoteMetadata(
    eula: Option<DocumentList>,
    document: Option<DocumentList>,
    default: Option<array<RemoteMetadataItem>>)

  /** Moves `eula` to `document`, leaving no `eula`. */
  function RenameEula(m: RemoteMetadata): (r: RemoteMetadata)
    ensures r.eula.None? && r.default == m.default
    ensures m.eula.Some? ==> r.document == m.eula
    ensures m.eula.None? ==> r == m
  {
    if m.eula.Some? then m.(document := m.eula, eula := None) else m
  }

  /** The display type, and the consent's state and status, replaced by their names. */
  function RemapDefaultItem(x: RemoteMetadataItem): (y: RemoteMetadataItem)
    ensures y.fields == x.fields && y.consent.Some? == x.consent.Some?
    ensures y.consentType == Decode(ExternalConsentDisplayTypes, x.consentType)
    ensures x.consent.Some? ==>
              && y.consent.value.state == Decode(ExternalConsentTypes, x.consent.value.state)
              && y.consent.value.status == Decode(ExternalConsentStatusTypes, x.consent.value.status)
              && y.consent.value.fields == x.consent.value.fields
  {
    var consent :=
      if x.consent.Some? then
        var c := x.consent.value;
        Some(c.(state := Decode(ExternalConsentTypes, c.state), status := Decode(ExternalConsentStatusTypes, c.status)))
      else None;
    x.(consentType := Decode(ExternalConsentDisplayTypes, x.consentType), consent := consent)
  }

  /** The remap inside the metadata call: the eula rename, then every default item
      remapped in place. */
  method RemapMetadata(metadata: Option<RemoteMetadata>) returns (r: Option<RemoteMetadata>)
    modifies if metadata.Some? && metadata.value.default.Some? then {metadata.value.default.value} else {}
    ensures metadata.None? ==> r.None?
    ensures metadata.Some? ==> r == Some(RenameEula(metadata.value))
    ensures metadata.Some? && metadata.value.default.Some? ==>
              var a := metadata.value.default.value;
              forall i :: 0 <= i < a.Length ==> a[i] == RemapDefaultItem(old(a[i]))
  {
    if metadata.None? {
      return None;
    }
    var m := RenameEula(metadata.value);
    if m.default.Some? {
      var a := m.default.value;
      var i := 0;
      while i < a.Length
        invariant 0 <= i <= a.Length
        invariant forall k :: 0 <= k < i ==> a[k] == RemapDefaultItem(old(a[k]))
        invariant forall k :: i <= k < a.Length ==> a[k] == old(a[k])
      {
        a[i] := RemapDefaultItem(a[i]);
        i := i + 1;
      }
    }
    r := Some(m);
  }
}
