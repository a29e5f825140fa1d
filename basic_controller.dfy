/** The basic-mode consent engine: an in-memory consent store keyed by a composite
    string, the assessment evaluator, the page-metadata assembler and the consent
    recorder. The wall clock is a parameter: `now` in epoch seconds for an assessment,
    and for a storage request one millisecond reading `clockMs`, from which both the
    current second and the generated consent id are derived. */
module BasicController {
  import opened Wrappers
  import opened JsSemantics
  import opened Privacy
  import opened Requests

  // ---------------------------------------------------------------------------
  // Keys

  /** `${subjectId}:${purposeId}:${accessTypeId}:${attributeId}:${attributeValue}` */
  function ConsentKey(subjectId: string, purposeId: string, accessTypeId: string,
                      attributeId: string, attributeValue: string): string
  {
    subjectId + ":" + purposeId + ":" + accessTypeId + ":" + attributeId + ":" + attributeValue
  }

  /** The key an assessment or default metadata item is looked up under: an undefined
      purpose renders as "undefined", an absent or empty refinement as "". */
  function ItemKey(subjectId: string, item: Item): string {
    ConsentKey(subjectId, TemplateText(item.purposeId), OrEmpty(item.accessTypeId),
               OrEmpty(item.attributeId), OrEmpty(item.attributeValue))
  }

  /** The key a document item is looked up under: `${subjectId}:${purposeId}:::`. */
  function DocumentKey(subjectId: string, purposeId: string): string {
    ConsentKey(subjectId, purposeId, "", "", "")
  }

  /** The key a consent is stored under. */
  function InputKey(c: ConsentInput): string
    requires HasRequiredIds(c)
  {
    ConsentKey(c.subjectId.value, c.purposeId.value, OrEmpty(c.accessTypeId),
               OrEmpty(c.attributeId), OrEmpty(c.attributeValue))
  }

  function Lookup(m: map<string, ConsentRecord>, key: string): Option<ConsentRecord> {
    if key in m then Some(m[key]) else None
  }

  const InvalidItemsRequest: HttpError :=
    HttpError(400, "INVALID_REQUEST", "Invalid request: subjectId and items are required")
  const InvalidConsentsRequest: HttpError :=
    HttpError(400, "INVALID_REQUEST", "Invalid request: array of consents is required")

  // ---------------------------------------------------------------------------
  // Per-item decision

  /** A decision reason; its `extraInfo` is always null. */
  datatype Reason = Reason(messageId: string, messageDescription: string)

  datatype Decision = Decision(
    approved: bool,
    approvalRequired: bool,
    promptForConsent: bool,
    reason: Option<Reason>)

  /** The decision for an item with no stored consent. */
  const NoConsentDecision: Decision := Decision(false, true, true, None)

  const DeniedReason: Reason := Reason("CONSENT_DENIED", "User has explicitly denied consent")
  const FutureReason: Reason := Reason("CONSENT_FUTURE", "Consent will be active in the future")
  const ExpiredReason: Reason := Reason("CONSENT_EXPIRED", "Consent has expired")

  /** The states that approve an active consent. */
  const AllowingStates: set<string> := {Allow.Name(), OptIn.Name(), Transparent.Name()}

  /** The time status of a stored consent at `now`; both bounds are inclusive. */
  function TimeStatus(r: ConsentRecord, now: int): (s: ConsentStatus)
    ensures s == Active <==> r.startTime <= now <= r.endTime
    ensures s == Future <==> now < r.startTime
    ensures s == Expired <==> r.startTime <= now && r.endTime < now
    ensures s != NoConsent
  {
    if now >= r.startTime && now <= r.endTime then Active
    else if now < r.startTime then Future
    else Expired
  }

  /** The decision for an item whose lookup found `existing` (or nothing), at `now`. */
  function Decide(existing: Option<ConsentRecord>, now: int): (d: Decision)
    ensures existing.None? ==> d == NoConsentDecision
    ensures existing.Some? ==>
              var r := existing.value;
              && !d.approvalRequired
              && (d.approved <==> r.startTime <= now <= r.endTime && r.state in AllowingStates)
              && (d.promptForConsent <==> r.startTime <= now && !d.approved)
              && (d.reason.None? <==> d.approved)
              && (now < r.startTime ==> d.reason == Some(FutureReason))
              && (r.endTime < now <= r.startTime ==> d.reason == Some(FutureReason) || d.reason == Some(ExpiredReason))
              && (r.startTime <= now && r.endTime < now ==> d.reason == Some(ExpiredReason))
              && (r.startTime <= now <= r.endTime && r.state !in AllowingStates ==> d.reason == Some(DeniedReason))
  {
    match existing
    case None => NoConsentDecision
    case Some(r) =>
      var status := TimeStatus(r, now);
      if status == Active then
        if r.state in AllowingStates then Decision(true, false, false, None)
        else Decision(false, false, true, Some(DeniedReason))
      else if status == Future then Decision(false, false, false, Some(FutureReason))
      else if status == Expired then Decision(false, false, true, Some(ExpiredReason))
      else NoConsentDecision
  }

  // ---------------------------------------------------------------------------
  // Aggregate status

  predicate AllApproved(ds: seq<Decision>) {
    forall i :: 0 <= i < |ds| ==> ds[i].approved
  }

  predicate SomePrompt(ds: seq<Decision>) {
    exists i :: 0 <= i < |ds| && ds[i].promptForConsent
  }

  predicate SomeApproved(ds: seq<Decision>) {
    exists i :: 0 <= i < |ds| && ds[i].approved
  }

  /** Not approved and not prompting. */
  predicate DeniedWithoutPrompt(d: Decision) {
    !d.approved && !d.promptForConsent
  }

  predicate SomeDeniedWithoutPrompt(ds: seq<Decision>) {
    exists i :: 0 <= i < |ds| && DeniedWithoutPrompt(ds[i])
  }

  predicate AllDeniedWithoutPrompt(ds: seq<Decision>) {
    forall i :: 0 <= i < |ds| ==> DeniedWithoutPrompt(ds[i])
  }

  /** The aggregate status of a list of decisions, by the fixed precedence approved,
      needs_consent, multistatus, denied. The defensive `unknown` is never produced:
      the first four cases cover every list. */
  function OverallStatus(ds: seq<Decision>): (s: AssessmentStatus)
    ensures s != Unknown
  {
    if AllApproved(ds) then Approved
    else if SomePrompt(ds) then NeedsConsent
    else if SomeApproved(ds) && SomeDeniedWithoutPrompt(ds) then Multistatus
    else if AllDeniedWithoutPrompt(ds) then Denied
    else Unknown
  }

  // ---------------------------------------------------------------------------
  // Assessment

  /** One entry of an assessment response: the item's four key fields echoed, and its decision. */
  datatype ItemAssessment = ItemAssessment(
    purposeId: Option<string>,
    accessTypeId: Option<string>,
    attributeId: Option<string>,
    attributeValue: Option<string>,
    result: Decision)

  datatype AssessmentResponse = AssessmentResponse(status: AssessmentStatus, assessment: seq<ItemAssessment>)

  function Assessed(m: map<string, ConsentRecord>, subjectId: string, item: Item, now: int): ItemAssessment {
    ItemAssessment(item.purposeId, item.accessTypeId, item.attributeId, item.attributeValue,
                   Decide(Lookup(m, ItemKey(subjectId, item)), now))
  }

  /** The assessments of `items`, one per item, in order. */
  function Evaluate(m: map<string, ConsentRecord>, subjectId: string, items: seq<Item>, now: int): seq<ItemAssessment> {
    seq(|items|, i requires 0 <= i < |items| => Assessed(m, subjectId, items[i], now))
  }

  function Decisions(assessments: seq<ItemAssessment>): (ds: seq<Decision>)
    ensures |ds| == |assessments|
  {
    seq(|assessments|, i requires 0 <= i < |assessments| => assessments[i].result)
  }

  /** A stored consent with its derived `status` refreshed at `now`. */
  function Stamp(r: ConsentRecord, now: int): ConsentRecord {
    r.(status := TimeStatus(r, now).Name())
  }

  function ItemKeys(subjectId: string, items: seq<Item>): set<string> {
    set i | 0 <= i < |items| :: ItemKey(subjectId, items[i])
  }

  /** The store after an assessment looked up `keys`: each found record has its status refreshed. */
  function Refreshed(m: map<string, ConsentRecord>, keys: set<string>, now: int): map<string, ConsentRecord> {
    map k | k in m :: if k in keys then Stamp(m[k], now) else m[k]
  }

  // ---------------------------------------------------------------------------
  // Page metadata

  /** The display fields of a stored consent; `id` and `status` are not among them. */
  datatype ConsentOverlay = ConsentOverlay(
    startTime: int,
    endTime: int,
    isGlobal: bool,
    state: string,
    geoIP: string,
    customAttributes: map<string, string>,
    subjectId: string,
    isExternalSubject: bool)

  /** A catalog document with the subject's consent to it, if any. */
  datatype DocumentMetadata = DocumentMetadata(document: Document, consent: Option<ConsentOverlay>)

  /** A requested item echoed with the subject's consent to it, if any. */
  datatype PurposeMetadata = PurposeMetadata(item: Item, consent: Option<ConsentOverlay>)

  datatype PageMetadataResponse = PageMetadataResponse(
    document: seq<DocumentMetadata>,
    default: seq<PurposeMetadata>,
    unhandled: seq<Item>)

  function Overlay(r: ConsentRecord): ConsentOverlay {
    ConsentOverlay(r.startTime, r.endTime, r.isGlobal, r.state, r.geoIP,
                   r.customAttributes, r.subjectId, r.isExternalSubject)
  }

  function OverlayAt(m: map<string, ConsentRecord>, key: string): Option<ConsentOverlay> {
    if key in m then Some(Overlay(m[key])) else None
  }

  /** An item whose purpose is a catalog document. */
  predicate IsDocumentItem(item: Item) {
    FindDocument(item.purposeId).Some?
  }

  function DocumentEntry(m: map<string, ConsentRecord>, subjectId: string, item: Item): DocumentMetadata
    requires IsDocumentItem(item)
  {
    var doc := FindDocument(item.purposeId).value;
    DocumentMetadata(doc, OverlayAt(m, DocumentKey(subjectId, item.purposeId.value)))
  }

  function DefaultEntry(m: map<string, ConsentRecord>, subjectId: string, item: Item): PurposeMetadata {
    PurposeMetadata(item, OverlayAt(m, ItemKey(subjectId, item)))
  }

  /** The document entries for `items`, in item order. */
  function DocumentEntries(m: map<string, ConsentRecord>, subjectId: string, items: seq<Item>): seq<DocumentMetadata> {
    if items == [] then []
    else
      var last := items[|items| - 1];
      DocumentEntries(m, subjectId, items[..|items| - 1])
        + (if IsDocumentItem(last) then [DocumentEntry(m, subjectId, last)] else [])
  }

  /** The default entries for `items`, in item order. */
  function DefaultEntries(m: map<string, ConsentRecord>, subjectId: string, items: seq<Item>): seq<PurposeMetadata> {
    if items == [] then []
    else
      var last := items[|items| - 1];
      DefaultEntries(m, subjectId, items[..|items| - 1])
        + (if IsDocumentItem(last) then [] else [DefaultEntry(m, subjectId, last)])
  }

  // ---------------------------------------------------------------------------
  // Consent recording

  /** The per-record outcome of a storage request. */
  datatype StoreResult = Stored(path: string, consent: ConsentRecord) | NotStored(error: Reason) {
    function Result(): StoreConsentResultStatus {
      if Stored? then StoreSuccess else StoreFailure
    }
  }

  datatype StoreResponse = StoreResponse(statusCode: int, results: seq<StoreResult>)

  const MissingIdsMessage: string := "subjectId and purposeId are required"

  /** `Math.floor(Date.now() / 1000)` for the millisecond reading `clockMs`. */
  function NowSeconds(clockMs: nat): int {
    clockMs / 1000
  }

  /** `consent-${Date.now()}` for the millisecond reading `clockMs`. */
  function GeneratedId(clockMs: nat): string {
    "consent-" + DecimalString(clockMs)
  }

  /** The record stored for `c`, with every default filled in, or the validation message. */
  function Normalize(c: ConsentInput, clientIp: string, clockMs: nat): (r: Result<ConsentRecord, string>)
    ensures r.Failure? <==> !HasRequiredIds(c)
    ensures r.Failure? ==> r.error == MissingIdsMessage
    ensures r.Success? ==>
              && r.value.subjectId == c.subjectId.value
              && r.value.purposeId == c.purposeId.value
              && InputKey(c) == ConsentKey(r.value.subjectId, r.value.purposeId, OrEmpty(r.value.accessTypeId),
                                           OrEmpty(r.value.attributeId), OrEmpty(r.value.attributeValue))
  {
    if !Truthy(c.subjectId) || !Truthy(c.purposeId) then Failure(MissingIdsMessage)
    else
      var now := NowSeconds(clockMs);
      Success(ConsentRecord(
        id := OrElse(c.id, GeneratedId(clockMs)),
        purposeId := c.purposeId.value,
        accessTypeId := OrNull(c.accessTypeId),
        attributeId := OrNull(c.attributeId),
        attributeValue := OrNull(c.attributeValue),
        startTime := NumberOr(c.startTime, now),
        endTime := NumberOr(c.endTime, now + OneYear),
        isGlobal := c.isGlobal.GetOr(false),
        status := OrElse(c.status, Active.Name()),
        state := OrElse(c.state, Allow.Name()),
        geoIP := OrElse(c.geoIP, clientIp),
        customAttributes := c.customAttributes.GetOr(map[]),
        subjectId := c.subjectId.value,
        isExternalSubject := c.isExternalSubject.GetOr(false)))
  }

  /** The result entry reported for `c`: the stored record under its REST path, or the
      store error carrying the validation message. */
  function Outcome(c: ConsentInput, clientIp: string, clockMs: nat): (r: StoreResult)
    ensures r.Stored? <==> HasRequiredIds(c)
    ensures r.Stored? ==> r.consent == Normalize(c, clientIp, clockMs).value
                          && r.path == "/v1.0/basic/consents/" + r.consent.id
    ensures r.NotStored? ==> r.error == Reason("CONSENT_STORE_ERROR", MissingIdsMessage)
  {
    match Normalize(c, clientIp, clockMs)
    case Success(stored) => Stored("/v1.0/basic/consents/" + stored.id, stored)
    case Failure(message) => NotStored(Reason("CONSENT_STORE_ERROR", message))
  }

  function Outcomes(cs: seq<ConsentInput>, clientIp: string, clockMs: nat): seq<StoreResult> {
    seq(|cs|, i requires 0 <= i < |cs| => Outcome(cs[i], clientIp, clockMs))
  }

  predicate SomeMissingIds(cs: seq<ConsentInput>) {
    exists i :: 0 <= i < |cs| && !HasRequiredIds(cs[i])
  }

  /** The store after recording one consent: a failed record leaves it unchanged. */
  function Record(m: map<string, ConsentRecord>, c: ConsentInput, clientIp: string, clockMs: nat): map<string, ConsentRecord> {
    match Normalize(c, clientIp, clockMs)
    case Success(stored) => m[InputKey(c) := stored]
    case Failure(_) => m
  }

  /** The store after recording `cs` in order. */
  function Recorded(m: map<string, ConsentRecord>, cs: seq<ConsentInput>, clientIp: string, clockMs: nat): map<string, ConsentRecord> {
    if cs == [] then m
    else Record(Recorded(m, cs[..|cs| - 1], clientIp, clockMs), cs[|cs| - 1], clientIp, clockMs)
  }

  // ---------------------------------------------------------------------------
  // The store and its three handlers

  class ConsentStore {
    /** Stored consents by composite key. */
    var consents: map<string, ConsentRecord>

    constructor ()
      ensures consents == InitialConsents
    {
      consents := InitialConsents;
    }

    /** POST /basic/assessment: one decision per item, in order, and the aggregate status.
        Every record the items look up has its derived `status` refreshed in place. */
    method Assess(req: PrivacyRequest, now: int) returns (r: Result<AssessmentResponse, HttpError>)
      modifies this
      ensures !WellFormedPrivacyRequest(req) ==> r == Failure(InvalidItemsRequest) && consents == old(consents)
      ensures WellFormedPrivacyRequest(req) ==>
                var subjectId, items := req.subjectId.value, req.items.value;
                && r.Success?
                && r.value.assessment == Evaluate(old(consents), subjectId, items, now)
                && r.value.status == OverallStatus(Decisions(r.value.assessment))
                && consents == Refreshed(old(consents), ItemKeys(subjectId, items), now)
    {
      if !Truthy(req.subjectId) || req.items.None? || |req.items.value| == 0 {
        return Failure(InvalidItemsRequest);
      }
      var subjectId, items := req.subjectId.value, req.items.value;
      var assessments: seq<ItemAssessment> := [];
      var i := 0;
      while i < |items|
        invariant 0 <= i <= |items|
        invariant assessments == Evaluate(old(consents), subjectId, items[..i], now)
        invariant consents == Refreshed(old(consents), ItemKeys(subjectId, items[..i]), now)
      {
        var item := items[i];
        var key := ItemKey(subjectId, item);
        var decision := NoConsentDecision;
        if key in consents {
          var existing := consents[key];
          consents := consents[key := Stamp(existing, now)];
          decision := Decide(Some(existing), now);
        }
        RefreshedStep(old(consents), subjectId, items, i, now);
        assessments := assessments + [ItemAssessment(item.purposeId, item.accessTypeId,
                                                     item.attributeId, item.attributeValue, decision)];
        i := i + 1;
      }
      assert items[..i] == items;
      r := Success(AssessmentResponse(OverallStatus(Decisions(assessments)), assessments));
    }

    /** POST /basic/page_metadata: document items and default items, each with the
        subject's consent overlay; the store is only read. */
    method PageMetadata(req: PrivacyRequest) returns (r: Result<PageMetadataResponse, HttpError>)
      ensures !WellFormedPrivacyRequest(req) ==> r == Failure(InvalidItemsRequest)
      ensures WellFormedPrivacyRequest(req) ==>
                var subjectId, items := req.subjectId.value, req.items.value;
                && r.Success?
                && r.value.document == DocumentEntries(consents, subjectId, items)
                && r.value.default == DefaultEntries(consents, subjectId, items)
                && r.value.unhandled == []
    {
      if !Truthy(req.subjectId) || req.items.None? || |req.items.value| == 0 {
        return Failure(InvalidItemsRequest);
      }
      var subjectId, items := req.subjectId.value, req.items.value;
      var documentMetadata: seq<DocumentMetadata> := [];
      var defaultMetadata: seq<PurposeMetadata> := [];
      var i := 0;
      while i < |items|
        invariant 0 <= i <= |items|
        invariant documentMetadata == DocumentEntries(consents, subjectId, items[..i])
        invariant defaultMetadata == DefaultEntries(consents, subjectId, items[..i])
      {
        var item := items[i];
        assert items[..i + 1][..i] == items[..i];
        var documentMatch := FindDocument(item.purposeId);
        if documentMatch.Some? {
          var key := DocumentKey(subjectId, item.purposeId.value);
          var consent := if key in consents then Some(Overlay(consents[key])) else None;
          documentMetadata := documentMetadata + [DocumentMetadata(documentMatch.value, consent)];
        } else {
          var key := ItemKey(subjectId, item);
          var consent := if key in consents then Some(Overlay(consents[key])) else None;
          defaultMetadata := defaultMetadata + [PurposeMetadata(item, consent)];
        }
        i := i + 1;
      }
      assert items[..i] == items;
      r := Success(PageMetadataResponse(documentMetadata, defaultMetadata, []));
    }

    /** POST /basic/consents: records each consent independently, last write wins, and
        reports one result per input in input order; 207 if any record failed, else 200. */
    method StoreConsents(body: Option<seq<ConsentInput>>, clientIp: string, clockMs: nat)
      returns (r: Result<StoreResponse, HttpError>)
      modifies this
      ensures !WellFormedConsents(body) ==> r == Failure(InvalidConsentsRequest) && consents == old(consents)
      ensures WellFormedConsents(body) ==>
                var cs := body.value;
                && r.Success?
                && r.value.results == Outcomes(cs, clientIp, clockMs)
                && r.value.statusCode == (if SomeMissingIds(cs) then 207 else 200)
                && consents == Recorded(old(consents), cs, clientIp, clockMs)
    {
      if body.None? || |body.value| == 0 {
        return Failure(InvalidConsentsRequest);
      }
      var cs := body.value;
      var results: seq<StoreResult> := [];
      var hasFailures := false;
      var i := 0;
      while i < |cs|
        invariant 0 <= i <= |cs|
        invariant results == Outcomes(cs[..i], clientIp, clockMs)
        invariant hasFailures <==> SomeMissingIds(cs[..i])
        invariant consents == Recorded(old(consents), cs[..i], clientIp, clockMs)
      {
        var c := cs[i];
        StoreStep(old(consents), cs, i, clientIp, clockMs);
        match Normalize(c, clientIp, clockMs) {
          case Success(stored) =>
            consents := consents[InputKey(c) := stored];
            results := results + [Stored("/v1.0/basic/consents/" + stored.id, stored)];
          case Failure(message) =>
            hasFailures := true;
            results := results + [NotStored(Reason("CONSENT_STORE_ERROR", message))];
        }
        i := i + 1;
      }
      assert cs[..i] == cs;
      r := Success(StoreResponse(if hasFailures then 207 else 200, results));
    }
  }

  /** One loop step of the recorder: the prefix functions grow by the next record. */
  lemma StoreStep(m: map<string, ConsentRecord>, cs: seq<ConsentInput>, i: nat, clientIp: string, clockMs: nat)
    requires i < |cs|
    ensures Recorded(m, cs[..i + 1], clientIp, clockMs) == Record(Recorded(m, cs[..i], clientIp, clockMs), cs[i], clientIp, clockMs)
    ensures Outcomes(cs[..i + 1], clientIp, clockMs) == Outcomes(cs[..i], clientIp, clockMs) + [Outcome(cs[i], clientIp, clockMs)]
    ensures SomeMissingIds(cs[..i + 1]) <==> SomeMissingIds(cs[..i]) || !HasRequiredIds(cs[i])
  {
    assert cs[..i + 1][..i] == cs[..i];
    assert cs[..i + 1][i] == cs[i];
    if SomeMissingIds(cs[..i]) {
      var j :| 0 <= j < i && !HasRequiredIds(cs[..i][j]);
      assert cs[..i + 1][j] == cs[..i][j];
    }
  }

  /** Refreshing a refreshed record again at the same time changes nothing, and no
      decision depends on the stored `status`. */
  lemma StampIdempotent(r: ConsentRecord, now: int)
    ensures Stamp(Stamp(r, now), now) == Stamp(r, now)
    ensures Decide(Some(Stamp(r, now)), now) == Decide(Some(r), now)
  {
  }

  lemma ItemKeysSnoc(subjectId: string, items: seq<Item>, i: nat)
    requires i < |items|
    ensures ItemKeys(subjectId, items[..i + 1]) == ItemKeys(subjectId, items[..i]) + {ItemKey(subjectId, items[i])}
  {
    var key := ItemKey(subjectId, items[i]);
    var ks := ItemKeys(subjectId, items[..i]);
    var ks' := ItemKeys(subjectId, items[..i + 1]);
    forall k | k in ks' ensures k in ks + {key} {
      var j :| 0 <= j < i + 1 && k == ItemKey(subjectId, items[..i + 1][j]);
      if j < i { assert items[..i + 1][j] == items[..i][j]; }
    }
    forall k | k in ks + {key} ensures k in ks' {
      if k == key {
        assert items[..i + 1][i] == items[i];
      } else {
        var j :| 0 <= j < i && k == ItemKey(subjectId, items[..i][j]);
        assert items[..i + 1][j] == items[..i][j];
      }
    }
  }

  lemma RefreshedAdd(m: map<string, ConsentRecord>, keys: set<string>, key: string, now: int)
    ensures var before := Refreshed(m, keys, now);
            && (key in before <==> key in m)
            && (key in m ==> before[key := Stamp(before[key], now)] == Refreshed(m, keys + {key}, now))
            && (key !in m ==> before == Refreshed(m, keys + {key}, now))
            && Decide(Lookup(before, key), now) == Decide(Lookup(m, key), now)
  {
    if key in m {
      StampIdempotent(m[key], now);
    }
  }

  /** One loop step of the assessment: refreshing the record at the next item's key
      extends the refreshed key set by that key, and the decision read from the
      refreshed store is the one the original store gives. */
  lemma RefreshedStep(m: map<string, ConsentRecord>, subjectId: string, items: seq<Item>, i: nat, now: int)
    requires i < |items|
    ensures var key := ItemKey(subjectId, items[i]);
            var before := Refreshed(m, ItemKeys(subjectId, items[..i]), now);
            && (key in before <==> key in m)
            && (key in m ==> before[key := Stamp(before[key], now)] == Refreshed(m, ItemKeys(subjectId, items[..i + 1]), now))
            && (key !in m ==> before == Refreshed(m, ItemKeys(subjectId, items[..i + 1]), now))
            && Decide(Lookup(before, key), now) == Decide(Lookup(m, key), now)
            && Evaluate(m, subjectId, items[..i + 1], now)
               == Evaluate(m, subjectId, items[..i], now) + [Assessed(m, subjectId, items[i], now)]
  {
    ItemKeysSnoc(subjectId, items, i);
    RefreshedAdd(m, ItemKeys(subjectId, items[..i]), ItemKey(subjectId, items[i]), now);
    assert items[..i + 1][..i] == items[..i];
  }
}
