/** The request-validation middleware that runs before the handlers. Each validator
    returns the 400 error it would send, or `None` when it passes the request on. */
module Validation {
  import opened Wrappers
  import opened JsSemantics
  import opened Requests

  /** The errors the middleware answers with; the indexed ones name the offending consent. */
  datatype ValidationError =
    | MissingSubjectId
    | MissingItems
    | MissingPurposeId
    | InvalidConsents
    | MissingSubjectIdAt(index: nat)
    | MissingPurposeIdAt(index: nat)
  {
    /** Every validation error is a 400. */
    function StatusCode(): int { 400 }

    function MessageId(): string {
      match this
      case MissingSubjectId => "MISSING_SUBJECT_ID"
      case MissingItems => "MISSING_ITEMS"
      case MissingPurposeId => "MISSING_PURPOSE_ID"
      case InvalidConsents => "INVALID_CONSENTS"
      case MissingSubjectIdAt(_) => "MISSING_SUBJECT_ID"
      case MissingPurposeIdAt(_) => "MISSING_PURPOSE_ID"
    }

    function MessageDescription(): string {
      match this
      case MissingSubjectId => "Subject ID is required"
      case MissingItems => "Items array is required and cannot be empty"
      case MissingPurposeId => "Purpose ID is required for each item when profile ID is not provided"
      case InvalidConsents => "Request body must be a non-empty array of consent objects"
      case MissingSubjectIdAt(i) => "Subject ID is required for consent at index " + DecimalString(i)
      case MissingPurposeIdAt(i) => "Purpose ID is required for consent at index " + DecimalString(i)
    }
  }

  /** An item without a profile must name a purpose. */
  predicate ItemAcceptable(item: Item) {
    Truthy(item.profileId) || Truthy(item.purposeId)
  }

  /** The item loop: the first item with neither a profile nor a purpose stops it. */
  function CheckItems(items: seq<Item>): (r: Option<ValidationError>)
    ensures r.None? <==> forall i :: 0 <= i < |items| ==> ItemAcceptable(items[i])
    ensures r.Some? ==> r.value == MissingPurposeId
  {
    if items == [] then None
    else if Truthy(items[0].profileId) then CheckItems(items[1..])
    else if !Truthy(items[0].purposeId) then Some(MissingPurposeId)
    else
      var rest := CheckItems(items[1..]);
      assert forall i :: 1 <= i < |items| ==> items[i] == items[1..][i - 1];
      rest
  }

  /** `validatePrivacyRequest`: subject, then items, then each item. */
  function ValidatePrivacyRequest(req: PrivacyRequest): (r: Option<ValidationError>)
    ensures r == Some(MissingSubjectId) <==> !Truthy(req.subjectId)
    ensures r == Some(MissingItems) <==> Truthy(req.subjectId) && (req.items.None? || req.items.value == [])
    ensures r == Some(MissingPurposeId) <==>
              WellFormedPrivacyRequest(req) && exists i :: 0 <= i < |req.items.value| && !ItemAcceptable(req.items.value[i])
    ensures r.None? <==>
              WellFormedPrivacyRequest(req) && forall i :: 0 <= i < |req.items.value| ==> ItemAcceptable(req.items.value[i])
  {
    if !Truthy(req.subjectId) then Some(MissingSubjectId)
    else if req.items.None? || |req.items.value| == 0 then Some(MissingItems)
    else CheckItems(req.items.value)
  }

  /** The consent loop from index `from`: the first consent without a subject or without
      a purpose stops it, the subject being checked first. */
  function CheckConsents(consents: seq<ConsentInput>, from: nat): (r: Option<ValidationError>)
    requires from <= |consents|
    decreases |consents| - from
    ensures r.None? <==> forall j :: from <= j < |consents| ==> HasRequiredIds(consents[j])
    ensures r.Some? ==>
              && (r.value.MissingSubjectIdAt? || r.value.MissingPurposeIdAt?)
              && from <= r.value.index < |consents|
              && (forall j :: from <= j < r.value.index ==> HasRequiredIds(consents[j]))
              && (r.value.MissingSubjectIdAt? <==> !Truthy(consents[r.value.index].subjectId))
              && !HasRequiredIds(consents[r.value.index])
  {
    if from == |consents| then None
    else if !Truthy(consents[from].subjectId) then Some(MissingSubjectIdAt(from))
    else if !Truthy(consents[from].purposeId) then Some(MissingPurposeIdAt(from))
    else CheckConsents(consents, from + 1)
  }

  /** `validateConsentsRequest`: a non-empty array whose every consent has both ids. */
  function ValidateConsentsRequest(body: Option<seq<ConsentInput>>): (r: Option<ValidationError>)
    ensures r == Some(InvalidConsents) <==> !WellFormedConsents(body)
    ensures r.None? <==> WellFormedConsents(body) && forall j :: 0 <= j < |body.value| ==> HasRequiredIds(body.value[j])
    ensures r.Some? && r.value != InvalidConsents ==>
              && WellFormedConsents(body)
              && (r.value.MissingSubjectIdAt? || r.value.MissingPurposeIdAt?)
              && r.value.index < |body.value|
              && (forall j :: 0 <= j < r.value.index ==> HasRequiredIds(body.value[j]))
              && (r.value.MissingSubjectIdAt? <==> !Truthy(body.value[r.value.index].subjectId))
              && (r.value.MissingPurposeIdAt? <==>
                    Truthy(body.value[r.value.index].subjectId) && !Truthy(body.value[r.value.index].purposeId))
  {
    if body.None? || |body.value| == 0 then Some(InvalidConsents)
    else CheckConsents(body.value, 0)
  }

  /** Every error is a 400, and an indexed message names its index, which can be read back. */
  lemma {:induction false} ErrorMessagesNameIndex(e: ValidationError)
    ensures e.StatusCode() == 400
    ensures e.MissingSubjectIdAt? ==>
              var prefix := "Subject ID is required for consent at index ";
              && e.MessageDescription()[..|prefix|] == prefix
              && DecimalValue(e.MessageDescription()[|prefix|..]) == e.index
    ensures e.MissingPurposeIdAt? ==>
              var prefix := "Purpose ID is required for consent at index ";
              && e.MessageDescription()[..|prefix|] == prefix
              && DecimalValue(e.MessageDescription()[|prefix|..]) == e.index
  {
    if e.MissingSubjectIdAt? || e.MissingPurposeIdAt? {
      var prefix := if e.MissingSubjectIdAt? then "Subject ID is required for consent at index "
                    else "Purpose ID is required for consent at index ";
      assert e.MessageDescription() == prefix + DecimalString(e.index);
      assert (prefix + DecimalString(e.index))[|prefix|..] == DecimalString(e.index);
      DecimalRoundTrip(e.index);
    }
  }
}
