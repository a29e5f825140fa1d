/** The routes: each endpoint runs the validation middleware and, when it passes, the
    handler. The three basic routes are composed with the store; for the verify consents
    route, the part before the service call is composed. */
module Routes {
  import opened Wrappers
  import opened JsSemantics
  import opened Requests
  import opened Privacy
  import opened Validation
  import opened BasicController
  import Verify = VerifyController

  /** Behind the privacy middleware, the handlers' own request checks never fire: the
      middleware rejects a superset of what the verify handler's `validateRequest` rejects,
      and exactly that set when it answers with a missing subject or missing items. */
  lemma PrivacyMiddlewareSubsumesHandlerCheck(req: PrivacyRequest)
    ensures ValidatePrivacyRequest(req).None? ==> WellFormedPrivacyRequest(req) && Verify.ValidateRequest(req).None?
    ensures Verify.ValidateRequest(req).Some? <==>
              ValidatePrivacyRequest(req) == Some(MissingSubjectId) || ValidatePrivacyRequest(req) == Some(MissingItems)
  {
  }

  /** Behind the consents middleware, no consent of the batch lacks an id, so neither
      handler's per-consent check fires. */
  lemma ConsentsMiddlewareSubsumesHandlerCheck(body: Option<seq<ConsentInput>>)
    ensures ValidateConsentsRequest(body).None? <==> WellFormedConsents(body) && !SomeMissingIds(body.value)
    ensures ValidateConsentsRequest(body).None? ==> Verify.ValidateConsentsRequest(body).None?
    ensures Verify.ValidateConsentsRequest(body).Some? ==> ValidateConsentsRequest(body) == Some(InvalidConsents)
  {
  }

  /** POST /basic/assessment. */
  method PostAssessment(store: ConsentStore, req: PrivacyRequest, now: int)
    returns (r: Result<AssessmentResponse, ValidationError>)
    modifies store
    ensures ValidatePrivacyRequest(req).Some? ==>
              r == Failure(ValidatePrivacyRequest(req).value) && store.consents == old(store.consents)
    ensures ValidatePrivacyRequest(req).None? ==>
              var subjectId, items := req.subjectId.value, req.items.value;
              && r.Success?
              && r.value.assessment == Evaluate(old(store.consents), subjectId, items, now)
              && r.value.status == OverallStatus(Decisions(r.value.assessment))
              && store.consents == Refreshed(old(store.consents), ItemKeys(subjectId, items), now)
  {
    var rejection := ValidatePrivacyRequest(req);
    if rejection.Some? {
      return Failure(rejection.value);
    }
    var handled := store.Assess(req, now);
    r := Success(handled.value);
  }

  /** POST /basic/page_metadata. */
  method PostPageMetadata(store: ConsentStore, req: PrivacyRequest)
    returns (r: Result<PageMetadataResponse, ValidationError>)
    ensures ValidatePrivacyRequest(req).Some? ==> r == Failure(ValidatePrivacyRequest(req).value)
    ensures ValidatePrivacyRequest(req).None? ==>
              var subjectId, items := req.subjectId.value, req.items.value;
              && r.Success?
              && r.value.document == DocumentEntries(store.consents, subjectId, items)
              && r.value.default == DefaultEntries(store.consents, subjectId, items)
              && r.value.unhandled == []
  {
    var rejection := ValidatePrivacyRequest(req);
    if rejection.Some? {
      return Failure(rejection.value);
    }
    var handled := store.PageMetadata(req);
    r := Success(handled.value);
  }

  /** POST /basic/consents: a batch that passes the middleware is stored in full. */
  method PostConsents(store: ConsentStore, body: Option<seq<ConsentInput>>, clientIp: string, clockMs: nat)
    returns (r: Result<StoreResponse, ValidationError>)
    modifies store
    ensures ValidateConsentsRequest(body).Some? ==>
              r == Failure(ValidateConsentsRequest(body).value) && store.consents == old(store.consents)
    ensures ValidateConsentsRequest(body).None? ==>
              var cs := body.value;
              && r.Success?
              && r.value.statusCode == 200
              && |r.value.results| == |cs|
              && (forall i :: 0 <= i < |cs| ==> r.value.results[i].Stored? && r.value.results[i].Result() == StoreSuccess)
              && store.consents == Recorded(old(store.consents), cs, clientIp, clockMs)
  {
    var rejection := ValidateConsentsRequest(body);
    if rejection.Some? {
      return Failure(rejection.value);
    }
    var handled := store.StoreConsents(body, clientIp, clockMs);
    r := Success(handled.value);
  }

  /** POST /verify/consents up to the service call: the validated batch is prepared for
      the service without ever tripping the per-consent check. */
  method PrepareVerifyConsents(body: Option<seq<ConsentInput>>, requestIp: string)
    returns (r: Result<(seq<Verify.ProcessedConsent>, string), ValidationError>)
    ensures ValidateConsentsRequest(body).Some? ==> r == Failure(ValidateConsentsRequest(body).value)
    ensures ValidateConsentsRequest(body).None? ==>
              var cs := body.value;
              && r.Success?
              && |r.value.0| == |cs|
              && (forall i :: 0 <= i < |cs| ==> r.value.0[i] == Verify.Prepared(cs[i]))
              && r.value.1 == Verify.LastGeoIP(cs, requestIp)
  {
    var rejection := ValidateConsentsRequest(body);
    if rejection.Some? {
      return Failure(rejection.value);
    }
    var processed := Verify.ProcessConsents(body.value, requestIp);
    r := Success(processed.value);
  }
}
