/** The request bodies the privacy endpoints accept. A field that may be absent in the
    JSON body is an `Option`; an `items` or consents body that is absent or not an
    array is `None` (the code treats both the same way). */
module Requests {
  import opened Wrappers
  import opened JsSemantics

  /** A requested data-access item: either a profile reference or a purpose refined by an
      access type and an attribute. */
  datatype Item = Item(
    profileId: Option<string>,
    purposeId: Option<string>,
    accessTypeId: Option<string>,
    attributeId: Option<string>,
    attributeValue: Option<string>)

  /** The body of an assessment or page-metadata request. */
  datatype PrivacyRequest = PrivacyRequest(subjectId: Option<string>, items: Option<seq<Item>>)

  /** One candidate consent of a consent storage request. */
  datatype ConsentInput = ConsentInput(
    id: Option<string>,
    purposeId: Option<string>,
    accessTypeId: Option<string>,
    attributeId: Option<string>,
    attributeValue: Option<string>,
    startTime: Option<int>,
    endTime: Option<int>,
    isGlobal: Option<bool>,
    status: Option<string>,
    state: Option<string>,
    geoIP: Option<string>,
    customAttributes: Option<map<string, string>>,
    subjectId: Option<string>,
    isExternalSubject: Option<bool>)

  /** An error thrown by a handler and turned into `{messageId, messageDescription}` with
      `statusCode` by the error handler. */
  datatype HttpError = HttpError(statusCode: int, messageId: string, message: string)

  /** `subjectId` is truthy and `items` is a non-empty array. */
  predicate WellFormedPrivacyRequest(req: PrivacyRequest) {
    Truthy(req.subjectId) && req.items.Some? && |req.items.value| > 0
  }

  /** The body is a non-empty array. */
  predicate WellFormedConsents(body: Option<seq<ConsentInput>>) {
    body.Some? && |body.value| > 0
  }

  /** Both `subjectId` and `purposeId` are truthy. */
  predicate HasRequiredIds(c: ConsentInput) {
    Truthy(c.subjectId) && Truthy(c.purposeId)
  }
}
