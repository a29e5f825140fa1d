# Consent engine of the consent-app sample, modelled in Dafny

The sample is an Express service that answers three privacy questions for a data
subject.

- **Assessment.** May these items (a purpose, refined by an access type and an
  attribute) be used?
- **Page metadata.** What should a consent page show for these items?
- **Consent storage.** Record these consents.

It runs in two modes:

- **Basic mode** answers from an in-memory store of consents, keyed by
  `subject:purpose:accessType:attribute:value`.
- **Verify mode** forwards the request to an external privacy service and reshapes
  the service's answer: numeric codes become names, error strings are split into an
  id and a description, and result lists are collapsed.

Validation middleware runs in front of both modes.

This project models:

- the basic-mode engine, with the store as a class;
- the local transforms of verify mode;
- the validation middleware;
- the enumerations and sample documents of the privacy model;
- the composition of middleware and handler on each route.

It proves what these promise:

- the decision table, and the meaning of the aggregate status;
- last-write-wins storage, and that a failed record leaves the store alone;
- the document/default split of page metadata;
- that the code tables are inverse to each other;
- how error strings are split;
- that a request which passes the middleware never trips the handlers' own checks.

Layout (one module per file):

- `wrappers.dfy`: `Option` and `Result`.
- `js_semantics.dfy`: the JavaScript behaviour the code relies on.
  - truthiness of optional strings, and the `x || ''`, `x || null` and `n || d`
    defaults (`0` is falsy);
  - a template literal of `undefined`, which renders as `"undefined"`;
  - `startsWith`, `indexOf` (`-1` when absent) and `substring` (clamping and swapping);
  - decimal rendering of a number.
- `privacy.dfy`: the enumerations, the sample documents and the empty initial store.
- `requests.dfy`: the request bodies.
  - A JSON field that may be absent is an `Option`.
  - A body that is absent or not an array is `None`.
- `basic_controller.dfy`: keys, decisions, the aggregate status, and the
  `ConsentStore` class.
  - Its `Assess`, `PageMetadata` and `StoreConsents` methods have loops.
  - Each method is proved against specification functions: `Evaluate`, `Refreshed`,
    `DocumentEntries`, `DefaultEntries`, `Outcomes` and `Recorded`.
- `basic_properties.dfy`: lemmas about those functions.
- `verify_controller.dfy`: code tables, validators and `processConsents`.
  - It also has the in-place remaps of the service's store, assessment and metadata
    responses, as methods over arrays.
- `validation.dfy`: the two middleware validators.
- `routes.dfy`: the routes, each composing middleware and handler.

The clock is a parameter.

- The assessment takes `now` in seconds.
- Storage takes one millisecond reading `clockMs`.
  - "now" is `clockMs / 1000`.
  - A generated id is `consent-` followed by the decimal digits of `clockMs`.
- The request IP is a parameter.

## Model

| member | source | states |
|---|---|---|
| Privacy.ParseConsentType | src/models/privacy.js:13-19 | a string names a consent type iff it is one of the five values, and the type's name is that string |
| Privacy.ConsentTypeNamesExact | src/models/privacy.js:13-19 | every consent type's name is one of the five listed values, every listed value is some type's name, names are injective, and each name parses back to its type |
| Privacy.ConsentStatusNamesExact | src/models/privacy.js:21-26 | the consent statuses are exactly active, expired, future, none |
| Privacy.AssessmentStatusNamesExact | src/models/privacy.js:28-34 | the aggregate statuses are exactly approved, needs_consent, multistatus, denied, unknown |
| Privacy.StoreResultNamesExact | src/models/privacy.js:36-39 | a store result is success or failure |
| Privacy.DisplayTypeNamesExact | src/models/privacy.js:6-11 | the display types are exactly the four values |
| Privacy.FindIn | src/controllers/basicController.js:155 | `find` returns the first document whose purpose equals the item's purpose, and none when no document matches or the purpose is absent |
| Privacy.FindDocumentUnambiguous | src/models/privacy.js:44-65 | the catalogue has distinct purposes, so looking up `p` gives `d` exactly when `d` is the catalogued document for `p` |
| Privacy.InitialConsentsEmpty | src/models/privacy.js:98 | the store starts empty |
| BasicController.TimeStatus | src/controllers/basicController.js:48-54 | active iff start <= now <= end; future iff now < start; expired iff now > end (when not future); never none |
| BasicController.Decide | src/controllers/basicController.js:35-92 | no record: not approved, approval required, prompt. Active with allow/opt_in/transparent: approved, no prompt. Active with any other state: denied with CONSENT_DENIED and a prompt. Future: no prompt, CONSENT_FUTURE. Expired: prompt, CONSENT_EXPIRED |
| BasicController.OverallStatus | src/controllers/basicController.js:103-120 | the aggregate is never unknown |
| BasicController.Normalize | src/controllers/basicController.js:241-265 | fails with the source's message iff subjectId or purposeId is falsy; otherwise keeps both ids, and the record's key is the request's key |
| BasicController.Outcome | src/controllers/basicController.js:233-285 | a consent is reported stored iff it has both ids; a stored entry carries the normalized record and the path `/v1.0/basic/consents/` followed by its id; a failed entry carries CONSENT_STORE_ERROR with the validation message |
| BasicController.ConsentStore.constructor | src/models/privacy.js:98 | a new store holds the initial (empty) consents |
| BasicController.ConsentStore.Assess | src/controllers/basicController.js:16-129 | malformed request: 400 INVALID_REQUEST, store unchanged. Otherwise: one assessment per item in order, decided on the records before the call; the aggregate is computed from those decisions; every looked-up record has its status refreshed |
| BasicController.ConsentStore.PageMetadata | src/controllers/basicController.js:135-211 | malformed request: 400. Otherwise document items get the catalogued document with the subject's document-key overlay; other items are echoed with the overlay at their full key; unhandled is empty |
| BasicController.ConsentStore.StoreConsents | src/controllers/basicController.js:217-297 | not a non-empty array: 400, store unchanged. Otherwise one result per consent in input order; 207 iff some consent lacks an id, else 200; the store is the old store with each valid consent written in order |
| BasicProperties.ItemKeyRendering | src/controllers/basicController.js:32 | an absent purpose renders as `undefined`, an absent refinement keys like an empty one, and the profile is not part of the key |
| BasicProperties.DocumentKeyIsBareItemKey | src/controllers/basicController.js:158 | a document is looked up at `subject:purpose:::`, the key of a bare purpose item |
| BasicProperties.ConsentKeyInjective | src/controllers/basicController.js:246 | when the first four parts hold no colon, equal keys mean equal parts, and conversely |
| BasicProperties.InputKeySame | src/controllers/basicController.js:246 | two consents with colon-free ids share a storage key iff they agree on subject, purpose and refinements, absent counting as empty |
| BasicProperties.ConsentKeyCollision | src/controllers/basicController.js:246 | parts holding colons can collide: `u:p`/`q` and `u`/`p:q` give the same key |
| BasicProperties.MetadataAgreesWithAssessment | src/controllers/basicController.js:180-181 | a default metadata item reads the same key as its assessment: it shows a consent iff a record is found iff the decision does not require approval, and the overlay is that record's |
| BasicProperties.NoRecordDecision | src/controllers/basicController.js:36-41 | an item with no stored record gets the default decision |
| BasicProperties.TimeStatusExactlyOne | src/controllers/basicController.js:48-54 | exactly one of active, future, expired holds at any time |
| BasicProperties.DecisionTable | src/controllers/basicController.js:56-91 | the full decision table for a stored record, in terms of times and state |
| BasicProperties.DecisionsCoherent | src/controllers/basicController.js:56-91 | an approved decision never prompts and never requires approval |
| BasicProperties.RefreshInvisible | src/controllers/basicController.js:48-54 | refreshing stored statuses does not change any later decision at the same time (decisions read times and state only) |
| BasicProperties.EvaluateEchoesItems | src/controllers/basicController.js:94-100 | each assessment echoes its item's purpose, access type and attribute fields in order |
| BasicProperties.OverallStatusMeaning | src/controllers/basicController.js:103-120 | approved iff all approved. needs_consent iff not all approved and some prompt. multistatus iff some approved, none prompts, not all approved. denied iff non-empty and every decision denied with no prompt. Never unknown |
| BasicProperties.PromptWins | src/controllers/basicController.js:114-115 | one prompting decision makes the aggregate needs_consent |
| BasicProperties.FailedRecordLeavesStore | src/controllers/basicController.js:241-243 | a consent missing an id leaves the store and yields CONSENT_STORE_ERROR with the source's message |
| BasicProperties.NormalizeFields | src/controllers/basicController.js:249-265 | each stored field is the input when truthy (when defined, for isGlobal, isExternalSubject and customAttributes), else its default: generated id, null refinements, now, now plus a year, false, active, allow, request IP, empty attributes; both ids are kept |
| BasicProperties.RecordedKeys | src/controllers/basicController.js:268 | after a batch the keys are the old keys plus the keys of the valid consents |
| BasicProperties.RecordedLastWins | src/controllers/basicController.js:268 | the last valid consent with a given key is the one stored under it |
| BasicProperties.RecordedUntouched | src/controllers/basicController.js:268 | a key no valid consent of the batch maps to keeps its old record |
| BasicProperties.OverwriteSameKey | src/controllers/basicController.js:246-268 | two valid consents with the same key: the second overwrites the first |
| BasicProperties.StoreThenAssess | src/controllers/basicController.js:241-268 | the assessment key of the item a consent describes is the key the consent was stored under, so the assessment decides on the stored record |
| BasicProperties.StoreDefaultsThenApproved | src/controllers/basicController.js:256-260 | a consent whose stored bounds (given, or defaulted when absent or 0) include the storage second, with an allowing or defaulted state, is approved when assessed at that second |
| BasicProperties.StoreExpiredThenPrompt | src/controllers/basicController.js:82-90 | a consent whose stored end (given, or defaulted to a year after storage) is before now and whose stored start (given, or defaulted to the storage second) is not after now is reported expired and prompts |
| BasicProperties.StatusCodeMatchesResults | src/controllers/basicController.js:276-293 | some consent lacks an id iff some reported result is a failure |
| BasicProperties.MetadataPartition | src/controllers/basicController.js:151-199 | every item lands in exactly one of the two lists |
| BasicProperties.MetadataAppend | src/controllers/basicController.js:151-199 | both lists are computed item by item and concatenate over concatenated items |
| BasicProperties.MetadataSingle | src/controllers/basicController.js:155-197 | a single item becomes one document entry or one default entry |
| BasicProperties.DocumentLookupIgnoresRefinements | src/controllers/basicController.js:158 | document items with the same purpose get the same entry, read at `subject:purpose:::` regardless of access type and attribute |
| BasicProperties.OverlayIgnoresStatusAndId | src/controllers/basicController.js:163-172 | the overlay shown never depends on the stored status or id |
| BasicProperties.MetadataEntriesOrigin | src/controllers/basicController.js:155-197 | document entries come from the catalogue; default entries are request items with no catalogued purpose |
| BasicProperties.ScenarioNoPriorConsent | src/controllers/basicController.js:36-41 | on the empty store a single item needs consent |
| BasicProperties.ScenarioStoreThenApproved | src/controllers/basicController.js:250-274 | storing terms-of-service with defaults and then assessing it gives approved |
| BasicProperties.ScenarioMixedBatch | src/controllers/basicController.js:275-290 | a batch with one valid and one invalid consent answers 207 with one success and one failure |
| VerifyController.ConsentTablesInverse | src/controllers/verifyController.js:17-31 | the name-to-code and code-to-name consent tables are inverse bijections between the five names and codes 1..5 |
| VerifyController.TablesMatchEnums | src/controllers/verifyController.js:17-45 | the tables name exactly the values of the privacy enumerations |
| VerifyController.Decode | src/controllers/verifyController.js:233-236 | a table lookup gives the name of a known code and undefined for anything else |
| VerifyController.StateCode | src/controllers/verifyController.js:330 | a state gets a code iff it is a known consent type name, and the code maps back to that name |
| VerifyController.StateRoundTrip | src/controllers/verifyController.js:264-345 | a state sent as its code comes back through the store remap as the same name |
| VerifyController.ValidateRequest | src/controllers/verifyController.js:93-105 | rejects (400 INVALID_REQUEST) iff subjectId is falsy or items is not a non-empty array |
| VerifyController.ValidateConsentsRequest | src/controllers/verifyController.js:302-312 | rejects (400 INVALID_REQUEST) iff the body is not a non-empty array |
| VerifyController.ProcessConsents | src/controllers/verifyController.js:320-345 | fails for the whole batch iff some consent lacks an id; otherwise one prepared consent per input, in order; the IP is the last truthy geoIP, else the request IP |
| VerifyController.LastGeoIPDefault | src/controllers/verifyController.js:321-333 | with no truthy geoIP the request IP is kept |
| VerifyController.LastGeoIPIsLast | src/controllers/verifyController.js:331-333 | otherwise the IP is the geoIP of the last consent that has one |
| VerifyController.PreparedShape | src/controllers/verifyController.js:330-341 | a prepared consent is global, its isExternalSubject defaults to false, and its state is the code of a known name |
| VerifyController.SplitError | src/controllers/verifyController.js:276-289 | no CS prefix: id "unknown" with the whole text. CS and a space: id + " " + description is the text, the id is space-free and starts with CS. CS without a space: empty id with the whole text |
| VerifyController.SplitErrorCoded | src/controllers/verifyController.js:279-282 | "CS42 Denied" splits into "CS42" and "Denied" |
| VerifyController.SplitErrorUncoded | src/controllers/verifyController.js:277-283 | "timeout" gets id unknown; "CSX" gets an empty id and the whole text |
| VerifyController.RemapStoreResult | src/controllers/verifyController.js:267-289 | value moves to consent with its state named; op and value are gone; a non-empty error string becomes its `SplitError`; an absent or empty error is kept; the result field is kept |
| VerifyController.ProcessConsentStoreResponse | src/controllers/verifyController.js:264-295 | every result in the array is remapped in place; an absent list is left alone |
| VerifyController.StoreResponseCode | src/controllers/verifyController.js:387-390 | status "error" gives 207. Otherwise: an absent result list ends in a 500; else 207 iff some result is failure, and 200 otherwise |
| VerifyController.Collapse | src/controllers/verifyController.js:174-176 | a non-empty result list becomes its first decision; anything else is kept; no non-empty list remains |
| VerifyController.CollapseIdempotent | src/controllers/verifyController.js:174-176 | collapsing twice is collapsing once |
| VerifyController.CollapseAssessment | src/controllers/verifyController.js:172-178 | every entry of the assessment array is collapsed in place |
| VerifyController.RenameEula | src/controllers/verifyController.js:225-228 | eula moves to document and no eula remains; without eula nothing changes |
| VerifyController.RemapDefaultItem | src/controllers/verifyController.js:232-238 | display type, state and status decoded through their tables; other fields kept |
| VerifyController.RemapMetadata | src/controllers/verifyController.js:224-241 | the metadata is the eula-renamed metadata, and every default item is remapped in place |
| Validation.CheckItems | src/middleware/validation.js:29-43 | passes iff every item has a truthy profileId or a truthy purposeId; otherwise MISSING_PURPOSE_ID |
| Validation.ValidatePrivacyRequest | src/middleware/validation.js:8-46 | MISSING_SUBJECT_ID iff subjectId is falsy. MISSING_ITEMS iff the subject is present but items is not a non-empty array. MISSING_PURPOSE_ID iff well formed with an item lacking both ids. Passes otherwise |
| Validation.CheckConsents | src/middleware/validation.js:64-82 | passes iff every consent from the given index has both ids; otherwise names the first offender, subject checked before purpose |
| Validation.ValidateConsentsRequest | src/middleware/validation.js:51-85 | INVALID_CONSENTS iff not a non-empty array; passes iff every consent has both ids; otherwise the first offender's index, with MISSING_SUBJECT_ID before MISSING_PURPOSE_ID |
| Validation.ErrorMessagesNameIndex | src/middleware/validation.js:67-81 | every error is a 400, and an indexed message ends in the decimal index, which reads back as the index |
| Routes.PrivacyMiddlewareSubsumesHandlerCheck | src/routes/basic.js:10-16 | a request the middleware passes is well formed, and the verify handler's check rejects exactly the missing-subject and missing-items cases |
| Routes.ConsentsMiddlewareSubsumesHandlerCheck | src/routes/basic.js:22 | the middleware passes iff the body is a non-empty array with no consent missing an id; then the verify check passes too |
| Routes.PostAssessment | src/routes/basic.js:10 | a middleware rejection returns that error with the store unchanged; otherwise the handler's assessment is returned and never fails |
| Routes.PostPageMetadata | src/routes/basic.js:16 | a middleware rejection returns that error; otherwise the handler's metadata is returned and never fails |
| Routes.PostConsents | src/routes/basic.js:22 | a batch that passes the middleware is stored in full: 200, every result a success, store updated in order |
| Routes.PrepareVerifyConsents | src/routes/verify.js:39 | a batch that passes the middleware is always prepared for the service, never tripping the per-consent throw |

## Left out

- The external privacy service and its client library are not part of this model.
  - This covers the OAuth token, the single retry after a 401, and the wrapping of
    service errors into PRIVACY_API_ERROR.
  - Each verify-mode remap takes the response it would receive.
- Authentication middleware, response logging, routing glue, the consent page, static
  files and the server bootstrap are not part of this model.
- The client IP and the subject passed to the service client are not modelled.
  - This is the `geoIP || req.ip` context of the verify handlers.
  - Only the IP computed by `processConsents` is modelled.
- The clock is a parameter.
  - Basic storage reads it once per batch. The source reads it up to twice per record:
    once for "now" (basicController.js line 249) and once more for a generated id
    (line 251), which can fall in a later second.
  - Within a batch the two agree unless the clock ticks mid-batch.
  - An assessment reads `now` once per request, not per matching record.
- JavaScript dynamic typing is narrowed to the types the code expects. The model
  does not cover:
  - a non-string id, a numeric state, or a non-object item;
  - property names inherited from `Object.prototype`;
  - numeric-string keys of the code tables: `ExternalConsentTypes["1"]`, which the
    source would resolve, is undefined here.
- ItemKey, `TemplateText`: an item's `purposeId` of JSON `null` renders as `null` in the
  source's key template (basicController.js lines 32 and 180), but the model has one
  `None` for undefined and null and renders it as `undefined`. So an item
  `{profileId: "x", purposeId: null}` finds a record stored under purpose `"null"` in the
  source and no record in the model.
- `isGlobal` and `isExternalSubject` in a consent: the source's guard `x !== undefined ? x : false`
  keeps a JSON `null` as `null`. The model has one `None` for undefined and null, so a
  `null` there is stored (basic) or sent (verify) as `false`.
- An absent body and a body that is not an array are both `None`; the code treats
  them the same way.
- `extraInfo: null` in error bodies is constant and is left out.
- The error handler's fallback message and the TypeError text of a missing results
  list are modelled as fixed strings.
- `sampleData.purposes` is declared by the source but read by no core code, so it
  is not modelled.
- The metadata overlay is a datatype without `status` and `id`, because the source
  never copies those two fields into it.
- Verify-mode responses are mutated in place.
  - The result, assessment and default-item lists are arrays that the methods change.
  - The eula rename is a function returning the renamed metadata value, not a
    mutation of a shared object.
- `processConsents` also writes the mapped state and `isGlobal` back into the caller's
  input objects. The model returns new values and does not capture that aliasing.
- VerifyController.RemapStoreResult: requires that an incoming `error` is a string or
  absent, which is what the service sends. An already-split error object would make
  the source call `startsWith` on an object and throw; that is not modelled.
- VerifyController.StoreResponseCode: a failed evaluation is modelled as a 500 with
  a fixed message. The source's actual behaviour is a TypeError thrown from `results.some`.
