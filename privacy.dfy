/** The enumerations, the static document catalog and the initial (empty) consent
    store of the privacy models file. Each enumeration is a closed datatype; `Name()`
    gives the string the JSON bodies carry. */
module Privacy {
  import opened Wrappers

  /** How a purpose is presented to the user. */
  datatype ConsentDisplayType = DoNotShow | TransparentDisplay | OptInOrOut | AllowOrDeny {
    function Name(): string {
      match this
      case DoNotShow => "do_not_show"
      case TransparentDisplay => "transparent"
      case OptInOrOut => "opt_in_or_out"
      case AllowOrDeny => "allow_or_deny"
    }
  }

  /** The disposition a subject gave for a purpose (a consent's `state`). */
  datatype ConsentType = Allow | Deny | OptIn | OptOut | Transparent {
    function Name(): string {
      match this
      case Allow => "allow"
      case Deny => "deny"
      case OptIn => "opt_in"
      case OptOut => "opt_out"
      case Transparent => "transparent"
    }
  }

  /** The time status of a consent (`none`: no consent). */
  datatype ConsentStatus = Active | Expired | Future | NoConsent {
    function Name(): string {
      match this
      case Active => "active"
      case Expired => "expired"
      case Future => "future"
      case NoConsent => "none"
    }
  }

  /** The aggregate status of an assessment response. */
  datatype AssessmentStatus = Approved | NeedsConsent | Multistatus | Denied | Unknown {
    function Name(): string {
      match this
      case Approved => "approved"
      case NeedsConsent => "needs_consent"
      case Multistatus => "multistatus"
      case Denied => "denied"
      case Unknown => "unknown"
    }
  }

  /** The per-record outcome of a consent store request. */
  datatype StoreConsentResultStatus = StoreSuccess | StoreFailure {
    function Name(): string {
      match this
      case StoreSuccess => "success"
      case StoreFailure => "failure"
    }
  }

  const ConsentTypeNames: set<string> := {"allow", "deny", "opt_in", "opt_out", "transparent"}
  const ConsentStatusNames: set<string> := {"active", "expired", "future", "none"}
  const AssessmentStatusNames: set<string> := {"approved", "needs_consent", "multistatus", "denied", "unknown"}
  const StoreResultNames: set<string> := {"success", "failure"}
  const DisplayTypeNames: set<string> := {"do_not_show", "transparent", "opt_in_or_out", "allow_or_deny"}

  /** The consent type whose name is `s`, if any. */
  function ParseConsentType(s: string): (r: Option<ConsentType>)
    ensures r.Some? <==> s in ConsentTypeNames
    ensures r.Some? ==> r.value.Name() == s
  {
    if s == "allow" then Some(Allow)
    else if s == "deny" then Some(Deny)
    else if s == "opt_in" then Some(OptIn)
    else if s == "opt_out" then Some(OptOut)
    else if s == "transparent" then Some(Transparent)
    else None
  }

  /** The five consent types have exactly the five names, and parsing a name gives its type back. */
  lemma ConsentTypeNamesExact(t: ConsentType)
    ensures t.Name() in ConsentTypeNames
    ensures forall s :: s in ConsentTypeNames ==> exists u: ConsentType :: u.Name() == s
    ensures ParseConsentType(t.Name()) == Some(t)
    ensures forall u: ConsentType :: u.Name() == t.Name() ==> u == t
  {
    forall s | s in ConsentTypeNames
      ensures exists u: ConsentType :: u.Name() == s
    {
      assert ParseConsentType(s).value.Name() == s;
    }
  }

  lemma ConsentStatusNamesExact(s: ConsentStatus)
    ensures s.Name() in ConsentStatusNames
    ensures forall u: ConsentStatus :: u.Name() == s.Name() ==> u == s
  {
  }

  lemma AssessmentStatusNamesExact(s: AssessmentStatus)
    ensures s.Name() in AssessmentStatusNames
    ensures forall u: AssessmentStatus :: u.Name() == s.Name() ==> u == s
  {
  }

  lemma StoreResultNamesExact(s: StoreConsentResultStatus)
    ensures s.Name() in StoreResultNames
    ensures forall u: StoreConsentResultStatus :: u.Name() == s.Name() ==> u == s
  {
  }

  lemma DisplayTypeNamesExact(d: ConsentDisplayType)
    ensures d.Name() in DisplayTypeNames
    ensures forall u: ConsentDisplayType :: u.Name() == d.Name() ==> u == d
  {
  }

  /** One year in seconds, the default consent duration. */
  const OneYear: int := 31536000

  /** A document-type purpose of the static catalog. */
  datatype Document = Document(
    purposeId: string,
    purposeName: string,
    purposeDescription: string,
    defaultConsentDuration: int,
    assentUIDefault: bool,
    consentType: ConsentDisplayType,
    documentURL: string,
    status: ConsentStatus)

  const TermsOfService: Document := Document(
    "terms-of-service", "Terms of Service", "Our terms of service agreement",
    OneYear, true, AllowOrDeny, "https://example.com/terms", Active)

  const PrivacyPolicy: Document := Document(
    "privacy-policy", "Privacy Policy", "Our privacy policy",
    OneYear, true, TransparentDisplay, "https://example.com/privacy", Active)

  /** The document catalog, in catalog order. */
  const Documents: seq<Document> := [TermsOfService, PrivacyPolicy]

  /** `docs.find(doc => doc.purposeId === purposeId)`; an undefined purpose matches nothing. */
  function FindIn(docs: seq<Document>, purposeId: Option<string>): (r: Option<Document>)
    ensures r.Some? ==> r.value in docs && purposeId == Some(r.value.purposeId)
    ensures r.Some? ==> forall d :: d in docs[..IndexOfDocument(docs, r.value)] ==> Some(d.purposeId) != purposeId
    ensures r.None? <==> forall d :: d in docs ==> Some(d.purposeId) != purposeId
  {
    if docs == [] then None
    else if purposeId == Some(docs[0].purposeId) then Some(docs[0])
    else
      var r := FindIn(docs[1..], purposeId);
      if r.Some? then
        assert docs[..IndexOfDocument(docs, r.value)] == [docs[0]] + docs[1..][..IndexOfDocument(docs[1..], r.value)];
        r
      else r
  }

  /** The position of the first occurrence of `d` in `docs`. */
  function IndexOfDocument(docs: seq<Document>, d: Document): (i: nat)
    requires d in docs
    ensures i < |docs| && docs[i] == d && d !in docs[..i]
  {
    if docs[0] == d then 0
    else
      var j := IndexOfDocument(docs[1..], d);
      assert docs[..j + 1] == [docs[0]] + docs[1..][..j];
      j + 1
  }

  function FindDocument(purposeId: Option<string>): Option<Document> {
    FindIn(Documents, purposeId)
  }

  /** The catalog's purpose ids are distinct. */
  lemma DocumentPurposesDistinct()
    ensures forall i, j :: 0 <= i < j < |Documents| ==> Documents[i].purposeId != Documents[j].purposeId
  {
  }

  /** Hence the lookup by purpose id is unambiguous: it finds exactly the one document with that id. */
  lemma {:induction false} FindDocumentUnambiguous(purposeId: string, d: Document)
    ensures FindDocument(Some(purposeId)) == Some(d) <==> d in Documents && d.purposeId == purposeId
  {
    DocumentPurposesDistinct();
  }

  /** A stored consent record. */
  datatype ConsentRecord = ConsentRecord(
    id: string,
    purposeId: string,
    accessTypeId: Option<string>,
    attributeId: Option<string>,
    attributeValue: Option<string>,
    startTime: int,
    endTime: int,
    isGlobal: bool,
    status: string,
    state: string,
    geoIP: string,
    customAttributes: map<string, string>,
    subjectId: string,
    isExternalSubject: bool)

  /** The consent store the process starts with. */
  const InitialConsents: map<string, ConsentRecord> := map[]

  lemma InitialConsentsEmpty()
    ensures |InitialConsents| == 0 && forall k :: k !in InitialConsents
  {
  }
}
