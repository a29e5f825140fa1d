/** Properties of the basic-mode consent engine: the decision table, the aggregate
    precedence, the store's last-write-wins updates, the store-then-assess round trip and
    the metadata partition. */
module BasicProperties {
  import opened Wrappers
  import opened JsSemantics
  import opened Privacy
  import opened Requests
  import opened BasicController

  // ---------------------------------------------------------------------------
  // Keys

  /** How an item's fields render into its key: an undefined purpose is the text
      "undefined", an absent refinement is the same as an empty one, and the profile
      is not part of the key. */
  lemma ItemKeyRendering(subjectId: string, item: Item, profileId: Option<string>)
    ensures item.purposeId.None? ==> ItemKey(subjectId, item) == ItemKey(subjectId, item.(purposeId := Some("undefined")))
    ensures item.accessTypeId == Some("") ==> ItemKey(subjectId, item) == ItemKey(subjectId, item.(accessTypeId := None))
    ensures item.attributeId == Some("") ==> ItemKey(subjectId, item) == ItemKey(subjectId, item.(attributeId := None))
    ensures item.attributeValue == Some("") ==> ItemKey(subjectId, item) == ItemKey(subjectId, item.(attributeValue := None))
    ensures ItemKey(subjectId, item) == ItemKey(subjectId, item.(profileId := profileId))
  {
  }

  /** The document key is the key of a bare purpose item: subject, purpose and three
      empty refinements. */
  lemma DocumentKeyIsBareItemKey(subjectId: string, purposeId: string)
    ensures DocumentKey(subjectId, purposeId) == ItemKey(subjectId, Item(None, Some(purposeId), None, None, None))
    ensures DocumentKey(subjectId, purposeId) == subjectId + ":" + purposeId + ":::"
  {
    assert subjectId + ":" + purposeId + ":" + "" + ":" + "" + ":" + "" == subjectId + ":" + purposeId + ":::";
  }

  /** The first colon of `a + ":" + t` follows `a` when `a` holds none. */
  lemma FirstColon(a: string, t: string)
    requires ':' !in a
    ensures IndexOf(a + ":" + t, ':') == |a|
  {
    var x := a + ":" + t;
    var i := IndexOf(x, ':');
    assert x[|a|] == ':';
    assert forall j :: 0 <= j < |a| ==> x[j] == a[j];
    assert forall k :: 0 <= k < i ==> x[..i][k] == x[k];
  }

  /** Splitting at the first colon. */
  lemma {:induction false} SplitAtColon(a: string, t: string, b: string, u: string)
    requires ':' !in a && ':' !in b
    requires a + ":" + t == b + ":" + u
    ensures a == b && t == u
  {
    var x := a + ":" + t;
    FirstColon(a, t);
    FirstColon(b, u);
    assert a == x[..|a|];
    assert b == (b + ":" + u)[..|b|];
    assert t == x[|a| + 1..];
    assert u == (b + ":" + u)[|b| + 1..];
  }

  /** When the first four parts hold no colon, the key determines all five parts. */
  lemma {:induction false} ConsentKeyInjective(s1: string, p1: string, a1: string, b1: string, v1: string,
                                               s2: string, p2: string, a2: string, b2: string, v2: string)
    requires ':' !in s1 && ':' !in p1 && ':' !in a1 && ':' !in b1
    requires ':' !in s2 && ':' !in p2 && ':' !in a2 && ':' !in b2
    ensures ConsentKey(s1, p1, a1, b1, v1) == ConsentKey(s2, p2, a2, b2, v2) <==>
              s1 == s2 && p1 == p2 && a1 == a2 && b1 == b2 && v1 == v2
  {
    if ConsentKey(s1, p1, a1, b1, v1) == ConsentKey(s2, p2, a2, b2, v2) {
      var r1 := b1 + ":" + v1;
      var r2 := b2 + ":" + v2;
      var q1 := a1 + ":" + r1;
      var q2 := a2 + ":" + r2;
      var t1 := p1 + ":" + q1;
      var t2 := p2 + ":" + q2;
      assert ConsentKey(s1, p1, a1, b1, v1) == s1 + ":" + t1;
      assert ConsentKey(s2, p2, a2, b2, v2) == s2 + ":" + t2;
      SplitAtColon(s1, t1, s2, t2);
      SplitAtColon(p1, q1, p2, q2);
      SplitAtColon(a1, r1, a2, r2);
      SplitAtColon(b1, v1, b2, v2);
    }
  }

  /** Two consents with colon-free ids share a storage key exactly when they agree on
      subject, purpose and the three refinements, an absent refinement counting as empty. */
  lemma InputKeySame(c1: ConsentInput, c2: ConsentInput)
    requires HasRequiredIds(c1) && HasRequiredIds(c2)
    requires ':' !in c1.subjectId.value && ':' !in c1.purposeId.value
    requires ':' !in OrEmpty(c1.accessTypeId) && ':' !in OrEmpty(c1.attributeId)
    requires ':' !in c2.subjectId.value && ':' !in c2.purposeId.value
    requires ':' !in OrEmpty(c2.accessTypeId) && ':' !in OrEmpty(c2.attributeId)
    ensures InputKey(c1) == InputKey(c2) <==>
              && c1.subjectId == c2.subjectId && c1.purposeId == c2.purposeId
              && OrEmpty(c1.accessTypeId) == OrEmpty(c2.accessTypeId)
              && OrEmpty(c1.attributeId) == OrEmpty(c2.attributeId)
              && OrEmpty(c1.attributeValue) == OrEmpty(c2.attributeValue)
  {
    ConsentKeyInjective(c1.subjectId.value, c1.purposeId.value, OrEmpty(c1.accessTypeId),
                        OrEmpty(c1.attributeId), OrEmpty(c1.attributeValue),
                        c2.subjectId.value, c2.purposeId.value, OrEmpty(c2.accessTypeId),
                        OrEmpty(c2.attributeId), OrEmpty(c2.attributeValue));
  }

  /** Parts that hold colons can collide: two different subject/purpose pairs share a key. */
  lemma ConsentKeyCollision()
    ensures ConsentKey("u:p", "q", "", "", "") == ConsentKey("u", "p:q", "", "", "")
  {
  }

  /** A default metadata item and an assessment of the same item read the same key: the
      item shows a consent exactly when its assessment found a record, which is exactly
      when the decision does not require approval. */
  lemma MetadataAgreesWithAssessment(m: map<string, ConsentRecord>, subjectId: string, item: Item, now: int)
    ensures DefaultEntry(m, subjectId, item).consent.Some? <==> Lookup(m, ItemKey(subjectId, item)).Some?
    ensures DefaultEntry(m, subjectId, item).consent.Some? <==> !Assessed(m, subjectId, item, now).result.approvalRequired
    ensures DefaultEntry(m, subjectId, item).consent.Some? ==>
              DefaultEntry(m, subjectId, item).consent.value == Overlay(Lookup(m, ItemKey(subjectId, item)).value)
  {
  }

  // ---------------------------------------------------------------------------
  // Decisions

  /** With no record under the item's key, the item gets the no-consent decision. */
  lemma NoRecordDecision(m: map<string, ConsentRecord>, subjectId: string, item: Item, now: int)
    requires ItemKey(subjectId, item) !in m
    ensures Assessed(m, subjectId, item, now).result == Decision(false, true, true, None)
  {
  }

  /** Exactly one of active, future and expired holds of a stored consent. */
  lemma TimeStatusExactlyOne(r: ConsentRecord, now: int)
    ensures var active, future, expired := r.startTime <= now <= r.endTime, now < r.startTime,
                                           !(r.startTime <= now <= r.endTime) && !(now < r.startTime);
            (active && !future && !expired) || (!active && future && !expired) || (!active && !future && expired)
    ensures TimeStatus(r, now) in {Active, Future, Expired}
  {
  }

  /** The decision table: the time status and the state of a found record decide it. */
  lemma DecisionTable(r: ConsentRecord, now: int)
    ensures var d := Decide(Some(r), now);
            match TimeStatus(r, now)
            case Active =>
              if r.state in {"allow", "opt_in", "transparent"} then d == Decision(true, false, false, None)
              else d == Decision(false, false, true, Some(Reason("CONSENT_DENIED", "User has explicitly denied consent")))
            case Future => d == Decision(false, false, false, Some(Reason("CONSENT_FUTURE", "Consent will be active in the future")))
            case Expired => d == Decision(false, false, true, Some(Reason("CONSENT_EXPIRED", "Consent has expired")))
            case NoConsent => false
  {
  }

  /** A decision the evaluator produces never approves while prompting or while still
      requiring approval. */
  predicate Coherent(d: Decision) {
    d.approved ==> !d.promptForConsent && !d.approvalRequired
  }

  lemma DecisionsCoherent(m: map<string, ConsentRecord>, subjectId: string, items: seq<Item>, now: int)
    ensures forall d :: d in Decisions(Evaluate(m, subjectId, items, now)) ==> Coherent(d)
  {
  }

  /** The decision does not read the stored `status`, so the refresh an assessment makes
      does not change what a later assessment at the same time computes. */
  lemma {:induction false} RefreshInvisible(m: map<string, ConsentRecord>, keys: set<string>, subjectId: string,
                                            items: seq<Item>, now: int)
    ensures Evaluate(Refreshed(m, keys, now), subjectId, items, now) == Evaluate(m, subjectId, items, now)
  {
    var m' := Refreshed(m, keys, now);
    forall i | 0 <= i < |items|
      ensures Assessed(m', subjectId, items[i], now) == Assessed(m, subjectId, items[i], now)
    {
      var key := ItemKey(subjectId, items[i]);
      if key in m && key in keys {
        StampIdempotent(m[key], now);
      }
    }
  }

  /** The assessment has one entry per item, in order, echoing the item's key fields. */
  lemma EvaluateEchoesItems(m: map<string, ConsentRecord>, subjectId: string, items: seq<Item>, now: int)
    ensures var a := Evaluate(m, subjectId, items, now);
            && |a| == |items|
            && forall i :: 0 <= i < |items| ==>
                 && a[i].purposeId == items[i].purposeId
                 && a[i].accessTypeId == items[i].accessTypeId
                 && a[i].attributeId == items[i].attributeId
                 && a[i].attributeValue == items[i].attributeValue
  {
  }

  // ---------------------------------------------------------------------------
  // Aggregate status

  /** Each aggregate status, stated as a condition on the decisions. */
  lemma {:induction false} OverallStatusMeaning(ds: seq<Decision>)
    ensures OverallStatus(ds) == Approved <==> AllApproved(ds)
    ensures OverallStatus(ds) == NeedsConsent <==> !AllApproved(ds) && SomePrompt(ds)
    ensures OverallStatus(ds) == Multistatus <==> SomeApproved(ds) && !AllApproved(ds) && !SomePrompt(ds)
    ensures OverallStatus(ds) == Denied <==> |ds| > 0 && AllDeniedWithoutPrompt(ds)
    ensures OverallStatus(ds) != Unknown
  {
    if !AllApproved(ds) && !SomePrompt(ds) {
      var i :| 0 <= i < |ds| && !ds[i].approved;
      assert DeniedWithoutPrompt(ds[i]);
    }
    if |ds| > 0 && AllDeniedWithoutPrompt(ds) {
      assert !ds[0].approved;
    }
  }

  /** For decisions the evaluator produces, one prompting item makes the whole
      assessment need consent, whatever the other items say. */
  lemma {:induction false} PromptWins(ds: seq<Decision>, i: nat)
    requires forall d :: d in ds ==> Coherent(d)
    requires i < |ds| && ds[i].promptForConsent
    ensures OverallStatus(ds) == NeedsConsent
  {
    assert ds[i] in ds;
  }

  // ---------------------------------------------------------------------------
  // Recording

  /** A record without both ids leaves the store unchanged. */
  lemma FailedRecordLeavesStore(m: map<string, ConsentRecord>, c: ConsentInput, clientIp: string, clockMs: nat)
    requires !HasRequiredIds(c)
    ensures Record(m, c, clientIp, clockMs) == m
    ensures Outcome(c, clientIp, clockMs) == NotStored(Reason("CONSENT_STORE_ERROR", "subjectId and purposeId are required"))
  {
  }

  /** Each field of a successful record: the input's value when it is truthy (defined, for
      the booleans and the attribute map), otherwise its default. */
  lemma NormalizeFields(c: ConsentInput, clientIp: string, clockMs: nat)
    requires HasRequiredIds(c)
    ensures var r := Normalize(c, clientIp, clockMs).value;
            && (Truthy(c.id) ==> r.id == c.id.value)
            && (!Truthy(c.id) ==> r.id == "consent-" + DecimalString(clockMs))
            && (Truthy(c.accessTypeId) ==> r.accessTypeId == c.accessTypeId)
            && (!Truthy(c.accessTypeId) ==> r.accessTypeId.None?)
            && (Truthy(c.attributeId) ==> r.attributeId == c.attributeId)
            && (!Truthy(c.attributeId) ==> r.attributeId.None?)
            && (Truthy(c.attributeValue) ==> r.attributeValue == c.attributeValue)
            && (!Truthy(c.attributeValue) ==> r.attributeValue.None?)
            && (c.startTime.Some? && c.startTime.value != 0 ==> r.startTime == c.startTime.value)
            && (c.startTime.None? || c.startTime == Some(0) ==> r.startTime == clockMs / 1000)
            && (c.endTime.Some? && c.endTime.value != 0 ==> r.endTime == c.endTime.value)
            && (c.endTime.None? || c.endTime == Some(0) ==> r.endTime == clockMs / 1000 + 31536000)
            && (c.isGlobal.Some? ==> r.isGlobal == c.isGlobal.value)
            && (c.isGlobal.None? ==> !r.isGlobal)
            && (Truthy(c.status) ==> r.status == c.status.value)
            && (!Truthy(c.status) ==> r.status == "active")
            && (Truthy(c.state) ==> r.state == c.state.value)
            && (!Truthy(c.state) ==> r.state == "allow")
            && (Truthy(c.geoIP) ==> r.geoIP == c.geoIP.value)
            && (!Truthy(c.geoIP) ==> r.geoIP == clientIp)
            && (c.customAttributes.Some? ==> r.customAttributes == c.customAttributes.value)
            && (c.customAttributes.None? ==> r.customAttributes == map[])
            && (c.isExternalSubject.Some? ==> r.isExternalSubject == c.isExternalSubject.value)
            && (c.isExternalSubject.None? ==> !r.isExternalSubject)
            && r.subjectId == c.subjectId.value && r.purposeId == c.purposeId.value
  {
  }

  /** The keys after recording a batch: the old keys plus the key of every record that has both ids. */
  lemma {:induction false} RecordedKeys(m: map<string, ConsentRecord>, cs: seq<ConsentInput>, clientIp: string, clockMs: nat)
    ensures Recorded(m, cs, clientIp, clockMs).Keys
            == m.Keys + set i | 0 <= i < |cs| && HasRequiredIds(cs[i]) :: InputKey(cs[i])
  {
    if cs != [] {
      var n := |cs| - 1;
      var prefix := cs[..n];
      RecordedKeys(m, prefix, clientIp, clockMs);
      var before := set i | 0 <= i < |prefix| && HasRequiredIds(prefix[i]) :: InputKey(prefix[i]);
      var after := set i | 0 <= i < |cs| && HasRequiredIds(cs[i]) :: InputKey(cs[i]);
      forall k | k in after
        ensures k in before || (HasRequiredIds(cs[n]) && k == InputKey(cs[n]))
      {
        var i :| 0 <= i < |cs| && HasRequiredIds(cs[i]) && k == InputKey(cs[i]);
        if i < n { assert prefix[i] == cs[i]; }
      }
      forall k | k in before ensures k in after {
        var i :| 0 <= i < |prefix| && HasRequiredIds(prefix[i]) && k == InputKey(prefix[i]);
        assert prefix[i] == cs[i];
      }
    }
  }

  /** Last write wins: the value under a record's key is that record, when no later
      successful record has the same key. */
  lemma {:induction false} RecordedLastWins(m: map<string, ConsentRecord>, cs: seq<ConsentInput>, i: nat,
                                            clientIp: string, clockMs: nat)
    requires i < |cs| && HasRequiredIds(cs[i])
    requires forall j :: i < j < |cs| && HasRequiredIds(cs[j]) ==> InputKey(cs[j]) != InputKey(cs[i])
    ensures var after := Recorded(m, cs, clientIp, clockMs);
            InputKey(cs[i]) in after && after[InputKey(cs[i])] == Normalize(cs[i], clientIp, clockMs).value
  {
    var n := |cs| - 1;
    assert cs[..n + 1] == cs;
    if i < n {
      forall j | i < j < |cs[..n]| && HasRequiredIds(cs[..n][j])
        ensures InputKey(cs[..n][j]) != InputKey(cs[..n][i])
      {
        assert cs[..n][j] == cs[j];
      }
      RecordedLastWins(m, cs[..n], i, clientIp, clockMs);
      assert cs[..n][i] == cs[i];
    }
  }

  /** A key no successful record of the batch writes keeps its old entry (or its absence). */
  lemma {:induction false} RecordedUntouched(m: map<string, ConsentRecord>, cs: seq<ConsentInput>, k: string,
                                             clientIp: string, clockMs: nat)
    requires forall j :: 0 <= j < |cs| && HasRequiredIds(cs[j]) ==> InputKey(cs[j]) != k
    ensures var after := Recorded(m, cs, clientIp, clockMs);
            (k in after <==> k in m) && (k in m ==> after[k] == m[k])
  {
    if cs != [] {
      var n := |cs| - 1;
      forall j | 0 <= j < |cs[..n]| && HasRequiredIds(cs[..n][j]) ensures InputKey(cs[..n][j]) != k {
        assert cs[..n][j] == cs[j];
      }
      RecordedUntouched(m, cs[..n], k, clientIp, clockMs);
    }
  }

  /** Storing twice under one key leaves one entry for it, holding the second record. */
  lemma {:induction false} OverwriteSameKey(m: map<string, ConsentRecord>, c1: ConsentInput, c2: ConsentInput,
                                            clientIp: string, clockMs: nat)
    requires HasRequiredIds(c1) && HasRequiredIds(c2) && InputKey(c1) == InputKey(c2)
    ensures var after := Recorded(m, [c1, c2], clientIp, clockMs);
            && after == m[InputKey(c2) := Normalize(c2, clientIp, clockMs).value]
            && after.Keys == m.Keys + {InputKey(c1)}
  {
    assert [c1, c2][..1] == [c1];
    assert [c1][..0] == [];
    var k := InputKey(c1);
    var once := Record(m, c1, clientIp, clockMs);
    assert once == m[k := Normalize(c1, clientIp, clockMs).value];
    assert Recorded(m, [c1], clientIp, clockMs) == Record(Recorded(m, [], clientIp, clockMs), c1, clientIp, clockMs);
    assert Recorded(m, [c1, c2], clientIp, clockMs) == Record(once, c2, clientIp, clockMs);
  }

  /** The item that asks about exactly what a consent records. */
  function ItemFor(c: ConsentInput): Item {
    Item(None, c.purposeId, c.accessTypeId, c.attributeId, c.attributeValue)
  }

  /** Round trip: after recording `c`, assessing the same key decides on exactly the
      stored record. */
  lemma StoreThenAssess(m: map<string, ConsentRecord>, c: ConsentInput, clientIp: string, clockMs: nat, now: int)
    requires HasRequiredIds(c)
    ensures ItemKey(c.subjectId.value, ItemFor(c)) == InputKey(c)
    ensures Assessed(Record(m, c, clientIp, clockMs), c.subjectId.value, ItemFor(c), now).result
            == Decide(Some(Normalize(c, clientIp, clockMs).value), now)
  {
  }

  /** With time bounds (given, or defaulted because absent or 0) that include the second
      the consent was stored, and an allowing (or defaulted) state, the item is approved
      when assessed at that second. */
  lemma {:induction false} StoreDefaultsThenApproved(m: map<string, ConsentRecord>, c: ConsentInput, clientIp: string, clockMs: nat)
    requires HasRequiredIds(c)
    requires NumberOr(c.startTime, clockMs / 1000) <= clockMs / 1000 <= NumberOr(c.endTime, clockMs / 1000 + OneYear)
    requires !Truthy(c.state) || c.state.value in {"allow", "opt_in", "transparent"}
    ensures Assessed(Record(m, c, clientIp, clockMs), c.subjectId.value, ItemFor(c), clockMs / 1000).result
            == Decision(true, false, false, None)
  {
    StoreThenAssess(m, c, clientIp, clockMs, clockMs / 1000);
  }

  /** A consent whose stored end (given or defaulted) lies before `now`, and whose stored
      start does not lie after it, is reported expired, and the subject is prompted again. */
  lemma {:induction false} StoreExpiredThenPrompt(m: map<string, ConsentRecord>, c: ConsentInput, clientIp: string,
                                                  clockMs: nat, now: int)
    requires HasRequiredIds(c)
    requires NumberOr(c.endTime, clockMs / 1000 + OneYear) < now
    requires NumberOr(c.startTime, clockMs / 1000) <= now
    ensures var d := Assessed(Record(m, c, clientIp, clockMs), c.subjectId.value, ItemFor(c), now).result;
            d.promptForConsent && !d.approved && d.reason.Some? && d.reason.value.messageId == "CONSENT_EXPIRED"
  {
    StoreThenAssess(m, c, clientIp, clockMs, now);
  }

  /** The 207 code is reported exactly when some result entry is a failure. */
  lemma {:induction false} StatusCodeMatchesResults(cs: seq<ConsentInput>, clientIp: string, clockMs: nat)
    ensures SomeMissingIds(cs) <==>
            exists i :: 0 <= i < |cs| && Outcomes(cs, clientIp, clockMs)[i].Result() == StoreFailure
  {
    var rs := Outcomes(cs, clientIp, clockMs);
    if SomeMissingIds(cs) {
      var i :| 0 <= i < |cs| && !HasRequiredIds(cs[i]);
      assert rs[i].Result() == StoreFailure;
    }
  }

  // ---------------------------------------------------------------------------
  // Page metadata

  /** Every item yields exactly one entry, document or default. */
  lemma {:induction false} MetadataPartition(m: map<string, ConsentRecord>, subjectId: string, items: seq<Item>)
    ensures |DocumentEntries(m, subjectId, items)| + |DefaultEntries(m, subjectId, items)| == |items|
  {
    if items != [] {
      MetadataPartition(m, subjectId, items[..|items| - 1]);
    }
  }

  /** The entries of a concatenation are the concatenated entries: both lists keep item order. */
  lemma {:induction false} MetadataAppend(m: map<string, ConsentRecord>, subjectId: string, xs: seq<Item>, ys: seq<Item>)
    ensures DocumentEntries(m, subjectId, xs + ys) == DocumentEntries(m, subjectId, xs) + DocumentEntries(m, subjectId, ys)
    ensures DefaultEntries(m, subjectId, xs + ys) == DefaultEntries(m, subjectId, xs) + DefaultEntries(m, subjectId, ys)
  {
    if ys == [] {
      assert xs + ys == xs;
    } else {
      var n := |ys| - 1;
      assert (xs + ys)[..|xs + ys| - 1] == xs + ys[..n];
      MetadataAppend(m, subjectId, xs, ys[..n]);
    }
  }

  /** A single item goes to exactly one of the two lists. */
  lemma MetadataSingle(m: map<string, ConsentRecord>, subjectId: string, item: Item)
    ensures IsDocumentItem(item) ==>
              DocumentEntries(m, subjectId, [item]) == [DocumentEntry(m, subjectId, item)]
              && DefaultEntries(m, subjectId, [item]) == []
    ensures !IsDocumentItem(item) ==>
              DocumentEntries(m, subjectId, [item]) == []
              && DefaultEntries(m, subjectId, [item]) == [DefaultEntry(m, subjectId, item)]
  {
    assert [item][..0] == [];
  }

  /** A document item is looked up by subject and purpose only: its refinements are ignored. */
  lemma DocumentLookupIgnoresRefinements(m: map<string, ConsentRecord>, subjectId: string, a: Item, b: Item)
    requires IsDocumentItem(a) && a.purposeId == b.purposeId
    ensures IsDocumentItem(b)
    ensures DocumentEntry(m, subjectId, a) == DocumentEntry(m, subjectId, b)
    ensures DocumentEntry(m, subjectId, a).consent == OverlayAt(m, subjectId + ":" + a.purposeId.value + ":::")
  {
    var p := a.purposeId.value;
    var head := subjectId + ":" + p + ":";
    assert head + "" == head;
    assert head + "" + ":" + "" + ":" + "" == head + "::";
    assert head + "::" == subjectId + ":" + p + ":::";
  }

  /** The overlay shows neither the record's `status` nor its `id`. */
  lemma OverlayIgnoresStatusAndId(r: ConsentRecord, status: string, id: string)
    ensures Overlay(r.(status := status, id := id)) == Overlay(r)
  {
  }

  /** Every document entry shows a catalog document, and every default entry echoes a
      requested item that is not a document. */
  lemma {:induction false} MetadataEntriesOrigin(m: map<string, ConsentRecord>, subjectId: string, items: seq<Item>)
    ensures forall e :: e in DocumentEntries(m, subjectId, items) ==> e.document in Documents
    ensures forall e :: e in DefaultEntries(m, subjectId, items) ==> e.item in items && !IsDocumentItem(e.item)
  {
    if items != [] {
      var n := |items| - 1;
      MetadataEntriesOrigin(m, subjectId, items[..n]);
      forall e | e in DefaultEntries(m, subjectId, items[..n]) ensures e.item in items {
        assert e.item in items[..n];
      }
    }
  }

  // ---------------------------------------------------------------------------
  // Scenarios

  const U1Terms: Item := Item(None, Some("terms-of-service"), None, None, None)

  /** No prior consent: the assessment needs consent and prompts. */
  lemma ScenarioNoPriorConsent(now: int)
    ensures var a := Evaluate(InitialConsents, "u1", [U1Terms], now);
            a[0].result.promptForConsent && OverallStatus(Decisions(a)) == NeedsConsent
  {
    var a := Evaluate(InitialConsents, "u1", [U1Terms], now);
    OverallStatusMeaning(Decisions(a));
  }

  /** Store an allow consent with default bounds, then assess the same item: approved. */
  lemma ScenarioStoreThenApproved(clientIp: string, clockMs: nat)
    ensures var c := ConsentInput(None, Some("terms-of-service"), None, None, None, None, None, None,
                                  None, Some("allow"), None, None, Some("u1"), None);
            var m := Recorded(InitialConsents, [c], clientIp, clockMs);
            OverallStatus(Decisions(Evaluate(m, "u1", [U1Terms], clockMs / 1000))) == Approved
  {
    var c := ConsentInput(None, Some("terms-of-service"), None, None, None, None, None, None,
                          None, Some("allow"), None, None, Some("u1"), None);
    assert [c][..0] == [];
    assert ItemFor(c) == U1Terms;
    StoreDefaultsThenApproved(InitialConsents, c, clientIp, clockMs);
    var ds := Decisions(Evaluate(Recorded(InitialConsents, [c], clientIp, clockMs), "u1", [U1Terms], clockMs / 1000));
    assert ds[0].approved;
    OverallStatusMeaning(ds);
  }

  /** A batch of two, one missing its purpose: mixed results and 207. */
  lemma ScenarioMixedBatch(clientIp: string, clockMs: nat)
    ensures var good := ConsentInput(None, Some("terms-of-service"), None, None, None, None, None, None,
                                     None, None, None, None, Some("u1"), None);
            var bad := good.(purposeId := None);
            var rs := Outcomes([good, bad], clientIp, clockMs);
            rs[0].Result() == StoreSuccess && rs[1].Result() == StoreFailure && SomeMissingIds([good, bad])
  {
    var good := ConsentInput(None, Some("terms-of-service"), None, None, None, None, None, None,
                             None, None, None, None, Some("u1"), None);
    var bad := good.(purposeId := None);
    assert !HasRequiredIds([good, bad][1]);
  }
}
