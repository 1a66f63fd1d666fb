/** What verify_sample_data and seed_and_verify promise: which collections
    get counted, when the verdict is ok, which telemetry point is reported
    as the latest, and that verifying right after a successful seeding is
    ok. */
module Verifying {
  import opened Wrappers
  import opened Models
  import opened Store
  import opened Workflow
  import opened Properties
  import opened Seeding

  /** None of `names` fails. */
  predicate AllUp(s: StoreState, names: seq<Collection>) {
    forall j :: 0 <= j < |names| ==> names[j] !in s.failing
  }

  /** Every collection verify_sample_data counts is up and holds a document. */
  predicate Populated(s: StoreState) {
    forall c :: c in Collections ==> c !in s.failing && |Docs(s, c)| >= 1
  }

  /** The counting loop records no error exactly when none of the counted
      collections fails; then it has counted each of them, and only them. */
  lemma {:induction false} CountAllUp(s: StoreState, names: seq<Collection>)
    ensures var r := CountAll(s, names);
      && (r.error.None? <==> AllUp(s, names))
      && (r.error.None? ==> forall c :: c in names ==> c in r.counts && r.counts[c] == |Docs(s, c)|)
      && forall c :: c in r.counts ==> c in names
  {
    if names != [] {
      var init := names[..|names| - 1];
      CountAllUp(s, init);
      assert forall c :: c in names ==> c in init || c == names[|names| - 1];
      assert forall j :: 0 <= j < |init| ==> init[j] == names[j];
    }
  }

  /** When the count of `names[i]` is the first to fail, the loop keeps the
      counts taken before it, records that collection's error, and counts
      nothing after it. */
  lemma CountFailureStopsRemaining(s: StoreState, names: seq<Collection>, i: nat)
    requires i < |names| && names[i] in s.failing && AllUp(s, names[..i])
    ensures var r := CountAll(s, names);
      && r.error == Some(OperationFailed(names[i]))
      && (forall c :: c in r.counts <==> c in names[..i])
      && forall c :: c in r.counts ==> r.counts[c] == |Docs(s, c)|
  {
    assert names[..i + 1][..i] == names[..i];
    CountAllUp(s, names[..i]);
    CountAllStops(s, names, i + 1);
  }

  /** When the count of the `i`-th collection is the first to fail,
      verify_sample_data still fetches the latest telemetry point, keeps the
      counts taken before the failure and no others, lists the count error
      first (followed by the telemetry error when telemetry fails too), and
      is not ok. */
  lemma VerifyCountFailure(s: StoreState, i: nat)
    requires i < |Collections| && Collections[i] in s.failing && AllUp(s, Collections[..i])
    ensures var r := Verify(s);
      && !r.ok
      && r.errors == Some([CountError(OperationFailed(Collections[i]))]
                          + if Telemetry in s.failing then [TelemetryFetchError(OperationFailed(Telemetry))] else [])
      && (forall c :: c in r.counts <==> c in Collections[..i])
      && (forall c :: c in r.counts ==> r.counts[c] == |Docs(s, c)|)
      && (Telemetry !in s.failing ==> (r.latestTelemetry.None? <==> Docs(s, Telemetry) == []))
  {
    CountFailureStopsRemaining(s, Collections, i);
  }

  /** `errors` is None exactly when every collection is up. */
  lemma VerifyErrorsIff(s: StoreState)
    ensures Verify(s).errors.None? <==> AllUp(s, Collections)
  {
    CountAllUp(s, Collections);
    assert Telemetry == Collections[3];
  }

  /** The verdict is ok exactly when every collection is up and holds at
      least one document. */
  lemma VerifyOkIff(s: StoreState)
    ensures Verify(s).ok <==> Populated(s)
  {
    VerifyErrorsIff(s);
    CountAllUp(s, Collections);
    assert forall c :: c in Collections <==> exists j :: 0 <= j < |Collections| && Collections[j] == c;
  }

  /** A collection whose natural key finds a document is not empty. */
  lemma KeysAtNonEmpty(t: StoreState, k: Keys)
    requires KeysAt(t, k)
    ensures forall c :: IsIdentityCollection(c) ==> |Docs(t, c)| >= 1
  {
  }

  /** The event collections hold the documents the seeding appended. */
  lemma WiredNonEmpty(t: StoreState, u: StoreState, k: Keys, now: Timestamp)
    requires TelemetryWired(t, u, k, now) && AlertSightingWired(t, u, k)
    ensures forall c :: IsEventCollection(c) ==> |Docs(u, c)| >= 1
  {
  }

  /** Each counted collection is an identity or an event collection. */
  lemma CollectionsSplit()
    ensures forall c :: c in Collections <==> IsIdentityCollection(c) || IsEventCollection(c)
  {
  }

  /** When every collection is up, verification counts every collection,
      each with its number of documents. */
  lemma VerifyCounts(t: StoreState)
    requires AllUp(t, Collections)
    ensures forall c :: c in Verify(t).counts && Verify(t).counts[c] == |Docs(t, c)|
  {
    CountAllUp(t, Collections);
    EveryCollectionCounted();
  }

  /** verify_sample_data counts every collection of the store. */
  lemma EveryCollectionCounted()
    ensures forall c :: c in Collections
  {
    forall c: Collection ensures c in Collections {
      assert IsIdentityCollection(c) || IsEventCollection(c);
    }
  }

  /** After a successful seeding the identity collections hold the documents
      their natural keys find. */
  lemma SeedIdentitiesNonEmpty(s: StoreState, now: Timestamp)
    ensures var r := Seed(s, now);
      r.result.Success? ==> forall c :: IsIdentityCollection(c) ==> |Docs(r.state, c)| >= 1
  {
    var r := Seed(s, now);
    if r.result.Success? {
      SeedKeysKept(s, now);
      KeysAtNonEmpty(r.state, KeysOf(r.result.value));
    }
  }

  /** After a successful seeding the event collections hold the documents
      just appended. */
  lemma SeedEventsNonEmpty(s: StoreState, now: Timestamp)
    ensures var r := Seed(s, now);
      r.result.Success? ==> forall c :: IsEventCollection(c) ==> |Docs(r.state, c)| >= 1
  {
    var r := Seed(s, now);
    if r.result.Success? {
      SeedEventsWired(s, now);
      WiredNonEmpty(s, r.state, KeysOf(r.result.value), now);
    }
  }

  /** After a successful seeding every counted collection is up and holds a
      document. */
  lemma SeedPopulates(s: StoreState, now: Timestamp)
    ensures var r := Seed(s, now);
      r.result.Success? ==> Populated(r.state)
  {
    SeedSucceedsIff(s, now);
    SeedIdentitiesNonEmpty(s, now);
    SeedEventsNonEmpty(s, now);
    CollectionsSplit();
  }

  /** Verifying right after a successful seeding is ok. */
  lemma SeedThenVerifyOk(s: StoreState, now: Timestamp)
    ensures var r := Seed(s, now);
      r.result.Success? ==> Verify(r.state).ok
  {
    var r := Seed(s, now);
    if r.result.Success? {
      SeedPopulates(s, now);
      VerifyOkIff(r.state);
    }
  }

  /** seed_and_verify succeeds exactly when none of the seven collections
      fails, and then its verdict is ok. */
  lemma SeedAndVerifyOk(s: StoreState, now: Timestamp)
    ensures var r := SeedAndVerify(s, now);
      && (r.result.Success? <==> IdentityUp(s) && EventsUp(s))
      && (r.result.Success? ==> r.result.value.verify.ok)
  {
    SeedSucceedsIff(s, now);
    SeedThenVerifyOk(s, now);
  }

  /** When the last document is the only one stamped `at` or later, it is
      the one the latest-first sort puts first. */
  lemma LatestIsLast(docs: seq<Stored>, l: Stored, at: Timestamp)
    requires |docs| > 0 && l in docs
    requires forall d :: d in docs ==> !SortsBefore(d.doc, l.doc)
    requires TimestampField(docs[|docs| - 1].doc) == Some(at)
    requires forall i :: 0 <= i < |docs| - 1 ==> TimestampField(docs[i].doc).None? || TimestampField(docs[i].doc).value < at
    ensures l == docs[|docs| - 1]
  {
    assert !SortsBefore(docs[|docs| - 1].doc, l.doc);
  }

  /** All telemetry in `t` is stamped strictly before `at`, or not at all. */
  ghost predicate TelemetryBefore(t: StoreState, at: Timestamp) {
    forall d :: d in Docs(t, Telemetry) ==> TimestampField(d.doc).None? || TimestampField(d.doc).value < at
  }

  /** The telemetry after a successful seeding: what was there, then the
      three sample points under the ids reported for them. */
  lemma SeedTelemetry(s: StoreState, now: Timestamp)
    ensures var r := Seed(s, now);
      r.result.Success? ==>
        var tele := Docs(r.state, Telemetry);
        && |tele| == |Docs(s, Telemetry)| + 3
        && tele[..|Docs(s, Telemetry)|] == Docs(s, Telemetry)
        && |r.result.value.telemetryIds| == 3
        && OidString(tele[|tele| - 1].oid) == r.result.value.telemetryIds[2]
  {
    var k := SeedKeys(s, now);
    SeedKeysFrame(s, now);
    if k.result.Success? {
      var r := SeedEvents(k.state, k.result.value, now);
      SeedEventIds(k.state, k.result.value, now);
      SeedEventsAppends(k.state, k.result.value, now);
      if r.result.Success? {
        AppendedTelemetry(k.state, r.state, k.result.value, now, r.result.value);
        assert Docs(k.state, Telemetry) == Docs(s, Telemetry);
      }
    }
  }

  /** The appended telemetry follows what was there, the newest point under
      the last reported telemetry id. */
  lemma AppendedTelemetry(t: StoreState, u: StoreState, k: Keys, now: Timestamp, v: SeedResult)
    requires EventsAppended(t, u, k, now) && EventIdsFrom(v, k, t.nextOid)
    ensures var tele := Docs(u, Telemetry);
      && |tele| == |Docs(t, Telemetry)| + 3
      && tele[..|Docs(t, Telemetry)|] == Docs(t, Telemetry)
      && |v.telemetryIds| == 3
      && OidString(tele[|tele| - 1].oid) == v.telemetryIds[2]
  {
    var tele := Docs(u, Telemetry);
    assert tele[|tele| - 1] == Stamped(TelemetryOf(k, now), t.nextOid)[2];
  }

  /** The newest of the appended points is newer than everything before it. */
  lemma NewestIsLast(t: StoreState, u: StoreState, k: Keys, now: Timestamp)
    requires TelemetryBefore(t, now - 1 * Minute) && TelemetryWired(t, u, k, now)
    requires Docs(u, Telemetry)[..|Docs(t, Telemetry)|] == Docs(t, Telemetry)
    ensures var tele := Docs(u, Telemetry);
      && |tele| > 0
      && TimestampField(tele[|tele| - 1].doc) == Some(now - 1 * Minute)
      && forall i :: 0 <= i < |tele| - 1 ==>
           TimestampField(tele[i].doc).None? || TimestampField(tele[i].doc).value < now - 1 * Minute
  {
    var tele, n := Docs(u, Telemetry), |Docs(t, Telemetry)|;
    forall i | 0 <= i < n ensures TimestampField(tele[i].doc).None? || TimestampField(tele[i].doc).value < now - 1 * Minute {
      assert tele[i] == tele[..n][i];
    }
  }

  /** When the last telemetry point is the only one stamped `at` or later,
      verification reports it as the latest. */
  lemma VerifyLatest(u: StoreState, at: Timestamp)
    requires Telemetry !in u.failing
    requires var tele := Docs(u, Telemetry);
      && |tele| > 0
      && TimestampField(tele[|tele| - 1].doc) == Some(at)
      && forall i :: 0 <= i < |tele| - 1 ==> TimestampField(tele[i].doc).None? || TimestampField(tele[i].doc).value < at
    ensures Verify(u).latestTelemetry == Some(Docs(u, Telemetry)[|Docs(u, Telemetry)| - 1])
  {
    LatestIsLast(Docs(u, Telemetry), Verify(u).latestTelemetry.value, at);
  }

  /** When every telemetry point already stored is older than the newest
      sample point, verification right after seeding reports that point,
      stamped one minute before `now`, as the latest telemetry. */
  lemma LatestAfterSeed(s: StoreState, now: Timestamp)
    requires TelemetryBefore(s, now - 1 * Minute)
    ensures var r := Seed(s, now);
      r.result.Success? ==>
        var latest := Verify(r.state).latestTelemetry;
        && latest.Some?
        && TimestampField(latest.value.doc) == Some(now - 1 * Minute)
        && |r.result.value.telemetryIds| == 3
        && OidString(latest.value.oid) == r.result.value.telemetryIds[2]
  {
    var r := Seed(s, now);
    if r.result.Success? {
      SeedSucceedsIff(s, now);
      SeedTelemetry(s, now);
      SeedEventsWired(s, now);
      NewestIsLast(s, r.state, KeysOf(r.result.value), now);
      VerifyLatest(r.state, now - 1 * Minute);
    }
  }
}
