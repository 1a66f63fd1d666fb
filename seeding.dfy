/** What seed_sample_data promises as a whole: the event documents it
    always appends, the ids it wires between documents, and what seeding a
    second time does. */
module Seeding {
  import opened Wrappers
  import opened GeoJson
  import opened Models
  import opened Store
  import opened Workflow
  import opened Properties

  /** The three event collections, which are always appended to. */
  predicate IsEventCollection(c: Collection) {
    c == Telemetry || c == Alerts || c == Sightings
  }

  /** The three telemetry documents of a seeding with keys `k`. */
  function TelemetryOf(k: Keys, now: Timestamp): seq<Doc> {
    TelemetryDocs(SampleTelemetry(k.animalId, k.deviceId, now))
  }

  /** Documents stored under consecutive ObjectIds from `from`. */
  function Stamped(docs: seq<Doc>, from: nat): (r: seq<Stored>)
    ensures |r| == |docs|
    ensures forall i :: 0 <= i < |docs| ==> r[i] == Stored(from + i, docs[i])
  {
    seq(|docs|, i requires 0 <= i < |docs| => Stored(from + i, docs[i]))
  }

  /** A successful run leaves every collection as it was, followed by the
      documents the run appended to it: inserts only ever append. */
  lemma {:induction false} InsertRunDocs(s: StoreState, run: seq<Insertion>, c: Collection)
    ensures var r := InsertRun(s, run);
      r.result.Success? ==> Docs(r.state, c) == Docs(s, c) + Added(run, c, s.nextOid)
  {
    if run != [] {
      var prev := InsertRun(s, run[..|run| - 1]);
      InsertRunDocs(s, run[..|run| - 1], c);
      if InsertRun(s, run).result.Success? && run[|run| - 1].name == c {
        var last := run[|run| - 1];
        assert Docs(InsertRun(s, run).state, c) == Docs(prev.state, c) + [Stored(prev.state.nextOid, last.doc)];
      }
    }
  }

  /** A run of inserts keeps every ObjectId below the counter. */
  lemma {:induction false} InsertRunValid(s: StoreState, run: seq<Insertion>)
    requires Valid(s)
    ensures Valid(InsertRun(s, run).state)
  {
    if run != [] {
      var prev := InsertRun(s, run[..|run| - 1]);
      InsertRunValid(s, run[..|run| - 1]);
      if prev.result.Success? && run[|run| - 1].name !in s.failing {
        AppendValid(prev.state, run[|run| - 1].name, run[|run| - 1].doc);
      }
    }
  }

  /** A run leaves alone, whatever its outcome, every collection it does
      not insert into. */
  lemma {:induction false} InsertRunFrame(s: StoreState, run: seq<Insertion>, c: Collection)
    requires forall j :: 0 <= j < |run| ==> run[j].name != c
    ensures Docs(InsertRun(s, run).state, c) == Docs(s, c)
  {
    if run != [] {
      InsertRunFrame(s, run[..|run| - 1], c);
    }
  }

  /** Appending one insertion to a run appends at most one document. */
  lemma AddedSnoc(run: seq<Insertion>, x: Insertion, c: Collection, from: nat)
    ensures Added(run + [x], c, from) ==
      Added(run, c, from) + if x.name == c then [Stored(from + |run|, x.doc)] else []
  {
    assert (run + [x])[..|run|] == run;
  }

  /** The telemetry loop appends its documents, in order, under consecutive
      ObjectIds, and nothing to any other collection. */
  lemma {:induction false} AddedInsertions(name: Collection, docs: seq<Doc>, c: Collection, from: nat)
    ensures Added(Insertions(name, docs), c, from) == if c == name then Stamped(docs, from) else []
  {
    if docs != [] {
      var init, last := docs[..|docs| - 1], docs[|docs| - 1];
      AddedInsertions(name, init, c, from);
      LastSplit(name, docs, from);
      AddedSnoc(Insertions(name, init), Insertion(name, last), c, from);
    }
  }

  /** Splitting off the last document splits off the last insertion and the
      last stored document. */
  lemma LastSplit(name: Collection, docs: seq<Doc>, from: nat)
    requires docs != []
    ensures var init, last := docs[..|docs| - 1], docs[|docs| - 1];
      && Insertions(name, docs) == Insertions(name, init) + [Insertion(name, last)]
      && Stamped(docs, from) == Stamped(init, from) + [Stored(from + |init|, last)]
  {
  }

  /** What steps 5-7 append to collection `c` when they start at ObjectId
      `from`: the three telemetry points, then the alert, then the
      sighting. */
  function EventDocs(k: Keys, now: Timestamp, c: Collection, from: nat): seq<Stored> {
    if c == Telemetry then Stamped(TelemetryOf(k, now), from)
    else if c == Alerts then [Stored(from + 3, AlertDoc(SampleAlert(k.animalId, k.geofenceId, now)))]
    else if c == Sightings then [Stored(from + 4, SightingDoc(SampleSighting(k.userId, now)))]
    else []
  }

  /** Three telemetry inserts, then an alert and a sighting: what each
      collection gains, whatever the documents. */
  lemma AddedEvents(docs: seq<Doc>, alert: Doc, sighting: Doc, c: Collection, from: nat)
    requires |docs| == 3
    ensures Added(Insertions(Telemetry, docs) + [Insertion(Alerts, alert)] + [Insertion(Sightings, sighting)], c, from) ==
      if c == Telemetry then Stamped(docs, from)
      else if c == Alerts then [Stored(from + 3, alert)]
      else if c == Sightings then [Stored(from + 4, sighting)]
      else []
  {
    var tele := Insertions(Telemetry, docs);
    AddedInsertions(Telemetry, docs, c, from);
    AddedSnoc(tele, Insertion(Alerts, alert), c, from);
    AddedSnoc(tele + [Insertion(Alerts, alert)], Insertion(Sightings, sighting), c, from);
    if c == Telemetry {
      assert Added(tele + [Insertion(Alerts, alert)], c, from) == Stamped(docs, from) + [];
    } else if c == Alerts {
      assert Added(tele + [Insertion(Alerts, alert)], c, from) == [] + [Stored(from + 3, alert)];
    }
  }

  /** The documents the insertions of steps 5-7 append, collection by
      collection. */
  lemma EventRunAdded(k: Keys, now: Timestamp, c: Collection, from: nat)
    ensures Added(EventRun(k, now), c, from) == EventDocs(k, now, c, from)
  {
    AddedEvents(TelemetryOf(k, now), AlertDoc(SampleAlert(k.animalId, k.geofenceId, now)),
                SightingDoc(SampleSighting(k.userId, now)), c, from);
  }

  /** The collection of each insertion of steps 5-7. */
  lemma EventRunNames(k: Keys, now: Timestamp)
    ensures var run := EventRun(k, now);
      && |run| == 5
      && run[0].name == Telemetry && run[3].name == Alerts && run[4].name == Sightings
      && forall j :: 0 <= j < |run| ==> IsEventCollection(run[j].name)
  {
  }

  /** Steps 5-7 succeed exactly when no event collection fails, and touch
      nothing but the event collections. */
  lemma SeedEventsFrame(s: StoreState, k: Keys, now: Timestamp)
    ensures var r := SeedEvents(s, k, now);
      && (r.result.Success? <==> EventsUp(s))
      && r.state.failing == s.failing
      && (forall c :: !IsEventCollection(c) ==> Docs(r.state, c) == Docs(s, c))
  {
    EventRunNames(k, now);
    forall c | !IsEventCollection(c) {
      InsertRunFrame(s, EventRun(k, now), c);
    }
  }

  /** The ids of the four upserted documents, as `seed_sample_data` reports them. */
  function KeysOf(v: SeedResult): Keys {
    Keys(v.usersId, v.animalsId, v.devicesId, v.geofenceId)
  }

  /** `v` passes the keys `k` through and reports the five ObjectIds from
      `from` on as the telemetry, alert and sighting ids. */
  predicate EventIdsFrom(v: SeedResult, k: Keys, from: nat) {
    && KeysOf(v) == k
    && v.telemetryIds == [OidString(from), OidString(from + 1), OidString(from + 2)]
    && v.alertId == OidString(from + 3)
    && v.sightingId == OidString(from + 4)
  }

  /** The five event ids a seeding reports: telemetry, alert, sighting. */
  function EventIds(v: SeedResult): seq<string> {
    v.telemetryIds + [v.alertId, v.sightingId]
  }

  /** From `t` to `u` the three telemetry points of a seeding with keys `k`
      were appended under the next three ObjectIds, then the alert and the
      sighting under the two after. */
  ghost predicate EventsAppended(t: StoreState, u: StoreState, k: Keys, now: Timestamp) {
    && Docs(u, Telemetry) == Docs(t, Telemetry) + Stamped(TelemetryOf(k, now), t.nextOid)
    && Docs(u, Alerts) == Docs(t, Alerts) + [Stored(t.nextOid + 3, AlertDoc(SampleAlert(k.animalId, k.geofenceId, now)))]
    && Docs(u, Sightings) == Docs(t, Sightings) + [Stored(t.nextOid + 4, SightingDoc(SampleSighting(k.userId, now)))]
  }

  /** Steps 5-7, when they succeed, report the ids of the five event
      documents, consecutive from the next free ObjectId; the keys pass
      through. */
  lemma SeedEventIds(s: StoreState, k: Keys, now: Timestamp)
    ensures var r := SeedEvents(s, k, now);
      r.result.Success? ==> r.state.nextOid == s.nextOid + 5 && EventIdsFrom(r.result.value, k, s.nextOid)
  {
    var run := InsertRun(s, EventRun(k, now));
    if run.result.Success? {
      EventRunNames(k, now);
      assert run.result.value[..3] == [run.result.value[0], run.result.value[1], run.result.value[2]];
    }
  }

  /** Steps 5-7, when they succeed, append to each collection the event
      documents meant for it, after the ones already there. */
  lemma SeedEventsDocs(s: StoreState, k: Keys, now: Timestamp, c: Collection)
    ensures var r := SeedEvents(s, k, now);
      r.result.Success? ==> Docs(r.state, c) == Docs(s, c) + EventDocs(k, now, c, s.nextOid)
  {
    InsertRunDocs(s, EventRun(k, now), c);
    EventRunAdded(k, now, c, s.nextOid);
  }

  /** Steps 5-7, when they succeed, append the event documents after the
      existing ones. */
  lemma SeedEventsAppends(s: StoreState, k: Keys, now: Timestamp)
    ensures var r := SeedEvents(s, k, now);
      r.result.Success? ==> EventsAppended(s, r.state, k, now)
  {
    SeedEventsDocs(s, k, now, Telemetry);
    SeedEventsDocs(s, k, now, Alerts);
    SeedEventsDocs(s, k, now, Sightings);
  }

  /** Consecutive ObjectIds from `from` are pairwise distinct and differ from
      every ObjectId issued before `from`. */
  lemma EventIdsFresh(v: SeedResult, k: Keys, from: nat)
    requires EventIdsFrom(v, k, from)
    ensures var ids := EventIds(v);
      && |ids| == 5
      && (forall i, j :: 0 <= i < j < |ids| ==> ids[i] != ids[j])
      && forall n: nat, i :: n < from && 0 <= i < |ids| ==> OidString(n) != ids[i]
  {
    var ids := EventIds(v);
    EventIdsConsecutive(v, k, from);
    forall i, j | 0 <= i < j < |ids| ensures ids[i] != ids[j] {
      OidStringInjective(from + i, from + j);
    }
    forall n: nat, i | n < from && 0 <= i < |ids| ensures OidString(n) != ids[i] {
      OidStringInjective(n, from + i);
    }
  }

  /** The appended telemetry points refer to the animal and the device of
      `k`, and were taken 10, 5 and 1 minutes before `now`. */
  ghost predicate TelemetryWired(t: StoreState, u: StoreState, k: Keys, now: Timestamp) {
    var tele := Docs(u, Telemetry);
    && |tele| == |Docs(t, Telemetry)| + 3
    && (forall i :: |Docs(t, Telemetry)| <= i < |tele| ==>
          && tele[i].doc.TelemetryDoc?
          && tele[i].doc.point.animalId == Some(k.animalId)
          && tele[i].doc.point.deviceId == Some(k.deviceId))
    && TimestampField(tele[|tele| - 3].doc) == Some(now - 10 * Minute)
    && TimestampField(tele[|tele| - 2].doc) == Some(now - 5 * Minute)
    && TimestampField(tele[|tele| - 1].doc) == Some(now - 1 * Minute)
  }

  /** The appended alert refers to the animal and, in its metadata, to the
      geofence of `k`; the appended sighting to the user as reporter. */
  ghost predicate AlertSightingWired(t: StoreState, u: StoreState, k: Keys) {
    var alerts, sightings := Docs(u, Alerts), Docs(u, Sightings);
    && |alerts| == |Docs(t, Alerts)| + 1
    && alerts[|alerts| - 1].doc.AlertDoc?
    && alerts[|alerts| - 1].doc.alert.animalId == Some(k.animalId)
    && alerts[|alerts| - 1].doc.alert.metadata == Some(map["geofence_id" := k.geofenceId, "severity" := "medium"])
    && |sightings| == |Docs(t, Sightings)| + 1
    && sightings[|sightings| - 1].doc.SightingDoc?
    && sightings[|sightings| - 1].doc.sighting.reporterId == Some(k.userId)
  }

  /** The sample telemetry, as stored documents. */
  lemma TelemetryOfShape(k: Keys, now: Timestamp)
    ensures var docs := TelemetryOf(k, now);
      && |docs| == 3
      && (forall i :: 0 <= i < 3 ==>
            docs[i].TelemetryDoc? && docs[i].point.animalId == Some(k.animalId) && docs[i].point.deviceId == Some(k.deviceId))
      && TimestampField(docs[0]) == Some(now - 10 * Minute)
      && TimestampField(docs[1]) == Some(now - 5 * Minute)
      && TimestampField(docs[2]) == Some(now - 1 * Minute)
  {
    var points := SampleTelemetry(k.animalId, k.deviceId, now);
    assert TelemetryOf(k, now) == [TelemetryDoc(points[0]), TelemetryDoc(points[1]), TelemetryDoc(points[2])];
  }

  /** Appending the telemetry wires it to the keys. */
  lemma AppendedTelemetryWired(t: StoreState, u: StoreState, k: Keys, now: Timestamp)
    requires Docs(u, Telemetry) == Docs(t, Telemetry) + Stamped(TelemetryOf(k, now), t.nextOid)
    ensures TelemetryWired(t, u, k, now)
  {
    TelemetryOfShape(k, now);
    var n := |Docs(t, Telemetry)|;
    var tele := Docs(u, Telemetry);
    assert forall i :: n <= i < |tele| ==> tele[i].doc == TelemetryOf(k, now)[i - n];
  }

  /** Appending the events wires them to the keys. */
  lemma AppendedWired(t: StoreState, u: StoreState, k: Keys, now: Timestamp)
    requires EventsAppended(t, u, k, now)
    ensures TelemetryWired(t, u, k, now) && AlertSightingWired(t, u, k)
  {
    AppendedTelemetryWired(t, u, k, now);
  }

  /** Seeding succeeds exactly when none of the seven collections fails;
      it never changes which collections fail, and issues ids only forward. */
  lemma SeedSucceedsIff(s: StoreState, now: Timestamp)
    ensures var r := Seed(s, now);
      && (r.result.Success? <==> IdentityUp(s) && EventsUp(s))
      && r.state.failing == s.failing
      && s.nextOid <= r.state.nextOid
  {
    var k := SeedKeys(s, now);
    SeedKeysSucceedsIff(s, now);
    SeedKeysFrame(s, now);
    if k.result.Success? {
      SeedEventsFrame(k.state, k.result.value, now);
    }
  }

  /** After a successful seeding each natural key finds the document whose id
      was reported for it: the event inserts do not disturb them. */
  lemma SeedKeysKept(s: StoreState, now: Timestamp)
    ensures var r := Seed(s, now);
      r.result.Success? ==> KeysAt(r.state, KeysOf(r.result.value))
  {
    var k := SeedKeys(s, now);
    if k.result.Success? {
      SeedKeysEstablished(s, now);
      SeedEventsFrame(k.state, k.result.value, now);
      SeedEventIds(k.state, k.result.value, now);
      var t := SeedEvents(k.state, k.result.value, now).state;
      assert Docs(t, Users) == Docs(k.state, Users) && Docs(t, Animals) == Docs(k.state, Animals);
      assert Docs(t, Devices) == Docs(k.state, Devices) && Docs(t, Geofences) == Docs(k.state, Geofences);
    }
  }

  /** The event documents a successful seeding appends refer to the
      reported ids; with SeedKeysKept, each reference resolves to the document
      its natural key finds. */
  lemma SeedEventsWired(s: StoreState, now: Timestamp)
    ensures var r := Seed(s, now);
      r.result.Success? ==> TelemetryWired(s, r.state, KeysOf(r.result.value), now) && AlertSightingWired(s, r.state, KeysOf(r.result.value))
  {
    var k := SeedKeys(s, now);
    SeedKeysFrame(s, now);
    if k.result.Success? {
      var r := SeedEvents(k.state, k.result.value, now);
      SeedEventIds(k.state, k.result.value, now);
      SeedEventsAppends(k.state, k.result.value, now);
      if r.result.Success? {
        AppendedWired(k.state, r.state, k.result.value, now);
        assert Docs(k.state, Telemetry) == Docs(s, Telemetry) && Docs(k.state, Alerts) == Docs(s, Alerts);
        assert Docs(k.state, Sightings) == Docs(s, Sightings);
      }
    }
  }

  /** When no device matched the device key before, a successful seeding
      inserts the device, wired to the reported animal, as the document the
      device key finds. A device already there is left as it was, whatever
      animal it refers to. */
  lemma SeedDeviceWired(s: StoreState, now: Timestamp)
    ensures var r := Seed(s, now);
      r.result.Success? && FirstMatch(Docs(s, Devices), DeviceKey).None? ==>
        var docs := Docs(r.state, Devices);
        && FirstMatch(docs, DeviceKey) == Some(|Docs(s, Devices)|)
        && docs[|Docs(s, Devices)|].doc == DeviceDoc(SampleDevice(r.result.value.animalsId, now))
  {
    var k := SeedKeys(s, now);
    SeedKeysDeviceWired(s, now);
    if k.result.Success? {
      SeedEventsFrame(k.state, k.result.value, now);
      SeedEventIds(k.state, k.result.value, now);
    }
  }

  /** When no geofence matched the geofence key before, a successful seeding
      inserts the geofence, created by the reported user, as the document
      the geofence key finds. */
  lemma SeedGeofenceWired(s: StoreState, now: Timestamp)
    ensures var r := Seed(s, now);
      r.result.Success? && FirstMatch(Docs(s, Geofences), GeofenceKey).None? ==>
        var docs := Docs(r.state, Geofences);
        && FirstMatch(docs, GeofenceKey) == Some(|Docs(s, Geofences)|)
        && docs[|Docs(s, Geofences)|].doc == GeofenceDoc(SampleGeofence(r.result.value.usersId, now))
  {
    var k := SeedKeys(s, now);
    SeedKeysGeofenceWired(s, now);
    if k.result.Success? {
      SeedEventsFrame(k.state, k.result.value, now);
      SeedEventIds(k.state, k.result.value, now);
    }
  }

  /** Seeding a second time, at any later clock reading, reuses the four
      upserted documents (same ids, identity collections unchanged) and
      appends three more telemetry points, one more alert and one more
      sighting. */
  lemma SeedTwice(s: StoreState, now: Timestamp, later: Timestamp)
    ensures var r := Seed(s, now);
      r.result.Success? ==>
        var r2 := Seed(r.state, later);
        && r2.result.Success?
        && KeysOf(r2.result.value) == KeysOf(r.result.value)
        && (forall c :: IsIdentityCollection(c) ==> Docs(r2.state, c) == Docs(r.state, c))
        && EventsAppended(r.state, r2.state, KeysOf(r.result.value), later)
  {
    var r := Seed(s, now);
    if r.result.Success? {
      var k := KeysOf(r.result.value);
      SeedKeysAfterSeed(s, now, later);
      SeedEventsFrame(r.state, k, later);
      SeedEventIds(r.state, k, later);
      SeedEventsAppends(r.state, k, later);
    }
  }

  /** After a successful seeding, the four upserts of a second one find the
      documents of the first and change nothing, and the event collections
      are still up. */
  lemma SeedKeysAfterSeed(s: StoreState, now: Timestamp, later: Timestamp)
    ensures var r := Seed(s, now);
      r.result.Success? ==>
        && SeedKeys(r.state, later) == Step(r.state, Success(KeysOf(r.result.value)))
        && EventsUp(r.state)
  {
    var r := Seed(s, now);
    if r.result.Success? {
      SeedSucceedsIff(s, now);
      SeedKeysKept(s, now);
      SeedKeysAgain(r.state, KeysOf(r.result.value), later);
    }
  }

  /** Event ids issued from `m` on differ from the five issued from `n`
      when `m` comes at least five later. */
  lemma LaterEventIdsDiffer(v: SeedResult, k: Keys, n: nat, w: SeedResult, k2: Keys, m: nat)
    requires EventIdsFrom(v, k, n) && EventIdsFrom(w, k2, m) && n + 5 <= m
    ensures forall i, j :: 0 <= i < |EventIds(w)| && 0 <= j < |EventIds(v)| ==> EventIds(w)[i] != EventIds(v)[j]
  {
    EventIdsConsecutive(v, k, n);
    EventIdsConsecutive(w, k2, m);
    forall i, j | 0 <= i < 5 && 0 <= j < 5 ensures EventIds(w)[i] != EventIds(v)[j] {
      OidStringInjective(m + i, n + j);
    }
  }

  /** The reported event ids, one by one. */
  lemma EventIdsConsecutive(v: SeedResult, k: Keys, from: nat)
    requires EventIdsFrom(v, k, from)
    ensures |EventIds(v)| == 5 && forall i :: 0 <= i < 5 ==> EventIds(v)[i] == OidString(from + i)
  {
    assert EventIds(v) == [OidString(from), OidString(from + 1), OidString(from + 2), OidString(from + 3), OidString(from + 4)];
  }

  /** Seeding twice reports new telemetry, alert and sighting ids the second
      time: none of them is one the first seeding reported. */
  lemma SeedTwiceNewEventIds(s: StoreState, now: Timestamp, later: Timestamp)
    ensures var r := Seed(s, now);
      r.result.Success? ==>
        var r2 := Seed(r.state, later);
        && r2.result.Success?
        && forall i, j :: 0 <= i < |EventIds(r2.result.value)| && 0 <= j < |EventIds(r.result.value)| ==>
             EventIds(r2.result.value)[i] != EventIds(r.result.value)[j]
  {
    var r := Seed(s, now);
    if r.result.Success? {
      var k := SeedKeys(s, now);
      SeedEventIds(k.state, k.result.value, now);
      SeedTwice(s, now, later);
      var k2 := SeedKeys(r.state, later);
      SeedKeysFrame(r.state, later);
      SeedEventIds(k2.state, k2.result.value, later);
      LaterEventIdsDiffer(r.result.value, k.result.value, k.state.nextOid,
                          Seed(r.state, later).result.value, k2.result.value, k2.state.nextOid);
    }
  }

  /** Seeding, successful or not, keeps every ObjectId below the counter, so
      later ids stay fresh. */
  lemma SeedValid(s: StoreState, now: Timestamp)
    requires Valid(s)
    ensures Valid(Seed(s, now).state)
  {
    var owners := UpsertRun(s, OwnerRun(now));
    UpsertRunValid(s, OwnerRun(now));
    if owners.result.Success? {
      var dependents := UpsertRun(owners.state, DependentRun(owners.result.value[0], owners.result.value[1], now));
      UpsertRunValid(owners.state, DependentRun(owners.result.value[0], owners.result.value[1], now));
      if dependents.result.Success? {
        var k := SeedKeys(s, now);
        InsertRunValid(k.state, EventRun(k.result.value, now));
      }
    }
  }

  /** Every event document gets a new ObjectId: the reported event ids are
      pairwise distinct and differ from the id of every document already in
      the store. */
  lemma SeedEventIdsFresh(s: StoreState, now: Timestamp)
    requires Valid(s)
    ensures var r := Seed(s, now);
      r.result.Success? ==>
        var ids := EventIds(r.result.value);
        && |ids| == 5
        && (forall i, j :: 0 <= i < j < |ids| ==> ids[i] != ids[j])
        && forall c, d, i :: c in s.collections && d in s.collections[c] && 0 <= i < |ids| ==> OidString(d.oid) != ids[i]
  {
    var k := SeedKeys(s, now);
    SeedKeysFrame(s, now);
    if k.result.Success? {
      SeedEventIds(k.state, k.result.value, now);
      var r := SeedEvents(k.state, k.result.value, now);
      if r.result.Success? {
        EventIdsFresh(r.result.value, k.result.value, k.state.nextOid);
      }
    }
  }
}
