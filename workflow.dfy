/** What the sample-data workflow of wildlife_tracking_backend/src/api/sample_data.py
    does to a store, as functions from a store state to the new state and the
    result (a value, or the error that propagates). The methods in SampleData
    are proved to compute exactly these. */
module Workflow {
  import opened Wrappers
  import opened GeoJson
  import opened Models
  import opened Store

  /** `_insert_one`: insert and return the string form of the new ObjectId. */
  function InsertOne(s: StoreState, name: Collection, doc: Doc): (r: Step<string>)
    ensures r.result.Success? <==> name !in s.failing
    ensures r.result.Failure? ==> r.state == s && r.result.error == OperationFailed(name)
    ensures r.result.Success? ==> r.result.value == OidString(s.nextOid) && r.state == Append(s, name, doc)
  {
    var i := Insert(s, name, doc);
    Step(i.state, if i.result.Failure? then Failure(i.result.error) else Success(OidString(i.result.value)))
  }

  /** The reply of `_upsert_one` once nothing was upserted: the id of the
      document the follow-up lookup found, or "" when it found none. */
  function ExistingId(existing: Option<Stored>): (id: string)
    ensures id == "" <==> existing.None?
    ensures existing.Some? ==> id == OidString(existing.value.oid)
  {
    if existing.Some? then OidString(existing.value.oid) else ""
  }

  /** `_upsert_one`: upsert `doc` under the natural-key filter `q` and return
      the id of the inserted or of the first matching document. */
  function UpsertOne(s: StoreState, name: Collection, q: Query, doc: Doc): (r: Step<string>)
    ensures r.result.Success? <==> name !in s.failing
    ensures r.result.Failure? ==> r.state == s && r.result.error == OperationFailed(name)
    ensures r.result.Success? && FirstMatch(Docs(s, name), q).Some? ==>
      && r.state == s
      && r.result.value == OidString(Docs(s, name)[FirstMatch(Docs(s, name), q).value].oid)
    ensures r.result.Success? && FirstMatch(Docs(s, name), q).None? ==>
      r.result.value == OidString(s.nextOid) && r.state == Append(s, name, doc)
    ensures r.result.Success? ==> r.result.value != ""
  {
    var u := Upsert(s, name, q, doc);
    if u.result.Failure? then Step(u.state, Failure(u.result.error))
    else if u.result.value.Some? then Step(u.state, Success(OidString(u.result.value.value)))
    else
      var existing := Find(u.state, name, q);
      if existing.Failure? then Step(u.state, Failure(OperationFailed(name)))
      else Step(u.state, Success(ExistingId(existing.value)))
  }

  /** One `_insert_one` call: the collection and the document. */
  datatype Insertion = Insertion(name: Collection, doc: Doc)

  /** A run of `_insert_one` calls in order, collecting the ids; the first
      failure ends the run and propagates. Every insertion gets the next
      ObjectId. */
  function InsertRun(s: StoreState, run: seq<Insertion>): (r: Step<seq<string>>)
    ensures r.result.Success? <==> forall j :: 0 <= j < |run| ==> run[j].name !in s.failing
    ensures r.result.Success? ==>
      && |r.result.value| == |run|
      && r.state.nextOid == s.nextOid + |run|
      && forall j :: 0 <= j < |run| ==> r.result.value[j] == OidString(s.nextOid + j)
    ensures r.state.failing == s.failing && s.nextOid <= r.state.nextOid
  {
    if run == [] then Step(s, Success([]))
    else
      var prev := InsertRun(s, run[..|run| - 1]);
      if prev.result.Failure? then prev
      else
        var last := run[|run| - 1];
        var i := InsertOne(prev.state, last.name, last.doc);
        if i.result.Failure? then Step(i.state, Failure(i.result.error))
        else Step(i.state, Success(prev.result.value + [i.result.value]))
  }

  /** Once an insertion of a run has failed, the remaining ones are not attempted. */
  lemma {:induction false} InsertRunStops(s: StoreState, run: seq<Insertion>, k: nat)
    requires k <= |run|
    requires InsertRun(s, run[..k]).result.Failure?
    ensures InsertRun(s, run) == InsertRun(s, run[..k])
  {
    if k < |run| {
      assert run[..|run| - 1][..k] == run[..k];
      InsertRunStops(s, run[..|run| - 1], k);
    } else {
      assert run[..k] == run;
    }
  }

  /** A run with one more insertion: the run, then that insertion unless
      the run failed. */
  lemma InsertRunSnoc(s: StoreState, run: seq<Insertion>, x: Insertion)
    ensures var prev := InsertRun(s, run);
      InsertRun(s, run + [x]) ==
        if prev.result.Failure? then prev
        else
          var i := InsertOne(prev.state, x.name, x.doc);
          if i.result.Failure? then Step(i.state, Failure(i.result.error))
          else Step(i.state, Success(prev.result.value + [i.result.value]))
  {
    assert (run + [x])[..|run|] == run;
  }

  /** The documents a successful run starting at ObjectId `from` appends to
      collection `c`, in order. */
  function Added(run: seq<Insertion>, c: Collection, from: nat): seq<Stored> {
    if run == [] then []
    else
      var last := run[|run| - 1];
      Added(run[..|run| - 1], c, from) + if last.name == c then [Stored(from + |run| - 1, last.doc)] else []
  }

  /** The insertions of the telemetry loop. */
  function Insertions(name: Collection, docs: seq<Doc>): (run: seq<Insertion>)
    ensures |run| == |docs|
    ensures forall i :: 0 <= i < |docs| ==> run[i] == Insertion(name, docs[i])
  {
    seq(|docs|, i requires 0 <= i < |docs| => Insertion(name, docs[i]))
  }

  // The sample documents of seed_sample_data, given the ids they reference
  // and the clock reading `now`.

  /** Step 1: the researcher, who carries the email the upsert filters on. */
  function SampleUser(now: Timestamp): User {
    User(email := "researcher@example.org", name := "Dr. Asha Rao", role := Researcher, createdAt := now)
  }

  /** What `SampleUser` builds. */
  lemma SampleUserFields(now: Timestamp)
    ensures var u := SampleUser(now);
      Matches(UserKey, UserDoc(u))
    ensures var u := SampleUser(now);
      u.role == Researcher && u.createdAt == now && u.updatedAt == now
  {
  }

  /** Step 2: the tagged sloth bear, which carries the tag_id the upsert
      filters on. */
  function SampleAnimal(now: Timestamp): Animal {
    Animal(species := "Sloth Bear", tagId := "SB-001", sex := Some(Female), ageYears := Some(7.5),
           name := Some("Tara"), createdAt := now)
  }

  /** What `SampleAnimal` builds. */
  lemma SampleAnimalFields(now: Timestamp)
    ensures var a := SampleAnimal(now);
      Matches(AnimalKey, AnimalDoc(a))
    ensures var a := SampleAnimal(now);
      a.sex == Some(Female) && a.createdAt == now && a.updatedAt == now
  {
  }

  /** Step 3: the collar, linked to the animal `animalId`, last seen at
      `now`; it carries the device_id the upsert filters on. */
  function SampleDevice(animalId: string, now: Timestamp): Device {
    Device(deviceId := "DEV-ALPHA-001", animalId := Some(animalId), status := Active,
           batteryLevel := Some(88.5), lastSeenAt := Some(now), createdAt := now)
  }

  /** What `SampleDevice` builds. */
  lemma SampleDeviceFields(animalId: string, now: Timestamp)
    ensures var d := SampleDevice(animalId, now);
      Matches(DeviceKey, DeviceDoc(d))
    ensures var d := SampleDevice(animalId, now);
      d.animalId == Some(animalId) && d.status == Active && d.lastSeenAt == Some(now)
  {
  }

  /** The square around the Bandipur reserve, one closed ring. */
  const BandipurZoneA: seq<Ring> := [[[76.62, 11.64], [76.72, 11.64], [76.72, 11.72], [76.62, 11.72], [76.62, 11.64]]]

  /** Step 4: the active geofence created by the user `userId`; its boundary
      is a GeoJSON polygon of one closed ring, and it carries the name the
      upsert filters on. */
  function SampleGeofence(userId: string, now: Timestamp): Geofence {
    Geofence(name := "Bandipur Zone A", description := Some("Core monitoring area for sloth bears."),
             active := true,
             geometry := GeoPolygon(BandipurZoneA),
             createdBy := Some(userId), createdAt := now)
  }

  /** What `SampleGeofence` builds. */
  lemma SampleGeofenceFields(userId: string, now: Timestamp)
    ensures var g := SampleGeofence(userId, now);
      Matches(GeofenceKey, GeofenceDoc(g))
    ensures var g := SampleGeofence(userId, now);
      g.createdBy == Some(userId) && g.active
    ensures var g := SampleGeofence(userId, now);
      IsPolygon(g.geometry) && |g.geometry.rings| == 1
  {
  }

  /** Three points along a short path, 10, 5 and 1 minutes before `now`. */
  function SampleTelemetry(animalId: string, deviceId: string, now: Timestamp): seq<TelemetryPoint> {
    [ TelemetryPoint(animalId := Some(animalId), deviceId := Some(deviceId), timestamp := now - 10 * Minute,
                     location := GeoPoint(76.65, 11.66), speedKmh := Some(3.1), heartRateBpm := Some(55.0),
                     temperatureC := Some(36.8)),
      TelemetryPoint(animalId := Some(animalId), deviceId := Some(deviceId), timestamp := now - 5 * Minute,
                     location := GeoPoint(76.67, 11.68), speedKmh := Some(4.2), heartRateBpm := Some(58.0),
                     temperatureC := Some(36.9)),
      TelemetryPoint(animalId := Some(animalId), deviceId := Some(deviceId), timestamp := now - 1 * Minute,
                     location := GeoPoint(76.69, 11.70), speedKmh := Some(2.5), heartRateBpm := Some(54.0),
                     temperatureC := Some(36.7)) ]
  }

  /** What `SampleTelemetry` builds. */
  lemma SampleTelemetryFields(animalId: string, deviceId: string, now: Timestamp)
    ensures var ps := SampleTelemetry(animalId, deviceId, now);
      |ps| == 3
    ensures var ps := SampleTelemetry(animalId, deviceId, now);
      forall i :: 0 <= i < |ps| ==>
        ps[i].animalId == Some(animalId) && ps[i].deviceId == Some(deviceId) && IsPoint(ps[i].location)
    ensures var ps := SampleTelemetry(animalId, deviceId, now);
      ps[0].timestamp == now - 10 * Minute && ps[1].timestamp == now - 5 * Minute
    ensures var ps := SampleTelemetry(animalId, deviceId, now);
      ps[2].timestamp == now - 1 * Minute
  {
  }

  function TelemetryDocs(points: seq<TelemetryPoint>): (docs: seq<Doc>)
    ensures |docs| == |points|
    ensures forall i :: 0 <= i < |points| ==> docs[i] == TelemetryDoc(points[i])
  {
    seq(|points|, i requires 0 <= i < |points| => TelemetryDoc(points[i]))
  }

  /** Step 6: an open geofence-breach alert about the animal `animalId`,
      whose metadata names the geofence `geofenceId`. */
  function SampleAlert(animalId: string, geofenceId: string, now: Timestamp): Alert {
    Alert(animalId := Some(animalId), kind := GeofenceBreach,
          message := "Animal Tara crossed the northern boundary of Bandipur Zone A.", status := Open,
          createdAt := now, metadata := Some(map["geofence_id" := geofenceId, "severity" := "medium"]))
  }

  /** What `SampleAlert` builds. */
  lemma SampleAlertFields(animalId: string, geofenceId: string, now: Timestamp)
    ensures var a := SampleAlert(animalId, geofenceId, now);
      a.animalId == Some(animalId) && a.kind == GeofenceBreach && a.status == Open
    ensures var a := SampleAlert(animalId, geofenceId, now);
      a.metadata.Some? && "geofence_id" in a.metadata.value && a.metadata.value["geofence_id"] == geofenceId
  {
  }

  /** Step 7: a sighting reported by the user `userId` one hour before
      `now`, located at a GeoJSON point. */
  function SampleSighting(userId: string, now: Timestamp): Sighting {
    Sighting(species := "Sloth Bear", reporterId := Some(userId), timestamp := now - Hour,
             location := GeoPoint(76.68, 11.69), notes := Some("Observed foraging near termite mound. No cubs observed."),
             mediaUrls := Some(["https://example.org/media/sighting1.jpg"]), confidence := Some(0.9))
  }

  /** What `SampleSighting` builds. */
  lemma SampleSightingFields(userId: string, now: Timestamp)
    ensures var x := SampleSighting(userId, now);
      x.reporterId == Some(userId) && x.timestamp == now - Hour && IsPoint(x.location)
  {
  }

  /** The natural keys the four identity-bearing documents are upserted on. */
  const UserKey: Query := Query(EmailField, "researcher@example.org")
  const AnimalKey: Query := Query(TagIdField, "SB-001")
  const DeviceKey: Query := Query(DeviceIdField, "DEV-ALPHA-001")
  const GeofenceKey: Query := Query(NameField, "Bandipur Zone A")

  /** `SeedResult`. */
  datatype SeedResult = SeedResult(
    usersId: string,
    animalsId: string,
    devicesId: string,
    telemetryIds: seq<string>,
    geofenceId: string,
    alertId: string,
    sightingId: string)

  /** The ids of the four upserted documents. */
  datatype Keys = Keys(userId: string, animalId: string, deviceId: string, geofenceId: string)

  /** One `_upsert_one` call: the collection, the natural-key filter, and
      the document inserted when nothing matches it. */
  datatype Upsertion = Upsertion(name: Collection, key: Query, doc: Doc)

  /** A run of `_upsert_one` calls in order, collecting the ids; the first
      failure ends the run and propagates. */
  function UpsertRun(s: StoreState, run: seq<Upsertion>): (r: Step<seq<string>>)
    ensures r.result.Success? <==> forall j :: 0 <= j < |run| ==> run[j].name !in s.failing
    ensures r.result.Success? ==> |r.result.value| == |run|
    ensures r.state.failing == s.failing && s.nextOid <= r.state.nextOid
  {
    if run == [] then Step(s, Success([]))
    else
      var prev := UpsertRun(s, run[..|run| - 1]);
      if prev.result.Failure? then prev
      else
        var last := run[|run| - 1];
        var u := UpsertOne(prev.state, last.name, last.key, last.doc);
        if u.result.Failure? then Step(u.state, Failure(u.result.error))
        else Step(u.state, Success(prev.result.value + [u.result.value]))
  }

  /** Once an upsert of a run has failed, the remaining ones are not attempted. */
  lemma {:induction false} UpsertRunStops(s: StoreState, run: seq<Upsertion>, k: nat)
    requires k <= |run|
    requires UpsertRun(s, run[..k]).result.Failure?
    ensures UpsertRun(s, run) == UpsertRun(s, run[..k])
  {
    if k < |run| {
      assert run[..|run| - 1][..k] == run[..k];
      UpsertRunStops(s, run[..|run| - 1], k);
    } else {
      assert run[..k] == run;
    }
  }

  /** Steps 1-2 of seed_sample_data: the user and the animal, each upserted
      on its natural key taken from the document itself. */
  function OwnerRun(now: Timestamp): seq<Upsertion> {
    var user := SampleUser(now);
    var animal := SampleAnimal(now);
    [ Upsertion(Users, Query(EmailField, user.email), UserDoc(user)),
      Upsertion(Animals, Query(TagIdField, animal.tagId), AnimalDoc(animal)) ]
  }

  /** Steps 3-4: the device, which references the animal, and the geofence,
      which references the user. */
  function DependentRun(userId: string, animalId: string, now: Timestamp): seq<Upsertion> {
    var device := SampleDevice(animalId, now);
    var geofence := SampleGeofence(userId, now);
    [ Upsertion(Devices, Query(DeviceIdField, device.deviceId), DeviceDoc(device)),
      Upsertion(Geofences, Query(NameField, geofence.name), GeofenceDoc(geofence)) ]
  }

  /** None of the identity collections fails. */
  predicate IdentityUp(t: StoreState) {
    Users !in t.failing && Animals !in t.failing && Devices !in t.failing && Geofences !in t.failing
  }

  /** None of the event collections fails. */
  predicate EventsUp(t: StoreState) {
    Telemetry !in t.failing && Alerts !in t.failing && Sightings !in t.failing
  }

  /** Steps 1-4 of seed_sample_data: user, animal, device, geofence. */
  function SeedKeys(s: StoreState, now: Timestamp): Step<Keys> {
    var owners := UpsertRun(s, OwnerRun(now));
    if owners.result.Failure? then Step(owners.state, Failure(owners.result.error))
    else
      var userId, animalId := owners.result.value[0], owners.result.value[1];
      var dependents := UpsertRun(owners.state, DependentRun(userId, animalId, now));
      if dependents.result.Failure? then Step(dependents.state, Failure(dependents.result.error))
      else Step(dependents.state, Success(Keys(userId, animalId, dependents.result.value[0], dependents.result.value[1])))
  }

  /** The documents of steps 5-7 for a seeding with keys `k`: three
      telemetry points, one alert and one sighting, each always inserted. */
  function EventRun(k: Keys, now: Timestamp): seq<Insertion> {
    Insertions(Telemetry, TelemetryDocs(SampleTelemetry(k.animalId, k.deviceId, now)))
    + [Insertion(Alerts, AlertDoc(SampleAlert(k.animalId, k.geofenceId, now)))]
    + [Insertion(Sightings, SightingDoc(SampleSighting(k.userId, now)))]
  }

  /** Steps 5-7 of seed_sample_data, and the `SeedResult` they complete. */
  function SeedEvents(s: StoreState, k: Keys, now: Timestamp): Step<SeedResult> {
    var r := InsertRun(s, EventRun(k, now));
    if r.result.Failure? then Step(r.state, Failure(r.result.error))
    else
      var ids := r.result.value;
      Step(r.state, Success(SeedResult(k.userId, k.animalId, k.deviceId, ids[..3], k.geofenceId, ids[3], ids[4])))
  }

  /** `seed_sample_data`: the seven writes in dependency order; the first
      failure stops the rest and leaves the earlier writes in place. */
  function Seed(s: StoreState, now: Timestamp): Step<SeedResult> {
    var k := SeedKeys(s, now);
    if k.result.Failure? then Step(k.state, Failure(k.result.error))
    else SeedEvents(k.state, k.result.value, now)
  }

  /** The seven collections verify_sample_data counts, in order. */
  const Collections: seq<Collection> := [Users, Animals, Devices, Telemetry, Geofences, Alerts, Sightings]

  datatype VerifyError = CountError(e: StoreError) | TelemetryFetchError(e: StoreError)

  /** `VerifyResult`; `errors` is None rather than empty. */
  datatype VerifyResult = VerifyResult(
    ok: bool,
    counts: map<Collection, int>,
    latestTelemetry: Option<Stored>,
    errors: Option<seq<VerifyError>>)

  /** The counts gathered so far and the error that ended the loop, if any. */
  datatype Counted = Counted(counts: map<Collection, int>, error: Option<StoreError>)

  /** The counting loop, which runs inside one `try`: the first failing count
      records the error and ends the loop. */
  function CountAll(s: StoreState, names: seq<Collection>): Counted {
    if names == [] then Counted(map[], None)
    else
      var prev := CountAll(s, names[..|names| - 1]);
      if prev.error.Some? then prev
      else
        var name := names[|names| - 1];
        match Count(s, name)
        case Failure(e) => Counted(prev.counts, Some(e))
        case Success(n) => Counted(prev.counts[name := n], None)
  }

  /** Once a prefix of the counting loop has recorded an error, the loop over
      the whole list ends with that same outcome. */
  lemma {:induction false} CountAllStops(s: StoreState, names: seq<Collection>, k: nat)
    requires k <= |names|
    requires k < |names| ==> CountAll(s, names[..k]).error.Some?
    ensures CountAll(s, names) == CountAll(s, names[..k])
  {
    if k < |names| {
      assert names[..|names| - 1][..k] == names[..k];
      CountAllStops(s, names[..|names| - 1], k);
    } else {
      assert names[..k] == names;
    }
  }

  /** `counts.get(c, 0)`. */
  function CountOf(counts: map<Collection, int>, c: Collection): int {
    if c in counts then counts[c] else 0
  }

  /** The verdict: every collection counted at least one document (a missing
      count reading as 0), a latest telemetry point was found, and no error
      was recorded. */
  predicate Verdict(counts: map<Collection, int>, latest: Option<Stored>, errors: seq<VerifyError>): (ok: bool)
    ensures ok ==> forall c :: c in Collections ==> c in counts && counts[c] >= 1
    ensures ok ==> latest.Some? && errors == []
  {
    (forall c :: c in Collections ==> CountOf(counts, c) >= 1) && latest.Some? && |errors| == 0
  }

  /** `verify_sample_data`: read-only; counts, fetches the latest telemetry
      point, and judges. */
  function Verify(s: StoreState): (r: VerifyResult)
    ensures r.ok <==>
      && (forall c :: c in Collections ==> c in r.counts && r.counts[c] >= 1)
      && r.latestTelemetry.Some?
      && r.errors.None?
    ensures r.errors.Some? ==> |r.errors.value| > 0
    ensures r.latestTelemetry.Some? ==>
      && r.latestTelemetry.value in Docs(s, Telemetry)
      && forall d :: d in Docs(s, Telemetry) ==> !SortsBefore(d.doc, r.latestTelemetry.value.doc)
    ensures Telemetry !in s.failing ==> (r.latestTelemetry.None? <==> Docs(s, Telemetry) == [])
  {
    var counted := CountAll(s, Collections);
    var countErrors := if counted.error.Some? then [CountError(counted.error.value)] else [];
    var latest := Latest(s, Telemetry);
    var latestTelemetry := if latest.Success? then latest.value else None;
    var errors := countErrors + if latest.Failure? then [TelemetryFetchError(latest.error)] else [];
    var ok := Verdict(counted.counts, latestTelemetry, errors);
    VerifyResult(ok, counted.counts, latestTelemetry, if errors == [] then None else Some(errors))
  }

  datatype Combined = Combined(seed: SeedResult, verify: VerifyResult)

  /** `seed_and_verify`: seed, then verify the state seeding left; a seeding
      error propagates and verification does not run. */
  function SeedAndVerify(s: StoreState, now: Timestamp): Step<Combined> {
    var sd := Seed(s, now);
    if sd.result.Failure? then Step(sd.state, Failure(sd.result.error))
    else Step(sd.state, Success(Combined(sd.result.value, Verify(sd.state))))
  }
}
