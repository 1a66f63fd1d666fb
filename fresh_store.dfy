/** seed_and_verify run against an empty database: every write inserts,
    the ids come out in write order, the references point at the documents
    just inserted, and verification counts one document per collection
    (three for telemetry) and reports the newest sample point. */
module FreshStore {
  import opened Wrappers
  import opened Models
  import opened Store
  import opened Workflow
  import opened Properties
  import opened Seeding
  import opened Verifying

  /** The state of a new `DocumentStore` none of whose collections fails. */
  const Empty: StoreState := StoreState(map[], 0, {})

  /** Two upserts into distinct empty collections both insert, under the
      next two ObjectIds. */
  lemma UpsertRunPairFresh(t: StoreState, a: Upsertion, b: Upsertion)
    requires a.name != b.name && a.name !in t.failing && b.name !in t.failing
    requires Docs(t, a.name) == [] && Docs(t, b.name) == []
    ensures var r := UpsertRun(t, [a, b]);
      && r.result == Success([OidString(t.nextOid), OidString(t.nextOid + 1)])
      && r.state.nextOid == t.nextOid + 2
      && Docs(r.state, a.name) == [Stored(t.nextOid, a.doc)]
      && Docs(r.state, b.name) == [Stored(t.nextOid + 1, b.doc)]
  {
    var n := t.nextOid;
    var t1 := Append(t, a.name, a.doc);
    assert UpsertOne(t, a.name, a.key, a.doc) == Step(t1, Success(OidString(n)));
    assert [a][..0] == [] && [] + [OidString(n)] == [OidString(n)];
    assert UpsertRun(t, [a]) == Step(t1, Success([OidString(n)]));
    assert Docs(t1, b.name) == [];
    assert UpsertOne(t1, b.name, b.key, b.doc) == Step(Append(t1, b.name, b.doc), Success(OidString(n + 1)));
    assert [a, b][..1] == [a] && [OidString(n)] + [OidString(n + 1)] == [OidString(n), OidString(n + 1)];
  }

  /** Steps 1-2 on an empty store insert the user and the animal under
      ObjectIds 0 and 1, and leave the devices and geofences empty. */
  lemma FreshOwners(now: Timestamp)
    ensures var r := UpsertRun(Empty, OwnerRun(now));
      && r.result == Success([OidString(0), OidString(1)])
      && r.state.nextOid == 2 && r.state.failing == {}
      && Docs(r.state, Users) == [Stored(0, UserDoc(SampleUser(now)))]
      && Docs(r.state, Animals) == [Stored(1, AnimalDoc(SampleAnimal(now)))]
      && Docs(r.state, Devices) == [] && Docs(r.state, Geofences) == []
  {
    SeedRunsShape("", "", now);
    UpsertRunPairFresh(Empty, OwnerRun(now)[0], OwnerRun(now)[1]);
    UpsertRunFrame(Empty, OwnerRun(now), Devices);
    UpsertRunFrame(Empty, OwnerRun(now), Geofences);
  }

  /** Steps 3-4 into empty device and geofence collections insert the
      device and the geofence under the next two ObjectIds, and leave the
      users and animals alone. */
  lemma FreshDependents(t: StoreState, userId: string, animalId: string, now: Timestamp)
    requires t.failing == {} && Docs(t, Devices) == [] && Docs(t, Geofences) == []
    ensures var r := UpsertRun(t, DependentRun(userId, animalId, now));
      && r.result == Success([OidString(t.nextOid), OidString(t.nextOid + 1)])
      && r.state.nextOid == t.nextOid + 2
      && Docs(r.state, Users) == Docs(t, Users) && Docs(r.state, Animals) == Docs(t, Animals)
      && Docs(r.state, Devices) == [Stored(t.nextOid, DeviceDoc(SampleDevice(animalId, now)))]
      && Docs(r.state, Geofences) == [Stored(t.nextOid + 1, GeofenceDoc(SampleGeofence(userId, now)))]
  {
    SeedRunsShape(userId, animalId, now);
    var dependents := DependentRun(userId, animalId, now);
    UpsertRunPairFresh(t, dependents[0], dependents[1]);
    UpsertRunFrame(t, dependents, Users);
    UpsertRunFrame(t, dependents, Animals);
  }

  /** Steps 1-4 on an empty store insert the user, the animal, the device
      wired to the animal and the geofence created by the user, under
      ObjectIds 0 to 3. */
  lemma FreshSeedKeys(now: Timestamp)
    ensures var r := SeedKeys(Empty, now);
      && r.result == Success(Keys(OidString(0), OidString(1), OidString(2), OidString(3)))
      && r.state.nextOid == 4
      && Docs(r.state, Users) == [Stored(0, UserDoc(SampleUser(now)))]
      && Docs(r.state, Animals) == [Stored(1, AnimalDoc(SampleAnimal(now)))]
      && Docs(r.state, Devices) == [Stored(2, DeviceDoc(SampleDevice(OidString(1), now)))]
      && Docs(r.state, Geofences) == [Stored(3, GeofenceDoc(SampleGeofence(OidString(0), now)))]
  {
    FreshOwners(now);
    FreshDependents(UpsertRun(Empty, OwnerRun(now)).state, OidString(0), OidString(1), now);
  }

  /** The keys an empty store is seeded with. */
  const FreshKeys: Keys := Keys(OidString(0), OidString(1), OidString(2), OidString(3))

  /** seed_sample_data on an empty store succeeds and reports ObjectIds 0
      to 8 in write order. */
  lemma FreshSeedIds(now: Timestamp)
    ensures var r := Seed(Empty, now);
      && r.result.Success?
      && r.result.value == SeedResult(OidString(0), OidString(1), OidString(2),
                                      [OidString(4), OidString(5), OidString(6)], OidString(3),
                                      OidString(7), OidString(8))
  {
    var k := SeedKeys(Empty, now);
    FreshSeedKeys(now);
    SeedKeysFrame(Empty, now);
    SeedEventsFrame(k.state, FreshKeys, now);
    SeedEventIds(k.state, FreshKeys, now);
  }

  /** After seeding an empty store the device refers to the animal and the
      geofence to the user, each as the one document of its collection. */
  lemma FreshSeedIdentities(now: Timestamp)
    ensures var r := Seed(Empty, now);
      && Docs(r.state, Users) == [Stored(0, UserDoc(SampleUser(now)))]
      && Docs(r.state, Animals) == [Stored(1, AnimalDoc(SampleAnimal(now)))]
      && Docs(r.state, Devices) == [Stored(2, DeviceDoc(SampleDevice(FreshKeys.animalId, now)))]
      && Docs(r.state, Geofences) == [Stored(3, GeofenceDoc(SampleGeofence(FreshKeys.userId, now)))]
  {
    var k := SeedKeys(Empty, now);
    FreshSeedKeys(now);
    SeedEventsFrame(k.state, FreshKeys, now);
  }

  /** After seeding an empty store each event collection holds exactly the
      documents appended to it. */
  lemma FreshSeedEvents(now: Timestamp)
    ensures var r := Seed(Empty, now);
      |Docs(r.state, Telemetry)| == 3 && |Docs(r.state, Alerts)| == 1 && |Docs(r.state, Sightings)| == 1
  {
    FreshSeedIds(now);
    SeedEventsWired(Empty, now);
  }

  /** A store with one document in each collection but three in telemetry,
      none of them failing, counts as such. */
  lemma CountsOfSizes(t: StoreState)
    requires AllUp(t, Collections)
    requires |Docs(t, Users)| == 1 && |Docs(t, Animals)| == 1 && |Docs(t, Devices)| == 1 && |Docs(t, Geofences)| == 1
    requires |Docs(t, Telemetry)| == 3 && |Docs(t, Alerts)| == 1 && |Docs(t, Sightings)| == 1
    ensures Verify(t).counts ==
      map[Users := 1, Animals := 1, Devices := 1, Telemetry := 3, Geofences := 1, Alerts := 1, Sightings := 1]
  {
    VerifyCounts(t);
    SizesMap(t, Verify(t).counts);
  }

  /** A map giving every collection its number of documents, for a store of
      those sizes. */
  lemma SizesMap(t: StoreState, m: map<Collection, int>)
    requires forall c :: c in m && m[c] == |Docs(t, c)|
    requires |Docs(t, Users)| == 1 && |Docs(t, Animals)| == 1 && |Docs(t, Devices)| == 1 && |Docs(t, Geofences)| == 1
    requires |Docs(t, Telemetry)| == 3 && |Docs(t, Alerts)| == 1 && |Docs(t, Sightings)| == 1
    ensures m == map[Users := 1, Animals := 1, Devices := 1, Telemetry := 3, Geofences := 1, Alerts := 1, Sightings := 1]
  {
    var sizes := map[Users := 1, Animals := 1, Devices := 1, Telemetry := 3, Geofences := 1, Alerts := 1, Sightings := 1];
    forall c ensures c in sizes && m[c] == sizes[c] {
      assert IsIdentityCollection(c) || IsEventCollection(c);
    }
  }

  /** Verification right after seeding an empty store counts one document
      per collection, except telemetry with three. */
  lemma FreshCounts(now: Timestamp)
    ensures Verify(Seed(Empty, now).state).counts ==
      map[Users := 1, Animals := 1, Devices := 1, Telemetry := 3, Geofences := 1, Alerts := 1, Sightings := 1]
  {
    FreshSeedIdentities(now);
    FreshSeedEvents(now);
    SeedSucceedsIff(Empty, now);
    CountsOfSizes(Seed(Empty, now).state);
  }

  /** seed_and_verify on an empty store: the verdict is ok, no error is
      recorded, every collection counts one document except telemetry with
      three, and the latest telemetry point is the newest sample point,
      stamped one minute before `now` under ObjectId 6. */
  lemma FreshSeedAndVerify(now: Timestamp)
    ensures var r := SeedAndVerify(Empty, now);
      && r.result.Success?
      && r.result.value.verify.ok
      && r.result.value.verify.errors.None?
      && r.result.value.verify.counts ==
           map[Users := 1, Animals := 1, Devices := 1, Telemetry := 3, Geofences := 1, Alerts := 1, Sightings := 1]
      && r.result.value.verify.latestTelemetry.Some?
      && TimestampField(r.result.value.verify.latestTelemetry.value.doc) == Some(now - 1 * Minute)
      && OidString(r.result.value.verify.latestTelemetry.value.oid) == OidString(6)
  {
    var sd := Seed(Empty, now);
    FreshSeedIds(now);
    SeedAndVerifyOk(Empty, now);
    VerifyErrorsIff(sd.state);
    LatestAfterSeed(Empty, now);
    FreshCounts(now);
  }
}
