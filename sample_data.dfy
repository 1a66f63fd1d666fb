/** The sample-data workflow of wildlife_tracking_backend/src/api/sample_data.py as
    methods over a `DocumentStore`, each proved to compute what the matching
    function of Workflow says. The store is passed in rather than looked up
    through `get_collection`; `ensure_database()` is not modelled. */
module SampleData {
  import opened Wrappers
  import opened Models
  import opened Store
  import Workflow

  /** `_insert_one`. */
  method InsertOne(store: DocumentStore, name: Collection, doc: Doc) returns (r: Result<string, StoreError>)
    modifies store
    ensures store.State() == Workflow.InsertOne(old(store.State()), name, doc).state
    ensures r == Workflow.InsertOne(old(store.State()), name, doc).result
  {
    var id :- store.InsertOne(name, doc);
    r := Success(OidString(id));
  }

  /** `_upsert_one`: `update_one` with `$setOnInsert`; when nothing was
      upserted, look the matching document up and return its id, or "". */
  method UpsertOne(store: DocumentStore, name: Collection, q: Query, doc: Doc) returns (r: Result<string, StoreError>)
    modifies store
    ensures store.State() == Workflow.UpsertOne(old(store.State()), name, q, doc).state
    ensures r == Workflow.UpsertOne(old(store.State()), name, q, doc).result
  {
    var upserted :- store.UpdateOne(name, q, doc);
    if upserted.Some? {
      return Success(OidString(upserted.value));
    }
    var existing := store.FindOne(name, q);
    if existing.Failure? {
      return Failure(OperationFailed(name));
    }
    r := Success(Workflow.ExistingId(existing.value));
  }

  /** `seed_sample_data`, with the clock reading `now` as a parameter. */
  method SeedSampleData(store: DocumentStore, now: Timestamp) returns (r: Result<Workflow.SeedResult, StoreError>)
    modifies store
    ensures store.State() == Workflow.Seed(old(store.State()), now).state
    ensures r == Workflow.Seed(old(store.State()), now).result
  {
    var keys :- SeedKeys(store, now);
    r := SeedEvents(store, keys, now);
  }

  /** Steps 1-4 of `seed_sample_data`: the upserted documents. */
  method SeedKeys(store: DocumentStore, now: Timestamp) returns (r: Result<Workflow.Keys, StoreError>)
    modifies store
    ensures store.State() == Workflow.SeedKeys(old(store.State()), now).state
    ensures r == Workflow.SeedKeys(old(store.State()), now).result
  {
    ghost var s := store.State();
    ghost var owners := Workflow.OwnerRun(now);
    assert |owners| == 2;
    forall k: nat | k <= 2 && Workflow.UpsertRun(s, owners[..k]).result.Failure? {
      Workflow.UpsertRunStops(s, owners, k);
    }
    assert owners[..1][..0] == owners[..0] && owners[..2][..1] == owners[..1] && owners[..2] == owners;
    // 1. User
    var user := Workflow.SampleUser(now);
    var userId :- UpsertOne(store, Users, Query(EmailField, user.email), UserDoc(user));
    assert Workflow.UpsertRun(s, owners[..1]) == Step(store.State(), Success([] + [userId]));
    // 2. Animal
    var animal := Workflow.SampleAnimal(now);
    var animalId :- UpsertOne(store, Animals, Query(TagIdField, animal.tagId), AnimalDoc(animal));
    assert Workflow.UpsertRun(s, owners) == Step(store.State(), Success([] + [userId] + [animalId]));

    ghost var t := store.State();
    ghost var dependents := Workflow.DependentRun(userId, animalId, now);
    assert |dependents| == 2;
    forall k: nat | k <= 2 && Workflow.UpsertRun(t, dependents[..k]).result.Failure? {
      Workflow.UpsertRunStops(t, dependents, k);
    }
    assert dependents[..1][..0] == dependents[..0] && dependents[..2][..1] == dependents[..1] && dependents[..2] == dependents;
    // 3. Device
    var device := Workflow.SampleDevice(animalId, now);
    var deviceId :- UpsertOne(store, Devices, Query(DeviceIdField, device.deviceId), DeviceDoc(device));
    assert Workflow.UpsertRun(t, dependents[..1]) == Step(store.State(), Success([] + [deviceId]));
    // 4. Geofence
    var geofence := Workflow.SampleGeofence(userId, now);
    var geofenceId :- UpsertOne(store, Geofences, Query(NameField, geofence.name), GeofenceDoc(geofence));
    assert Workflow.UpsertRun(t, dependents) == Step(store.State(), Success([] + [deviceId] + [geofenceId]));
    r := Success(Workflow.Keys(userId, animalId, deviceId, geofenceId));
  }

  /** Steps 5-7 of `seed_sample_data`: the inserted event documents. */
  method SeedEvents(store: DocumentStore, keys: Workflow.Keys, now: Timestamp) returns (r: Result<Workflow.SeedResult, StoreError>)
    modifies store
    ensures store.State() == Workflow.SeedEvents(old(store.State()), keys, now).state
    ensures r == Workflow.SeedEvents(old(store.State()), keys, now).result
  {
    ghost var s := store.State();
    var points := Workflow.SampleTelemetry(keys.animalId, keys.deviceId, now);
    var alert := AlertDoc(Workflow.SampleAlert(keys.animalId, keys.geofenceId, now));
    var sighting := SightingDoc(Workflow.SampleSighting(keys.userId, now));
    ghost var telemetry := Workflow.Insertions(Telemetry, Workflow.TelemetryDocs(points));
    Workflow.InsertRunSnoc(s, telemetry, Workflow.Insertion(Alerts, alert));
    Workflow.InsertRunSnoc(s, telemetry + [Workflow.Insertion(Alerts, alert)], Workflow.Insertion(Sightings, sighting));
    // 5. Telemetry
    var telemetryIds :- InsertAll(store, Telemetry, Workflow.TelemetryDocs(points));
    // 6. Alert
    var alertId :- InsertOne(store, Alerts, alert);
    // 7. Sighting
    var sightingId :- InsertOne(store, Sightings, sighting);
    ghost var ids := telemetryIds + [alertId] + [sightingId];
    assert ids[..3] == telemetryIds && ids[3] == alertId && ids[4] == sightingId;
    r := Success(Workflow.SeedResult(keys.userId, keys.animalId, keys.deviceId, telemetryIds, keys.geofenceId,
                                     alertId, sightingId));
  }

  /** The telemetry loop of `seed_sample_data`: insert each document in
      order and collect the ids; an error ends the loop and propagates. */
  method InsertAll(store: DocumentStore, name: Collection, docs: seq<Doc>) returns (r: Result<seq<string>, StoreError>)
    modifies store
    ensures store.State() == Workflow.InsertRun(old(store.State()), Workflow.Insertions(name, docs)).state
    ensures r == Workflow.InsertRun(old(store.State()), Workflow.Insertions(name, docs)).result
  {
    ghost var before := store.State();
    ghost var run := Workflow.Insertions(name, docs);
    forall k: nat | k <= |run| && Workflow.InsertRun(before, run[..k]).result.Failure? {
      Workflow.InsertRunStops(before, run, k);
    }
    var ids: seq<string> := [];
    for i := 0 to |docs|
      invariant store.State() == Workflow.InsertRun(before, run[..i]).state
      invariant Workflow.InsertRun(before, run[..i]).result == Success(ids)
    {
      assert run[..i + 1][..i] == run[..i];
      var id :- InsertOne(store, name, docs[i]);
      ids := ids + [id];
    }
    assert run[..|docs|] == run;
    r := Success(ids);
  }

  /** `verify_sample_data`: reads the store and changes nothing. */
  method VerifySampleData(store: DocumentStore) returns (r: Workflow.VerifyResult)
    ensures r == Workflow.Verify(store.State())
  {
    ghost var s := store.State();
    var errors: seq<Workflow.VerifyError> := [];
    var collections := Workflow.Collections;
    var counts: map<Collection, int> := map[];
    var i := 0;
    while i < |collections|
      invariant 0 <= i <= |collections|
      invariant Workflow.CountAll(s, collections[..i]) == Workflow.Counted(counts, None)
      invariant errors == []
    {
      assert collections[..i + 1][..i] == collections[..i];
      var n := store.CountDocuments(collections[i]);
      if n.Failure? {
        errors := errors + [Workflow.CountError(n.error)];
        Workflow.CountAllStops(s, collections, i + 1);
        assert Workflow.CountAll(s, collections) == Workflow.Counted(counts, Some(n.error));
        break;
      }
      counts := counts[collections[i] := n.value];
      i := i + 1;
    }
    assert i == |collections| ==> collections[..i] == collections;
    assert Workflow.CountAll(s, collections).counts == counts;
    assert errors == if Workflow.CountAll(s, collections).error.Some?
      then [Workflow.CountError(Workflow.CountAll(s, collections).error.value)] else [];

    ghost var countErrors := errors;
    var latestTelemetry: Option<Stored> := None;
    var latest := store.FindLatest(Telemetry);
    if latest.Failure? {
      errors := errors + [Workflow.TelemetryFetchError(latest.error)];
    } else {
      assert errors == countErrors + [];
      latestTelemetry := latest.value;
    }

    var ok := Workflow.Verdict(counts, latestTelemetry, errors);
    r := Workflow.VerifyResult(ok, counts, latestTelemetry, if errors == [] then None else Some(errors));
  }

  /** `seed_and_verify`. */
  method SeedAndVerify(store: DocumentStore, now: Timestamp) returns (r: Result<Workflow.Combined, StoreError>)
    modifies store
    ensures store.State() == Workflow.SeedAndVerify(old(store.State()), now).state
    ensures r == Workflow.SeedAndVerify(old(store.State()), now).result
  {
    var seed :- SeedSampleData(store, now);
    var verify := VerifySampleData(store);
    r := Success(Workflow.Combined(seed, verify));
  }
}
