/** What the seed/verify workflow promises, proved about the functions of
    Workflow (and so, through their contracts, about the SampleData methods). */
module Properties {
  import opened Wrappers
  import opened GeoJson
  import opened Models
  import opened Store
  import opened Workflow

  /** In `t`, the first document of `name` matching `q` has id `id`: the
      document an upsert on `q` would find. */
  ghost predicate KeyedAt(t: StoreState, name: Collection, q: Query, id: string) {
    && FirstMatch(Docs(t, name), q).Some?
    && OidString(Docs(t, name)[FirstMatch(Docs(t, name), q).value].oid) == id
  }

  /** `_insert_one` appends exactly one document to the named collection,
      under an id no document of the store had, and leaves every other
      collection as it was. */
  lemma InsertOneAppends(s: StoreState, name: Collection, doc: Doc)
    ensures var r := InsertOne(s, name, doc);
      && (forall c :: c != name ==> Docs(r.state, c) == Docs(s, c))
      && (r.result.Success? ==> Docs(r.state, name) == Docs(s, name) + [Stored(s.nextOid, doc)])
      && (r.result.Success? && Valid(s) ==>
            forall c, d :: c in s.collections && d in s.collections[c] ==> OidString(d.oid) != r.result.value)
  {
    var r := InsertOne(s, name, doc);
    if r.result.Success? && Valid(s) {
      forall c, d | c in s.collections && d in s.collections[c] ensures OidString(d.oid) != r.result.value {
        OidStringInjective(d.oid, s.nextOid);
      }
    }
  }

  /** `_upsert_one` never modifies or removes a document: the named
      collection keeps its documents and grows by at most one, and every
      other collection stays as it was. */
  lemma UpsertOneGrowth(s: StoreState, name: Collection, q: Query, doc: Doc)
    ensures var r := UpsertOne(s, name, q, doc);
      && |Docs(s, name)| <= |Docs(r.state, name)| <= |Docs(s, name)| + 1
      && Docs(r.state, name)[..|Docs(s, name)|] == Docs(s, name)
      && forall c :: c != name ==> Docs(r.state, c) == Docs(s, c)
  {
  }

  /** After a successful upsert of a document that carries its own key, an
      upsert on that key finds the document whose id was returned. */
  lemma UpsertEstablishesKey(s: StoreState, name: Collection, q: Query, doc: Doc)
    requires Matches(q, doc)
    ensures var r := UpsertOne(s, name, q, doc);
      r.result.Success? ==> KeyedAt(r.state, name, q, r.result.value)
  {
    var r := UpsertOne(s, name, q, doc);
    if r.result.Success? && FirstMatch(Docs(s, name), q).None? {
      var docs := Docs(r.state, name);
      assert Matches(q, docs[|docs| - 1].doc);
    }
  }

  /** An upsert on a key that already has a document changes nothing and
      returns that document's id, whatever document it is given. */
  lemma UpsertFindsKey(s: StoreState, name: Collection, q: Query, doc: Doc, id: string)
    requires KeyedAt(s, name, q, id) && name !in s.failing
    ensures UpsertOne(s, name, q, doc) == Step(s, Success(id))
  {
  }

  /** An upsert leaves the keys of every other collection where they were. */
  lemma UpsertKeepsKey(s: StoreState, name: Collection, q: Query, doc: Doc, other: Collection, key: Query, id: string)
    requires other != name && KeyedAt(s, other, key, id)
    ensures KeyedAt(UpsertOne(s, name, q, doc).state, other, key, id)
  {
  }

  /** Upserting the same document on its own natural key twice is the same
      as upserting it once. */
  lemma UpsertIdempotent(s: StoreState, name: Collection, q: Query, doc: Doc)
    requires Matches(q, doc)
    ensures var r := UpsertOne(s, name, q, doc);
      UpsertOne(r.state, name, q, doc) == r
  {
    var r := UpsertOne(s, name, q, doc);
    if r.result.Success? {
      UpsertEstablishesKey(s, name, q, doc);
      UpsertFindsKey(r.state, name, q, doc, r.result.value);
    }
  }

  /** Every document of the run carries the key it is upserted on. */
  predicate SelfKeyed(run: seq<Upsertion>) {
    forall j :: 0 <= j < |run| ==> Matches(run[j].key, run[j].doc)
  }

  /** No two upserts of the run write to the same collection. */
  predicate DistinctNames(run: seq<Upsertion>) {
    forall i, j :: 0 <= i < j < |run| ==> run[i].name != run[j].name
  }

  /** Each upsert's key finds, in `t`, the document with the matching id. */
  ghost predicate AllKeyed(t: StoreState, run: seq<Upsertion>, ids: seq<string>)
    requires |ids| == |run|
  {
    forall j :: 0 <= j < |run| ==> KeyedAt(t, run[j].name, run[j].key, ids[j])
  }

  /** A run touches only its own collections. */
  lemma {:induction false} UpsertRunFrame(s: StoreState, run: seq<Upsertion>, c: Collection)
    requires forall j :: 0 <= j < |run| ==> run[j].name != c
    ensures Docs(UpsertRun(s, run).state, c) == Docs(s, c)
  {
    if run != [] {
      UpsertRunFrame(s, run[..|run| - 1], c);
    }
  }

  /** After a successful run of self-keyed upserts into distinct collections,
      every key finds the document whose id was returned for it. */
  lemma {:induction false} UpsertRunKeyed(s: StoreState, run: seq<Upsertion>)
    requires SelfKeyed(run) && DistinctNames(run)
    ensures var r := UpsertRun(s, run);
      r.result.Success? ==> AllKeyed(r.state, run, r.result.value)
  {
    if run != [] {
      var init, last := run[..|run| - 1], run[|run| - 1];
      UpsertRunKeyed(s, init);
      var prev := UpsertRun(s, init);
      if prev.result.Success? {
        var ids := prev.result.value;
        UpsertEstablishesKey(prev.state, last.name, last.key, last.doc);
        forall j | 0 <= j < |init| {
          UpsertKeepsKey(prev.state, last.name, last.key, last.doc, init[j].name, init[j].key, ids[j]);
        }
      }
    }
  }

  /** A run of upserts keeps every ObjectId below the counter. */
  lemma {:induction false} UpsertRunValid(s: StoreState, run: seq<Upsertion>)
    requires Valid(s)
    ensures Valid(UpsertRun(s, run).state)
  {
    if run != [] {
      var prev := UpsertRun(s, run[..|run| - 1]);
      UpsertRunValid(s, run[..|run| - 1]);
      var last := run[|run| - 1];
      if prev.result.Success? && last.name !in s.failing && FirstMatch(Docs(prev.state, last.name), last.key).None? {
        AppendValid(prev.state, last.name, last.doc);
      }
    }
  }

  /** A run of two whose keys already have their documents changes nothing
      and returns the existing ids. */
  lemma UpsertRunPairAgain(t: StoreState, a: Upsertion, b: Upsertion, idA: string, idB: string)
    requires a.name !in t.failing && KeyedAt(t, a.name, a.key, idA)
    requires b.name !in t.failing && KeyedAt(t, b.name, b.key, idB)
    ensures UpsertRun(t, [a, b]) == Step(t, Success([idA, idB]))
  {
    UpsertFindsKey(t, a.name, a.key, a.doc, idA);
    UpsertFindsKey(t, b.name, b.key, b.doc, idB);
    assert [a][..0] == [] && [] + [idA] == [idA];
    assert UpsertRun(t, [a]) == Step(t, Success([idA]));
    assert [a, b][..1] == [a] && [idA] + [idB] == [idA, idB];
  }

  /** A successful run of two is its two upserts one after the other. */
  lemma UpsertRunPairSteps(t: StoreState, a: Upsertion, b: Upsertion)
    ensures var r := UpsertRun(t, [a, b]);
      r.result.Success? ==>
        var first := UpsertOne(t, a.name, a.key, a.doc);
        first.result.Success? && r.state == UpsertOne(first.state, b.name, b.key, b.doc).state
  {
    var first := UpsertOne(t, a.name, a.key, a.doc);
    assert [a, b][..1] == [a] && [a][..0] == [];
    if first.result.Success? {
      assert UpsertRun(t, [a]) == Step(first.state, Success([] + [first.result.value]));
    }
  }

  /** An upsert whose key matches nothing yet appends `doc`, which its key
      then finds. */
  lemma UpsertInserts(s: StoreState, name: Collection, q: Query, doc: Doc)
    requires FirstMatch(Docs(s, name), q).None? && Matches(q, doc)
    ensures var r := UpsertOne(s, name, q, doc);
      r.result.Success? ==>
        && FirstMatch(Docs(r.state, name), q) == Some(|Docs(s, name)|)
        && Docs(r.state, name)[|Docs(s, name)|].doc == doc
  {
    var r := UpsertOne(s, name, q, doc);
    if r.result.Success? {
      var docs, n := Docs(r.state, name), |Docs(s, name)|;
      assert docs == Docs(s, name) + [Stored(s.nextOid, doc)];
      assert Matches(q, docs[n].doc);
      var k := FirstMatch(docs, q);
      assert k.Some? && k.value <= n;
    }
  }

  /** When the device key matches nothing yet, steps 3-4 insert the device
      wired to `animalId`, which the device key then finds. */
  lemma DependentRunInsertsDevice(t: StoreState, userId: string, animalId: string, now: Timestamp)
    requires FirstMatch(Docs(t, Devices), DeviceKey).None?
    ensures var r := UpsertRun(t, DependentRun(userId, animalId, now));
      r.result.Success? ==>
        && FirstMatch(Docs(r.state, Devices), DeviceKey) == Some(|Docs(t, Devices)|)
        && Docs(r.state, Devices)[|Docs(t, Devices)|].doc == DeviceDoc(SampleDevice(animalId, now))
  {
    SeedRunsShape(userId, animalId, now);
    var run := DependentRun(userId, animalId, now);
    UpsertRunPairSteps(t, run[0], run[1]);
    UpsertInserts(t, Devices, DeviceKey, DeviceDoc(SampleDevice(animalId, now)));
  }

  /** When the geofence key matches nothing yet, steps 3-4 insert the
      geofence created by `userId`, which the geofence key then finds. */
  lemma DependentRunInsertsGeofence(t: StoreState, userId: string, animalId: string, now: Timestamp)
    requires FirstMatch(Docs(t, Geofences), GeofenceKey).None?
    ensures var r := UpsertRun(t, DependentRun(userId, animalId, now));
      r.result.Success? ==>
        && FirstMatch(Docs(r.state, Geofences), GeofenceKey) == Some(|Docs(t, Geofences)|)
        && Docs(r.state, Geofences)[|Docs(t, Geofences)|].doc == GeofenceDoc(SampleGeofence(userId, now))
  {
    SeedRunsShape(userId, animalId, now);
    var run := DependentRun(userId, animalId, now);
    UpsertRunPairSteps(t, run[0], run[1]);
    var first := UpsertOne(t, Devices, DeviceKey, DeviceDoc(SampleDevice(animalId, now)));
    UpsertInserts(first.state, Geofences, GeofenceKey, GeofenceDoc(SampleGeofence(userId, now)));
  }

  /** `AllKeyed` for a run of two. */
  lemma AllKeyedPair(t: StoreState, a: Upsertion, b: Upsertion, idA: string, idB: string)
    ensures AllKeyed(t, [a, b], [idA, idB]) <==>
      KeyedAt(t, a.name, a.key, idA) && KeyedAt(t, b.name, b.key, idB)
  {
    var run, ids := [a, b], [idA, idB];
    assert run[0] == a && run[1] == b && ids[0] == idA && ids[1] == idB;
  }

  /** A run of two succeeds exactly when neither of its collections fails. */
  lemma UpsertRunPairSucceeds(s: StoreState, a: Upsertion, b: Upsertion)
    ensures UpsertRun(s, [a, b]).result.Success? <==> a.name !in s.failing && b.name !in s.failing
  {
    var run := [a, b];
    assert run[0] == a && run[1] == b;
  }

  /** The four identity collections the seeder upserts into. */
  predicate IsIdentityCollection(c: Collection) {
    c == Users || c == Animals || c == Devices || c == Geofences
  }

  /** Each natural key finds, in `t`, the document with the id in `k`. */
  ghost predicate KeysAt(t: StoreState, k: Keys) {
    && KeyedAt(t, Users, UserKey, k.userId)
    && KeyedAt(t, Animals, AnimalKey, k.animalId)
    && KeyedAt(t, Devices, DeviceKey, k.deviceId)
    && KeyedAt(t, Geofences, GeofenceKey, k.geofenceId)
  }

  /** The sample runs, spelled out. */
  lemma SeedRunsShape(userId: string, animalId: string, now: Timestamp)
    ensures OwnerRun(now) == [Upsertion(Users, UserKey, UserDoc(SampleUser(now))),
                              Upsertion(Animals, AnimalKey, AnimalDoc(SampleAnimal(now)))]
    ensures DependentRun(userId, animalId, now) ==
      [Upsertion(Devices, DeviceKey, DeviceDoc(SampleDevice(animalId, now))),
       Upsertion(Geofences, GeofenceKey, GeofenceDoc(SampleGeofence(userId, now)))]
  {
  }

  /** The sample runs are self-keyed, and the four upserts of steps 1-4
      write to four distinct collections. */
  lemma SeedRunsWellFormed(userId: string, animalId: string, now: Timestamp)
    ensures SelfKeyed(OwnerRun(now)) && SelfKeyed(DependentRun(userId, animalId, now))
    ensures DistinctNames(OwnerRun(now) + DependentRun(userId, animalId, now))
  {
  }

  /** Steps 1-2 establish the user and animal keys. */
  lemma OwnerRunKeyed(s: StoreState, now: Timestamp)
    ensures var r := UpsertRun(s, OwnerRun(now));
      r.result.Success? ==>
        KeyedAt(r.state, Users, UserKey, r.result.value[0]) && KeyedAt(r.state, Animals, AnimalKey, r.result.value[1])
  {
    var run := OwnerRun(now);
    SeedRunsShape("", "", now);
    SeedRunsWellFormed("", "", now);
    UpsertRunKeyed(s, run);
    var r := UpsertRun(s, run);
    if r.result.Success? {
      AllKeyedPair(r.state, run[0], run[1], r.result.value[0], r.result.value[1]);
      assert r.result.value == [r.result.value[0], r.result.value[1]];
    }
  }

  /** Steps 3-4 establish the device and geofence keys and keep the others. */
  lemma DependentRunKeyed(t: StoreState, userId: string, animalId: string, now: Timestamp)
    ensures var r := UpsertRun(t, DependentRun(userId, animalId, now));
      r.result.Success? ==>
        KeyedAt(r.state, Devices, DeviceKey, r.result.value[0]) && KeyedAt(r.state, Geofences, GeofenceKey, r.result.value[1])
  {
    var run := DependentRun(userId, animalId, now);
    SeedRunsShape(userId, animalId, now);
    SeedRunsWellFormed(userId, animalId, now);
    UpsertRunKeyed(t, run);
    var r := UpsertRun(t, run);
    if r.result.Success? {
      AllKeyedPair(r.state, run[0], run[1], r.result.value[0], r.result.value[1]);
      assert r.result.value == [r.result.value[0], r.result.value[1]];
    }
  }

  /** Steps 3-4 leave the user and animal keys where they were. */
  lemma DependentRunKeeps(t: StoreState, userId: string, animalId: string, now: Timestamp, idU: string, idA: string)
    requires KeyedAt(t, Users, UserKey, idU) && KeyedAt(t, Animals, AnimalKey, idA)
    ensures var r := UpsertRun(t, DependentRun(userId, animalId, now));
      KeyedAt(r.state, Users, UserKey, idU) && KeyedAt(r.state, Animals, AnimalKey, idA)
  {
    var run := DependentRun(userId, animalId, now);
    SeedRunsShape(userId, animalId, now);
    UpsertRunFrame(t, run, Users);
    UpsertRunFrame(t, run, Animals);
  }

  /** Steps 1-2 when the user and animal keys already have their documents. */
  lemma OwnerRunAgain(t: StoreState, k: Keys, now: Timestamp)
    requires Users !in t.failing && KeyedAt(t, Users, UserKey, k.userId)
    requires Animals !in t.failing && KeyedAt(t, Animals, AnimalKey, k.animalId)
    ensures UpsertRun(t, OwnerRun(now)) == Step(t, Success([k.userId, k.animalId]))
  {
    SeedRunsShape("", "", now);
    UpsertRunPairAgain(t, OwnerRun(now)[0], OwnerRun(now)[1], k.userId, k.animalId);
  }

  /** Steps 3-4 when the device and geofence keys already have their documents. */
  lemma DependentRunAgain(t: StoreState, k: Keys, now: Timestamp)
    requires Devices !in t.failing && KeyedAt(t, Devices, DeviceKey, k.deviceId)
    requires Geofences !in t.failing && KeyedAt(t, Geofences, GeofenceKey, k.geofenceId)
    ensures UpsertRun(t, DependentRun(k.userId, k.animalId, now)) == Step(t, Success([k.deviceId, k.geofenceId]))
  {
    var run := DependentRun(k.userId, k.animalId, now);
    SeedRunsShape(k.userId, k.animalId, now);
    UpsertRunPairAgain(t, run[0], run[1], k.deviceId, k.geofenceId);
  }

  /** The four upserts succeed exactly when none of the identity collections fails. */
  lemma SeedKeysSucceedsIff(s: StoreState, now: Timestamp)
    ensures SeedKeys(s, now).result.Success? <==> IdentityUp(s)
  {
    var owners := UpsertRun(s, OwnerRun(now));
    SeedRunsShape("", "", now);
    UpsertRunPairSucceeds(s, OwnerRun(now)[0], OwnerRun(now)[1]);
    if owners.result.Success? {
      var run := DependentRun(owners.result.value[0], owners.result.value[1], now);
      SeedRunsShape(owners.result.value[0], owners.result.value[1], now);
      UpsertRunPairSucceeds(owners.state, run[0], run[1]);
    }
  }

  /** Steps 1-4 insert the device wired to the animal they report when no
      device matched the device key. */
  lemma SeedKeysDeviceWired(s: StoreState, now: Timestamp)
    ensures var r := SeedKeys(s, now);
      r.result.Success? && FirstMatch(Docs(s, Devices), DeviceKey).None? ==>
        var docs := Docs(r.state, Devices);
        && FirstMatch(docs, DeviceKey) == Some(|Docs(s, Devices)|)
        && docs[|Docs(s, Devices)|].doc == DeviceDoc(SampleDevice(r.result.value.animalId, now))
  {
    var owners := UpsertRun(s, OwnerRun(now));
    SeedRunsShape("", "", now);
    UpsertRunFrame(s, OwnerRun(now), Devices);
    if owners.result.Success? && FirstMatch(Docs(s, Devices), DeviceKey).None? {
      DependentRunInsertsDevice(owners.state, owners.result.value[0], owners.result.value[1], now);
    }
  }

  /** Steps 1-4 insert the geofence created by the user they report when no
      geofence matched the geofence key. */
  lemma SeedKeysGeofenceWired(s: StoreState, now: Timestamp)
    ensures var r := SeedKeys(s, now);
      r.result.Success? && FirstMatch(Docs(s, Geofences), GeofenceKey).None? ==>
        var docs := Docs(r.state, Geofences);
        && FirstMatch(docs, GeofenceKey) == Some(|Docs(s, Geofences)|)
        && docs[|Docs(s, Geofences)|].doc == GeofenceDoc(SampleGeofence(r.result.value.userId, now))
  {
    var owners := UpsertRun(s, OwnerRun(now));
    SeedRunsShape("", "", now);
    UpsertRunFrame(s, OwnerRun(now), Geofences);
    if owners.result.Success? && FirstMatch(Docs(s, Geofences), GeofenceKey).None? {
      DependentRunInsertsGeofence(owners.state, owners.result.value[0], owners.result.value[1], now);
    }
  }

  /** The four upserts touch only the identity collections and issue ids
      only forward. */
  lemma SeedKeysFrame(s: StoreState, now: Timestamp)
    ensures var r := SeedKeys(s, now);
      && r.state.failing == s.failing
      && s.nextOid <= r.state.nextOid
      && (forall c :: !IsIdentityCollection(c) ==> Docs(r.state, c) == Docs(s, c))
  {
    var owners := UpsertRun(s, OwnerRun(now));
    SeedRunsShape("", "", now);
    forall c | !IsIdentityCollection(c) ensures Docs(SeedKeys(s, now).state, c) == Docs(s, c) {
      UpsertRunFrame(s, OwnerRun(now), c);
      if owners.result.Success? {
        SeedRunsShape(owners.result.value[0], owners.result.value[1], now);
        UpsertRunFrame(owners.state, DependentRun(owners.result.value[0], owners.result.value[1], now), c);
      }
    }
  }

  /** After the four upserts, each natural key finds the document whose id
      was returned for it. */
  lemma SeedKeysEstablished(s: StoreState, now: Timestamp)
    ensures var r := SeedKeys(s, now);
      r.result.Success? ==> KeysAt(r.state, r.result.value)
  {
    var owners := UpsertRun(s, OwnerRun(now));
    OwnerRunKeyed(s, now);
    if owners.result.Success? {
      var userId, animalId := owners.result.value[0], owners.result.value[1];
      DependentRunKeyed(owners.state, userId, animalId, now);
      DependentRunKeeps(owners.state, userId, animalId, now, userId, animalId);
    }
  }

  /** When every natural key already has its document, the four upserts
      change nothing and return the existing ids, whatever the clock says. */
  lemma SeedKeysAgain(t: StoreState, k: Keys, now: Timestamp)
    requires IdentityUp(t) && KeysAt(t, k)
    ensures SeedKeys(t, now) == Step(t, Success(k))
  {
    OwnerRunAgain(t, k, now);
    DependentRunAgain(t, k, now);
  }

  /** Running the four upserts again, later, returns the same ids and
      changes nothing. */
  lemma SeedKeysIdempotent(s: StoreState, now: Timestamp, later: Timestamp)
    ensures var r := SeedKeys(s, now);
      r.result.Success? ==> SeedKeys(r.state, later) == r
  {
    var r := SeedKeys(s, now);
    if r.result.Success? {
      SeedKeysSucceedsIff(s, now);
      SeedKeysEstablished(s, now);
      SeedKeysFrame(s, now);
      SeedKeysAgain(r.state, r.result.value, later);
    }
  }
}
