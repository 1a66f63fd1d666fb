# Wildlife tracking backend: sample-data seeding and verification

This project models the sample-data workflow of the wildlife tracking backend
(`wildlife_tracking_backend/src/api/sample_data.py`) and the entities it writes
(`wildlife_tracking_backend/src/db/models.py`), and proves properties of the model in Dafny.

- **Entities** (`models.dfy`): `User`, `Animal`, `Device`, `TelemetryPoint`, `Geofence`, `Alert` and
  `Sighting` are datatypes. Their literal enums, required fields and declared defaults are
  modelled. An optional field is an `Option`, so `model_dump(exclude_none=True)` is the
  document itself. `Doc` is a stored document of any of the seven kinds.
- **Document store** (`store.dfy`): the MongoDB collections the workflow talks to.
  - `StoreState` holds the collections, the next ObjectId and the set of collections whose
    operations raise.
  - The pure functions `Insert`, `Upsert`, `Count`, `Find` and `Latest` specify `insert_one`,
    `update_one(..., {"$setOnInsert": doc}, upsert=True)`, `count_documents({})`, `find_one`
    and `find_one({}, sort=[("timestamp", -1)])`.
  - The class `DocumentStore` implements them over mutable fields.
  - An ObjectId is a counter. Its string form `OidString` is the lowercase hexadecimal
    numeral, proved injective and never empty.
- **Workflow** (`workflow.dfy`): pure specifications.
  - `_insert_one` and `_upsert_one`.
  - `seed_sample_data` (`Seed`): steps 1-4 upsert on natural keys (`SeedKeys`); steps 5-7
    always insert (`SeedEvents`).
  - `verify_sample_data` (`Verify`) and `seed_and_verify`.
  - The workflow lines that change things step by step are methods in `sample_data.dfy`. Each
    method is proved to compute exactly what the matching function computes: the same new
    store state and the same result.
- **Properties**, in four modules:
  - `properties.dfy`: upserts on natural keys are idempotent; run frames.
  - `seeding.dfy`: events always append; ids are wired consistently; new ids are fresh;
    seeding twice.
  - `verifying.dfy`: counts and the `ok` verdict; the latest telemetry.
  - `fresh_store.dfy`: the end-to-end run on an empty store.

Every clock read (`datetime.utcnow()`) is the one parameter `now`, an integer number of
seconds. A failing store operation is `Failure(OperationFailed(collection))`:

- in `seed_sample_data` it propagates and leaves the earlier writes in place;
- in `verify_sample_data` it is caught and recorded.

Two behaviours of the code shape the model:

- **The counting loop.** `verify_sample_data` wraps the whole loop in a single `try`
  (sample_data.py:235-242). The first failing count therefore ends the loop: only the
  collections counted before it keep their counts, and there is one count error entry
  (`Verifying.VerifyCountFailure`).
- **Device and geofence wiring.** `$setOnInsert` never modifies a document that already
  matches its key. So the device is proved to refer to the reported animal only for the case
  where this seeding inserted it (`Seeding.SeedDeviceWired`). A device left from an earlier
  run, with a different animal, is kept as it was. The same holds for the geofence and the
  user.

## Model

| member | source | states |
|---|---|---|
| GeoJson.GeoPoint | wildlife_tracking_backend/src/api/sample_data.py:22-23 | the result is a GeoJSON Point whose single position has the longitude first, then the latitude |
| GeoJson.GeoPolygon | wildlife_tracking_backend/src/api/sample_data.py:26-27 | the result is a GeoJSON Polygon carrying the given rings unchanged |
| Models.Defaults | wildlife_tracking_backend/src/db/models.py:7-100 | building each entity from its required fields alone gives the declared defaults: no id, role viewer, sex unknown, device and alert statuses active/open, alert type custom, geofence active, every optional field absent, and `updated_at` equal to `created_at` on each entity that has both (user, animal, device, geofence, alert) |
| Models.EnumValuesDistinct | wildlife_tracking_backend/src/db/models.py:12-81 | each literal enumeration (role, sex, device status, alert type, alert status) stores distinct members under distinct values |
| Models.StringFieldDefined | wildlife_tracking_backend/src/api/sample_data.py:85-130 | a filter field is present exactly on the documents that carry it: email on users, tag_id on animals, device_id on devices and on telemetry points that name one, name on users, geofences and named animals |
| Store.FirstMatch | wildlife_tracking_backend/src/api/sample_data.py:43 | the index of the first document in insertion order matching the filter; None exactly when no document matches |
| Store.AppendValid | wildlife_tracking_backend/src/api/sample_data.py:32 | appending a document keeps every stored ObjectId below the next one to be issued |
| Store.Insert | wildlife_tracking_backend/src/api/sample_data.py:32 | `insert_one` on a working collection appends the document under the next ObjectId and returns that id; on a failing one it raises and changes nothing (reference definition; its observable property is `Properties.InsertOneAppends`) |
| Store.Upsert | wildlife_tracking_backend/src/api/sample_data.py:39 | `update_one` with `$setOnInsert` and `upsert=True` returns an `upserted_id` exactly when no document matched, and then it has appended the document; a matching document is never modified (reference definition; its observable properties are `Properties.UpsertOneGrowth`, `Properties.UpsertInserts` and `Properties.UpsertFindsKey`) |
| Store.Count | wildlife_tracking_backend/src/api/sample_data.py:238 | `count_documents({})` is the number of documents, or raises for a failing collection (reference definition; its observable property is `Verifying.VerifyCounts`) |
| Store.Find | wildlife_tracking_backend/src/api/sample_data.py:43 | `find_one(query)` returns the first matching document, None exactly when nothing matches, or raises (reference definition; used through `Properties.UpsertFindsKey`) |
| Store.LatestIndex | wildlife_tracking_backend/src/api/sample_data.py:248 | no document sorts before the chosen one by descending timestamp, and every earlier document sorts strictly after it |
| Store.SortsBefore | wildlife_tracking_backend/src/api/sample_data.py:248 | under the descending timestamp sort, a document sorting first has a timestamp, a later one than the other document's when both have one, and any document with a timestamp sorts before one without |
| Store.SortsBeforeStrict | wildlife_tracking_backend/src/api/sample_data.py:248 | the descending timestamp sort is a strict order: irreflexive, asymmetric and transitive |
| Store.Latest | wildlife_tracking_backend/src/api/sample_data.py:248 | `find_one({}, sort=[("timestamp", -1)])` returns None exactly on an empty collection, and otherwise a stored document that no other one sorts before |
| Store.OidString | wildlife_tracking_backend/src/api/sample_data.py:33 | the string form of an ObjectId is never empty |
| Store.OidStringInjective | wildlife_tracking_backend/src/api/sample_data.py:33 | distinct ObjectIds have distinct string forms |
| Store.DocumentStore.InsertOne | wildlife_tracking_backend/src/api/sample_data.py:32 | the new store state and the result are those `Store.Insert` specifies |
| Store.DocumentStore.UpdateOne | wildlife_tracking_backend/src/api/sample_data.py:39 | the new store state and the result are those `Store.Upsert` specifies |
| Store.DocumentStore.CountDocuments | wildlife_tracking_backend/src/api/sample_data.py:238 | returns what `Store.Count` specifies and changes nothing |
| Store.DocumentStore.FindOne | wildlife_tracking_backend/src/api/sample_data.py:43 | returns what `Store.Find` specifies and changes nothing |
| Store.DocumentStore.FindLatest | wildlife_tracking_backend/src/api/sample_data.py:248 | returns what `Store.Latest` specifies and changes nothing |
| Workflow.InsertOne | wildlife_tracking_backend/src/api/sample_data.py:30-33 | succeeds exactly when the collection works; it then returns the string form of the next ObjectId and appends the document; on failure the store is unchanged |
| Workflow.ExistingId | wildlife_tracking_backend/src/api/sample_data.py:43-44 | the reply is "" exactly when the lookup found nothing, and otherwise the found document's id |
| Workflow.UpsertOne | wildlife_tracking_backend/src/api/sample_data.py:36-44 | succeeds exactly when the collection works; with a match it changes nothing and returns the first match's id; without one it appends the document and returns its new id; a successful reply is never "" |
| Workflow.InsertRun | wildlife_tracking_backend/src/api/sample_data.py:164-167 | a run of inserts succeeds exactly when none of its collections fails; it then returns one id per insert, the consecutive ObjectIds from the next free one |
| Workflow.InsertRunStops | wildlife_tracking_backend/src/api/sample_data.py:164-167 | once an insert has failed, the remaining inserts are not attempted: the run ends as that prefix ended |
| Workflow.Insertions | wildlife_tracking_backend/src/api/sample_data.py:165-166 | the loop inserts each telemetry document, in order, into the named collection (reference definition; its observable property is `Seeding.AddedInsertions`) |
| Workflow.TelemetryDocs | wildlife_tracking_backend/src/api/sample_data.py:166 | each telemetry point becomes one stored document, in order (reference definition; its observable property is `Seeding.AddedInsertions`) |
| Workflow.SampleUserFields | wildlife_tracking_backend/src/api/sample_data.py:80-85 | the sample user is a researcher carrying the email it is upserted on, created and updated at `now` |
| Workflow.SampleAnimalFields | wildlife_tracking_backend/src/api/sample_data.py:89-96 | the sample animal is female and carries the tag_id it is upserted on, created and updated at `now` |
| Workflow.SampleDeviceFields | wildlife_tracking_backend/src/api/sample_data.py:100-107 | the sample device is active, refers to the given animal id, was last seen at `now` and carries the device_id it is upserted on |
| Workflow.SampleGeofenceFields | wildlife_tracking_backend/src/api/sample_data.py:112-130 | the sample geofence is active, created by the given user id, carries the name it is upserted on, and its boundary is a GeoJSON polygon of one ring |
| Workflow.SampleTelemetryFields | wildlife_tracking_backend/src/api/sample_data.py:134-163 | three telemetry points, each referring to the given animal and device at a GeoJSON point, stamped 10, 5 and 1 minutes before `now` |
| Workflow.SampleAlertFields | wildlife_tracking_backend/src/api/sample_data.py:171-177 | the sample alert is an open geofence breach about the given animal whose metadata names the given geofence |
| Workflow.SampleSightingFields | wildlife_tracking_backend/src/api/sample_data.py:182-190 | the sample sighting is reported by the given user one hour before `now`, at a GeoJSON point |
| Workflow.UpsertRun | wildlife_tracking_backend/src/api/sample_data.py:79-130 | a run of upserts succeeds exactly when none of its collections fails, and then returns one id per upsert |
| Workflow.UpsertRunStops | wildlife_tracking_backend/src/api/sample_data.py:79-130 | once an upsert has failed, the remaining upserts are not attempted |
| Workflow.CountAllStops | wildlife_tracking_backend/src/api/sample_data.py:235-242 | once the counting loop has recorded an error, the loop over the whole list ends with that same outcome |
| Workflow.Verdict | wildlife_tracking_backend/src/api/sample_data.py:257 | an ok verdict means every counted collection has a count of at least 1, a latest telemetry point was found and there are no errors |
| Workflow.Verify | wildlife_tracking_backend/src/api/sample_data.py:219-258 | `ok` holds exactly when every collection has a count of at least 1, a latest telemetry point was found and `errors` is None; `errors` is never an empty list; the latest point is a stored telemetry document that no other one sorts before; with telemetry working it is None exactly when telemetry is empty |
| SampleData.InsertOne | wildlife_tracking_backend/src/api/sample_data.py:30-33 | the new store state and the result are those `Workflow.InsertOne` specifies |
| SampleData.UpsertOne | wildlife_tracking_backend/src/api/sample_data.py:36-44 | the new store state and the result are those `Workflow.UpsertOne` specifies |
| SampleData.SeedSampleData | wildlife_tracking_backend/src/api/sample_data.py:68-202 | the new store state and the result are those `Workflow.Seed` specifies |
| SampleData.SeedKeys | wildlife_tracking_backend/src/api/sample_data.py:79-130 | the four upserts, in order, leave the state and the keys `Workflow.SeedKeys` specifies |
| SampleData.SeedEvents | wildlife_tracking_backend/src/api/sample_data.py:133-202 | the five inserts, in order, leave the state and the `SeedResult` `Workflow.SeedEvents` specifies |
| SampleData.InsertAll | wildlife_tracking_backend/src/api/sample_data.py:164-167 | the telemetry loop leaves the state and the ids `Workflow.InsertRun` specifies |
| SampleData.VerifySampleData | wildlife_tracking_backend/src/api/sample_data.py:219-258 | returns exactly `Workflow.Verify` of the store and changes nothing |
| SampleData.SeedAndVerify | wildlife_tracking_backend/src/api/sample_data.py:262-271 | the new store state and the result are those `Workflow.SeedAndVerify` specifies |
| Properties.InsertOneAppends | wildlife_tracking_backend/src/api/sample_data.py:30-33 | `_insert_one` appends exactly one document, under an id no stored document had, and leaves the other collections unchanged |
| Properties.UpsertOneGrowth | wildlife_tracking_backend/src/api/sample_data.py:36-44 | `_upsert_one` never modifies or removes a document: the collection keeps its documents and grows by at most one, and the other collections are unchanged |
| Properties.UpsertEstablishesKey | wildlife_tracking_backend/src/api/sample_data.py:39-41 | after a successful upsert of a document that carries its own key, the key finds the document whose id was returned |
| Properties.UpsertFindsKey | wildlife_tracking_backend/src/api/sample_data.py:40-44 | on a working collection, an upsert on a key that already has a document changes nothing and returns that document's id, whatever document it is given |
| Properties.UpsertKeepsKey | wildlife_tracking_backend/src/api/sample_data.py:36-44 | an upsert leaves every other collection's keys finding the same documents |
| Properties.UpsertIdempotent | wildlife_tracking_backend/src/api/sample_data.py:36-44 | upserting the same self-keyed document twice returns the same id and leaves the same state as upserting it once |
| Properties.UpsertRunFrame | wildlife_tracking_backend/src/api/sample_data.py:79-130 | a run of upserts leaves alone every collection it does not name |
| Properties.UpsertRunKeyed | wildlife_tracking_backend/src/api/sample_data.py:79-130 | after a successful run of self-keyed upserts into distinct collections, each key finds the document whose id was returned for it |
| Properties.UpsertRunValid | wildlife_tracking_backend/src/api/sample_data.py:79-130 | a run of upserts keeps every stored ObjectId below the next one to be issued |
| Properties.UpsertRunPairAgain | wildlife_tracking_backend/src/api/sample_data.py:79-96 | two upserts whose keys already have their documents change nothing and return the existing ids |
| Properties.UpsertRunPairSucceeds | wildlife_tracking_backend/src/api/sample_data.py:79-96 | two upserts succeed exactly when neither of their collections fails |
| Properties.UpsertInserts | wildlife_tracking_backend/src/api/sample_data.py:39-41 | an upsert whose key matches nothing appends the document, and the key then finds it |
| Properties.DependentRunInsertsDevice | wildlife_tracking_backend/src/api/sample_data.py:99-107 | when the device key matches nothing, steps 3-4 insert the device referring to the given animal id, and the key finds it |
| Properties.DependentRunInsertsGeofence | wildlife_tracking_backend/src/api/sample_data.py:110-130 | when the geofence key matches nothing, steps 3-4 insert the geofence created by the given user id, and the key finds it |
| Properties.SeedRunsWellFormed | wildlife_tracking_backend/src/api/sample_data.py:85-130 | each of the four upserts filters on a natural key its own document carries, and they write to four distinct collections |
| Properties.OwnerRunKeyed | wildlife_tracking_backend/src/api/sample_data.py:79-96 | after steps 1-2 the email and tag_id keys find the user and animal whose ids were returned |
| Properties.DependentRunKeyed | wildlife_tracking_backend/src/api/sample_data.py:99-130 | after steps 3-4 the device_id and name keys find the device and geofence whose ids were returned |
| Properties.DependentRunKeeps | wildlife_tracking_backend/src/api/sample_data.py:99-130 | steps 3-4 leave the user and animal keys finding the same documents |
| Properties.OwnerRunAgain | wildlife_tracking_backend/src/api/sample_data.py:79-96 | when users and animals both work and the user and animal keys already have documents, steps 1-2 change nothing and return their ids; the device and geofence collections play no part |
| Properties.DependentRunAgain | wildlife_tracking_backend/src/api/sample_data.py:99-130 | when devices and geofences both work and the device and geofence keys already have documents, steps 3-4 change nothing and return their ids; the user and animal collections play no part |
| Properties.SeedKeysSucceedsIff | wildlife_tracking_backend/src/api/sample_data.py:79-130 | the four upserts succeed exactly when none of users, animals, devices and geofences fails |
| Properties.SeedKeysDeviceWired | wildlife_tracking_backend/src/api/sample_data.py:99-107 | when no device matched the device key, steps 1-4 insert the device referring to the animal they report |
| Properties.SeedKeysGeofenceWired | wildlife_tracking_backend/src/api/sample_data.py:110-130 | when no geofence matched the geofence key, steps 1-4 insert the geofence created by the user they report |
| Properties.SeedKeysFrame | wildlife_tracking_backend/src/api/sample_data.py:79-130 | the four upserts touch only the four identity collections, never change which collections fail, and issue ids only forward |
| Properties.SeedKeysEstablished | wildlife_tracking_backend/src/api/sample_data.py:79-130 | after the four upserts each natural key finds the document whose id was returned for it |
| Properties.SeedKeysAgain | wildlife_tracking_backend/src/api/sample_data.py:79-130 | when every natural key already has its document, the four upserts change nothing and return the existing ids, at any clock reading |
| Properties.SeedKeysIdempotent | wildlife_tracking_backend/src/api/sample_data.py:79-130 | running the four upserts again, later, returns the same ids and changes nothing |
| Seeding.InsertRunDocs | wildlife_tracking_backend/src/api/sample_data.py:164-191 | a successful run of inserts leaves every collection as it was, followed by the documents the run added to it |
| Seeding.InsertRunValid | wildlife_tracking_backend/src/api/sample_data.py:164-191 | a run of inserts keeps every stored ObjectId below the next one to be issued |
| Seeding.InsertRunFrame | wildlife_tracking_backend/src/api/sample_data.py:164-191 | whatever its outcome, a run of inserts leaves alone every collection it does not insert into |
| Seeding.AddedInsertions | wildlife_tracking_backend/src/api/sample_data.py:164-167 | the telemetry loop adds its documents, in order, under consecutive ObjectIds, and nothing to any other collection |
| Seeding.EventRunAdded | wildlife_tracking_backend/src/api/sample_data.py:164-191 | steps 5-7 add the three telemetry points, then the alert, then the sighting, each to its own collection |
| Seeding.SeedEventsFrame | wildlife_tracking_backend/src/api/sample_data.py:133-191 | steps 5-7 succeed exactly when no event collection fails, and touch only the event collections |
| Seeding.SeedEventIds | wildlife_tracking_backend/src/api/sample_data.py:164-202 | successful steps 5-7 report the five event ids as the consecutive ObjectIds from the next free one, and pass the four keys through |
| Seeding.SeedEventsDocs | wildlife_tracking_backend/src/api/sample_data.py:164-191 | successful steps 5-7 append to each collection the event documents meant for it, after the existing ones |
| Seeding.SeedEventsAppends | wildlife_tracking_backend/src/api/sample_data.py:164-191 | event documents are always appended, never upserted: telemetry, alerts and sightings each keep their old documents and gain the new ones |
| Seeding.EventIdsFresh | wildlife_tracking_backend/src/api/sample_data.py:164-191 | the five event ids are pairwise distinct and differ from the string form of every ObjectId issued before them |
| Seeding.TelemetryOfShape | wildlife_tracking_backend/src/api/sample_data.py:134-163 | the three telemetry points refer to the animal and the device, and are stamped 10, 5 and 1 minutes before `now` |
| Seeding.AppendedTelemetryWired | wildlife_tracking_backend/src/api/sample_data.py:135-167 | the appended telemetry refers to the reported animal and device, with timestamps now-10, now-5 and now-1 minutes |
| Seeding.AppendedWired | wildlife_tracking_backend/src/api/sample_data.py:170-191 | the appended alert refers to the animal and, in its metadata, to the geofence; the appended sighting refers to the user as reporter |
| Seeding.SeedSucceedsIff | wildlife_tracking_backend/src/api/sample_data.py:68-202 | seeding succeeds exactly when none of the seven collections fails; it never changes which collections fail, and issues ids only forward |
| Seeding.SeedKeysKept | wildlife_tracking_backend/src/api/sample_data.py:194-202 | after a successful seeding each natural key finds the document whose id was reported for it |
| Seeding.SeedEventsWired | wildlife_tracking_backend/src/api/sample_data.py:133-191 | the event documents a successful seeding appends refer to the reported user, animal, device and geofence ids |
| Seeding.SeedDeviceWired | wildlife_tracking_backend/src/api/sample_data.py:99-107 | when no device matched the device key, a successful seeding inserts the device referring to the reported animal id, and the key finds it |
| Seeding.SeedGeofenceWired | wildlife_tracking_backend/src/api/sample_data.py:110-130 | when no geofence matched the geofence key, a successful seeding inserts the geofence created by the reported user id, and the key finds it |
| Seeding.SeedTwice | wildlife_tracking_backend/src/api/sample_data.py:68-202 | a second seeding, at any later clock reading, succeeds, reports the same four keys, leaves the identity collections unchanged and appends another set of events |
| Seeding.SeedKeysAfterSeed | wildlife_tracking_backend/src/api/sample_data.py:79-130 | after a successful seeding, the four upserts of a second one find the documents of the first and change nothing |
| Seeding.SeedValid | wildlife_tracking_backend/src/api/sample_data.py:68-202 | seeding, successful or not, keeps every stored ObjectId below the next one to be issued |
| Seeding.SeedEventIdsFresh | wildlife_tracking_backend/src/api/sample_data.py:164-191 | the reported event ids are pairwise distinct and differ from the id of every document already in the store |
| Seeding.SeedTwiceNewEventIds | wildlife_tracking_backend/src/api/sample_data.py:164-191 | a second seeding reports telemetry, alert and sighting ids that differ from every event id the first one reported |
| Verifying.CountAllUp | wildlife_tracking_backend/src/api/sample_data.py:235-242 | the counting loop records no error exactly when none of the counted collections fails; it then counts each of them with its size; it never counts anything else |
| Verifying.CountFailureStopsRemaining | wildlife_tracking_backend/src/api/sample_data.py:235-242 | when the count of one collection is the first to fail, that error is recorded and exactly the collections before it are counted |
| Verifying.VerifyCountFailure | wildlife_tracking_backend/src/api/sample_data.py:235-258 | when one count is the first to fail, verification keeps exactly the counts taken before it, records that one count error (then a telemetry error only if telemetry fails too), still fetches the latest telemetry point, and is not ok |
| Verifying.VerifyErrorsIff | wildlife_tracking_backend/src/api/sample_data.py:258 | `errors` is None exactly when every collection works |
| Verifying.VerifyOkIff | wildlife_tracking_backend/src/api/sample_data.py:257 | the verdict is ok exactly when every collection works and holds at least one document |
| Verifying.VerifyCounts | wildlife_tracking_backend/src/api/sample_data.py:233-239 | when every collection works, verification counts every collection, each with its number of documents |
| Verifying.EveryCollectionCounted | wildlife_tracking_backend/src/api/sample_data.py:233 | the list of counted names covers every collection of the store |
| Verifying.SeedIdentitiesNonEmpty | wildlife_tracking_backend/src/api/sample_data.py:79-130 | after a successful seeding, users, animals, devices and geofences each hold a document |
| Verifying.SeedEventsNonEmpty | wildlife_tracking_backend/src/api/sample_data.py:133-191 | after a successful seeding, telemetry, alerts and sightings each hold a document |
| Verifying.SeedPopulates | wildlife_tracking_backend/src/api/sample_data.py:68-202 | after a successful seeding every counted collection works and holds a document |
| Verifying.SeedThenVerifyOk | wildlife_tracking_backend/src/api/sample_data.py:269-270 | verifying right after a successful seeding is ok |
| Verifying.SeedAndVerifyOk | wildlife_tracking_backend/src/api/sample_data.py:262-271 | `seed_and_verify` succeeds exactly when none of the seven collections fails, and its verdict is then ok |
| Verifying.LatestIsLast | wildlife_tracking_backend/src/api/sample_data.py:248 | when the last document is the only one stamped at or after its timestamp, it is the one the latest-first sort returns |
| Verifying.SeedTelemetry | wildlife_tracking_backend/src/api/sample_data.py:164-167 | a successful seeding keeps the old telemetry and adds three points, the newest under the last reported telemetry id |
| Verifying.VerifyLatest | wildlife_tracking_backend/src/api/sample_data.py:244-251 | when the last telemetry point is strictly newer than all the others, verification reports it as the latest |
| Verifying.LatestAfterSeed | wildlife_tracking_backend/src/api/sample_data.py:244-251 | when all earlier telemetry is older than `now` minus one minute, verifying after seeding reports the newest sample point (now-1 minute, under the third telemetry id) |
| FreshStore.FreshSeedKeys | wildlife_tracking_backend/src/api/sample_data.py:79-130 | on an empty store steps 1-4 insert the user, the animal, the device referring to the animal and the geofence created by the user, under ObjectIds 0 to 3 |
| FreshStore.FreshOwners | wildlife_tracking_backend/src/api/sample_data.py:79-96 | on an empty store steps 1-2 insert the user and the animal under ObjectIds 0 and 1, leaving devices and geofences empty |
| FreshStore.FreshDependents | wildlife_tracking_backend/src/api/sample_data.py:99-130 | into empty device and geofence collections steps 3-4 insert the device referring to the given animal and the geofence created by the given user, under the next two ObjectIds, leaving users and animals alone |
| FreshStore.FreshSeedIds | wildlife_tracking_backend/src/api/sample_data.py:194-202 | seeding an empty store succeeds and reports ObjectIds 0 to 8 in write order, with three telemetry ids |
| FreshStore.FreshSeedIdentities | wildlife_tracking_backend/src/api/sample_data.py:79-130 | after seeding an empty store, each identity collection holds exactly its sample document |
| FreshStore.FreshSeedEvents | wildlife_tracking_backend/src/api/sample_data.py:133-191 | after seeding an empty store, telemetry holds three documents and alerts and sightings one each |
| FreshStore.FreshCounts | wildlife_tracking_backend/src/api/sample_data.py:233-239 | verifying after seeding an empty store counts 3 telemetry documents and 1 in each other collection |
| FreshStore.FreshSeedAndVerify | wildlife_tracking_backend/src/api/sample_data.py:262-271 | `seed_and_verify` on an empty store is ok, records no errors, counts 3 telemetry documents and 1 in each other collection, and reports the point stamped one minute before `now` (ObjectId 6) as the latest |

## Left out

- Asynchrony: the `async`/`await` calls are modelled as sequential steps. Nothing else writes to
  the store between them. So the "" reply of `_upsert_one` (sample_data.py:44) can only happen
  under a concurrent delete, and `Workflow.UpsertOne` never returns it; `Workflow.ExistingId`
  models that branch.
- Clock: every `datetime.utcnow()` read is one parameter `now`. This covers the device's
  `last_seen_at`, the telemetry base time and the `created_at`/`updated_at` defaults. In the
  code these are separate reads of a clock that keeps moving, so `updated_at` here equals
  `created_at`. The `timestamp` of a telemetry point and of a sighting defaults to the clock
  (models.py:49, models.py:93); the workflow always supplies it, so here it is a required
  field.
- `ensure_database()`, index creation, `get_collection`, the HTTP router, logging, and the CLI
  and application entry points are not part of this model.
- The failing store operations stand for any exception the driver raises. The text of the
  error entries (`count_error: ...`, `telemetry_fetch_error: ...`) is reduced to which step
  failed and for which collection.
- ObjectIds are consecutive counters, and their string form is their hexadecimal numeral. Real
  ObjectIds also encode a timestamp, a process id and a random part. The consecutive numbering
  is relied on: `Workflow.InsertRun`, `Seeding.SeedEventIds`, `Seeding.LaterEventIdsDiffer`
  and the `FreshStore` lemmas state ids as `OidString(n)` for the next counter values. Of
  real ObjectIds only uniqueness would carry over, and with it the freshness lemmas.
- `str(latest_telemetry["_id"])` (sample_data.py:251) is not modelled as a change of the
  document. The latest document is reported with its numeric ObjectId, whose string form is
  `OidString`.
- `EmailStr` validation is not modelled; the email is a plain string.
- The `dict` fields (`location`, `geometry`, `extra`, `metadata`) are typed values or string
  maps rather than arbitrary JSON.
- Floating-point fields are `real` values that are stored but never computed on.
- `$setOnInsert` also copies the equality fields of the filter into the inserted document.
  This is not modelled: at every call site the document already carries its key
  (`Properties.SeedRunsWellFormed`).
- Documents with equal timestamps: the model reports the first inserted as the latest. MongoDB
  leaves their order unspecified.
- Filters are limited to equality on the four natural keys the workflow uses: email, tag_id,
  device_id and name.
- The latest-telemetry lookup is global, not scoped to the seeded animal, as in the code.
  `Verifying.LatestAfterSeed` therefore needs every earlier telemetry point to be older than
  the newest sample point.
- Seeding.SeedDeviceWired: proves the device refers to the reported animal only when this
  seeding inserted it, because an existing device matching `DEV-ALPHA-001` is kept as it was.
- Seeding.SeedGeofenceWired: proves the geofence was created by the reported user only when
  this seeding inserted it, for the same reason.
- Verifying.SeedThenVerifyOk, Verifying.SeedAndVerifyOk: a failing collection fails for the
  whole run. So "ok after a successful seeding" means "no store fault during the run". A fault
  that appears only while verifying (a count or the telemetry fetch) is not modelled. Neither
  is a `find_one` that raises after its `update_one` succeeded in `_upsert_one`
  (sample_data.py:43): `Workflow.UpsertOne` has that failure branch, but no input reaches it.
- Properties.UpsertIdempotent, Properties.SeedKeysIdempotent, Seeding.SeedKeysAfterSeed,
  Seeding.SeedTwice, Seeding.SeedTwiceNewEventIds: each states that the repeated call succeeds.
  That success comes from the same stand-in: a collection that worked for the first call still
  works for the second. In the code, a second `_upsert_one` (sample_data.py:36-44) or a second
  `seed_sample_data` (sample_data.py:68-202) can still raise after the first one succeeded. What
  these lemmas promise independently of that stand-in is the rest of each contract: the same
  ids, the unchanged identity collections and the new event ids.
