/** An in-memory stand-in for the document store behind `get_collection`:
    named collections of documents in insertion order and a counter that
    issues fresh ObjectIds. Only the four operations the sample-data workflow
    uses are modelled: `insert_one`, `update_one` with `$setOnInsert` and
    `upsert=True`, `count_documents({})`, and `find_one` (by an equality
    filter, or over all documents sorted by descending `timestamp`).

    A store failure (the exceptions the driver raises) is modelled by a fixed
    set of failing collections: every operation on one of them raises
    `OperationFailed` and changes nothing. */
module Store {
  import opened Wrappers
  import opened Models

  /** A stored document: the ObjectId the store assigned, and the body. */
  datatype Stored = Stored(oid: nat, doc: Doc)

  /** A filter document with one equality, `{key: value}`. */
  datatype Query = Query(key: Field, value: string)

  /** The collections the workflow reads and writes. */
  datatype Collection = Users | Animals | Devices | Telemetry | Geofences | Alerts | Sightings

  datatype StoreError = OperationFailed(collection: Collection)

  /** The whole store: collections by name, the next ObjectId, and the
      collections whose operations raise. */
  datatype StoreState = StoreState(collections: map<Collection, seq<Stored>>, nextOid: nat, failing: set<Collection>)

  /** The outcome of a store operation: the new state and a value or error. */
  datatype Step<+T> = Step(state: StoreState, result: Result<T, StoreError>)

  /** A collection that was never written to is empty. */
  function Docs(s: StoreState, name: Collection): seq<Stored> {
    if name in s.collections then s.collections[name] else []
  }

  /** Every ObjectId in the store was issued before `nextOid`. */
  ghost predicate Valid(s: StoreState) {
    forall c, i :: c in s.collections && 0 <= i < |s.collections[c]| ==> s.collections[c][i].oid < s.nextOid
  }

  predicate Matches(q: Query, d: Doc) {
    StringField(d, q.key) == Some(q.value)
  }

  /** Index of the first document in insertion order that matches `q`. */
  function FirstMatch(docs: seq<Stored>, q: Query): (r: Option<nat>)
    ensures r.None? <==> forall i :: 0 <= i < |docs| ==> !Matches(q, docs[i].doc)
    ensures r.Some? ==> r.value < |docs| && Matches(q, docs[r.value].doc)
    ensures r.Some? ==> forall i :: 0 <= i < r.value ==> !Matches(q, docs[i].doc)
  {
    if docs == [] then None
    else if Matches(q, docs[0].doc) then Some(0)
    else
      match FirstMatch(docs[1..], q)
      case None => None
      case Some(k) => Some(k + 1)
  }

  /** The state after appending `doc` to `name` under the next ObjectId. */
  function Append(s: StoreState, name: Collection, doc: Doc): StoreState {
    StoreState(s.collections[name := Docs(s, name) + [Stored(s.nextOid, doc)]], s.nextOid + 1, s.failing)
  }

  /** Appending keeps every ObjectId below the counter. */
  lemma AppendValid(s: StoreState, name: Collection, doc: Doc)
    requires Valid(s)
    ensures Valid(Append(s, name, doc))
  {
    var t := Append(s, name, doc);
    forall c, i | c in t.collections && 0 <= i < |t.collections[c]| ensures t.collections[c][i].oid < t.nextOid {
      if c == name && i < |Docs(s, name)| {
        assert t.collections[c][i] == Docs(s, name)[i];
      }
    }
  }

  /** `insert_one(doc)`: append `doc` under a fresh ObjectId. */
  function Insert(s: StoreState, name: Collection, doc: Doc): (r: Step<nat>)
    ensures name in s.failing ==> r == Step(s, Failure(OperationFailed(name)))
    ensures name !in s.failing ==> r == Step(Append(s, name, doc), Success(s.nextOid))
  {
    if name in s.failing then Step(s, Failure(OperationFailed(name)))
    else Step(Append(s, name, doc), Success(s.nextOid))
  }

  /** `update_one(q, {"$setOnInsert": doc}, upsert=True)`: the `upserted_id`
      is present exactly when nothing matched and `doc` was inserted; a
      matching document is never modified. */
  function Upsert(s: StoreState, name: Collection, q: Query, doc: Doc): (r: Step<Option<nat>>)
    ensures name in s.failing ==> r == Step(s, Failure(OperationFailed(name)))
    ensures name !in s.failing && FirstMatch(Docs(s, name), q).Some? ==> r == Step(s, Success(None))
    ensures name !in s.failing && FirstMatch(Docs(s, name), q).None? ==>
      r == Step(Append(s, name, doc), Success(Some(s.nextOid)))
  {
    if name in s.failing then Step(s, Failure(OperationFailed(name)))
    else if FirstMatch(Docs(s, name), q).Some? then Step(s, Success(None))
    else
      var i := Insert(s, name, doc);
      Step(i.state, Success(Some(i.result.value)))
  }

  /** `count_documents({})`. */
  function Count(s: StoreState, name: Collection): (r: Result<nat, StoreError>)
    ensures r.Success? <==> name !in s.failing
    ensures r.Success? ==> r.value == |Docs(s, name)|
  {
    if name in s.failing then Failure(OperationFailed(name)) else Success(|Docs(s, name)|)
  }

  /** `find_one(q)`: the first matching document in insertion order. */
  function Find(s: StoreState, name: Collection, q: Query): (r: Result<Option<Stored>, StoreError>)
    ensures r.Success? <==> name !in s.failing
    ensures r.Success? ==> (r.value.None? <==> FirstMatch(Docs(s, name), q).None?)
    ensures r.Success? && r.value.Some? ==> r.value.value == Docs(s, name)[FirstMatch(Docs(s, name), q).value]
  {
    if name in s.failing then Failure(OperationFailed(name))
    else
      match FirstMatch(Docs(s, name), q)
      case None => Success(None)
      case Some(k) => Success(Some(Docs(s, name)[k]))
  }

  /** Document `a` sorts before document `b` under `sort=[("timestamp", -1)]`:
      its timestamp is later, a missing timestamp sorting last. */
  predicate SortsBefore(a: Doc, b: Doc): (before: bool)
    ensures before ==> TimestampField(a).Some?
    ensures before && TimestampField(b).Some? ==> TimestampField(b).value < TimestampField(a).value
    ensures TimestampField(a).Some? && TimestampField(b).None? ==> before
  {
    TimestampField(a).Some? && (TimestampField(b).None? || TimestampField(a).value > TimestampField(b).value)
  }

  /** `SortsBefore` is a strict order: irreflexive, asymmetric, transitive. */
  lemma SortsBeforeStrict(a: Doc, b: Doc, c: Doc)
    ensures !SortsBefore(a, a)
    ensures SortsBefore(a, b) ==> !SortsBefore(b, a)
    ensures SortsBefore(a, b) && SortsBefore(b, c) ==> SortsBefore(a, c)
  {
  }

  /** Index of the first document (in insertion order) among those with the
      latest timestamp. */
  function LatestIndex(docs: seq<Stored>): (k: nat)
    requires |docs| > 0
    ensures k < |docs|
    ensures forall i :: 0 <= i < |docs| ==> !SortsBefore(docs[i].doc, docs[k].doc)
    ensures forall i :: 0 <= i < k ==> SortsBefore(docs[k].doc, docs[i].doc)
  {
    if |docs| == 1 then 0
    else
      var k := LatestIndex(docs[..|docs| - 1]);
      if SortsBefore(docs[|docs| - 1].doc, docs[k].doc) then |docs| - 1 else k
  }

  /** `find_one({}, sort=[("timestamp", -1)])`. */
  function Latest(s: StoreState, name: Collection): (r: Result<Option<Stored>, StoreError>)
    ensures r.Success? <==> name !in s.failing
    ensures r.Success? ==> (r.value.None? <==> Docs(s, name) == [])
    ensures r.Success? && r.value.Some? ==>
      && r.value.value in Docs(s, name)
      && forall d :: d in Docs(s, name) ==> !SortsBefore(d.doc, r.value.value.doc)
  {
    if name in s.failing then Failure(OperationFailed(name))
    else if Docs(s, name) == [] then Success(None)
    else Success(Some(Docs(s, name)[LatestIndex(Docs(s, name))]))
  }

  /** The string form of an ObjectId: its lowercase hexadecimal numeral. */
  function OidString(n: nat): (s: string)
    ensures |s| >= 1
    ensures n >= 16 ==> |s| >= 2
  {
    if n < 16 then [HexDigit(n)] else OidString(n / 16) + [HexDigit(n % 16)]
  }

  function HexDigit(d: nat): char
    requires d < 16
  {
    if d < 10 then (48 + d) as char else (87 + d) as char
  }

  /** Distinct ObjectIds have distinct string forms. */
  lemma {:induction false} OidStringInjective(a: nat, b: nat)
    requires a != b
    ensures OidString(a) != OidString(b)
  {
    if a >= 16 && b >= 16 {
      var sa, sb := OidString(a), OidString(b);
      assert sa[..|sa| - 1] == OidString(a / 16) && sa[|sa| - 1] == HexDigit(a % 16);
      assert sb[..|sb| - 1] == OidString(b / 16) && sb[|sb| - 1] == HexDigit(b % 16);
      if a % 16 == b % 16 {
        OidStringInjective(a / 16, b / 16);
      }
    }
  }

  /** The mutable stand-in the workflow talks to. */
  class DocumentStore {
    var collections: map<Collection, seq<Stored>>
    var nextOid: nat
    var failing: set<Collection>

    function State(): StoreState
      reads this
    {
      StoreState(collections, nextOid, failing)
    }

    /** An empty store whose operations on `failing` raise. */
    constructor (failing: set<Collection>)
      ensures State() == StoreState(map[], 0, failing) && Valid(State())
    {
      this.collections := map[];
      this.nextOid := 0;
      this.failing := failing;
    }

    method InsertOne(name: Collection, doc: Doc) returns (r: Result<nat, StoreError>)
      modifies this
      ensures State() == Insert(old(State()), name, doc).state
      ensures r == Insert(old(State()), name, doc).result
    {
      if name in failing {
        return Failure(OperationFailed(name));
      }
      collections := collections[name := Docs(State(), name) + [Stored(nextOid, doc)]];
      r := Success(nextOid);
      nextOid := nextOid + 1;
    }

    method UpdateOne(name: Collection, q: Query, doc: Doc) returns (r: Result<Option<nat>, StoreError>)
      modifies this
      ensures State() == Upsert(old(State()), name, q, doc).state
      ensures r == Upsert(old(State()), name, q, doc).result
    {
      if name in failing {
        return Failure(OperationFailed(name));
      }
      if FirstMatch(Docs(State(), name), q).Some? {
        return Success(None);
      }
      var id := InsertOne(name, doc);
      r := Success(Some(id.value));
    }

    method CountDocuments(name: Collection) returns (r: Result<nat, StoreError>)
      ensures r == Count(State(), name)
    {
      if name in failing {
        return Failure(OperationFailed(name));
      }
      r := Success(|Docs(State(), name)|);
    }

    method FindOne(name: Collection, q: Query) returns (r: Result<Option<Stored>, StoreError>)
      ensures r == Find(State(), name, q)
    {
      if name in failing {
        return Failure(OperationFailed(name));
      }
      var docs := Docs(State(), name);
      var k := FirstMatch(docs, q);
      r := if k.Some? then Success(Some(docs[k.value])) else Success(None);
    }

    method FindLatest(name: Collection) returns (r: Result<Option<Stored>, StoreError>)
      ensures r == Latest(State(), name)
    {
      if name in failing {
        return Failure(OperationFailed(name));
      }
      var docs := Docs(State(), name);
      r := if docs == [] then Success(None) else Success(Some(docs[LatestIndex(docs)]));
    }
  }
}
