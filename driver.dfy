/** What the resolvers assume of the MongoDB driver, stated on the `users`
    collection seen as a sequence of documents in natural (insertion) order.
    None of this is defined by the resolvers' own code: `find().skip().limit()`,
    `findOne`, `insertOne`, `updateOne` with `$set` and `deleteOne` are given
    the semantics below. */
module Driver {
  import opened Values

  type Record = Object

  const IdKey: Key := "_id"

  function Abs(x: int): (r: nat)
  {
    if x < 0 then -x else x
  }

  /** The filter `{ _id: v }` selects `r`. */
  predicate Matches(r: Record, v: Value)
  {
    IdKey in r && r[IdKey] == v
  }

  /** Every document carries an `_id`, as MongoDB guarantees of every
      stored document, whatever its type. */
  predicate HasIdKeys(rs: seq<Record>)
  {
    forall i :: 0 <= i < |rs| ==> IdKey in rs[i]
  }

  /** Every document carries an ObjectId `_id`. */
  predicate HasIds(rs: seq<Record>)
  {
    forall i :: 0 <= i < |rs| ==> IdKey in rs[i] && rs[i][IdKey].Oid?
  }

  /** The invariant a store written only through the resolvers keeps: each
      document has an ObjectId `_id` (the one insertOne generated), and no
      two documents share one (the unique `_id` index). */
  predicate WellFormed(rs: seq<Record>)
  {
    && HasIds(rs)
    && forall i, j :: 0 <= i < j < |rs| ==> rs[i][IdKey] != rs[j][IdKey]
  }

  /** Index of the first document the filter `{ _id: v }` selects. */
  function FirstMatch(rs: seq<Record>, v: Value): (r: Option<nat>)
    ensures r.Some? ==> r.value < |rs| && Matches(rs[r.value], v)
    ensures r.Some? ==> forall j :: 0 <= j < r.value ==> !Matches(rs[j], v)
    ensures r.None? ==> forall j :: 0 <= j < |rs| ==> !Matches(rs[j], v)
    decreases |rs|
  {
    if |rs| == 0 then None
    else if Matches(rs[0], v) then Some(0)
    else
      match FirstMatch(rs[1..], v)
      case None =>
        assert forall j :: 1 <= j < |rs| ==> rs[j] == rs[1..][j - 1];
        None
      case Some(k) =>
        assert forall j :: 1 <= j <= k ==> rs[j] == rs[1..][j - 1];
        Some(k + 1)
  }

  /** In a well-formed store the document holding an `_id` is the first
      (and only) one the filter selects. */
  lemma MatchIsFirst(rs: seq<Record>, i: nat, v: Value)
    requires WellFormed(rs) && i < |rs| && Matches(rs[i], v)
    ensures FirstMatch(rs, v) == Some(i)
  {
    var k := FirstMatch(rs, v).value;
    assert rs[k][IdKey] == rs[i][IdKey];
  }

  /** `findOne({ _id: v })`: the first selected document, or null (None). */
  function FindOne(rs: seq<Record>, v: Value): (r: Option<Record>)
    ensures r.None? <==> forall j :: 0 <= j < |rs| ==> !Matches(rs[j], v)
    ensures r.Some? ==> Matches(r.value, v) && r.value in rs
  {
    match FirstMatch(rs, v)
    case None => None
    case Some(i) => Some(rs[i])
  }

  /** `find().skip(skip).limit(limit)` read to the end: the server refuses a
      negative skip; otherwise drop the first `skip` documents, then keep at
      most `|limit|` of the rest. A limit of 0 keeps them all, and a negative
      limit is sent as its absolute value with a single batch. */
  function Page(rs: seq<Record>, skip: int, limit: int): (r: Result<seq<Record>>)
    ensures r.Err? <==> skip < 0
    ensures r.Err? ==> r.error == NegativeSkip
    ensures r.Ok? && skip >= |rs| ==> r.value == []
    ensures r.Ok? && skip < |rs| && (limit == 0 || Abs(limit) >= |rs| - skip) ==> |r.value| == |rs| - skip
    ensures r.Ok? && skip < |rs| && limit != 0 && Abs(limit) < |rs| - skip ==> |r.value| == Abs(limit)
    ensures r.Ok? ==> forall i :: 0 <= i < |r.value| ==> 0 <= skip + i < |rs| && r.value[i] == rs[skip + i]
  {
    if skip < 0 then Err(NegativeSkip)
    else
      var rest := if skip < |rs| then rs[skip..] else [];
      Ok(if limit == 0 || Abs(limit) >= |rest| then rest else rest[..Abs(limit)])
  }

  /** `insertOne(doc)` for a document without `_id`: the driver gives it
      `newId`; the unique index refuses an `_id` already present. */
  function InsertOne(rs: seq<Record>, doc: Record, newId: ObjectId): (r: Result<seq<Record>>)
    requires IdKey !in doc
    ensures r.Err? <==> exists i :: 0 <= i < |rs| && Matches(rs[i], Oid(newId))
    ensures r.Err? ==> r.error == DuplicateKey
    ensures r.Ok? ==> |r.value| == |rs| + 1 && r.value[..|rs|] == rs
    ensures r.Ok? ==> Matches(r.value[|rs|], Oid(newId)) && Destructure(r.value[|rs|], IdKey).rest == doc
  {
    if FindOne(rs, Oid(newId)).Some? then Err(DuplicateKey)
    else
      var stored := Spread(doc, map[IdKey := Oid(newId)]);
      assert Destructure(stored, IdKey).rest == doc;
      Ok(rs + [stored])
  }

  /** `updateOne({ _id: filter }, { $set: patch })`: the first selected document
      takes the values of `patch` at its keys; with no selected document
      nothing changes. */
  function UpdateOne(rs: seq<Record>, filter: Value, patch: Object): (r: seq<Record>)
    requires IdKey !in patch
    ensures |r| == |rs|
    ensures FirstMatch(rs, filter).None? ==> r == rs
    ensures FirstMatch(rs, filter).Some? ==>
              var i := FirstMatch(rs, filter).value;
              && r[i] == Spread(rs[i], patch)
              && forall j :: 0 <= j < |rs| && j != i ==> r[j] == rs[j]
  {
    match FirstMatch(rs, filter)
    case None => rs
    case Some(i) => rs[i := Spread(rs[i], patch)]
  }

  /** `deleteOne({ _id: filter })`: the first selected document is removed
      and the others keep their order; with none selected nothing changes. */
  function DeleteOne(rs: seq<Record>, filter: Value): (r: seq<Record>)
    ensures FirstMatch(rs, filter).None? ==> r == rs
    ensures FirstMatch(rs, filter).Some? ==>
              var i := FirstMatch(rs, filter).value;
              && |r| == |rs| - 1
              && forall j :: 0 <= j < |r| ==> r[j] == rs[if j < i then j else j + 1]
  {
    match FirstMatch(rs, filter)
    case None => rs
    case Some(i) => rs[..i] + rs[i + 1..]
  }

  lemma InsertOneKeepsWellFormed(rs: seq<Record>, doc: Record, newId: ObjectId)
    requires IdKey !in doc && InsertOne(rs, doc, newId).Ok?
    ensures WellFormed(rs) ==> WellFormed(InsertOne(rs, doc, newId).value)
  {
    if !WellFormed(rs) { return; }
    var r := InsertOne(rs, doc, newId).value;
    assert forall i :: 0 <= i < |rs| ==> r[i] == rs[i];
    forall i, j | 0 <= i < j < |r|
      ensures r[i][IdKey] != r[j][IdKey]
    {
      if j == |rs| {
        assert !Matches(rs[i], Oid(newId));
      }
    }
  }

  lemma UpdateOneKeepsWellFormed(rs: seq<Record>, filter: Value, patch: Object)
    requires IdKey !in patch
    ensures WellFormed(rs) ==> WellFormed(UpdateOne(rs, filter, patch))
  {
    if !WellFormed(rs) { return; }
    var r := UpdateOne(rs, filter, patch);
    assert forall i :: 0 <= i < |rs| ==> IdKey in r[i] && r[i][IdKey] == rs[i][IdKey];
  }

  lemma DeleteOneKeepsWellFormed(rs: seq<Record>, filter: Value)
    ensures WellFormed(rs) ==> WellFormed(DeleteOne(rs, filter))
  {
    if !WellFormed(rs) { return; }
    var r := DeleteOne(rs, filter);
    if FirstMatch(rs, filter).Some? {
      var k := FirstMatch(rs, filter).value;
      forall i, j | 0 <= i < j < |r|
        ensures r[i][IdKey] != r[j][IdKey]
      {
        var i', j' := if i < k then i else i + 1, if j < k then j else j + 1;
        assert r[i] == rs[i'] && r[j] == rs[j'] && i' < j';
      }
    }
  }

  /** After a delete, no document of a well-formed store still carries the
      deleted `_id`, so deleting it again changes nothing. */
  lemma DeleteOneIdempotent(rs: seq<Record>, filter: Value)
    requires WellFormed(rs)
    ensures DeleteOne(DeleteOne(rs, filter), filter) == DeleteOne(rs, filter)
    ensures forall j :: 0 <= j < |DeleteOne(rs, filter)| ==> !Matches(DeleteOne(rs, filter)[j], filter)
  {
    var r := DeleteOne(rs, filter);
    if FirstMatch(rs, filter).Some? {
      var k := FirstMatch(rs, filter).value;
      forall j | 0 <= j < |r|
        ensures !Matches(r[j], filter)
      {
        var j' := if j < k then j else j + 1;
        assert r[j] == rs[j'] && (j' < k || k < j');
        assert rs[j'][IdKey] != rs[k][IdKey];
      }
    }
    assert FirstMatch(r, filter).None?;
  }
}
