/** The `users` collection of database `wtf` as the resolvers use it: an
    object holding the stored documents in natural order. The driver calls
    the resolvers make change that sequence in place; the five resolvers are
    methods that make those calls in the source's order and are proved to
    behave as the reference definitions in `Resolvers` say. */
module Server {
  import opened Values
  import opened Driver
  import opened Resolvers

  class UsersCollection {
    var records: seq<Record>

    /** Every document has an ObjectId `_id`, and no two share one. */
    ghost predicate Valid()
      reads this
    {
      WellFormed(records)
    }

    constructor ()
      ensures Valid() && records == []
    {
      records := [];
    }

    /** `find().skip(skip).limit(limit)`, read to the end with `toArray`. */
    method Find(skip: int, limit: int) returns (page: Result<seq<Record>>)
      ensures page == Page(records, skip, limit)
    {
      page := Page(records, skip, limit);
    }

    /** `findOne({ _id: filter })`. */
    method FindOne(filter: Value) returns (found: Option<Record>)
      ensures found == Driver.FindOne(records, filter)
    {
      found := Driver.FindOne(records, filter);
    }

    /** `insertOne(doc)`, resolving to `{ insertedId }`; `newId` is the
        ObjectId the driver generates for the document. */
    method InsertOne(doc: Record, newId: ObjectId) returns (insertedId: Result<Value>)
      requires Valid() && IdKey !in doc
      modifies this
      ensures Valid()
      ensures var inserted := Driver.InsertOne(old(records), doc, newId);
              && (inserted.Err? ==> insertedId == Err(inserted.error) && records == old(records))
              && (inserted.Ok? ==> insertedId == Ok(Oid(newId)) && records == inserted.value)
    {
      var inserted := Driver.InsertOne(records, doc, newId);
      match inserted
      case Err(e) =>
        insertedId := Err(e);
      case Ok(rs) =>
        InsertOneKeepsWellFormed(records, doc, newId);
        records := rs;
        insertedId := Ok(Oid(newId));
    }

    /** `updateOne({ _id: filter }, { $set: patch })`. */
    method UpdateOne(filter: Value, patch: Object)
      requires Valid() && IdKey !in patch
      modifies this
      ensures Valid()
      ensures records == Driver.UpdateOne(old(records), filter, patch)
    {
      UpdateOneKeepsWellFormed(records, filter, patch);
      records := Driver.UpdateOne(records, filter, patch);
    }

    /** `deleteOne({ _id: filter })`. */
    method DeleteOne(filter: Value)
      requires Valid()
      modifies this
      ensures Valid()
      ensures records == Driver.DeleteOne(old(records), filter)
    {
      DeleteOneKeepsWellFormed(records, filter);
      records := Driver.DeleteOne(records, filter);
    }

    /** `Query.users(skip, limit)`. */
    method Users(skip: Option<int>, limit: Option<int>) returns (r: Result<seq<Object>>)
      requires Valid()
      ensures r == ListUsers(records, skip, limit)
    {
      var page := Find(Count(skip), Count(limit));
      match page
      case Err(e) =>
        r := Err(e);
      case Ok(docs) =>
        assert HasIdKeys(records);
        r := Ok(seq(|docs|, i requires 0 <= i < |docs| => ListedUser(docs[i])));
    }

    /** `Query.user(id)`. */
    method User(id: string) returns (r: Result<Object>)
      ensures r == ReadUser(records, id)
    {
      var found := FindOne(Oid(FromString(id)));
      match found
      case None =>
        r := Err(NullDestructure);
      case Some(rec) =>
        var user := Destructure(rec, IdKey);
        r := Ok(Spread(map["id" := Str(id)], user.rest));
    }

    /** `Mutation.userCreate(input)`; `newId` is the ObjectId the driver
        generates for the inserted document. */
    method UserCreate(input: Object, newId: ObjectId) returns (r: Result<UserPayload>)
      requires Valid() && IsUserInput(input)
      modifies this
      ensures Valid()
      ensures Step(r, records) == CreateUser(old(records), input, newId)
    {
      assert IdKey !in input;
      var inserted := InsertOne(input, newId);
      match inserted
      case Err(e) =>
        r := Err(e);
      case Ok(insertedId) =>
        r := Ok(UserPayload(Spread(map["id" := insertedId], input)));
    }

    /** `Mutation.userUpdate(input)`: split `id` off the input, read the
        document, write `$set`, return the merge. */
    method UserUpdate(input: Object) returns (r: Result<UserPayload>)
      requires Valid() && IsUserInput(input)
      modifies this
      ensures Valid()
      ensures Step(r, records) == UpdateUser(old(records), input)
    {
      var split := Destructure(input, "id");
      assert IdKey !in split.rest;
      if !(split.field.Some? && split.field.value.Str?) {
        // ObjectId(undefined) or ObjectId(null) is a freshly generated id:
        // findOne resolves to null, and destructuring it throws.
        return Err(NullDestructure);
      }
      var id := split.field.value;
      var found := FindOne(Oid(FromString(id.s)));
      if found.None? {
        return Err(NullDestructure);
      }
      var existing := Destructure(found.value, IdKey);
      UpdateOne(existing.field.value, split.rest);
      r := Ok(UserPayload(Spread(Spread(map["id" := id], existing.rest), split.rest)));
    }

    /** `Mutation.userDelete(input)` for `input.id`. */
    method UserDelete(id: string) returns (r: DeletePayload)
      requires Valid()
      modifies this
      ensures Valid()
      ensures Step(Ok(r), records) == DeleteUser(old(records), id)
    {
      DeleteOne(Oid(FromString(id)));
      r := DeletePayload(id);
    }
  }
}
