/** The five resolvers of the users API (`Query.users`, `Query.user`,
    `Mutation.userCreate`, `Mutation.userUpdate`, `Mutation.userDelete`) as
    functions of the stored collection: each gives what the resolver resolves
    to, or the error it throws, together with the collection it leaves. These
    are the reference definitions the methods of `Server.UsersCollection` are
    proved against. */
module Resolvers {
  import opened Values
  import opened Driver

  /** `{ user }`, what userCreate and userUpdate resolve to. */
  datatype UserPayload = UserPayload(user: Object)

  /** `{ deletedUserId }`, what userDelete resolves to. */
  datatype DeletePayload = DeletePayload(deletedUserId: string)

  /** A resolver's outcome and the collection after it. */
  datatype Step<T> = Step(result: Result<T>, store: seq<Record>)

  /** What GraphQL validation lets through as a `UserInput`: at most the
      properties `id`, `name` and `bio`, each a string or an explicit null. */
  predicate IsUserInput(input: Object)
  {
    && input.Keys <= {"id", "name", "bio"}
    && forall k :: k in input ==> input[k].Str? || input[k].Null?
  }

  /** `parseInt(arg, 10) || 0` for a nullable GraphQL Int argument: an
      integer parses back to itself, and the NaN of a missing or null
      argument becomes 0. */
  function Count(arg: Option<int>): (n: int)
    ensures n == 0 <==> arg == None || arg == Some(0)
    ensures n != 0 ==> arg == Some(n)
  {
    match arg
    case None => 0
    case Some(n) => n
  }

  /** `u` is `{ id, ...prior, ...patch }` key by key: every key of the three,
      `patch` winning over `prior` wherever both have a key, and the leading
      `id` surviving only when neither object has a property `id`. */
  predicate Merged(u: Object, id: Value, prior: Object, patch: Object)
  {
    && u.Keys == {"id"} + prior.Keys + patch.Keys
    && (forall k :: k in patch ==> u[k] == patch[k])
    && (forall k :: k in prior && k !in patch ==> u[k] == prior[k])
    && ("id" !in prior && "id" !in patch ==> u["id"] == id)
  }

  /** How `users` shows one stored document: `({ _id, ...user }) => ({ ...user, id: _id })`.
      The `_id` key is gone, `id` is the stored `_id` (it comes last, so it
      hides a stored field named `id`), and every other field is unchanged. */
  function ListedUser(r: Record): (u: Object)
    requires IdKey in r
    ensures IdKey !in u
    ensures u.Keys == (r.Keys - {IdKey}) + {"id"}
    ensures u["id"] == r[IdKey]
    ensures forall k :: k in u && k != "id" ==> k in r && u[k] == r[k]
  {
    var s := Destructure(r, IdKey);
    Spread(s.rest, map["id" := s.field.value])
  }

  /** `Query.users(skip, limit)`: the stored documents in natural order,
      without the first `skip`, at most `|limit|` of them (a limit of 0 is no
      limit), each shown as ListedUser shows it, whatever the type of its
      `_id`; the server refuses a negative skip. */
  function ListUsers(rs: seq<Record>, skip: Option<int>, limit: Option<int>): (r: Result<seq<Object>>)
    requires HasIdKeys(rs)
    ensures r.Err? <==> Count(skip) < 0
    ensures r.Err? ==> r.error == NegativeSkip
    ensures r.Ok? ==> forall i :: 0 <= i < |r.value| ==>
                        Count(skip) + i < |rs| && r.value[i] == ListedUser(rs[Count(skip) + i])
    ensures r.Ok? && Count(skip) >= |rs| ==> r.value == []
    ensures r.Ok? && Count(skip) < |rs| && (Count(limit) == 0 || Abs(Count(limit)) >= |rs| - Count(skip)) ==>
              |r.value| == |rs| - Count(skip)
    ensures r.Ok? && Count(skip) < |rs| && Count(limit) != 0 && Abs(Count(limit)) < |rs| - Count(skip) ==>
              |r.value| == Abs(Count(limit))
  {
    match Page(rs, Count(skip), Count(limit))
    case Err(e) => Err(e)
    case Ok(page) => Ok(seq(|page|, i requires 0 <= i < |page| => ListedUser(page[i])))
  }

  /** `Query.user(id)`: `{ id, ...user }` for `{ _id, ...user }` the document
      whose `_id` is `ObjectId(id)`; with no such document, findOne resolves
      to null and destructuring it throws. */
  function ReadUser(rs: seq<Record>, id: string): (r: Result<Object>)
    ensures r.Err? <==> forall j :: 0 <= j < |rs| ==> !Matches(rs[j], Oid(FromString(id)))
    ensures r.Err? ==> r.error == NullDestructure
    ensures r.Ok? ==> && FirstMatch(rs, Oid(FromString(id))).Some?
                      && var rec := rs[FirstMatch(rs, Oid(FromString(id))).value];
                         Merged(r.value, Str(id), rec - {IdKey}, map[])
    ensures r.Ok? ==> IdKey !in r.value
  {
    match FindOne(rs, Oid(FromString(id)))
    case None => Err(NullDestructure)
    case Some(rec) =>
      var s := Destructure(rec, IdKey);
      Ok(Spread(map["id" := Str(id)], s.rest))
  }

  /** `Mutation.userCreate(input)`: insertOne stores `input` with the `_id`
      the driver generates (`newId`), and the resolver returns
      `{ user: { id: insertedId, ...input } }`, so an `id` in `input` wins
      over the inserted one. A generated `_id` already stored is refused. */
  function CreateUser(rs: seq<Record>, input: Object, newId: ObjectId): (st: Step<UserPayload>)
    requires IsUserInput(input)
    ensures st.result.Err? <==> exists i :: 0 <= i < |rs| && Matches(rs[i], Oid(newId))
    ensures st.result.Err? ==> st.result.error == DuplicateKey && st.store == rs
    ensures st.result.Ok? ==>
              && |st.store| == |rs| + 1
              && st.store[..|rs|] == rs
              && Matches(st.store[|rs|], Oid(newId))
              && st.store[|rs|] - {IdKey} == input
    ensures st.result.Ok? ==> Merged(st.result.value.user, Oid(newId), input, map[])
    ensures WellFormed(rs) ==> WellFormed(st.store)
  {
    assert IdKey !in input;
    match InsertOne(rs, input, newId)
    case Err(e) => Step(Err(e), rs)
    case Ok(store) =>
      InsertOneKeepsWellFormed(rs, input, newId);
      Step(Ok(UserPayload(Spread(map["id" := Oid(newId)], input))), store)
  }

  /** The index of the document an update input addresses: its `id` must be
      a string naming a stored `_id`. A missing or null `id` makes bson
      generate a fresh ObjectId, which names no stored document. */
  function Target(rs: seq<Record>, input: Object): (t: Option<nat>)
    ensures t.Some? ==> && "id" in input && input["id"].Str?
                        && t.value < |rs| && Matches(rs[t.value], Oid(FromString(input["id"].s)))
                        && forall j :: 0 <= j < t.value ==> !Matches(rs[j], Oid(FromString(input["id"].s)))
    ensures t.None? <==> || "id" !in input || !input["id"].Str?
                         || forall j :: 0 <= j < |rs| ==> !Matches(rs[j], Oid(FromString(input["id"].s)))
  {
    if "id" in input && input["id"].Str? then FirstMatch(rs, Oid(FromString(input["id"].s)))
    else None
  }

  /** `Mutation.userUpdate(input)`: `const { id, ...$set } = input`, read the
      document with `_id` `ObjectId(id)`, `$set` its fields and return
      `{ user: { id, ...existingUser, ...$set } }`. With no such document the
      destructuring of null throws before anything is written. */
  function UpdateUser(rs: seq<Record>, input: Object): (st: Step<UserPayload>)
    requires IsUserInput(input)
    ensures st.result.Ok? <==> Target(rs, input).Some?
    ensures st.result.Err? ==> st.result.error == NullDestructure && st.store == rs
    ensures st.result.Ok? ==>
              var i, patch := Target(rs, input).value, input - {"id"};
              && i < |rs| == |st.store|
              && st.store[i] == Spread(rs[i], patch)
              && (forall j :: 0 <= j < |rs| && j != i ==> st.store[j] == rs[j])
              && Merged(st.result.value.user, input["id"], rs[i] - {IdKey}, patch)
    ensures WellFormed(rs) ==> WellFormed(st.store)
  {
    var s := Destructure(input, "id");
    assert IdKey !in s.rest;
    match s.field
    case Some(Str(id)) =>
      (match FindOne(rs, Oid(FromString(id)))
       case None => Step(Err(NullDestructure), rs)
       case Some(rec) =>
         var e := Destructure(rec, IdKey);
         var store := UpdateOne(rs, e.field.value, s.rest);
         UpdateOneKeepsWellFormed(rs, e.field.value, s.rest);
         Step(Ok(UserPayload(Spread(Spread(map["id" := Str(id)], e.rest), s.rest))), store))
    case _ => Step(Err(NullDestructure), rs)
  }

  /** `Mutation.userDelete(input)`: deleteOne the document with `_id`
      `ObjectId(id)` and return `{ deletedUserId: id }`, whether or not a
      document was removed. */
  function DeleteUser(rs: seq<Record>, id: string): (st: Step<DeletePayload>)
    ensures st.result == Ok(DeletePayload(id))
    ensures FirstMatch(rs, Oid(FromString(id))).None? ==> st.store == rs
    ensures FirstMatch(rs, Oid(FromString(id))).Some? ==>
              var i := FirstMatch(rs, Oid(FromString(id))).value;
              && |st.store| == |rs| - 1
              && forall j :: 0 <= j < |st.store| ==> st.store[j] == rs[if j < i then j else j + 1]
    ensures WellFormed(rs) ==> WellFormed(st.store)
  {
    DeleteOneKeepsWellFormed(rs, Oid(FromString(id)));
    Step(Ok(DeletePayload(id)), DeleteOne(rs, Oid(FromString(id))))
  }

  /** ReadUser on a document it finds, in closed form. */
  lemma ReadUserFound(rs: seq<Record>, id: string, i: nat)
    requires i < |rs| && FirstMatch(rs, Oid(FromString(id))) == Some(i)
    ensures ReadUser(rs, id) == Ok(Spread(map["id" := Str(id)], rs[i] - {IdKey}))
  {
  }

  /** UpdateUser on an input that addresses a stored document, in closed form. */
  lemma UpdateUserFound(rs: seq<Record>, input: Object)
    requires IsUserInput(input) && Target(rs, input).Some?
    ensures var i, patch := Target(rs, input).value, input - {"id"};
            && i < |rs|
            && UpdateUser(rs, input)
               == Step(Ok(UserPayload(Spread(Spread(map["id" := input["id"]], rs[i] - {IdKey}), patch))),
                       rs[i := Spread(rs[i], patch)])
  {
    var i := Target(rs, input).value;
    assert FindOne(rs, Oid(FromString(input["id"].s))) == Some(rs[i]);
    assert Destructure(input, "id").field == Some(input["id"]);
  }
}
