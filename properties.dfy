/** Properties that relate several resolver calls: what a read sees after a
    listing, a create, an update or a delete, and what repeating a mutation
    does. */
module Properties {
  import opened Values
  import opened Driver
  import opened Resolvers

  /** The `id` that `users` lists for a document, rendered as a string and
      passed to `user`, reads back that same document. */
  lemma ListedUserReadsBack(rs: seq<Record>, i: nat)
    requires WellFormed(rs) && i < |rs|
    ensures var hex := ToExternal(rs[i][IdKey].oid);
            && ListedUser(rs[i])["id"] == Oid(FromString(hex))
            && ReadUser(rs, hex).Ok?
            && Merged(ReadUser(rs, hex).value, Str(hex), rs[i] - {IdKey}, map[])
  {
    var hex := ToExternal(rs[i][IdKey].oid);
    IdRoundTrip(rs[i][IdKey].oid);
    MatchIsFirst(rs, i, Oid(FromString(hex)));
  }

  /** After userCreate, `user` with the string form of the inserted `_id`
      returns the input with that string as `id` (unless the input carried
      its own `id`, which then wins). */
  lemma CreatedUserReadsBack(rs: seq<Record>, input: Object, newId: ObjectId)
    requires WellFormed(rs) && IsUserInput(input)
    requires CreateUser(rs, input, newId).result.Ok?
    ensures var store := CreateUser(rs, input, newId).store;
            ReadUser(store, ToExternal(newId)) == Ok(Spread(map["id" := Str(ToExternal(newId))], input))
  {
    var store := CreateUser(rs, input, newId).store;
    IdRoundTrip(newId);
    MatchIsFirst(store, |rs|, Oid(FromString(ToExternal(newId))));
    assert Destructure(store[|rs|], IdKey).rest == input;
  }

  /** After a successful userUpdate, `user` with the same id returns exactly
      the user the update returned: the resolver's merge and the stored
      `$set` agree. */
  lemma UpdatedUserReadsBack(rs: seq<Record>, input: Object)
    requires WellFormed(rs) && IsUserInput(input)
    requires UpdateUser(rs, input).result.Ok?
    ensures "id" in input && input["id"].Str?
    ensures var st := UpdateUser(rs, input);
            ReadUser(st.store, input["id"].s) == Ok(st.result.value.user)
  {
    var i, patch := Target(rs, input).value, input - {"id"};
    var key := Oid(FromString(input["id"].s));
    UpdateUserFound(rs, input);
    var store := rs[i := Spread(rs[i], patch)];
    assert IdKey !in patch;
    assert Matches(store[i], key);
    MatchIsFirst(store, i, key);
    ReadUserFound(store, input["id"].s, i);
    OmitThroughSpread(rs[i], patch, IdKey);
    SpreadAssociative(map["id" := input["id"]], rs[i] - {IdKey}, patch);
  }

  /** Repeating a userUpdate with the same input changes nothing further and
      returns the same user: `$set` is idempotent. */
  lemma UpdateIsIdempotent(rs: seq<Record>, input: Object)
    requires WellFormed(rs) && IsUserInput(input)
    ensures var once := UpdateUser(rs, input);
            UpdateUser(once.store, input) == once
  {
    if Target(rs, input).Some? {
      var i, patch := Target(rs, input).value, input - {"id"};
      var key := Oid(FromString(input["id"].s));
      UpdateUserFound(rs, input);
      var store := rs[i := Spread(rs[i], patch)];
      assert IdKey !in patch;
      assert Matches(store[i], key);
      MatchIsFirst(store, i, key);
      UpdateUserFound(store, input);
      SpreadIdempotent(rs[i], patch);
      assert store[i := Spread(store[i], patch)] == store;
      OmitThroughSpread(rs[i], patch, IdKey);
      var front := map["id" := input["id"]];
      SpreadAssociative(front, rs[i] - {IdKey}, patch);
      SpreadIdempotent(Spread(front, rs[i] - {IdKey}), patch);
    }
  }

  /** A repeated userDelete returns the same payload and leaves the store as
      the first one did. */
  lemma RepeatedDeleteIsHarmless(rs: seq<Record>, id: string)
    requires WellFormed(rs)
    ensures var first := DeleteUser(rs, id);
            var second := DeleteUser(first.store, id);
            second.result == first.result && second.store == first.store
  {
    DeleteOneIdempotent(rs, Oid(FromString(id)));
  }

  /** After userDelete, `user` with the same id finds nothing and throws. */
  lemma DeletedUserIsGone(rs: seq<Record>, id: string)
    requires WellFormed(rs)
    ensures ReadUser(DeleteUser(rs, id).store, id) == Err(NullDestructure)
  {
    DeleteOneIdempotent(rs, Oid(FromString(id)));
  }

  /** An example: updating `{ name: "A", bio: "old" }` with only a new `bio`
      keeps the name, in the returned user and in the store. */
  lemma MergePatchExample()
    ensures var oid := ObjectId("a");
            var stored := map[IdKey := Oid(oid), "name" := Str("A"), "bio" := Str("old")];
            var st := UpdateUser([stored], map["id" := Str("a"), "bio" := Str("new")]);
            && st.result == Ok(UserPayload(map["id" := Str("a"), "name" := Str("A"), "bio" := Str("new")]))
            && st.store == [map[IdKey := Oid(oid), "name" := Str("A"), "bio" := Str("new")]]
  {
    var oid := ObjectId("a");
    var stored := map[IdKey := Oid(oid), "name" := Str("A"), "bio" := Str("old")];
    var input := map["id" := Str("a"), "bio" := Str("new")];
    assert Matches(stored, Oid(FromString("a")));
    assert FirstMatch([stored], Oid(FromString("a"))) == Some(0);
    var st := UpdateUser([stored], input);
    var user := map["id" := Str("a"), "name" := Str("A"), "bio" := Str("new")];
    assert st.result.value.user.Keys == user.Keys;
    assert st.result.value.user == user;
    assert st.store[0] == map[IdKey := Oid(oid), "name" := Str("A"), "bio" := Str("new")];
  }

  /** An example: over ten documents, skip 2 and limit 3 list the documents
      at positions 2, 3 and 4; a limit of 0 lists all ten. */
  lemma PaginationExample(rs: seq<Record>)
    requires HasIdKeys(rs) && |rs| == 10
    ensures ListUsers(rs, Some(2), Some(3)) == Ok([ListedUser(rs[2]), ListedUser(rs[3]), ListedUser(rs[4])])
    ensures ListUsers(rs, None, Some(0)).Ok? && |ListUsers(rs, None, Some(0)).value| == 10
  {
    var r := ListUsers(rs, Some(2), Some(3)).value;
    assert |r| == 3 && r[0] == ListedUser(rs[2]) && r[1] == ListedUser(rs[3]) && r[2] == ListedUser(rs[4]);
    assert r == [ListedUser(rs[2]), ListedUser(rs[3]), ListedUser(rs[4])];
  }
}
