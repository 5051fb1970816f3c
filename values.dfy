/** JavaScript values and plain objects as the resolvers of the users API see
    them: documents are finite maps from property names to values, and the
    resolvers reshape them with object spread and rest destructuring. */
module Values {

  datatype Option<+T> = None | Some(value: T)

  /** A BSON ObjectId. Its 12-byte/24-hex-digit format is not modelled: an
      ObjectId is known only by the external string it was built from, so
      the conversion from strings is injective and has an inverse. */
  datatype ObjectId = ObjectId(hex: string)

  /** `ObjectId(id)` for an external id string. */
  function FromString(id: string): (oid: ObjectId)
    ensures ToExternal(oid) == id
  {
    ObjectId(id)
  }

  /** The string an ObjectId is rendered as when it leaves the API. */
  function ToExternal(oid: ObjectId): (id: string)
  {
    oid.hex
  }

  /** The other order of the identifier round trip (FromString's own
      contract states string to ObjectId to string): an ObjectId rendered
      and read back is the same ObjectId. */
  lemma IdRoundTrip(oid: ObjectId)
    ensures FromString(ToExternal(oid)) == oid
  {
  }

  /** The values a stored user document or an API user can hold: GraphQL
      `ID`/`String` inputs arrive as strings (or an explicit null), and the
      store adds an ObjectId under `_id`. */
  datatype Value = Null | Str(s: string) | Oid(oid: ObjectId)

  type Key = string

  type Object = map<Key, Value>

  /** `{ ...base, ...over }`: every key of either object, the later object
      winning where both have one. */
  function Spread(base: Object, over: Object): (r: Object)
    ensures r.Keys == base.Keys + over.Keys
    ensures forall k :: k in over ==> r[k] == over[k]
    ensures forall k :: k in base && k !in over ==> r[k] == base[k]
  {
    base + over
  }

  /** The two halves of `const { k, ...rest } = o`; `field` is None when
      `o` has no property `k` (JavaScript's `undefined`). */
  datatype Split = Split(field: Option<Value>, rest: Object)

  /** `const { k, ...rest } = o` on an object (not on null). */
  function Destructure(o: Object, k: Key): (s: Split)
    ensures s.field.Some? <==> k in o
    ensures s.field.Some? ==> s.field.value == o[k]
    ensures s.rest.Keys == o.Keys - {k}
    ensures forall j :: j in s.rest ==> s.rest[j] == o[j]
  {
    Split(if k in o then Some(o[k]) else None, o - {k})
  }

  /** Putting the picked property back in front of the rest, `{ k, ...rest }`,
      rebuilds the destructured object. */
  lemma DestructureRoundTrip(o: Object, k: Key)
    requires k in o
    ensures Spread(map[k := o[k]], Destructure(o, k).rest) == o
  {
    var r := Spread(map[k := o[k]], Destructure(o, k).rest);
    assert r.Keys == o.Keys;
  }

  /** Dropping a key the later object lacks commutes with spreading. */
  lemma OmitThroughSpread(o: Object, p: Object, k: Key)
    requires k !in p
    ensures Spread(o, p) - {k} == Spread(o - {k}, p)
  {
    assert (Spread(o, p) - {k}).Keys == Spread(o - {k}, p).Keys;
  }

  /** Spreads nest either way: `{ ...a, ...{ ...b, ...c } }` is `{ ...a, ...b, ...c }`. */
  lemma SpreadAssociative(a: Object, b: Object, c: Object)
    ensures Spread(a, Spread(b, c)) == Spread(Spread(a, b), c)
  {
    assert Spread(a, Spread(b, c)).Keys == Spread(Spread(a, b), c).Keys;
  }

  /** Spreading the same object twice is spreading it once. */
  lemma SpreadIdempotent(a: Object, p: Object)
    ensures Spread(Spread(a, p), p) == Spread(a, p)
  {
    assert Spread(Spread(a, p), p).Keys == Spread(a, p).Keys;
  }

  /** The ways a resolver call fails in this model. */
  datatype Error =
    | NullDestructure  // TypeError: destructuring the null that findOne resolved to
    | DuplicateKey     // E11000: insertOne with an `_id` already in the collection
    | NegativeSkip     // the server refuses a find with a negative skip

  datatype Result<+T> = Ok(value: T) | Err(error: Error)
}
