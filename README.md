# Users GraphQL resolvers over a MongoDB collection, modelled in Dafny

The server answers five GraphQL operations on one entity, the user:
`Query.users(skip, limit)`, `Query.user(id)`, `Mutation.userCreate(input)`,
`Mutation.userUpdate(input)` and `Mutation.userDelete(input)`. Each resolver
makes one or two calls on the `users` collection of the `wtf` database and
reshapes the stored documents into API users. Documents keep their identity
under `_id` (an ObjectId); API users show it under `id`.

This project models that resolver layer:

- `values.dfy` (module `Values`): JavaScript values and plain objects as
  finite maps. It gives object spread (`{ ...a, ...b }`, the later object
  wins) and rest destructuring (`const { k, ...rest } = o`). An ObjectId is
  a datatype over the string it was built from, so `ObjectId(id)` is
  injective and `ToExternal` inverts it.
- `driver.dfy` (module `Driver`): the semantics the resolvers assume of the
  MongoDB driver, stated on the collection as a sequence of documents in
  natural order. `findOne` picks the first match. `find().skip().limit()`
  is refused for a negative skip; otherwise it drops a prefix and caps the
  length, and a limit of 0 means no cap.
  `insertOne` appends with the generated `_id`. `updateOne` with `$set`
  overwrites the given keys of the first match. `deleteOne` removes the
  first match. These are assumptions about the driver; the server's own
  code does not define them. MongoDB guarantees only that every document
  has an `_id` and that no two share one. A store written only through
  these resolvers also has every `_id` an ObjectId, the one `insertOne`
  generated. `WellFormed` is that stronger invariant.
- `resolvers.dfy` (module `Resolvers`): each resolver as a function of the
  stored sequence. It gives the resolver's result or the error it throws,
  and the sequence it leaves behind.
- `properties.dfy` (module `Properties`): lemmas that relate several
  calls. They cover: read after list, create or update; repeated update;
  repeated delete; read after delete. Two concrete cases are worked out: a
  partial update that keeps the fields it does not name, and one page of a
  ten-document listing.
- `server.dfy` (module `Server`): class `UsersCollection` holds the
  documents in a `seq<Record>` field. Its driver methods change that field
  in place. Its five resolver methods make the driver calls in the order
  the source makes them, with one exception: when `input.id` is missing or
  null, `UserUpdate` skips the `findOne` call. That read uses a freshly
  generated id and could only miss, so the outcome is the same throw. Each
  method is proved equal to its reference function in `Resolvers`.

Outside parameters:
- `newId` is the ObjectId the driver generates for an inserted document.
  Its randomness is not modelled.
- A collision with a stored `_id` is the driver's duplicate-key error, and
  the store is then left unchanged.

Behaviour worth noting:
- A missing user makes `user` throw. The resolver destructures the `null`
  that `findOne` resolves to (server.js:84).
- `userUpdate` on a missing document throws the same way before anything
  is written. The error is the destructuring TypeError.
- `skip` is not clamped. `parseInt(skip, 10) || 0` passes a negative
  number through, and the server refuses the find (`NegativeSkip`).
- `userDelete` resolves to `{ deletedUserId: id }` for every id, whether or
  not a document was removed.
- Spread order decides which `id` wins, and the resolvers differ:
  - `users` writes `id: _id` last, so a stored field named `id` is hidden.
  - `user` and `userUpdate` write `id` first, so a stored `id` wins.
  - `userCreate` writes `id: insertedId` first, so an `id` in the input
    wins.

## Model

| member | source | states |
|---|---|---|
| `Values.FromString` | server.js:87 | `ObjectId(id)` has an inverse: rendering the ObjectId built from `id` gives `id` back, so the conversion is injective |
| `Values.IdRoundTrip` | server.js:87 | the other order of the id round trip: an ObjectId rendered as a string and converted back is the same ObjectId |
| `Values.Spread` | server.js:102 | `{ ...base, ...over }` has the keys of both objects; `over`'s value wins on shared keys; `base`'s value stays on the others |
| `Values.Destructure` | server.js:105 | `const { k, ...rest } = o`: the picked value is present exactly when `o` has `k`; `rest` has every other key of `o` with its value |
| `Values.DestructureRoundTrip` | server.js:84-92 | putting the picked property back in front of the rest (`{ k, ...rest }`) rebuilds the destructured object |
| `Driver.FirstMatch` | server.js:84-87 | driver assumption: the index returned selects a document with that `_id`, and no earlier document is selected; with no result, no document is selected |
| `Driver.MatchIsFirst` | server.js:84-87 | in a well-formed store, the document holding an `_id` is the one the filter `{ _id }` finds |
| `Driver.FindOne` | server.js:84-87 | driver assumption: `findOne` resolves to null exactly when no document has the `_id`; otherwise it resolves to a stored document with that `_id` |
| `Driver.Page` | server.js:72-79 | driver assumption: the server refuses the cursor exactly when `skip` is negative. Otherwise the result is the stored order with `skip` documents dropped. Its length is all the rest when `limit` is 0 or at least the rest, and `abs(limit)` otherwise. Skipping past the end gives nothing |
| `Driver.InsertOne` | server.js:97-100 | driver assumption: insert fails with a duplicate key exactly when the new `_id` is already stored. Otherwise the store grows by one, the old documents are an unchanged prefix, and the new last document is `doc` plus the new `_id` |
| `Driver.UpdateOne` | server.js:112-115 | driver assumption: only the first matching document changes, and it becomes itself spread with `$set`. The length is kept, and with no match nothing changes |
| `Driver.DeleteOne` | server.js:122-125 | driver assumption: with no match nothing changes. Otherwise exactly one document goes and the others keep their relative order |
| `Driver.InsertOneKeepsWellFormed` | server.js:97-100 | a successful insert keeps every `_id` an ObjectId and all `_id`s distinct |
| `Driver.UpdateOneKeepsWellFormed` | server.js:112-115 | a `$set` without `_id` keeps the store well formed: `_id`s are untouched |
| `Driver.DeleteOneKeepsWellFormed` | server.js:122-125 | a delete keeps the store well formed |
| `Driver.DeleteOneIdempotent` | server.js:122-125 | in a well-formed store, no document carries the `_id` after a delete, so a second delete changes nothing |
| `Resolvers.Count` | server.js:76-77 | `parseInt(arg, 10)` falling back to 0 on a nullable Int: the result is 0 exactly when the argument is missing, null or 0; any other result is the argument itself. `ListUsers`'s contract is stated through it |
| `Resolvers.ListedUser` | server.js:78 | a listed user has no `_id` and has `id` equal to the stored `_id`, even over a stored `id` field. Every other field is unchanged, and no field is added or lost |
| `Resolvers.ListUsers` | server.js:71-82 | for any collection whose documents all have an `_id`, of whatever type: `users(skip, limit)` fails exactly when the parsed skip is negative; a missing skip or limit parses to 0. Element `i` is the listed form of stored document `skip + i`, and the length is all remaining documents for limit 0 and `min(abs(limit), remaining)` otherwise |
| `Resolvers.ReadUser` | server.js:83-93 | `user(id)` throws exactly when no document has `_id` = `ObjectId(id)`. Otherwise it returns that document's fields without `_id` and with `id` added: the requested `id` unless the document has its own `id` field, which wins |
| `Resolvers.CreateUser` | server.js:96-103 | `userCreate` fails with a duplicate key exactly when the generated `_id` is stored, and then nothing changes. Otherwise the store gains one document at the end, equal to `input` plus the fresh `_id`, with the old documents unchanged. The returned user is `input` with `id` = inserted `_id` unless `input` has `id`. Well-formedness is kept |
| `Resolvers.Target` | server.js:105-110 | the document `userUpdate` addresses: when present, `input.id` is a string and the index is the first document with `_id` = `ObjectId(input.id)`. There is none exactly when `input.id` is missing or null, or no document has that `_id`. A missing or null `id` is the fresh id that matches nothing (see "Left out") |
| `Resolvers.UpdateUser` | server.js:104-118 | `userUpdate` succeeds exactly when `input.id` is a string naming a stored `_id`; otherwise it throws with the store unchanged. On success only that document changes, to itself spread with `input` minus `id`, and the other documents and their order are unchanged. The returned user is the prior fields minus `_id`, overridden by the supplied fields, with prior values where a field is not supplied, and `id` from the input unless stored. Well-formedness is kept |
| `Resolvers.DeleteUser` | server.js:119-130 | `userDelete` always returns `deletedUserId` equal to the input id. It removes the first document with that `_id` if there is one and nothing otherwise, keeping the others in order. Well-formedness is kept |
| `Properties.ListedUserReadsBack` | server.js:78-92 | the `id` that `users` lists for a document, as a string passed to `user`, reads back that document's fields |
| `Properties.CreatedUserReadsBack` | server.js:96-102 | after `userCreate`, `user` with the inserted `_id`'s string returns the input with that string as `id` (unless the input has `id`) |
| `Properties.UpdatedUserReadsBack` | server.js:104-117 | after a successful `userUpdate`, `user` with the same id returns exactly the user the update returned |
| `Properties.UpdateIsIdempotent` | server.js:104-117 | repeating a `userUpdate` with the same input returns the same result and leaves the same store |
| `Properties.RepeatedDeleteIsHarmless` | server.js:119-129 | a repeated `userDelete` returns the same payload and leaves the store as the first did |
| `Properties.DeletedUserIsGone` | server.js:119-129 | after `userDelete`, `user` with the same id throws |
| `Properties.MergePatchExample` | server.js:104-117 | updating `{ name: "A", bio: "old" }` with only `bio: "new"` keeps `name`, in the returned user and in the store |
| `Properties.PaginationExample` | server.js:71-79 | over ten documents, skip 2 and limit 3 list positions 2, 3 and 4. A limit of 0 lists all ten |
| `Server.UsersCollection.Find` | server.js:72-79 | the cursor read with `toArray` is `Page` of the current store: the refusal of a negative skip, or the page of documents |
| `Server.UsersCollection.FindOne` | server.js:84-87 | resolves to the driver's `findOne` on the current store |
| `Server.UsersCollection.InsertOne` | server.js:97-100 | on a duplicate `_id` fails and leaves the store. Otherwise resolves to `insertedId` = the new `_id` and the store becomes the insert. The invariant is kept |
| `Server.UsersCollection.UpdateOne` | server.js:112-115 | the store becomes the `$set` update of the old store, and the invariant is kept |
| `Server.UsersCollection.DeleteOne` | server.js:122-125 | the store becomes the delete of the old store, and the invariant is kept |
| `Server.UsersCollection.Users` | server.js:71-82 | returns `ListUsers` of the current store |
| `Server.UsersCollection.User` | server.js:83-93 | returns `ReadUser` of the current store |
| `Server.UsersCollection.UserCreate` | server.js:96-103 | result and new store are those of `CreateUser` on the old store, and the invariant is kept |
| `Server.UsersCollection.UserUpdate` | server.js:104-118 | result and new store are those of `UpdateUser` on the old store, and the invariant is kept |
| `Server.UsersCollection.UserDelete` | server.js:119-130 | payload and new store are those of `DeleteUser` on the old store, and the invariant is kept |

## Left out

- `connectToDb` (server.js:8-26): the network connection and its error logging are I/O. Its cache is a local variable, so it never caches. A failed connection leaves `context.mongo` undefined, and the resolvers would then throw; the model assumes a connected store.
- The schema text and its validation (server.js:28-67, server.js:134): validation belongs to the GraphQL library. The model uses the input shape only, as `IsUserInput` and typed parameters.
- GraphQL output coercion is not modelled: rendering an ObjectId `id` as a string, dropping fields that are not in `User`, and the error for a missing non-null `name`. `Values.ToExternal` stands in for the rendering.
- Express, `graphqlHTTP`, GraphiQL, the port and `dotenv` (server.js:1, server.js:136-155) are transport and bootstrap.
- The ObjectId hex format, and the error `ObjectId` throws on a malformed string, are library behaviour. Every string converts.
- `Values.FromString`: the string → ObjectId → string round trip holds only for lowercase 24-digit hex strings. The real `ObjectId` reads hex case-insensitively and also accepts 12-character byte strings, so different strings can name the same ObjectId. For example, `user` with the uppercase form of a stored id finds that document, while the model throws.
- ObjectId generation (time, counter, randomness): the generated id is the parameter `newId`.
- `ObjectId(undefined)` and `ObjectId(null)` generate a fresh id. This happens in `userUpdate` when `input.id` is missing or null. The model treats that fresh id as matching no stored document.
- Asynchrony: each resolver is one atomic step. Races are not modelled, including those between the read and the write of `userUpdate`.
- The driver adds `_id` to the object passed to `insertOne`, so `input` gains `_id` in place. This is not modelled, and the `User` type hides the extra key.
- An input with only `id` gives an empty `$set`. MongoDB 5.0 and later accept it as a no-op, and that is how it is modelled. Older servers reject it.
- `Driver.InsertOne`: covers only documents without `_id`, because the resolvers never send one (`UserInput` has no `_id`).
- `Driver.UpdateOne`: covers only a `$set` without `_id`, for the same reason. The server's immutable-`_id` error is not modelled.
- Documents written by other clients: the collection starts empty (`Server.UsersCollection.constructor`) and is written only through these resolvers. A document stored by another writer, for example one with a string `_id`, falls outside `Valid()`. `Resolvers.ListUsers` still covers it, because it only needs every `_id` to be present. The other resolvers and the `Server` methods assume `Valid()`.
- `Driver.Page`: a negative limit is modelled as a cap of its absolute value. The single-batch size limit that goes with it is not modelled.
- Documents are maps. JavaScript's property order and BSON value types other than string, null and ObjectId are not modelled.
- The 32-bit range of GraphQL `Int` arguments is enforced by the schema and not modelled.
