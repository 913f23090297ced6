# API keys of the Meilisearch Rust SDK, modelled in Dafny

This project models the client-side data model for API keys in the Meilisearch
Rust SDK (`src/key.rs`). It has three parts:

- **The `Action` enumeration** (`action.dfy`, module `Actions`). These are the 16 permission
  scopes a key may grant. Each is renamed to a fixed wire token (`"*"`,
  `"search"`, `"documents.add"`, … `"version"`). `ToToken` is the token table
  and `FromToken` is the partial decoder. The model proves that the tokens are pairwise
  distinct, that decoding a variant's token gives the variant back, and that
  every other string fails to decode, because there is no catch-all variant. A JSON array of
  tokens (a serialized `Vec<Action>`) decodes back to the same list. One unknown
  token makes the whole array fail.
- **The in-place builders** (`key.dfy`, module `Keys`). The classes are `Key`, `KeyBuilder` and
  `KeysQuery`. Their fields are `seq` and `Option` values that the mutators
  reassign. Every mutator changes one field, states that all other fields are
  unchanged, and returns the same object for chaining. The model keeps the source's asymmetry:
  `with_actions`/`with_action` append and never deduplicate, `with_indexes`
  replaces the whole list while `with_index` appends, and the optional setters
  overwrite. `Key.AsStr` is the `AsRef<str>` view of a key, which is its `key` string.
  The key mutators preserve it.
- **The write views** (`WriteView` on each class). Each one is the JSON object, keyed by camelCase
  field name, that the serializer writes:
  - For `Key`, empty `actions` and `indexes` are omitted. `key`, `createdAt` and
    `updatedAt` are never written. `description`, `name` and `expiresAt` are
    always written, as null when absent.
  - For `KeyBuilder`, nothing is skipped.
  - For `KeysQuery`, the client is never written, and `offset`/`limit` are written
    exactly when set.

  Timestamps are an abstract type, `OffsetDateTime`. A written timestamp is the
  abstract value `JTimestamp(t)` and stands for its RFC 3339 text.

`wire.dfy` (module `Wire`) holds the shared pieces: `Option`, the abstract
`OffsetDateTime` and `Client` types, `Usize`, and the `Json` value type. `scenarios.dfy`
(module `Scenarios`) holds client call sequences on fresh objects, each with
the resulting state or request body.

The doc-comment examples in src/key.rs are stale. They call `KeyBuilder::new`
with a description and use a `create` method, but `new()` takes no argument
(src/key.rs:215), the method is `execute` (src/key.rs:323), and there is no
description setter on the builder (src/key.rs:302). The model follows the code.

Decoding is characterised over the modelled `Json` values (null, numbers,
strings, arrays and abstract timestamps). JSON objects are not modelled, so any
other encoding a JSON library might also accept for a unit variant is outside
these statements.

## Model

| member | source | states |
|---|---|---|
| `Actions.ToToken` | src/key.rs:337-382 | The rename table. The wildcard `*` is the token of `All` and of no other variant. |
| `Actions.TokenShape` | src/key.rs:337-382 | Every token except the wildcard is a non-empty name made of lower-case letters and dots. |
| `Actions.FromToken` | src/key.rs:334-384 | A string decodes to `a` exactly when it is `a`'s token. It decodes to `None` exactly when it is no variant's token, since there is no fallback variant. |
| `Actions.TokenRoundTrip` | src/key.rs:334-384 | Decoding the token of any variant yields that variant. |
| `Actions.TokensDistinct` | src/key.rs:334-384 | Two variants with the same token are the same variant. |
| `Actions.SixteenDistinctTokens` | src/key.rs:335-384 | The enumeration has exactly 16 variants, every variant is listed, and their 16 tokens are pairwise different. |
| `Actions.EncodeActions` | src/key.rs:334-384 | A serialized action list has one JSON element per action. |
| `Actions.DecodeActions` | src/key.rs:334-384 | Reading a `Vec<Action>`: a decoded array has one action per element, and each element is the JSON string of its action's token. |
| `Actions.DecodeEncodeActions` | src/key.rs:334-384 | Reading back the serialized token array of any action list gives that list, in order and with its duplicates. |
| `Actions.EncodeDecodeActions` | src/key.rs:334-384 | Any array that decodes is exactly the serialization of what it decodes to. |
| `Actions.DecodeActionsFails` | src/key.rs:334-384 | An array fails to decode if and only if one of its elements is not a string holding a known token. |
| `Keys.Key.constructor` | src/key.rs:9-26 | A key record holds exactly the eight fields it is given. |
| `Keys.Key.AsStr` | src/key.rs:115-119 | `AsRef<str>` for a key yields its secret `key` string, not its name or description. |
| `Keys.Key.WithDescription` | src/key.rs:52-55 | `description` becomes `Some(desc)`. No other field changes, and the `AsRef<str>` string stays the same. The update body changes only in its `description` entry. The same object is returned. |
| `Keys.Key.WithName` | src/key.rs:80-83 | `name` becomes `Some(n)`. No other field changes, and the `AsRef<str>` string stays the same. The update body changes only in its `name` entry. The same object is returned. |
| `Keys.Key.WriteView` | src/key.rs:9-25 | The body never holds `key`, `createdAt` or `updatedAt`. It holds `actions` iff they are non-empty, and they read back to the same list. It holds `indexes` iff they are non-empty. It always holds `description`, `name` and `expiresAt`, and each is null iff its field is `None`. |
| `Keys.WriteViewIgnoresServerFields` | src/key.rs:14-25 | Keys that agree on their client-editable fields write the same body, whatever their `key`, `createdAt` and `updatedAt`. |
| `Keys.KeyBuilder.constructor` | src/key.rs:215-222 | A new builder has no actions, no indexes, no description and no expiry. |
| `Keys.KeyBuilder.WithActions` | src/key.rs:233-236 | `actions' == actions + given`: the actions are appended in order, with no deduplication. The other fields are unchanged. |
| `Keys.KeyBuilder.WithAction` | src/key.rs:247-250 | Exactly one action is appended at the end, even a duplicate. The other fields are unchanged. |
| `Keys.KeyBuilder.WithExpiresAt` | src/key.rs:263-266 | `expiresAt` becomes `Some(at)`, replacing any earlier value. The other fields are unchanged. |
| `Keys.KeyBuilder.WithIndexes` | src/key.rs:277-286 | `indexes` becomes exactly the given list, whatever it held before. The other fields are unchanged. |
| `Keys.KeyBuilder.WithIndex` | src/key.rs:297-300 | `indexes' == indexes + [index]`. The other fields are unchanged. |
| `Keys.KeyBuilder.WriteView` | src/key.rs:196-204 | The body always holds exactly `actions`, `description`, `expiresAt` and `indexes`. Empty lists are written as empty arrays and absent values as null. The actions read back to the same list. |
| `Keys.KeysQuery.constructor` | src/key.rs:150-156 | A new query keeps its client and has neither offset nor limit. |
| `Keys.KeysQuery.WithOffset` | src/key.rs:158-161 | `offset` becomes `Some(n)`, overwriting any earlier value. `limit` is unchanged. |
| `Keys.KeysQuery.WithLimit` | src/key.rs:162-165 | `limit` becomes `Some(n)`, overwriting any earlier value. `offset` is unchanged. |
| `Keys.KeysQuery.WriteView` | src/key.rs:129-147 | The parameters never hold the client. They hold `offset` iff it is set and `limit` iff it is set, each with its value. |
| `Scenarios.ReplaceIndexesTwice` | src/key.rs:277-286 | After `with_indexes(A)` then `with_indexes(B)`, the indexes are `B`. |
| `Scenarios.ReplaceThenAppendIndex` | src/key.rs:277-300 | After `with_index`, then `with_indexes(A)`, then `with_index(x)`, the indexes are `A + [x]`. |
| `Scenarios.AddActionTwice` | src/key.rs:233-250 | After `with_action(a)` twice and then `with_actions(more)`, the actions are `[a, a] + more`. |
| `Scenarios.ResetExpiry` | src/key.rs:263-266 | With two expiries set, the create body carries the later one, and empty lists are written as empty arrays. |
| `Scenarios.SearchEverywhereRequest` | src/key.rs:196-300 | `new().with_action(Search).with_index("*")` writes `{"actions": ["search"], "description": null, "expiresAt": null, "indexes": ["*"]}`. |
| `Scenarios.EditKey` | src/key.rs:52-83 | Describing and renaming a key changes exactly those two entries of its update body, and the key still stands for its original key string. |
| `Scenarios.BareKeyUpdate` | src/key.rs:9-25 | A key with empty lists and only a description writes exactly `{"description": d, "name": null, "expiresAt": null}`. |
| `Scenarios.UnpagedQuery` | src/key.rs:129-156 | A fresh query writes no parameters. |
| `Scenarios.PagedQuery` | src/key.rs:129-165 | After `with_limit(20)`, `with_offset(1)` and `with_limit(2)`, the query writes `offset = 1` and `limit = 2`. |

## Left out

- `Key::update`, `KeyBuilder::execute` and `KeysQuery::execute` (src/key.rs:110-112, 168-170, 323-325) are not modelled. They are asynchronous one-line forwards to the HTTP `Client`, and `Client` is not part of this model.
- The RFC 3339 text of timestamps (the `time::serde::rfc3339` helpers) is not modelled. It comes from a foreign library, so a written timestamp stays the abstract `JTimestamp(t)`.
- Keys.Key.WriteView: assumes every timestamp can be written. The RFC 3339 formatter rejects some values, for example a year outside 0 to 9999 or a UTC offset with a non-zero seconds part. For such an `expiresAt` the whole update body fails to serialize, while the model still yields a body.
- Keys.KeyBuilder.WriteView: makes the same assumption for `expiresAt` (src/key.rs:201). A timestamp the formatter rejects makes the create body fail to serialize, and the model does not capture that error.
- The read side is not modelled: deserialization of `Key` and the `KeysResults` envelope (src/key.rs:386-391). It is the serde framework's behaviour. Only the `Action` token decoding and the decoding of an action array are modelled. The `actions` and `indexes` fields carry no default rule (src/key.rs:12-13, 20-21), so the model does not assume that a payload missing them reads back as empty lists.
- The `'a` client borrow on `KeysQuery` is not modelled. The client is held as an immutable field of the abstract type `Client`.
- The identity borrows `AsRef<Key> for Key` and `AsRef<KeyBuilder> for KeyBuilder` (src/key.rs:121-125, 328-332) are not modelled. They only return the object itself.
- `Usize` assumes a 64-bit target. Query values are the caller's and are never computed, so no arithmetic on them needs wrap-around.
- The pagination meaning of `offset` and `limit` (skip `n`, return at most `n`, default 20) is not modelled. The server applies it, not this code.
- The `Debug`/`Clone` derives and the doc-comment examples are not modelled.
