# Channel-user directory

A Dafny model of the channel-user directory of the Botpress core
(`packages/core/src/repositories/user-repository.ts`). The directory keeps one
row per `(channel, user_id)` in the `srv_channel_users` table. Each row holds an
ordered list of `{key, value}` attributes. The directory offers two operations:

- `getOrCreate(channel, id)` returns the stored user. If none is stored, it
  inserts one with no attributes and reports `created`.
- `updateAttributes(channel, id, attributes)` replaces the whole attribute list
  of the matching row. A row that does not exist is silently left alone.

Both operations lower-case the channel first. The id is used as given.
Attribute lists carry a case-insensitive, first-match `get(key)`.

Layout:

- `wrappers.dfy` (`Wrappers`): `Option`, and `Outcome` for "returns or throws".
- `text.dfy` (`Text`): ASCII `toLowerCase`, proved idempotent.
- `attributes.dfy` (`Attributes`): the attribute pair, the `find` used by
  `get`, `get` itself, `channelUserAttributes`, and lemmas about lookup.
- `user_directory.dfy` (`UserDirectory`):
  - the table, a map from `(channel, user_id)` to a row;
  - the two operations as pure transitions of the table (`GetOrCreateStep`, `UpdateStep`);
  - the repository as a class whose `rows` field the methods `GetOrCreate` and
    `UpdateAttributes` change, each proved equal to its transition;
  - the read as written (see Findings).
- `user_directory_properties.dfy` (`UserDirectoryProperties`):
  - sequences of calls: rows are never lost, a key is reported created at most
    once, and channels stay lower-cased;
  - replace-not-merge;
  - the worked scenarios.

Two points about the source are settled as follows:

- The read at lines 30-39 is modelled as giving the row or nothing. That is
  what the `if (ug)` test means to check. As written, `.select(...)` resolves
  to an array, which is truthy even when empty.
- Lines 41-42 read `ug.channel` and `ug.user_id`, but line 37 does not select
  those columns. The model takes the channel and the id of a found user from
  the key the row was found under. That key holds the values those columns
  store (also listed under "Left out").

## Model

| member | source | states |
|---|---|---|
| `Text.LowerChar` | packages/core/src/repositories/user-repository.ts:14 | an upper-case ASCII letter maps to its lower-case letter (code + 32); every other character is unchanged; the result is never upper-case |
| `Text.ToLower` | packages/core/src/repositories/user-repository.ts:28 | `toLowerCase` keeps the length, lower-cases every character in place, and leaves no upper-case letter |
| `Text.ToLowerOfLower` | packages/core/src/repositories/user-repository.ts:71 | a string with no upper-case letter is unchanged by lower-casing |
| `Text.ToLowerIdempotent` | packages/core/src/repositories/user-repository.ts:28 | lower-casing an already lower-cased channel changes nothing |
| `Attributes.FirstMatch` | packages/core/src/repositories/user-repository.ts:14 | `find` gives the first position whose key equals the looked-up key after lower-casing both; when it finds nothing, no position matches |
| `Attributes.Get` | packages/core/src/repositories/user-repository.ts:13-16 | `get(key)` is the first match's value when that value is non-empty. It is absent when no key matches or the first match's value is empty. It is never the empty string |
| `Attributes.ChannelUserAttributes` | packages/core/src/repositories/user-repository.ts:12-19 | the list is kept as given, same pairs in the same order; with no argument it is empty and every `get` is absent |
| `Attributes.GetIgnoresCase` | packages/core/src/repositories/user-repository.ts:14 | keys that lower-case alike get the same answer |
| `Attributes.GetDecidedByPrefix` | packages/core/src/repositories/user-repository.ts:14 | once a prefix of the list holds a matching key, pairs appended after it never change the answer |
| `Attributes.EmptyFirstMatchHidesLater` | packages/core/src/repositories/user-repository.ts:15 | an empty first match makes `get` absent even when a later match has a non-empty value |
| `Attributes.GetNameExample` | packages/core/src/repositories/user-repository.ts:13-15 | `[{Name: Bob}, {name: Alt}].get("NAME")` is `Bob` |
| `UserDirectory.KeyForNormalises` | packages/core/src/repositories/user-repository.ts:28-35 | two calls address the same row exactly when their channels lower-case alike and their ids are equal; the key's channel is already lower-cased |
| `UserDirectory.GetOrCreateStep` | packages/core/src/repositories/user-repository.ts:27-68 | result: the lower-cased channel, the given id, no other channels, and the attributes of the row now stored. `created` holds exactly when the row was missing. A missing row is added alone, with empty attributes, and the table grows by one; an existing row leaves the table unchanged. No other row changes |
| `UserDirectory.UpdateStep` | packages/core/src/repositories/user-repository.ts:70-83 | a missing or non-array argument throws the source's message and writes nothing; otherwise it succeeds. The matching row's list becomes the given list wholesale. No row is added or removed, no other row changes, and a missing row leaves the table unchanged |
| `UserDirectory.SelectRows` | packages/core/src/repositories/user-repository.ts:30-37 | the query as written yields an array of at most one row, holding the stored row exactly when the key is present |
| `UserDirectory.GetOrCreateAsWritten` | packages/core/src/repositories/user-repository.ts:30-50 | as written, the truthy-array test always takes the existing-row branch: the table is never changed and `created` is always false |
| `UserDirectory.AsWrittenNeverCreates` | packages/core/src/repositories/user-repository.ts:39-56 | on an empty table the code as written reports `created = false` and stores nothing for `("telegram", "42")`; the intended step creates that row |
| `UserDirectory.KnexUserRepository.constructor` | packages/core/src/repositories/user-repository.ts:25 | a repository attaches to whatever table it is given (any table whose channels are lower-cased, as stored rows always are) and holds exactly that table |
| `UserDirectory.KnexUserRepository.Select` | packages/core/src/repositories/user-repository.ts:30-37 | the keyed read gives a row exactly when one is stored under the key, and then gives that row; under the invariant, a channel that still contains an upper-case letter never finds a row |
| `UserDirectory.KnexUserRepository.GetOrCreate` | packages/core/src/repositories/user-repository.ts:27-68 | the new table and the result are those of `GetOrCreateStep` on the old table; stored channels stay lower-cased |
| `UserDirectory.KnexUserRepository.UpdateAttributes` | packages/core/src/repositories/user-repository.ts:70-83 | the new table and the outcome are those of `UpdateStep` on the old table; stored channels stay lower-cased |
| `UserDirectoryProperties.RunKeepsRows` | packages/core/src/repositories/user-repository.ts:52-82 | no sequence of calls removes a row |
| `UserDirectoryProperties.CreatedAtMostOnce` | packages/core/src/repositories/user-repository.ts:39-67 | over any sequence of calls, a key is reported created at most once, and never if its row was already stored |
| `UserDirectoryProperties.RunKeepsNormalised` | packages/core/src/repositories/user-repository.ts:27-83 | every sequence of calls keeps every stored channel lower-cased |
| `UserDirectoryProperties.SecondGetOrCreateReturnsSameUser` | packages/core/src/repositories/user-repository.ts:39-67 | a second `getOrCreate` for the same id, with a channel that lower-cases alike, leaves the table unchanged, reports not created, and returns the same user as the first |
| `UserDirectoryProperties.UpdateReplacesNotMerges` | packages/core/src/repositories/user-repository.ts:77-82 | after an update, every lookup on the stored list gives what it gives on the new list alone |
| `UserDirectoryProperties.ReplaceExample` | packages/core/src/repositories/user-repository.ts:77-82 | setting `[{a: "1"}]` and then `[{b: "2"}]` leaves `get("a")` absent and `get("b")` equal to "2" |
| `UserDirectoryProperties.TelegramFirstCall` | packages/core/src/repositories/user-repository.ts:52-67 | for a user not yet stored, `getOrCreate("telegram", "42")` reports created, with that channel and id and no attributes |
| `UserDirectoryProperties.TelegramAfterUpdate` | packages/core/src/repositories/user-repository.ts:39-82 | for a stored user, updating to `[{locale: "en"}]` succeeds. A following `getOrCreate` does not create, changes nothing, and answers `get("LOCALE")` with "en" |
| `UserDirectoryProperties.TelegramScenario` | packages/core/src/repositories/user-repository.ts:27-83 | from an empty table: create, update, get again; the second call does not create and sees the stored locale |
| `UserDirectoryProperties.ChannelCaseExample` | packages/core/src/repositories/user-repository.ts:28 | `getOrCreate("Slack", u)` and `getOrCreate("slack", u)` have the same effect and result |

## Left out

- The Knex query builder, the `Database` handle and the dependency injection (lines 2-5, 21, 25) are replaced by an in-memory map held in the class field `rows`.
- `knex.json.get` / `knex.json.set` (lines 45, 55, 80) are taken to be the identity on attribute lists; JSON itself is not modelled.
- Timestamps (`created_at`, `updated_at`, `new Date()`, lines 43-44, 62-63) come from the clock and the database. They are not modelled, and the returned user has no timestamp fields.
- Concurrent `getOrCreate` calls: the read-then-insert at lines 30-56 is not atomic. What happens when two calls race depends on the store. The model is sequential only.
- `Text.ToLower`: does not model full Unicode `toLowerCase`, only the ASCII letters 'A'..'Z'. Every other character is left as it is.
- `UserDirectory.UpdateStep`: the runtime test at line 73 passes any value with a `length` (a string, say). The model reduces the argument to "an attribute list" (`Some`) or "missing / not an array" (`None`).
- `UserDirectory.GetOrCreateStep`: for a found row, the source reads `ug.channel` and `ug.user_id` (lines 41-42), which line 37 does not select, so as written both would be `undefined`. The model returns the lower-cased channel and the id of the key the row was found under, which hold the values those columns store. It does not reproduce the `undefined` fields.
- `get` is attached to the array at runtime (line 13). The model keeps the list as a plain sequence and provides `get` as the function `Attributes.Get` over it.
- Storage failures that would propagate to the caller (connectivity, constraint violations) are not modelled.

## Findings

| source | as written | input that shows it | evidently intended | confidence | as-written member | corrected member |
|---|---|---|---|---|---|---|
| packages/core/src/repositories/user-repository.ts:39 | `if (ug)` tests the array that `.select(...)` resolves to. An empty array is truthy, so the existing-row branch is always taken. No row is ever inserted and `created` is never true | `getOrCreate("telegram", "42")` on an empty table | test whether the query found a row (its first element) | not executed; high (assumes `database.knex` resolves selects to arrays as Knex does) | `UserDirectory.AsWrittenNeverCreates` | `UserDirectory.GetOrCreateStep` |
