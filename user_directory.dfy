/**
 * The channel-user directory (`KnexUserRepository`,
 * packages/core/src/repositories/user-repository.ts:21-84) over an in-memory
 * table standing for `srv_channel_users`. A row is keyed by
 * `(channel, user_id)`; the attribute blob is held decoded, since the JSON
 * encoding is taken to be the identity on attribute lists.
 *
 * The read at lines 30-37 is modelled as returning the row or nothing, which
 * is what the branch at line 39 evidently means. As written, `.select(...)`
 * resolves to an array, which is truthy even when empty, and the row it would
 * hold carries neither `channel` nor `user_id` (only `attributes`,
 * `created_at` and `updated_at` are selected), so lines 41-42 would read
 * `undefined`. This model takes the channel and the id of a found user from
 * the key the row was found under, which is the same value. The as-written
 * branch is kept separately as `GetOrCreateAsWritten`.
 */
module UserDirectory {
  import opened Wrappers
  import opened Text
  import opened Attributes

  /** A stored row: its attribute list (timestamps are not modelled). */
  datatype Row = Row(attributes: seq<Attr>)

  /** `(channel, user_id)`. */
  type Key = (string, string)

  /** The `srv_channel_users` table. */
  type Table = map<Key, Row>

  /** A `ChannelUser` as returned to callers; `otherChannels` is always empty here. */
  datatype ChannelUser = ChannelUser(
    channel: string,
    id: string,
    attributes: seq<Attr>,
    otherChannels: seq<ChannelUser>)

  /** `{ result, created }`. */
  datatype GetOrCreateResult = GetOrCreateResult(result: ChannelUser, created: bool)

  /** The message of the error thrown by `updateAttributes` for a non-array argument. */
  const AttributesNotArray := "Attributes must be an array of ChannelUserAttribute"

  /** The key both operations address: the channel lower-cased, the id untouched. */
  function KeyFor(channel: string, id: string): Key {
    (ToLower(channel), id)
  }

  /** Every stored channel is in lower case. */
  ghost predicate Normalised(t: Table) {
    forall k :: k in t ==> ToLower(k.0) == k.0
  }

  /** Channels that lower-case alike address the same row; ids are compared as they are. */
  lemma KeyForNormalises(c1: string, c2: string, id1: string, id2: string)
    ensures KeyFor(c1, id1) == KeyFor(c2, id2) <==> ToLower(c1) == ToLower(c2) && id1 == id2
    ensures ToLower(KeyFor(c1, id1).0) == KeyFor(c1, id1).0
  {
    ToLowerIdempotent(c1);
  }

  /**
   * `getOrCreate(channel, id)` as a transition of the table: the result and
   * the table afterwards.
   */
  function GetOrCreateStep(t: Table, channel: string, id: string): (res: (Table, GetOrCreateResult))
    // the user returned is the one under the normalised key, with no other channels
    ensures res.1.result.channel == ToLower(channel) && res.1.result.id == id
    ensures res.1.result.otherChannels == []
    // afterwards the row exists and the user carries its attributes
    ensures KeyFor(channel, id) in res.0
    ensures res.1.result.attributes == res.0[KeyFor(channel, id)].attributes
    // created exactly when the row was missing
    ensures res.1.created <==> KeyFor(channel, id) !in t
    ensures KeyFor(channel, id) in t ==> res.0 == t
    ensures KeyFor(channel, id) !in t ==>
      res.0.Keys == t.Keys + {KeyFor(channel, id)} && res.0[KeyFor(channel, id)].attributes == []
    ensures |res.0| == if res.1.created then |t| + 1 else |t|
    // no other row changes
    ensures forall k :: k in t ==> k in res.0 && res.0[k] == t[k]
  {
    var key := KeyFor(channel, id);
    if key in t then
      (t, GetOrCreateResult(ChannelUser(key.0, key.1, ChannelUserAttributes(Some(t[key].attributes)), []), false))
    else
      (t[key := Row([])], GetOrCreateResult(ChannelUser(key.0, key.1, ChannelUserAttributes(Some([])), []), true))
  }

  /**
   * `updateAttributes(channel, id, attributes)` as a transition of the table.
   * `None` stands for an argument that is missing or is not an array.
   */
  function UpdateStep(t: Table, channel: string, id: string, attributes: Option<seq<Attr>>): (res: (Table, Outcome<string>))
    // a missing or non-array argument throws before any write
    ensures attributes.None? ==> res.1 == Fail(AttributesNotArray) && res.0 == t
    ensures attributes.Some? ==> res.1 == Pass
    // no row is ever added or removed
    ensures res.0.Keys == t.Keys
    // the matching row's list is replaced wholesale by the given one
    ensures attributes.Some? && KeyFor(channel, id) in t ==> res.0[KeyFor(channel, id)].attributes == attributes.value
    // no other row changes; a missing row leaves the table as it was
    ensures forall k :: k in t && k != KeyFor(channel, id) ==> res.0[k] == t[k]
    ensures KeyFor(channel, id) !in t ==> res.0 == t
  {
    if attributes.None? then
      (t, Fail(AttributesNotArray))
    else
      var key := KeyFor(channel, id);
      if key in t then (t[key := Row(attributes.value)], Pass) else (t, Pass)
  }

  /**
   * The read and the branch at lines 30-39 AS WRITTEN: the query resolves to
   * an array of at most one row, and an array is truthy whether or not it is
   * empty, so the existing-row branch is always taken.
   */
  function SelectRows(t: Table, key: Key): (rows: seq<Row>)
    ensures |rows| <= 1
    ensures |rows| == 1 <==> key in t
    ensures key in t ==> rows[0] == t[key]
  {
    if key in t then [t[key]] else []
  }

  /** JavaScript truthiness of an array value. */
  predicate ArrayIsTruthy(rows: seq<Row>) {
    true
  }

  /** `getOrCreate` as written: the table afterwards and the `created` flag. */
  function GetOrCreateAsWritten(t: Table, channel: string, id: string): (res: (Table, bool))
    ensures res.0 == t && !res.1
  {
    var key := KeyFor(channel, id);
    var ug := SelectRows(t, key);
    if ArrayIsTruthy(ug) then (t, false) else (t[key := Row([])], true)
  }

  /** On an empty table the code as written never stores the user that the intended code creates. */
  lemma AsWrittenNeverCreates()
    ensures GetOrCreateAsWritten(map[], "telegram", "42") == (map[], false)
    ensures GetOrCreateStep(map[], "telegram", "42").1.created
    ensures KeyFor("telegram", "42") in GetOrCreateStep(map[], "telegram", "42").0
  {
  }

  /** The repository object; its table is the only state the operations change. */
  class KnexUserRepository {
    var rows: Table

    /** The object invariant: every stored channel is lower-cased. */
    ghost predicate Valid()
      reads this
    {
      Normalised(rows)
    }

    /** A repository attached to a table that may already hold (normalised) rows. */
    constructor (initial: Table)
      requires Normalised(initial)
      ensures Valid() && rows == initial
    {
      rows := initial;
    }

    /**
     * The keyed read at lines 30-37: the row stored under `(channel, id)`, if
     * any. Under the invariant, a channel that still has an upper-case letter
     * finds nothing, which is why both operations lower-case it first.
     */
    method Select(channel: string, id: string) returns (row: Option<Row>)
      ensures row.Some? <==> (channel, id) in rows
      ensures row.Some? ==> row.value == rows[(channel, id)]
      ensures Valid() && !IsLower(channel) ==> row.None?
    {
      if (channel, id) in rows {
        row := Some(rows[(channel, id)]);
      } else {
        row := None;
      }
    }

    /** `getOrCreate(channel, id)` (lines 27-68). */
    method GetOrCreate(channel: string, id: string) returns (r: GetOrCreateResult)
      requires Valid()
      modifies this
      ensures Valid()
      ensures (rows, r) == GetOrCreateStep(old(rows), channel, id)
    {
      var ch := ToLower(channel);
      var ug := Select(ch, id);
      if ug.Some? {
        var user := ChannelUser(ch, id, ChannelUserAttributes(Some(ug.value.attributes)), []);
        return GetOrCreateResult(user, false);
      }
      ToLowerIdempotent(channel);
      rows := rows[(ch, id) := Row([])];
      var newUser := ChannelUser(ch, id, ChannelUserAttributes(Some([])), []);
      r := GetOrCreateResult(newUser, true);
    }

    /** `updateAttributes(channel, id, attributes)` (lines 70-83). */
    method UpdateAttributes(channel: string, id: string, attributes: Option<seq<Attr>>) returns (outcome: Outcome<string>)
      requires Valid()
      modifies this
      ensures Valid()
      ensures (rows, outcome) == UpdateStep(old(rows), channel, id, attributes)
    {
      var ch := ToLower(channel);
      if attributes.None? {
        return Fail(AttributesNotArray);
      }
      if (ch, id) in rows {
        rows := rows[(ch, id) := Row(attributes.value)];
      }
      outcome := Pass;
    }
  }
}
