/**
 * Properties of the directory over sequential use: rows are never lost, a key
 * is created at most once, channels stay normalised, and attribute writes
 * replace rather than merge.
 */
module UserDirectoryProperties {
  import opened Wrappers
  import opened Text
  import opened Attributes
  import opened UserDirectory

  /** One call on the repository. */
  datatype Op =
    | GetOrCreateOp(channel: string, id: string)
    | UpdateAttributesOp(channel: string, id: string, attributes: Option<seq<Attr>>)

  /** The table after one call. */
  function Apply(t: Table, op: Op): Table {
    match op
    case GetOrCreateOp(channel, id) => GetOrCreateStep(t, channel, id).0
    case UpdateAttributesOp(channel, id, attributes) => UpdateStep(t, channel, id, attributes).0
  }

  /** The table after a sequence of calls made one after the other. */
  function Run(t: Table, ops: seq<Op>): Table
    decreases |ops|
  {
    if ops == [] then t else Run(Apply(t, ops[0]), ops[1..])
  }

  /** How many calls of the sequence report `created` for `key`. */
  function Creations(t: Table, ops: seq<Op>, key: Key): nat
    decreases |ops|
  {
    if ops == [] then 0
    else
      var here := match ops[0]
        case GetOrCreateOp(channel, id) =>
          if KeyFor(channel, id) == key && GetOrCreateStep(t, channel, id).1.created then 1 else 0
        case UpdateAttributesOp(_, _, _) => 0;
      here + Creations(Apply(t, ops[0]), ops[1..], key)
  }

  /** No call removes a row. */
  lemma {:induction false} RunKeepsRows(t: Table, ops: seq<Op>)
    ensures t.Keys <= Run(t, ops).Keys
    decreases |ops|
  {
    if ops != [] {
      RunKeepsRows(Apply(t, ops[0]), ops[1..]);
    }
  }

  /**
   * Sequential get-or-create is idempotent: over any sequence of calls a key
   * is reported created at most once, and never if its row was already there.
   */
  lemma {:induction false} CreatedAtMostOnce(t: Table, ops: seq<Op>, key: Key)
    ensures Creations(t, ops, key) <= if key in t then 0 else 1
    decreases |ops|
  {
    if ops != [] {
      var t' := Apply(t, ops[0]);
      CreatedAtMostOnce(t', ops[1..], key);
      match ops[0]
      case GetOrCreateOp(channel, id) =>
        if KeyFor(channel, id) == key {
          assert key in t';
        }
      case UpdateAttributesOp(_, _, _) =>
    }
  }

  /** Every call keeps the stored channels lower-cased (the repository's invariant). */
  lemma {:induction false} RunKeepsNormalised(t: Table, ops: seq<Op>)
    requires Normalised(t)
    ensures Normalised(Run(t, ops))
    decreases |ops|
  {
    if ops != [] {
      var t' := Apply(t, ops[0]);
      assert Normalised(t') by {
        match ops[0]
        case GetOrCreateOp(channel, id) =>
          KeyForNormalises(channel, channel, id, id);
        case UpdateAttributesOp(_, _, _) =>
      }
      RunKeepsNormalised(t', ops[1..]);
    }
  }

  /** A second `getOrCreate` for the same user, in any channel case, returns the same user and changes nothing. */
  lemma SecondGetOrCreateReturnsSameUser(t: Table, c1: string, c2: string, id: string)
    requires ToLower(c1) == ToLower(c2)
    ensures var (t1, r1) := GetOrCreateStep(t, c1, id);
            var (t2, r2) := GetOrCreateStep(t1, c2, id);
            t2 == t1 && !r2.created && r2.result == r1.result
  {
  }

  /** After an update, lookups on the stored list answer from the new list alone. */
  lemma {:induction false} UpdateReplacesNotMerges(t: Table, channel: string, id: string, attributes: seq<Attr>, key: string)
    requires KeyFor(channel, id) in t
    ensures var (t', _) := UpdateStep(t, channel, id, Some(attributes));
            Get(t'[KeyFor(channel, id)].attributes, key) == Get(attributes, key)
  {
  }

  /** Setting `[{a: "1"}]` and then `[{b: "2"}]` leaves `a` absent and `b` equal to "2". */
  lemma {:induction false} ReplaceExample(t: Table, channel: string, id: string)
    requires KeyFor(channel, id) in t
    ensures var t1 := UpdateStep(t, channel, id, Some([Attr("a", "1")])).0;
            var t2 := UpdateStep(t1, channel, id, Some([Attr("b", "2")])).0;
            Get(t2[KeyFor(channel, id)].attributes, "a") == None &&
            Get(t2[KeyFor(channel, id)].attributes, "b") == Some("2")
  {
    var t1 := UpdateStep(t, channel, id, Some([Attr("a", "1")])).0;
    var pairs := UpdateStep(t1, channel, id, Some([Attr("b", "2")])).0[KeyFor(channel, id)].attributes;
    assert pairs == [Attr("b", "2")];
    assert ToLower("a") == "a" && ToLower("b") == "b";
    assert !KeyMatches(pairs[0], "a");
    assert FirstMatchAt(pairs, "b", 0);
  }

  /** The key the scenario below addresses is already normalised. */
  lemma TelegramKey()
    ensures KeyFor("telegram", "42") == ("telegram", "42")
  {
    assert ToLower("telegram") == "telegram";
  }

  /** The literal keys used by the scenario below match as `toLowerCase` would have them. */
  lemma LocaleMatchesAnyCase()
    ensures KeyMatches(Attr("locale", "en"), "LOCALE")
  {
    assert ToLower("locale") == "locale" == ToLower("LOCALE");
  }

  /**
   * On a table where ("telegram", "42") is not yet stored,
   * `getOrCreate("telegram", "42")` creates that user with no attributes.
   */
  lemma TelegramFirstCall(t: Table)
    requires ("telegram", "42") !in t
    ensures var first := GetOrCreateStep(t, "telegram", "42");
            && first.1.created && first.1.result.channel == "telegram" && first.1.result.id == "42"
            && first.1.result.attributes == []
  {
    TelegramKey();
  }

  /**
   * Once ("telegram", "42") is stored, `updateAttributes("telegram", "42",
   * [{locale: "en"}])` succeeds, and a following `getOrCreate` does not
   * create and answers `get("LOCALE")` with "en".
   */
  lemma {:induction false} TelegramAfterUpdate(t: Table)
    requires ("telegram", "42") in t
    ensures var update := UpdateStep(t, "telegram", "42", Some([Attr("locale", "en")]));
            var second := GetOrCreateStep(update.0, "telegram", "42");
            && update.1 == Pass
            && !second.1.created && second.0 == update.0
            && Get(second.1.result.attributes, "LOCALE") == Some("en")
  {
    TelegramKey();
    var update := UpdateStep(t, "telegram", "42", Some([Attr("locale", "en")]));
    var pairs := GetOrCreateStep(update.0, "telegram", "42").1.result.attributes;
    assert Get(pairs, "LOCALE") == Some("en") by {
      assert pairs == [Attr("locale", "en")];
      LocaleMatchesAnyCase();
      assert FirstMatchAt(pairs, "LOCALE", 0);
    }
  }

  /** The whole scenario, starting from the empty table. */
  lemma {:induction false} TelegramScenario()
    ensures var first := GetOrCreateStep(map[], "telegram", "42");
            var update := UpdateStep(first.0, "telegram", "42", Some([Attr("locale", "en")]));
            var second := GetOrCreateStep(update.0, "telegram", "42");
            && first.1.created && first.1.result.attributes == []
            && !second.1.created
            && Get(second.1.result.attributes, "LOCALE") == Some("en")
  {
    TelegramFirstCall(map[]);
    TelegramAfterUpdate(GetOrCreateStep(map[], "telegram", "42").0);
  }

  /** `getOrCreate("Slack", u)` and `getOrCreate("slack", u)` address one row. */
  lemma {:induction false} ChannelCaseExample(t: Table, u: string)
    ensures GetOrCreateStep(t, "Slack", u) == GetOrCreateStep(t, "slack", u)
  {
    assert ToLower("Slack") == "slack" == ToLower("slack");
  }
}
