/**
 * Channel-user attributes: an ordered list of key/value pairs with a
 * case-insensitive, first-match `get` (packages/core/src/repositories/user-repository.ts:12-19).
 */
module Attributes {
  import opened Wrappers
  import opened Text

  /** One `ChannelUserAttribute`. */
  datatype Attr = Attr(key: string, value: string)

  /** The predicate handed to `Array.prototype.find`: keys equal after lower-casing both. */
  predicate KeyMatches(a: Attr, key: string) {
    ToLower(a.key) == ToLower(key)
  }

  /** Position `i` holds the first pair whose key matches `key`. */
  predicate FirstMatchAt(pairs: seq<Attr>, key: string, i: int) {
    && 0 <= i < |pairs|
    && KeyMatches(pairs[i], key)
    && forall j :: 0 <= j < i ==> !KeyMatches(pairs[j], key)
  }

  /** `arr.find(...)`, giving the position of the element it returns. */
  function FirstMatch(pairs: seq<Attr>, key: string): (r: Option<nat>)
    ensures r.Some? ==> FirstMatchAt(pairs, key, r.value)
    ensures r.None? ==> forall i :: 0 <= i < |pairs| ==> !KeyMatches(pairs[i], key)
  {
    if pairs == [] then None
    else if KeyMatches(pairs[0], key) then Some(0)
    else match FirstMatch(pairs[1..], key)
      case None => None
      case Some(i) => Some(i + 1)
  }

  /**
   * `get(key)`: the value of the first pair whose key matches, or `None` when
   * no key matches or when that first pair's value is empty (`"" || undefined`).
   */
  function Get(pairs: seq<Attr>, key: string): (r: Option<string>)
    ensures r.Some? ==> r.value != ""
    ensures forall i :: FirstMatchAt(pairs, key, i) ==>
      r == if pairs[i].value == "" then None else Some(pairs[i].value)
    ensures (forall i :: 0 <= i < |pairs| ==> !KeyMatches(pairs[i], key)) ==> r == None
  {
    match FirstMatch(pairs, key)
    case None => None
    case Some(i) => if pairs[i].value == "" then None else Some(pairs[i].value)
  }

  /** `channelUserAttributes(arr = [])`: the pairs are kept as given, in order; no argument gives the empty list. */
  function ChannelUserAttributes(arr: Option<seq<Attr>>): (r: seq<Attr>)
    ensures arr.Some? ==> r == arr.value
    ensures arr.None? ==> r == []
    ensures arr.None? ==> forall key :: Get(r, key) == None
  {
    match arr
    case None => []
    case Some(pairs) => pairs
  }

  /** Lookup does not see the case of the key it is asked for. */
  lemma GetIgnoresCase(pairs: seq<Attr>, k1: string, k2: string)
    requires ToLower(k1) == ToLower(k2)
    ensures Get(pairs, k1) == Get(pairs, k2)
  {
    match FirstMatch(pairs, k1)
    case None =>
    case Some(i) =>
      assert FirstMatchAt(pairs, k2, i);
  }

  /** Once a prefix holds a matching key, pairs appended after it are never consulted. */
  lemma {:induction false} GetDecidedByPrefix(pairs: seq<Attr>, later: seq<Attr>, key: string, i: int)
    requires 0 <= i < |pairs| && KeyMatches(pairs[i], key)
    ensures Get(pairs + later, key) == Get(pairs, key)
  {
    match FirstMatch(pairs, key)
    case None =>
      assert false;
    case Some(f) =>
      assert FirstMatchAt(pairs + later, key, f) by {
        assert (pairs + later)[f] == pairs[f];
        forall j | 0 <= j < f ensures !KeyMatches((pairs + later)[j], key) {
          assert (pairs + later)[j] == pairs[j];
        }
      }
  }

  /** A first match with an empty value hides every later match, however non-empty. */
  lemma EmptyFirstMatchHidesLater(pairs: seq<Attr>, key: string, i: int, j: int)
    requires FirstMatchAt(pairs, key, i) && pairs[i].value == ""
    requires i < j < |pairs| && KeyMatches(pairs[j], key) && pairs[j].value != ""
    ensures Get(pairs, key) == None
  {
  }

  /** `[{Name: Bob}, {name: Alt}].get("NAME")` is `Bob`. */
  lemma GetNameExample()
    ensures Get([Attr("Name", "Bob"), Attr("name", "Alt")], "NAME") == Some("Bob")
  {
    var pairs := [Attr("Name", "Bob"), Attr("name", "Alt")];
    assert ToLower("Name") == "name" == ToLower("NAME");
    assert FirstMatchAt(pairs, "NAME", 0);
  }
}
