/** The key/value tree that the YAML library loads and dumps: mappings keep their keys in
    insertion order, as the round-trip loader does. Scalars other than strings, integers,
    booleans and null (floats, dates, ...) are an opaque leaf. */
module YamlTree {
  import opened Wrappers

  datatype Node =
    | Mapping(entries: seq<(string, Node)>)
    | Sequence(items: seq<Node>)
    | Str(text: string)
    | Int(number: int)
    | Bool(flag: bool)
    | Null
    | Scalar(token: string)

  /** Python truthiness of a loaded value: empty containers, "", 0, false and null are falsy.
      An opaque scalar counts as truthy. */
  predicate Truthy(n: Node) {
    match n
    case Mapping(entries) => entries != []
    case Sequence(items) => items != []
    case Str(text) => text != ""
    case Int(number) => number != 0
    case Bool(flag) => flag
    case Null => false
    case Scalar(_) => true
  }

  /** The keys of a mapping, in order. */
  function Keys(entries: seq<(string, Node)>): seq<string>
  {
    seq(|entries|, i requires 0 <= i < |entries| => entries[i].0)
  }

  /** `mapping.get(key)`: the value stored under the first occurrence of `key`, or None. */
  function Get(entries: seq<(string, Node)>, key: string): Option<Node>
  {
    if entries == [] then None
    else if entries[0].0 == key then Some(entries[0].1)
    else Get(entries[1..], key)
  }

  /** A key is found exactly when it is one of the mapping's keys, and then with a value stored
      under it. */
  lemma {:induction false} GetFinds(entries: seq<(string, Node)>, key: string)
    ensures Get(entries, key).Some? <==> key in Keys(entries)
    ensures Get(entries, key).Some? ==> (key, Get(entries, key).value) in entries
  {
    if entries != [] {
      GetFinds(entries[1..], key);
      assert Keys(entries) == [entries[0].0] + Keys(entries[1..]);
    }
  }

  /** Looking a key up in a concatenation looks in the first part, then in the second. */
  lemma {:induction false} GetAppend(a: seq<(string, Node)>, b: seq<(string, Node)>, key: string)
    ensures Get(a + b, key) == if key in Keys(a) then Get(a, key) else Get(b, key)
  {
    if a != [] {
      assert (a + b)[1..] == a[1..] + b;
      assert Keys(a) == [a[0].0] + Keys(a[1..]);
      GetAppend(a[1..], b, key);
    } else {
      assert a + b == b;
    }
  }

  /** Looking a key up in a one-entry mapping. */
  lemma GetOne(k: string, v: Node, key: string)
    ensures Get([(k, v)], key) == if k == key then Some(v) else None
  {
    assert [(k, v)][1..] == [];
  }

  /** Looking a key up in a mapping that starts with a known entry. */
  lemma GetCons(k: string, v: Node, rest: seq<(string, Node)>, key: string)
    ensures Get([(k, v)] + rest, key) == if k == key then Some(v) else Get(rest, key)
  {
    assert ([(k, v)] + rest)[1..] == rest;
  }

  /** The keys of a concatenation are the keys of its parts. */
  lemma KeysAppend(a: seq<(string, Node)>, b: seq<(string, Node)>)
    ensures Keys(a + b) == Keys(a) + Keys(b)
  {
  }
}
