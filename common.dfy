/**
 * What both grammar parsers share: problems reported against ranges of
 * the text, and the symbol tables.
 *
 * A table is a JavaScript object used as a dictionary. Its entries are
 * looked up by name, and `Object.keys` visits them in insertion order
 * unless a key is an integer-like string. The tables the parsers visit
 * (tokens, symbols, definitions, start conditions) hold names that start
 * with a letter, so none is integer-like. A `%define` key can be, but
 * that table is never visited. So a table is a map together with the
 * sequence of its keys in insertion order.
 */
module Common {
  import opened Wrappers

  /** `ProblemType` */
  datatype ProblemType = Information | Warning | Error

  /** `ProblemRelated`: a second range a problem points at. */
  datatype Related = Related(message: string, offset: int, end: int)

  /** `Problem` */
  datatype Problem = Problem(message: string, offset: int, end: int, severity: ProblemType, related: Option<Related>)

  /** A `[number, number]` pair of offsets. */
  datatype Range = Range(start: int, end: int)

  /** No name occurs twice. */
  predicate Distinct(keys: seq<string>) {
    forall i, j :: 0 <= i < j < |keys| ==> keys[i] != keys[j]
  }

  /** `keys` with `k` removed, the order of the rest kept. */
  function Without(keys: seq<string>, k: string): (r: seq<string>)
    ensures forall x :: x in r <==> x in keys && x != k
    ensures Distinct(keys) ==> Distinct(r)
  {
    if keys == [] then []
    else if keys[0] == k then Without(keys[1..], k)
    else
      var rest := Without(keys[1..], k);
      assert Distinct(keys) ==> Distinct([keys[0]] + rest) by {
        if Distinct(keys) {
          assert forall i :: 1 <= i < |keys| ==> keys[i] != keys[0];
          assert keys[0] !in keys[1..];
          assert Distinct(keys[1..]) by {
            assert forall i :: 0 <= i < |keys| - 1 ==> keys[1..][i] == keys[i + 1];
          }
        }
      }
      [keys[0]] + rest
  }

  /**
   * The members of `Object.prototype`: `table[name]` on a plain object
   * finds these even when no such key was ever stored.
   */
  const InheritedMembers: set<string> :=
    {"constructor", "hasOwnProperty", "isPrototypeOf", "propertyIsEnumerable",
     "toLocaleString", "toString", "valueOf", "__proto__",
     "__defineGetter__", "__defineSetter__", "__lookupGetter__", "__lookupSetter__"}

  /** A dictionary with its keys in insertion order. */
  datatype Table<V> = Table(keys: seq<string>, entries: map<string, V>) {

    /** Every entry's key is listed exactly once, and nothing else is. */
    ghost predicate Valid() {
      Distinct(keys) && forall k :: k in entries <==> k in keys
    }

    /** `table[k] = v`: a new key goes last, an existing key keeps its place. */
    function Set(k: string, v: V): (r: Table<V>)
      ensures r.entries == entries[k := v]
      ensures k in entries ==> r.keys == keys
      ensures k !in entries ==> r.keys == keys + [k]
      ensures Valid() ==> r.Valid()
    {
      if k in entries then Table(keys, entries[k := v]) else Table(keys + [k], entries[k := v])
    }

    /** `delete table[k]` */
    function Delete(k: string): (r: Table<V>)
      ensures r.entries == entries - {k}
      ensures Valid() ==> r.Valid()
    {
      Table(Without(keys, k), entries - {k})
    }
  }

  /** `{}` */
  function EmptyTable<V>(): (r: Table<V>)
    ensures r.Valid() && r.keys == [] && r.entries == map[]
  {
    Table([], map[])
  }
}
