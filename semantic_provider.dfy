/**
 * Legend remapping for semantic tokens.
 *
 * Each language mode numbers its token types and modifiers by its own
 * legend. The provider keeps one shared legend per kind: `CreateMapping`
 * merges a mode's legend into it and answers where each of the mode's
 * entries went, and `ApplyTypesMapping` / `ApplyModifiersMapping` rewrite
 * the mode's tokens in place so that their indices and modifier bit sets
 * refer to the shared legend.
 */
module SemanticProvider {
  import opened Wrappers

  // ---------------------------------------------------------------------
  // JavaScript numbers used as 32-bit integers
  // ---------------------------------------------------------------------

  /** `2 ** k` */
  function Pow2(k: nat): (r: nat)
    ensures r >= 1
  {
    if k == 0 then 1 else 2 * Pow2(k - 1)
  }

  /** `ToInt32`: the value a bitwise operator works on, two's complement wrap-around. */
  function ToInt32(x: int): (r: int)
    ensures -0x8000_0000 <= r < 0x8000_0000
    ensures (x - r) % 0x1_0000_0000 == 0
    ensures 0 <= x < 0x8000_0000 ==> r == x
  {
    var u := x % 0x1_0000_0000;
    if u >= 0x8000_0000 then u - 0x1_0000_0000 else u
  }

  /** `1 << k`: the shift count is taken modulo 32 and the result is a signed 32-bit value. */
  function OneShiftedBy(k: int): int {
    ToInt32(Pow2(k % 32))
  }

  // ---------------------------------------------------------------------
  // createMapping
  // ---------------------------------------------------------------------

  /** `Array.prototype.indexOf`: the first index holding `e`, or -1. */
  function IndexOf(s: seq<string>, e: string): (r: int)
    ensures -1 <= r < |s|
    ensures r == -1 <==> e !in s
    ensures r >= 0 ==> s[r] == e && forall j :: 0 <= j < r ==> s[j] != e
  {
    if s == [] then -1
    else if s[0] == e then 0
    else
      var k := IndexOf(s[1..], e);
      if k == -1 then -1 else k + 1
  }

  /** Every entry stays where it is: the mapping changes nothing. */
  predicate Identity(mapping: seq<nat>) {
    forall i :: 0 <= i < |mapping| ==> mapping[i] == i
  }

  /** One more entry keeps the mapping the identity exactly when it stays in place. */
  lemma IdentityStep(mapping: seq<nat>, k: nat)
    ensures Identity(mapping + [k]) <==> Identity(mapping) && k == |mapping|
  {
    if Identity(mapping + [k]) {
      forall i | 0 <= i < |mapping| ensures mapping[i] == i {
        assert (mapping + [k])[i] == mapping[i];
      }
      assert (mapping + [k])[|mapping|] == k;
    }
    if Identity(mapping) && k == |mapping| {
      forall i | 0 <= i < |mapping| + 1 ensures (mapping + [k])[i] == i {
        if i < |mapping| {
          assert (mapping + [k])[i] == mapping[i];
        }
      }
    }
  }

  /** The shared legend and the mapping after some entries of a mode's legend. */
  datatype Merge = Merge(legend: seq<string>, mapping: seq<nat>)

  /**
   * The first `n` entries of `orig` merged into `legend`: an entry already
   * there maps to its first index; a new one is appended and maps to it.
   */
  function Merged(orig: seq<string>, legend: seq<string>, n: nat): (r: Merge)
    requires n <= |orig|
    ensures |r.mapping| == n
    ensures legend <= r.legend && |r.legend| <= |legend| + n
  {
    if n == 0 then Merge(legend, [])
    else
      var p := Merged(orig, legend, n - 1);
      var k := IndexOf(p.legend, orig[n - 1]);
      if k == -1 then Merge(p.legend + [orig[n - 1]], p.mapping + [|p.legend|])
      else Merge(p.legend, p.mapping + [k])
  }

  /** `needsMapping ? mapping : undefined` */
  function MappingResult(mapping: seq<nat>): Option<seq<nat>> {
    if Identity(mapping) then None else Some(mapping)
  }

  /** The array a caller passes as `newLegend`, which `CreateMapping` pushes onto. */
  class Legend {
    var entries: seq<string>

    constructor (entries: seq<string>)
      ensures this.entries == entries
    {
      this.entries := entries;
    }
  }

  /**
   * `createMapping`: merges `orig` into `legend`, and returns where each
   * of its entries went, or None when every entry is already where it is.
   */
  method CreateMapping(orig: seq<string>, legend: Legend) returns (r: Option<seq<nat>>)
    modifies legend
    ensures legend.entries == Merged(orig, old(legend.entries), |orig|).legend
    ensures r == MappingResult(Merged(orig, old(legend.entries), |orig|).mapping)
  {
    var mapping: seq<nat> := [];
    var needsMapping := false;
    var origIndex := 0;
    while origIndex < |orig|
      invariant origIndex <= |orig| && |mapping| == origIndex
      invariant Merged(orig, old(legend.entries), origIndex) == Merge(legend.entries, mapping)
      invariant needsMapping == !Identity(mapping)
    {
      var entry := orig[origIndex];
      var newIndex := IndexOf(legend.entries, entry);
      if newIndex == -1 {
        newIndex := |legend.entries|;
        legend.entries := legend.entries + [entry];
      }
      IdentityStep(mapping, newIndex);
      mapping := mapping + [newIndex];
      needsMapping := needsMapping || newIndex != origIndex;
      origIndex := origIndex + 1;
    }
    if needsMapping {
      r := Some(mapping);
    } else {
      r := None;
    }
  }

  // ---------------------------------------------------------------------
  // applyTypesMapping and applyModifiersMapping
  // ---------------------------------------------------------------------

  /** A JavaScript value read as a number: a number, or `undefined`. */
  datatype Slot = Number(value: int) | Undefined

  /** `SemanticTokenData`: where a token is, its type index and its modifier bit set. */
  datatype TokenData = TokenData(line: int, character: int, length: int, typeIdx: Slot, modifierSet: int)

  /** `typesMapping[typeIdx]`: an index outside the array reads `undefined`. */
  function TypeAt(mapping: seq<nat>, typeIdx: Slot): Slot {
    match typeIdx
    case Number(k) => if 0 <= k < |mapping| then Number(mapping[k]) else Undefined
    case Undefined => Undefined
  }

  /**
   * `applyTypesMapping`: with a mapping, every token's type index is
   * replaced by its image; without one, nothing changes.
   */
  method ApplyTypesMapping(tokens: array<TokenData>, typesMapping: Option<seq<nat>>)
    modifies tokens
    ensures typesMapping.None? ==> tokens[..] == old(tokens[..])
    ensures typesMapping.Some? ==> forall i :: 0 <= i < tokens.Length ==>
      tokens[i] == old(tokens[i]).(typeIdx := TypeAt(typesMapping.value, old(tokens[i]).typeIdx))
  {
    if typesMapping.Some? {
      for i := 0 to tokens.Length
        invariant forall j :: 0 <= j < i ==>
          tokens[j] == old(tokens[j]).(typeIdx := TypeAt(typesMapping.value, old(tokens[j]).typeIdx))
        invariant forall j :: i <= j < tokens.Length ==> tokens[j] == old(tokens[j])
      {
        tokens[i] := tokens[i].(typeIdx := TypeAt(typesMapping.value, tokens[i].typeIdx));
      }
    }
  }

  /** `1 << modifiersMapping[index]`: past the end of the mapping the shift count is `undefined`, read as 0. */
  function ModifierBit(mapping: seq<nat>, index: nat): int {
    if index < |mapping| then OneShiftedBy(mapping[index]) else 1
  }

  /** A positive number shifted right by one, `ToInt32(s) >> 1`, is smaller. */
  lemma HalvedBelow(s: int)
    requires s > 0
    ensures ToInt32(s) / 2 < s
  {
  }

  /**
   * What the bit loop adds up from bit `index` on, once `modifierSet`
   * has become `s`: while `s` is positive, its lowest bit selects the
   * image of `index`, and `s` is shifted right by one.
   */
  function Remapped(mapping: seq<nat>, s: int, index: nat): int
    decreases if s > 0 then s else 0
  {
    if s <= 0 then 0
    else
      HalvedBelow(s);
      (if s % 2 == 1 then ModifierBit(mapping, index) else 0) + Remapped(mapping, ToInt32(s) / 2, index + 1)
  }

  /** The new modifier set of a token: a zero set is left as it is. */
  function ModifiersRemapped(mapping: seq<nat>, modifierSet: int): int {
    if modifierSet == 0 then modifierSet else Remapped(mapping, modifierSet, 0)
  }

  /** The bit loop of `applyModifiersMapping` for one token's set. */
  method RemapModifierSet(modifiersMapping: seq<nat>, initial: int) returns (result: int)
    ensures result == Remapped(modifiersMapping, initial, 0)
  {
    var modifierSet := initial;
    var index := 0;
    result := 0;
    while modifierSet > 0
      invariant result + Remapped(modifiersMapping, modifierSet, index) == Remapped(modifiersMapping, initial, 0)
      decreases if modifierSet > 0 then modifierSet else 0
    {
      // `modifierSet & 1`: 2 ** 32 is even, so the wrap-around keeps the lowest bit
      if modifierSet % 2 == 1 {
        result := result + ModifierBit(modifiersMapping, index);
      }
      HalvedBelow(modifierSet);
      index := index + 1;
      modifierSet := ToInt32(modifierSet) / 2;
    }
  }

  /**
   * `applyModifiersMapping`: with a mapping, every token's nonzero
   * modifier set is replaced by the remapped bits; without one, nothing
   * changes.
   */
  method ApplyModifiersMapping(tokens: array<TokenData>, modifiersMapping: Option<seq<nat>>)
    modifies tokens
    ensures modifiersMapping.None? ==> tokens[..] == old(tokens[..])
    ensures modifiersMapping.Some? ==> forall i :: 0 <= i < tokens.Length ==>
      tokens[i] == old(tokens[i]).(modifierSet := ModifiersRemapped(modifiersMapping.value, old(tokens[i]).modifierSet))
  {
    if modifiersMapping.Some? {
      for i := 0 to tokens.Length
        invariant forall j :: 0 <= j < i ==>
          tokens[j] == old(tokens[j]).(modifierSet := ModifiersRemapped(modifiersMapping.value, old(tokens[j]).modifierSet))
        invariant forall j :: i <= j < tokens.Length ==> tokens[j] == old(tokens[j])
      {
        var modifierSet := tokens[i].modifierSet;
        if modifierSet != 0 {
          var result := RemapModifierSet(modifiersMapping.value, modifierSet);
          tokens[i] := tokens[i].(modifierSet := result);
        }
      }
    }
  }
}
