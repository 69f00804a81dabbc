/**
 * What legend remapping guarantees: after merging, every entry of a
 * mode's legend is found in the shared legend at the index the mapping
 * gives it; the shared legend only grows, and only by entries it lacked;
 * no mapping is returned exactly when the mode's legend is already a
 * duplicate-free prefix of the shared one, and then applying the mapping
 * would have changed nothing; and the modifier bit loop adds up the
 * images of the set bits.
 */
module SemanticProviderFacts {
  import opened Wrappers
  import opened Common
  import opened SemanticProvider

  // ---------------------------------------------------------------------
  // createMapping
  // ---------------------------------------------------------------------

  /** Appending to a sequence does not move the first occurrence of what it already holds. */
  lemma IndexOfExtended(s: seq<string>, t: seq<string>, e: string)
    requires e in s
    ensures IndexOf(s + t, e) == IndexOf(s, e)
  {
    var k := IndexOf(s, e);
    assert (s + t)[k] == e;
    assert forall j :: 0 <= j < k ==> (s + t)[j] == s[j];
  }

  /** An entry appended to a sequence that lacked it is first found at the end. */
  lemma IndexOfAppended(s: seq<string>, e: string)
    requires e !in s
    ensures IndexOf(s + [e], e) == |s|
  {
    assert (s + [e])[|s|] == e;
  }

  /**
   * Entry `i` of the merged legend is in the shared legend at the index
   * the mapping gives it, and that index is where the shared legend first
   * holds it.
   */
  predicate Placed(orig: seq<string>, m: Merge, i: nat)
    requires i < |orig| && i < |m.mapping|
  {
    && m.mapping[i] < |m.legend|
    && m.legend[m.mapping[i]] == orig[i]
    && m.mapping[i] == IndexOf(m.legend, orig[i])
  }

  /** Appending to the shared legend and to the mapping keeps an entry placed. */
  lemma PlacedExtended(orig: seq<string>, p: Merge, t: seq<string>, x: nat, i: nat)
    requires i < |orig| && i < |p.mapping| && Placed(orig, p, i)
    ensures Placed(orig, Merge(p.legend + t, p.mapping + [x]), i)
  {
    IndexOfExtended(p.legend, t, orig[i]);
    assert (p.mapping + [x])[i] == p.mapping[i];
    assert (p.legend + t)[p.mapping[i]] == p.legend[p.mapping[i]];
  }

  /** Every merged entry is placed. */
  lemma {:induction false} MergedLookup(orig: seq<string>, legend: seq<string>, n: nat)
    requires n <= |orig|
    ensures forall i :: 0 <= i < n ==> Placed(orig, Merged(orig, legend, n), i)
  {
    if n > 0 {
      MergedLookup(orig, legend, n - 1);
      var p := Merged(orig, legend, n - 1);
      var e := orig[n - 1];
      var t := if e in p.legend then [] else [e];
      var x := if e in p.legend then IndexOf(p.legend, e) else |p.legend|;
      assert p.legend + t == (if e in p.legend then p.legend else p.legend + [e]);
      assert Merged(orig, legend, n) == Merge(p.legend + t, p.mapping + [x]);
      forall i | 0 <= i < n - 1
        ensures Placed(orig, Merge(p.legend + t, p.mapping + [x]), i)
      {
        PlacedExtended(orig, p, t, x, i);
      }
      if e !in p.legend {
        IndexOfAppended(p.legend, e);
      }
    }
  }

  /**
   * The shared legend only grows at its end; each appended entry comes
   * from the merged legend and was not in the shared legend before it; and
   * the shared legend ends up holding exactly what it held and what was merged.
   */
  lemma {:induction false} MergedGrowth(orig: seq<string>, legend: seq<string>, n: nat)
    requires n <= |orig|
    ensures var r := Merged(orig, legend, n);
      && legend <= r.legend
      && (forall j :: |legend| <= j < |r.legend| ==> r.legend[j] in orig[..n] && r.legend[j] !in r.legend[..j])
      && (forall e :: e in r.legend <==> e in legend || e in orig[..n])
  {
    if n > 0 {
      MergedGrowth(orig, legend, n - 1);
      var p := Merged(orig, legend, n - 1);
      var r := Merged(orig, legend, n);
      assert orig[..n] == orig[..n - 1] + [orig[n - 1]];
      forall j | |legend| <= j < |r.legend|
        ensures r.legend[j] in orig[..n] && r.legend[j] !in r.legend[..j]
      {
        if j < |p.legend| {
          assert r.legend[..j] == p.legend[..j];
        } else {
          assert r.legend[..j] == p.legend;
        }
      }
    }
  }

  /** Appending only what is missing keeps a duplicate-free legend duplicate-free. */
  lemma MergedDistinct(orig: seq<string>, legend: seq<string>, n: nat)
    requires n <= |orig| && Distinct(legend)
    ensures Distinct(Merged(orig, legend, n).legend)
  {
    var r := Merged(orig, legend, n);
    MergedGrowth(orig, legend, n);
    forall i, j | 0 <= i < j < |r.legend| ensures r.legend[i] != r.legend[j] {
      if j >= |legend| {
        assert r.legend[i] in r.legend[..j];
      } else {
        assert r.legend[i] == legend[i] && r.legend[j] == legend[j];
      }
    }
  }

  /** A mapping that needs nothing says the merged legend is a duplicate-free prefix of the shared one. */
  lemma IdentityMeansPrefix(orig: seq<string>, legend: seq<string>, n: nat)
    requires n <= |orig| && Identity(Merged(orig, legend, n).mapping)
    ensures var r := Merged(orig, legend, n);
      Distinct(orig[..n]) && n <= |r.legend| && orig[..n] == r.legend[..n]
  {
    var r := Merged(orig, legend, n);
    MergedLookup(orig, legend, n);
    forall i, j | 0 <= i < j < n ensures orig[..n][i] != orig[..n][j] {
      assert Placed(orig, r, i) && Placed(orig, r, j);
      assert r.mapping[i] == i && r.mapping[j] == j;
    }
    forall i | 0 <= i < n ensures i < |r.legend| && r.legend[i] == orig[i] {
      assert Placed(orig, r, i) && r.mapping[i] == i;
    }
    if n > 0 {
      assert n - 1 < |r.legend|;
    }
  }

  /** A duplicate-free prefix of the shared legend is merged in place. */
  lemma PrefixMeansIdentity(orig: seq<string>, legend: seq<string>, n: nat)
    requires n <= |orig| && Distinct(orig[..n])
    requires var r := Merged(orig, legend, n); n <= |r.legend| && orig[..n] == r.legend[..n]
    ensures Identity(Merged(orig, legend, n).mapping)
  {
    var r := Merged(orig, legend, n);
    MergedLookup(orig, legend, n);
    assert forall j :: 0 <= j < n ==> r.legend[j] == orig[..n][j] == orig[j];
    forall i | 0 <= i < n ensures r.mapping[i] == i {
      assert Placed(orig, r, i);
      var k := IndexOf(r.legend, orig[i]);
      assert k <= i;
      assert forall j :: 0 <= j < i ==> orig[..n][j] != orig[..n][i];
    }
  }

  /**
   * No mapping is needed exactly when the merged legend has no duplicates
   * and already stands, in order, at the start of the shared legend.
   */
  lemma MergedIdentity(orig: seq<string>, legend: seq<string>, n: nat)
    requires n <= |orig|
    ensures var r := Merged(orig, legend, n);
      Identity(r.mapping) <==> Distinct(orig[..n]) && n <= |r.legend| && orig[..n] == r.legend[..n]
  {
    var r := Merged(orig, legend, n);
    if Identity(r.mapping) {
      IdentityMeansPrefix(orig, legend, n);
    }
    if Distinct(orig[..n]) && n <= |r.legend| && orig[..n] == r.legend[..n] {
      PrefixMeansIdentity(orig, legend, n);
    }
  }

  /** Merged into an empty shared legend, a duplicate-free legend is copied as it is. */
  lemma {:induction false} FirstMergeCopies(orig: seq<string>, n: nat)
    requires n <= |orig| && Distinct(orig)
    ensures Merged(orig, [], n).legend == orig[..n]
  {
    if n > 0 {
      FirstMergeCopies(orig, n - 1);
      assert orig[n - 1] !in orig[..n - 1];
      assert orig[..n] == orig[..n - 1] + [orig[n - 1]];
    }
  }

  /** The first legend merged needs no mapping exactly when it has no duplicates. */
  lemma FirstMergeNeedsNoMapping(orig: seq<string>)
    ensures MappingResult(Merged(orig, [], |orig|).mapping).None? <==> Distinct(orig)
  {
    MergedIdentity(orig, [], |orig|);
    assert orig[..|orig|] == orig;
    if Distinct(orig) {
      FirstMergeCopies(orig, |orig|);
    }
  }

  // ---------------------------------------------------------------------
  // applyTypesMapping
  // ---------------------------------------------------------------------

  /** The legend entry a type index names, if any. */
  function EntryAt(legend: seq<string>, typeIdx: Slot): Option<string> {
    match typeIdx
    case Number(k) => if 0 <= k < |legend| then Some(legend[k]) else None
    case Undefined => None
  }

  /** A type index remapped names in the shared legend what it named in the mode's legend. */
  lemma TypesMappingKeepsNames(orig: seq<string>, legend: seq<string>, typeIdx: Slot)
    ensures var r := Merged(orig, legend, |orig|);
      EntryAt(r.legend, TypeAt(r.mapping, typeIdx)) == EntryAt(orig, typeIdx)
  {
    MergedLookup(orig, legend, |orig|);
    if typeIdx.Number? && 0 <= typeIdx.value < |orig| {
      assert Placed(orig, Merged(orig, legend, |orig|), typeIdx.value);
    }
  }

  // ---------------------------------------------------------------------
  // applyModifiersMapping
  // ---------------------------------------------------------------------

  /** Bit `j` of a nonnegative number: its lowest bit after `j` halvings. */
  predicate Bit(s: int, j: nat)
    decreases j
  {
    if j == 0 then s % 2 == 1 else Bit(s / 2, j - 1)
  }

  /** The images of bits `0 .. n - 1` of `s` that are set, counted from bit `index` of the mapping. */
  function BitSum(mapping: seq<nat>, s: int, index: nat, n: nat): int {
    if n == 0 then 0
    else BitSum(mapping, s, index, n - 1) + (if Bit(s, n - 1) then ModifierBit(mapping, index + n - 1) else 0)
  }

  /** The lowest bit of a sum over bits is the lowest bit's image plus the sum over the halved number. */
  lemma {:induction false} BitSumLowest(mapping: seq<nat>, s: int, index: nat, n: nat)
    requires s >= 0 && n > 0
    ensures BitSum(mapping, s, index, n)
         == (if s % 2 == 1 then ModifierBit(mapping, index) else 0) + BitSum(mapping, s / 2, index + 1, n - 1)
  {
    if n > 1 {
      BitSumLowest(mapping, s, index, n - 1);
    }
  }

  /**
   * For a number of at most 31 bits, the bit loop adds, for every set bit
   * `j`, `1 << mapping[j]`.
   */
  lemma {:induction false} RemappedIsBitSum(mapping: seq<nat>, s: int, index: nat, n: nat)
    requires n <= 31 && 0 <= s < Pow2(n)
    ensures Remapped(mapping, s, index) == BitSum(mapping, s, index, n)
    decreases n
  {
    if n > 0 {
      assert Pow2(n) == 2 * Pow2(n - 1);
      Pow2Below(n);
      assert ToInt32(s) / 2 == s / 2 < Pow2(n - 1);
      BitSumLowest(mapping, s, index, n);
      RemappedIsBitSum(mapping, s / 2, index + 1, n - 1);
      if s > 0 {
        assert Remapped(mapping, s, index)
            == (if s % 2 == 1 then ModifierBit(mapping, index) else 0) + Remapped(mapping, s / 2, index + 1);
      }
    }
  }

  /** `2 ** (a + b) == 2 ** a * 2 ** b` */
  lemma {:induction false} Pow2Add(a: nat, b: nat)
    ensures Pow2(a + b) == Pow2(a) * Pow2(b)
  {
    if b > 0 {
      Pow2Add(a, b - 1);
      assert Pow2(a + b) == 2 * Pow2(a + b - 1);
    }
  }

  /** Powers of two grow with the exponent. */
  lemma {:induction false} Pow2Monotone(a: nat, b: nat)
    requires a <= b
    ensures Pow2(a) <= Pow2(b)
  {
    if a < b {
      Pow2Monotone(a, b - 1);
    }
  }

  /** Up to 31, a power of two is at most `2 ** 31`, where int32 wraps. */
  lemma Pow2Below(n: nat)
    requires n <= 31
    ensures Pow2(n) <= 0x8000_0000
  {
    assert Pow2(10) == 1024 && Pow2(11) == 2048;
    Pow2Add(10, 10);
    Pow2Add(20, 11);
    Pow2Monotone(n, 31);
  }

  /** One halving step of a product with a power of two. */
  lemma HalvingStep(s: int, p: int)
    requires s >= 0 && p >= 1
    ensures (if s % 2 == 1 then p else 0) + (s / 2) * (2 * p) == s * p
  {
    var h, b := s / 2, s % 2;
    assert s == 2 * h + b;
    assert s * p == (2 * h + b) * p;
    assert (2 * h + b) * p == h * (2 * p) + b * p;
    assert b * p == (if b == 1 then p else 0);
  }

  /** An image below 31 shifts a one to exactly that power of two. */
  lemma ModifierBitIsPower(mapping: seq<nat>, index: nat)
    requires index < |mapping| && mapping[index] < 31
    ensures ModifierBit(mapping, index) == Pow2(mapping[index])
  {
    assert mapping[index] % 32 == mapping[index];
    Pow2Below(mapping[index] + 1);
  }

  /** With the identity mapping, the bit loop from bit `index` on gives back `s` shifted left by `index`. */
  lemma {:induction false} IdentityRemapped(mapping: seq<nat>, s: int, index: nat)
    requires Identity(mapping) && |mapping| <= 31 && index <= |mapping|
    requires 0 <= s < Pow2(|mapping| - index)
    ensures Remapped(mapping, s, index) == s * Pow2(index)
    decreases |mapping| - index
  {
    if s > 0 {
      var k := |mapping| - index;
      assert k > 0;
      assert Pow2(k) == 2 * Pow2(k - 1);
      Pow2Below(k);
      IdentityBitStep(mapping, s, index);
      IdentityRemapped(mapping, s / 2, index + 1);
      assert Pow2(index + 1) == 2 * Pow2(index);
      HalvingStep(s, Pow2(index));
    }
  }

  /** One turn of the bit loop under the identity mapping: bit `index` of the result is the low bit of `s`. */
  lemma IdentityBitStep(mapping: seq<nat>, s: int, index: nat)
    requires Identity(mapping) && |mapping| <= 31 && index < |mapping|
    requires 0 < s <= 0x8000_0000 - 1
    ensures Remapped(mapping, s, index) == (if s % 2 == 1 then Pow2(index) else 0) + Remapped(mapping, s / 2, index + 1)
  {
    assert ToInt32(s) == s;
    ModifierBitIsPower(mapping, index);
  }

  /**
   * A token the identity mapping covers comes out of both rewrites as it
   * went in: returning no mapping, as `CreateMapping` does then, has the
   * same effect as returning that mapping.
   */
  lemma IdentityKeepsToken(mapping: seq<nat>, t: TokenData)
    requires Identity(mapping) && |mapping| <= 31
    requires t.typeIdx.Number? && 0 <= t.typeIdx.value < |mapping|
    requires 0 <= t.modifierSet < Pow2(|mapping|)
    ensures t.(typeIdx := TypeAt(mapping, t.typeIdx)).(modifierSet := ModifiersRemapped(mapping, t.modifierSet)) == t
  {
    IdentityRemapped(mapping, t.modifierSet, 0);
    assert t.modifierSet * Pow2(0) == t.modifierSet;
  }
}
