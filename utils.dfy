/**
 * The character cursor every scanner reads through, and the binary search
 * behind the offset lookups of the parsed documents.
 */
module Utils {
  import opened Wrappers
  import opened Chars
  import opened Patterns

  /**
   * The comparator agrees with the order of `a` for `key`: the elements it
   * places before the key (negative) come first, those it places after the
   * key (positive) come last.
   */
  ghost predicate OrderedFor<T>(a: seq<T>, key: int, comparator: (T, int) -> int) {
    forall i, j :: 0 <= i < j < |a| ==>
      (comparator(a[j], key) < 0 ==> comparator(a[i], key) < 0) &&
      (comparator(a[i], key) > 0 ==> comparator(a[j], key) > 0)
  }

  /**
   * `binarySearch`: an element the comparator reports equal to `key`, or
   * nothing. On an array ordered consistently with the comparator, nothing
   * is returned only when no element compares equal.
   */
  method BinarySearch<T>(a: seq<T>, key: int, comparator: (T, int) -> int) returns (r: Option<T>)
    ensures r.Some? ==> r.value in a && comparator(r.value, key) == 0
    ensures r.None? && OrderedFor(a, key, comparator) ==>
      forall i :: 0 <= i < |a| ==> comparator(a[i], key) != 0
  {
    var low, high := 0, |a| - 1;
    while low <= high
      invariant 0 <= low <= high + 1 <= |a|
      invariant OrderedFor(a, key, comparator) ==>
        (forall i :: 0 <= i < low ==> comparator(a[i], key) < 0) &&
        (forall i :: high < i < |a| ==> comparator(a[i], key) > 0)
      decreases high - low
    {
      var mid := (low + high) / 2;
      assert low <= mid <= high;
      var comp := comparator(a[mid], key);
      if comp < 0 {
        low := mid + 1;
      } else if comp > 0 {
        high := mid - 1;
      } else {
        return Some(a[mid]);
      }
    }
    return None;
  }

  /**
   * `MultiLineStream`: a position in one source text, with the primitives
   * that test and consume characters there. The position may pass the end
   * of the text (an `advance` after a failed search does); every test reads
   * a position at or past the end as no character.
   */
  class MultiLineStream {
    const source: string
    const len: nat := |source|
    var position: nat

    constructor (source: string, position: nat)
      ensures this.source == source && this.position == position
    {
      this.source := source;
      this.position := position;
    }

    /** `eos`: the position is at or past the end of the text. */
    method Eos() returns (b: bool)
      ensures b <==> |source| <= position
    {
      b := len <= position;
    }

    method GetSource() returns (s: string)
      ensures s == source
    {
      s := source;
    }

    method Pos() returns (p: nat)
      ensures p == position
    {
      p := position;
    }

    method GoBackTo(pos: nat)
      modifies this
      ensures position == pos
    {
      position := pos;
    }

    method GoBack(n: nat)
      requires n <= position
      modifies this
      ensures position == old(position) - n
    {
      position := position - n;
    }

    method Advance(n: nat)
      modifies this
      ensures position == old(position) + n
    {
      position := position + n;
    }

    method GoToEnd()
      modifies this
      ensures position == |source|
    {
      position := |source|;
    }

    /** `nextChar`: the character at the position (NUL past the end); always moves one on. */
    method NextChar() returns (c: char)
      modifies this
      ensures c == CharAt(source, old(position))
      ensures position == old(position) + 1
    {
      c := CharAt(source, position);
      position := position + 1;
    }

    method PeekChar(n: int) returns (c: char)
      ensures c == CharAt(source, position + n)
    {
      c := CharAt(source, position + n);
    }

    /** `advanceIfChar`: consume `ch` when it is the character at the position. */
    method AdvanceIfChar(ch: char) returns (b: bool)
      modifies this
      ensures b <==> old(position) < |source| && source[old(position)] == ch
      ensures position == if b then old(position) + 1 else old(position)
    {
      if position < len && source[position] == ch {
        position := position + 1;
        return true;
      }
      return false;
    }

    /** `advanceIfChars`: consume `ch` when the text continues with it here, even when too short. */
    method AdvanceIfChars(ch: string) returns (b: bool)
      modifies this
      ensures b <==> MatchesAt(source, old(position), ch)
      ensures position == if b then old(position) + |ch| else old(position)
    {
      if position + |ch| > |source| {
        return false;
      }
      var i := 0;
      while i < |ch|
        invariant 0 <= i <= |ch|
        invariant forall j :: 0 <= j < i ==> source[position + j] == ch[j]
      {
        if source[position + i] != ch[i] {
          assert source[position..position + |ch|][i] != ch[i];
          return false;
        }
        i := i + 1;
      }
      assert source[position..position + |ch|] == ch;
      Advance(i);
      return true;
    }

    /**
     * `advanceIfRegExp` for an anchored pattern: consume and return the
     * match at the position, or return the empty string and stay put.
     */
    method AdvanceIfRegExp(p: Pattern) returns (m: string)
      modifies this
      ensures var n := MatchLength(p, source, old(position));
        m == Substring(source, old(position), old(position) + n) && position == old(position) + n
      ensures m == [] ==> position == old(position)
    {
      var n := MatchLength(p, source, position);
      m := Substring(source, position, position + n);
      position := position + n;
    }

    /**
     * `advanceUntilChar`: move to the next occurrence of `ch`; report
     * whether one was found, stopping at the end of the text otherwise.
     */
    method AdvanceUntilChar(ch: char) returns (b: bool)
      modifies this
      ensures position == IndexOfChar(source, old(position), ch)
      ensures b <==> position < |source|
    {
      while position < |source|
        invariant old(position) <= position
        invariant IndexOfChar(source, old(position), ch) == IndexOfChar(source, position, ch)
        decreases |source| - position
      {
        if source[position] == ch {
          return true;
        }
        Advance(1);
      }
      return false;
    }

    /**
     * `advanceUntilChars`: move to the next occurrence of `ch`; when there
     * is none, move to the end of the text and report false.
     */
    method AdvanceUntilChars(ch: string) returns (b: bool)
      modifies this
      ensures position == IndexOfSeq(source, old(position), ch)
      ensures b ==> MatchesAt(source, position, ch)
      ensures !b ==> position == |source|
    {
      while position + |ch| <= |source|
        invariant IndexOfSeq(source, old(position), ch) == IndexOfSeq(source, position, ch)
        decreases |source| - position
      {
        var i := 0;
        while i < |ch| && source[position + i] == ch[i]
          invariant 0 <= i <= |ch|
          invariant forall j :: 0 <= j < i ==> source[position + j] == ch[j]
        {
          i := i + 1;
        }
        if i == |ch| {
          assert source[position..position + |ch|] == ch;
          return true;
        }
        assert source[position..position + |ch|] != ch by {
          assert source[position..position + |ch|][i] != ch[i];
        }
        Advance(1);
      }
      GoToEnd();
      return false;
    }

    /** `skipWhitespace`: consume spaces, tabs, line feeds, form feeds, carriage returns. */
    method SkipWhitespace() returns (b: bool)
      modifies this
      ensures position == SkipWs(source, old(position))
      ensures b <==> position > old(position)
    {
      var n := AdvanceWhileChar(IsWhitespace);
      b := n > 0;
    }

    /** `skipWitheSpaceWithoutNewLine`: consume spaces, tabs and form feeds only. */
    method SkipWitheSpaceWithoutNewLine() returns (b: bool)
      modifies this
      ensures position == SkipBlanks(source, old(position))
      ensures b <==> position > old(position)
    {
      var n := AdvanceWhileChar(IsBlank);
      b := n > 0;
    }

    /** `advanceWhileChar`: consume while `condition` holds; return how many were consumed. */
    method AdvanceWhileChar(condition: char -> bool) returns (n: nat)
      modifies this
      ensures position == SkipWhile(source, old(position), condition)
      ensures n == position - old(position)
    {
      var posNow := position;
      while position < len && condition(source[position])
        invariant posNow <= position
        invariant SkipWhile(source, posNow, condition) == SkipWhile(source, position, condition)
        decreases len - position
      {
        position := position + 1;
      }
      n := position - posNow;
    }
  }
}
