/**
 * The JavaScript string operations the catalog relies on, restricted to ASCII:
 * `toLowerCase`, `trim`, `includes`, and the default ordering of
 * `Array.prototype.sort` on strings (lexicographic by character code).
 */
module Text {

  /** The whitespace removed by `trim` (ASCII part: space, tab, LF, VT, FF, CR). */
  predicate IsSpace(c: char) {
    c == ' ' || c == '\t' || c == '\n' || c == '\r' || c as int == 11 || c as int == 12
  }

  function LowerChar(c: char): (r: char)
    ensures IsSpace(r) <==> IsSpace(c)
    ensures !('A' <= r <= 'Z')
  {
    if 'A' <= c <= 'Z' then (c as int + 32) as char else c
  }

  /** `s.toLowerCase()` on ASCII letters. */
  function Lower(s: string): (r: string)
    ensures |r| == |s|
    ensures forall i :: 0 <= i < |s| ==> r[i] == LowerChar(s[i])
  {
    seq(|s|, i requires 0 <= i < |s| => LowerChar(s[i]))
  }

  /** Leading whitespace removed: what is left is a suffix of `s`, and what was dropped is all space. */
  function TrimStart(s: string): (r: string)
    ensures |r| <= |s| && r == s[|s| - |r|..]
    ensures forall k :: 0 <= k < |s| - |r| ==> IsSpace(s[k])
    ensures r == [] || !IsSpace(r[0])
  {
    if s != [] && IsSpace(s[0]) then TrimStart(s[1..]) else s
  }

  /** Trailing whitespace removed: what is left is a prefix of `s`, and what was dropped is all space. */
  function TrimEnd(s: string): (r: string)
    ensures |r| <= |s| && r == s[..|r|]
    ensures forall k :: |r| <= k < |s| ==> IsSpace(s[k])
    ensures r == [] || !IsSpace(r[|r| - 1])
  {
    if s != [] && IsSpace(s[|s| - 1]) then TrimEnd(s[..|s| - 1]) else s
  }

  /** `s.trim()`: the result neither starts nor ends with whitespace. */
  function Trim(s: string): (r: string)
    ensures |r| <= |s|
    ensures r == [] || (!IsSpace(r[0]) && !IsSpace(r[|r| - 1]))
  {
    var t := TrimStart(s);
    var r := TrimEnd(t);
    assert r != [] ==> r[0] == t[0];
    r
  }

  /** `!(s && s.trim())`: empty, or whitespace only (equivalently, trimming leaves "": `BlankIffTrimEmpty`). */
  predicate IsBlank(s: string) {
    forall k :: 0 <= k < |s| ==> IsSpace(s[k])
  }

  lemma {:induction false} TrimStartAllSpace(s: string)
    requires forall k :: 0 <= k < |s| ==> IsSpace(s[k])
    ensures TrimStart(s) == ""
    decreases |s|
  {
    if s != [] {
      TrimStartAllSpace(s[1..]);
    }
  }

  /** A string is blank exactly when trimming it leaves nothing. */
  lemma BlankIffTrimEmpty(s: string)
    ensures IsBlank(s) <==> Trim(s) == ""
  {
    if IsBlank(s) {
      TrimStartAllSpace(s);
    }
  }

  /** Neither starts nor ends with whitespace: the strings `trim` leaves as they are (`TrimOfUnpadded`). */
  predicate Unpadded(s: string) {
    s == [] || (!IsSpace(s[0]) && !IsSpace(s[|s| - 1]))
  }

  /** A string that neither starts nor ends with whitespace is its own trim. */
  lemma TrimOfUnpadded(s: string)
    requires Unpadded(s)
    ensures Trim(s) == s
  {
  }

  /**
   * `t` is `s` with some run of leading and some run of trailing whitespace
   * removed: a contiguous middle part of `s` with only whitespace around it.
   */
  predicate StripsTo(s: string, t: string) {
    exists a :: 0 <= a <= |s| && StripsAt(s, t, a)
  }

  /** `t` is the part of `s` starting at `a`, with only whitespace before and after it. */
  predicate StripsAt(s: string, t: string, a: int) {
    0 <= a <= |s| - |t| && t == s[a..a + |t|] &&
    (forall k :: 0 <= k < a ==> IsSpace(s[k])) &&
    (forall k :: a + |t| <= k < |s| ==> IsSpace(s[k]))
  }

  /** `trim` removes only surrounding whitespace: its result is the middle of the input. */
  lemma TrimKeepsMiddle(s: string)
    ensures StripsTo(s, Trim(s))
  {
    var t := TrimStart(s);
    var r := TrimEnd(t);
    var a := |s| - |t|;
    assert t == s[a..];
    assert r == t[..|r|];
    assert r == s[a..a + |r|] by {
      forall k | 0 <= k < |r| ensures r[k] == s[a + k] {
        assert r[k] == t[k];
      }
    }
    forall k | a + |r| <= k < |s| ensures IsSpace(s[k]) {
      assert s[k] == t[k - a];
    }
    assert StripsAt(s, r, a);
    assert Trim(s) == r;
  }

  /**
   * Stripping down to a string with no whitespace at either end can only give
   * the trim: with `TrimKeepsMiddle`, `Trim(s)` is the one unpadded middle of `s`
   * with only whitespace around it.
   */
  lemma StripsToIsTrim(s: string, t: string)
    requires StripsTo(s, t) && Unpadded(t)
    ensures t == Trim(s)
  {
    var a :| 0 <= a <= |s| && StripsAt(s, t, a);
    assert a + |t| <= |s| && t == s[a..a + |t|];
    if t == [] {
      assert IsBlank(s) by {
        forall k | 0 <= k < |s| ensures IsSpace(s[k]) {
          if k >= a { assert a + |t| <= k; }
        }
      }
      BlankIffTrimEmpty(s);
    } else {
      var u := TrimStart(s);
      var d := |s| - |u|;
      // The first kept character is not whitespace, and everything before `a` is.
      assert !IsSpace(s[a]) by { assert s[a] == t[0]; }
      assert u != [] && u[0] == s[d];
      assert d == a;
      var r := TrimEnd(u);
      var e := |r|;
      // Likewise at the end: `u[|t| - 1]` is kept, and everything after it is whitespace.
      assert !IsSpace(u[|t| - 1]) by { assert u[|t| - 1] == t[|t| - 1]; }
      assert r != [] && r[e - 1] == s[a + e - 1];
      assert e == |t|;
      assert r == u[..e];
      assert r == t;
    }
  }

  /** Trimming twice is trimming once. */
  lemma TrimIdempotent(s: string)
    ensures Trim(Trim(s)) == Trim(s)
  {
    TrimOfUnpadded(Trim(s));
  }

  /** `needle` occurs in `hay` starting at position `i`. */
  predicate OccursAt(hay: string, needle: string, i: int) {
    0 <= i && i + |needle| <= |hay| && hay[i..i + |needle|] == needle
  }

  /** `hay.includes(needle)`: `needle` occurs at some position of `hay`. */
  predicate Contains(hay: string, needle: string) {
    exists i :: 0 <= i <= |hay| && OccursAt(hay, needle, i)
  }

  /** A one-character needle is found exactly where that character occurs. */
  lemma ContainsChar(hay: string, c: char)
    ensures Contains(hay, [c]) <==> c in hay
  {
    if c in hay {
      var i :| 0 <= i < |hay| && hay[i] == c;
      assert hay[i..i + 1] == [c];
      assert OccursAt(hay, [c], i);
    }
    if Contains(hay, [c]) {
      var i :| 0 <= i <= |hay| && OccursAt(hay, [c], i);
      assert hay[i..i + 1][0] == hay[i];
    }
  }

  /** The empty string is contained in every string, as with `includes("")`. */
  lemma ContainsEmpty(hay: string)
    ensures Contains(hay, "")
  {
    assert OccursAt(hay, "", 0);
  }

  /** What occurs in the middle part also occurs in the whole concatenation. */
  lemma ContainsWithin(pre: string, mid: string, post: string, needle: string)
    requires Contains(mid, needle)
    ensures Contains(pre + mid + post, needle)
  {
    var i :| 0 <= i <= |mid| && OccursAt(mid, needle, i);
    var whole := pre + mid + post;
    assert whole[|pre| + i..|pre| + i + |needle|] == mid[i..i + |needle|];
    assert OccursAt(whole, needle, |pre| + i);
  }

  /** Every string contains itself. */
  lemma ContainsSelf(s: string)
    ensures Contains(s, s)
  {
    assert s[0..|s|] == s;
    assert OccursAt(s, s, 0);
  }

  /** The default string ordering used by `sort()`: lexicographic by character code. */
  predicate Less(a: string, b: string)
    decreases |a|
  {
    if a == [] then b != []
    else b != [] && (a[0] < b[0] || (a[0] == b[0] && Less(a[1..], b[1..])))
  }

  lemma {:induction false} LessIrreflexive(a: string)
    ensures !Less(a, a)
    decreases |a|
  {
    if a != [] {
      LessIrreflexive(a[1..]);
    }
  }

  lemma {:induction false} LessAsymmetric(a: string, b: string)
    ensures !(Less(a, b) && Less(b, a))
    decreases |a|
  {
    if a != [] && b != [] && a[0] == b[0] {
      LessAsymmetric(a[1..], b[1..]);
    }
  }

  lemma {:induction false} LessTotal(a: string, b: string)
    ensures a == b || Less(a, b) || Less(b, a)
    decreases |a|
  {
    if a != [] && b != [] && a[0] == b[0] {
      LessTotal(a[1..], b[1..]);
      if a[1..] == b[1..] {
        assert a == [a[0]] + a[1..] && b == [b[0]] + b[1..];
      }
    }
  }

  /** Every later element is greater than every earlier one: sorted and free of duplicates. */
  predicate StrictlySorted(s: seq<string>) {
    forall i, j :: 0 <= i < j < |s| ==> Less(s[i], s[j])
  }

  /** A strictly sorted list never holds the same string twice. */
  lemma StrictlySortedIsDistinct(s: seq<string>, i: int, j: int)
    requires StrictlySorted(s) && 0 <= i < j < |s|
    ensures s[i] != s[j]
  {
    LessIrreflexive(s[i]);
  }

  /** Adds `x` to a strictly sorted list unless it is already there, keeping it strictly sorted. */
  function InsertSorted(s: seq<string>, x: string): (r: seq<string>)
    requires StrictlySorted(s)
    ensures StrictlySorted(r)
    ensures forall y :: y in r <==> y in s || y == x
  {
    if s == [] then [x]
    else if x == s[0] then s
    else if Less(x, s[0]) then
      assert forall j :: 0 < j < |s| ==> Less(s[0], s[j]);
      assert forall j :: 0 <= j < |s| ==> Less(x, s[j]) by {
        forall j | 0 <= j < |s| ensures Less(x, s[j]) {
          if j > 0 { LessTransitive(x, s[0], s[j]); }
        }
      }
      [x] + s
    else
      LessTotal(x, s[0]);
      var tail := InsertSorted(s[1..], x);
      assert forall y :: y in tail ==> Less(s[0], y);
      [s[0]] + tail
  }

  lemma {:induction false} LessTransitive(a: string, b: string, c: string)
    requires Less(a, b) && Less(b, c)
    ensures Less(a, c)
    decreases |a|
  {
    if a != [] && a[0] == b[0] && b[0] == c[0] {
      LessTransitive(a[1..], b[1..], c[1..]);
    }
  }

  /**
   * Two strictly sorted lists with the same elements are equal: a sorted,
   * duplicate-free list is determined by its set of elements.
   */
  lemma {:induction false} SortedSetIsUnique(a: seq<string>, b: seq<string>)
    requires StrictlySorted(a) && StrictlySorted(b)
    requires forall y :: y in a <==> y in b
    ensures a == b
    decreases |a|
  {
    if a != [] { assert a[0] in b; }
    if b != [] { assert b[0] in a; }
    if a != [] && b != [] {
      if a[0] != b[0] {
        var i :| 0 <= i < |a| && a[i] == b[0];
        var j :| 0 <= j < |b| && b[j] == a[0];
        assert i != 0 && j != 0;
        LessAsymmetric(a[0], b[0]);
        assert false;
      }
      forall y ensures y in a[1..] <==> y in b[1..] {
        if y in a[1..] {
          var i :| 0 <= i < |a[1..]| && a[1..][i] == y;
          StrictlySortedIsDistinct(a, 0, i + 1);
          assert y in b && y != b[0];
        }
        if y in b[1..] {
          var j :| 0 <= j < |b[1..]| && b[1..][j] == y;
          StrictlySortedIsDistinct(b, 0, j + 1);
          assert y in a && y != a[0];
        }
      }
      SortedSetIsUnique(a[1..], b[1..]);
      assert a == [a[0]] + a[1..] && b == [b[0]] + b[1..];
    }
  }
}
