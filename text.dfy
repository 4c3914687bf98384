/** String operations the job list relies on: the case-insensitive substring
    test behind `localizedCaseInsensitiveContains`, and the ordering and
    de-duplication behind `Set(names).sorted()`. */
module Text {

  /** ASCII case folding: 'A' to 'Z' become 'a' to 'z', every other character
      is kept. */
  function FoldChar(c: char): char {
    if 'A' <= c <= 'Z' then (c as int + 32) as char else c
  }

  /** Case folding of a whole string, character by character. */
  function Fold(s: string): (r: string)
    ensures |r| == |s|
    ensures forall i :: 0 <= i < |r| ==> !('A' <= r[i] <= 'Z')
  {
    seq(|s|, i requires 0 <= i < |s| => FoldChar(s[i]))
  }

  lemma FoldIdempotent(s: string)
    ensures Fold(Fold(s)) == Fold(s)
  {
  }

  predicate IsPrefix(needle: string, hay: string) {
    |needle| <= |hay| && hay[..|needle|] == needle
  }

  /** `hay` contains `needle` as a contiguous run of characters. */
  predicate IsSubstring(needle: string, hay: string)
    decreases |hay|
  {
    IsPrefix(needle, hay) || (hay != [] && IsSubstring(needle, hay[1..]))
  }

  /** `needle` occurs in `hay` starting at position `i`. */
  ghost predicate OccursAt(needle: string, hay: string, i: int) {
    0 <= i <= |hay| - |needle| && hay[i..i + |needle|] == needle
  }

  /** The recursive test agrees with the positional definition of a substring. */
  lemma {:induction false} IsSubstringIffOccursAt(needle: string, hay: string)
    ensures IsSubstring(needle, hay) <==> exists i :: OccursAt(needle, hay, i)
    decreases |hay|
  {
    if IsPrefix(needle, hay) {
      assert OccursAt(needle, hay, 0);
    } else if hay == [] {
      assert forall i :: !OccursAt(needle, hay, i);
    } else {
      var tail := hay[1..];
      IsSubstringIffOccursAt(needle, tail);
      if IsSubstring(needle, tail) {
        var i :| OccursAt(needle, tail, i);
        assert hay[i + 1..i + 1 + |needle|] == needle;
        assert OccursAt(needle, hay, i + 1);
      }
      if exists i :: OccursAt(needle, hay, i) {
        var i :| OccursAt(needle, hay, i);
        assert i != 0;
        assert tail[i - 1..i - 1 + |needle|] == needle;
        assert OccursAt(needle, tail, i - 1);
      }
    }
  }

  /** Every character of a substring occurs in the string that contains it. */
  lemma SubstringCharsOccur(needle: string, hay: string, c: char)
    requires IsSubstring(needle, hay) && c in needle
    ensures c in hay
  {
    IsSubstringIffOccursAt(needle, hay);
    var i :| OccursAt(needle, hay, i);
    var k :| 0 <= k < |needle| && needle[k] == c;
    assert hay[i + k] == hay[i..i + |needle|][k];
  }

  /** `localizedCaseInsensitiveContains`, restricted to ASCII case folding. */
  predicate ContainsIgnoringCase(hay: string, needle: string) {
    IsSubstring(Fold(needle), Fold(hay))
  }

  /** Changing the case of either argument does not change the answer. */
  lemma IgnoresCase(hay: string, needle: string)
    ensures ContainsIgnoringCase(hay, needle) == ContainsIgnoringCase(Fold(hay), needle)
    ensures ContainsIgnoringCase(hay, needle) == ContainsIgnoringCase(hay, Fold(needle))
  {
    FoldIdempotent(hay);
    FoldIdempotent(needle);
  }

  /** Lexicographic order on strings, comparing characters by code point. */
  predicate Less(a: string, b: string) {
    if b == [] then false
    else if a == [] then true
    else if a[0] != b[0] then a[0] < b[0]
    else Less(a[1..], b[1..])
  }

  lemma {:induction false} LessIrreflexive(a: string)
    ensures !Less(a, a)
  {
    if a != [] {
      LessIrreflexive(a[1..]);
    }
  }

  lemma {:induction false} LessTransitive(a: string, b: string, c: string)
    requires Less(a, b) && Less(b, c)
    ensures Less(a, c)
  {
    if a != [] && a[0] == b[0] && b[0] == c[0] {
      LessTransitive(a[1..], b[1..], c[1..]);
    }
  }

  lemma {:induction false} LessTotal(a: string, b: string)
    requires a != b
    ensures Less(a, b) || Less(b, a)
  {
    if a != [] && b != [] && a[0] == b[0] {
      assert a == [a[0]] + a[1..] && b == [b[0]] + b[1..];
      LessTotal(a[1..], b[1..]);
    }
  }

  ghost predicate StrictlyAscending(r: seq<string>) {
    forall i, j :: 0 <= i < j < |r| ==> Less(r[i], r[j])
  }

  /** Inserts `x` into its place in the ascending list `r`, unless present. */
  function InsertSorted(x: string, r: seq<string>): (res: seq<string>)
    requires StrictlyAscending(r)
    ensures StrictlyAscending(res)
    ensures forall y :: y in res <==> y == x || y in r
  {
    if r == [] then [x]
    else if x == r[0] then r
    else if Less(x, r[0]) then
      assert forall j :: 0 < j < |r| ==> Less(x, r[j]) by {
        forall j | 0 < j < |r| ensures Less(x, r[j]) {
          LessTransitive(x, r[0], r[j]);
        }
      }
      [x] + r
    else
      LessTotal(x, r[0]);
      var rest := InsertSorted(x, r[1..]);
      assert forall y :: y in r <==> y == r[0] || y in r[1..] by {
        assert r == [r[0]] + r[1..];
      }
      assert forall j :: 0 <= j < |rest| ==> Less(r[0], rest[j]) by {
        forall j | 0 <= j < |rest| ensures Less(r[0], rest[j]) {
          assert rest[j] in rest;
        }
      }
      [r[0]] + rest
  }

  /** `Set(names).sorted()`: the distinct names, in ascending order. */
  function SortedDistinct(names: seq<string>): (r: seq<string>)
    ensures StrictlyAscending(r)
    ensures forall y :: y in r <==> y in names
  {
    if names == [] then []
    else
      assert forall y :: y in names <==> y == names[0] || y in names[1..] by {
        assert names == [names[0]] + names[1..];
      }
      InsertSorted(names[0], SortedDistinct(names[1..]))
  }

  /** An ascending list has no repeated element. */
  lemma AscendingIsDistinct(r: seq<string>)
    requires StrictlyAscending(r)
    ensures forall i, j :: 0 <= i < j < |r| ==> r[i] != r[j]
  {
    forall i, j | 0 <= i < j < |r| ensures r[i] != r[j] {
      LessIrreflexive(r[i]);
    }
  }

  lemma {:induction false} DistinctCardinality(r: seq<string>)
    requires forall i, j :: 0 <= i < j < |r| ==> r[i] != r[j]
    ensures |set y | y in r| == |r|
  {
    if r != [] {
      var tail := r[1..];
      DistinctCardinality(tail);
      assert (set y | y in r) == (set y | y in tail) + {r[0]} by {
        assert r == [r[0]] + tail;
      }
    }
  }

  /** The sorted list has exactly one entry per distinct name. */
  lemma SortedDistinctCount(names: seq<string>)
    ensures |SortedDistinct(names)| == |set y | y in names|
  {
    var r := SortedDistinct(names);
    AscendingIsDistinct(r);
    DistinctCardinality(r);
    assert (set y | y in r) == (set y | y in names);
  }
}
