/**
  The string operations the dashboard relies on: lower-casing (ASCII
  only), substring search as `String.prototype.includes` does it, and the
  code-unit-by-code-unit order that `Array.prototype.sort` uses by default.
*/
module Text {

  /** Maps 'A'..'Z' to 'a'..'z' and leaves every other character alone. */
  function LowerChar(c: char): (r: char)
    ensures 'A' <= c <= 'Z' ==> 'a' <= r <= 'z' && r as int - c as int == 32
    ensures !('A' <= c <= 'Z') ==> r == c
  {
    if 'A' <= c <= 'Z' then (c as int + 32) as char else c
  }

  function ToLower(s: string): (r: string)
    ensures |r| == |s|
    ensures forall i :: 0 <= i < |s| ==> r[i] == LowerChar(s[i])
    ensures forall i :: 0 <= i < |s| ==> !('A' <= r[i] <= 'Z')
  {
    seq(|s|, i requires 0 <= i < |s| => LowerChar(s[i]))
  }

  /** Lower-casing twice is lower-casing once. */
  lemma ToLowerIdempotent(s: string)
    ensures ToLower(ToLower(s)) == ToLower(s)
  {
    var t := ToLower(s);
    assert forall i :: 0 <= i < |t| ==> LowerChar(t[i]) == t[i];
  }

  /** `hay.includes(needle)`: the needle occurs at some offset of the haystack. */
  predicate Includes(hay: string, needle: string)
    decreases |hay|
  {
    needle <= hay || (hay != [] && Includes(hay[1..], needle))
  }

  /** The needle is the slice of the haystack that starts at offset k. */
  predicate OccursAt(hay: string, needle: string, k: int)
  {
    0 <= k && k + |needle| <= |hay| && hay[k..k + |needle|] == needle
  }

  /** An occurrence at any offset is found by the recursive search. */
  lemma {:induction false} IncludesFromOffset(hay: string, needle: string, k: int)
    requires OccursAt(hay, needle, k)
    ensures Includes(hay, needle)
    decreases k
  {
    if k == 0 {
      assert needle == hay[..|needle|];
    } else {
      assert hay[1..][k - 1..k - 1 + |needle|] == hay[k..k + |needle|];
      IncludesFromOffset(hay[1..], needle, k - 1);
    }
  }

  /** When the recursive search succeeds, it names an offset where the needle occurs. */
  lemma {:induction false} OffsetFromIncludes(hay: string, needle: string) returns (k: nat)
    requires Includes(hay, needle)
    ensures OccursAt(hay, needle, k)
    decreases |hay|
  {
    if needle <= hay {
      k := 0;
      assert hay[..|needle|] == needle;
    } else {
      var j := OffsetFromIncludes(hay[1..], needle);
      k := j + 1;
      assert hay[1..][j..j + |needle|] == hay[k..k + |needle|];
    }
  }

  /** The recursive search agrees with the definition by offsets, in both directions. */
  lemma IncludesAtOffset(hay: string, needle: string)
    ensures Includes(hay, needle) <==> exists k :: OccursAt(hay, needle, k)
  {
    if Includes(hay, needle) {
      var k := OffsetFromIncludes(hay, needle);
    }
    forall k | OccursAt(hay, needle, k)
      ensures Includes(hay, needle)
    {
      IncludesFromOffset(hay, needle, k);
    }
  }

  /** Every string includes itself and includes the empty string. */
  lemma IncludesTrivial(hay: string)
    ensures Includes(hay, hay) && Includes(hay, "")
  {
  }

  /**
    The order of JavaScript's default sort: compare position by position;
    at the first difference the smaller character wins, and a proper
    prefix comes before any longer string.
  */
  predicate LexLess(a: string, b: string)
    decreases |a|
  {
    if a == [] then b != []
    else b != [] && (a[0] < b[0] || (a[0] == b[0] && LexLess(a[1..], b[1..])))
  }

  lemma {:induction false} LexLessIrreflexive(a: string)
    ensures !LexLess(a, a)
    decreases |a|
  {
    if a != [] {
      LexLessIrreflexive(a[1..]);
    }
  }

  lemma {:induction false} LexLessAsymmetric(a: string, b: string)
    ensures LexLess(a, b) ==> !LexLess(b, a)
    decreases |a|
  {
    if a != [] && b != [] && a[0] == b[0] {
      LexLessAsymmetric(a[1..], b[1..]);
    }
  }

  lemma {:induction false} LexLessTransitive(a: string, b: string, c: string)
    requires LexLess(a, b) && LexLess(b, c)
    ensures LexLess(a, c)
    decreases |a|
  {
    if a != [] && a[0] == b[0] && b[0] == c[0] {
      LexLessTransitive(a[1..], b[1..], c[1..]);
    }
  }

  /** A common prefix does not change how two strings compare. */
  lemma {:induction false} LexLessCommonPrefix(p: string, a: string, b: string)
    requires LexLess(a, b)
    ensures LexLess(p + a, p + b)
    decreases |p|
  {
    if p != [] {
      LexLessCommonPrefix(p[1..], a, b);
      assert (p + a)[0] == p[0] == (p + b)[0];
      assert (p + a)[1..] == p[1..] + a && (p + b)[1..] == p[1..] + b;
    } else {
      assert p + a == a && p + b == b;
    }
  }

  /** Any two different strings are ordered one way or the other. */
  lemma {:induction false} LexLessTotal(a: string, b: string)
    requires a != b
    ensures LexLess(a, b) || LexLess(b, a)
    decreases |a|
  {
    if a != [] && b != [] && a[0] == b[0] {
      assert a == [a[0]] + a[1..] && b == [b[0]] + b[1..];
      LexLessTotal(a[1..], b[1..]);
    }
  }

  /** Sorted in the sense of the default sort and free of duplicates. */
  predicate StrictlyAscending(s: seq<string>)
  {
    forall i, j :: 0 <= i < j < |s| ==> LexLess(s[i], s[j])
  }

  predicate NoDuplicates<T(==)>(s: seq<T>)
  {
    forall i, j :: 0 <= i < j < |s| ==> s[i] != s[j]
  }

  lemma StrictlyAscendingHasNoDuplicates(s: seq<string>)
    requires StrictlyAscending(s)
    ensures NoDuplicates(s)
  {
    forall i, j | 0 <= i < j < |s|
      ensures s[i] != s[j]
    {
      LexLessIrreflexive(s[i]);
    }
  }

  /** A duplicate-free list has as many distinct members as elements. */
  lemma {:induction false} NoDuplicatesCardinality(s: seq<string>)
    requires NoDuplicates(s)
    ensures |set x | x in s| == |s|
  {
    if s != [] {
      NoDuplicatesCardinality(s[1..]);
      assert (set x | x in s) == {s[0]} + (set x | x in s[1..]);
      assert s[0] !in (set x | x in s[1..]);
    }
  }

  /** Two strictly ascending lists with the same members start alike. */
  lemma AscendingHeadsEqual(s: seq<string>, t: seq<string>)
    requires StrictlyAscending(s) && StrictlyAscending(t) && s != [] && t != []
    requires forall x :: x in s <==> x in t
    ensures s[0] == t[0]
  {
    // each head is the least member of the other list
    assert s[0] in s && t[0] in t;
    var i :| 0 <= i < |t| && t[i] == s[0];
    var j :| 0 <= j < |s| && s[j] == t[0];
    assert i == 0 || LexLess(t[0], s[0]);
    assert j == 0 || LexLess(s[0], t[0]);
    LexLessAsymmetric(s[0], t[0]);
  }

  /** Removing equal heads from two ascending lists with the same members leaves the same members. */
  lemma AscendingTailsSameMembers(s: seq<string>, t: seq<string>)
    requires StrictlyAscending(s) && StrictlyAscending(t) && s != [] && t != [] && s[0] == t[0]
    requires forall x :: x in s <==> x in t
    ensures forall x :: x in s[1..] <==> x in t[1..]
  {
    LexLessIrreflexive(s[0]);
    forall x | x in s[1..]
      ensures x in t[1..]
    {
      var k :| 0 <= k < |s[1..]| && s[1..][k] == x;
      assert s[k + 1] == x && x in s;
      assert t == [t[0]] + t[1..];
    }
    forall x | x in t[1..]
      ensures x in s[1..]
    {
      var k :| 0 <= k < |t[1..]| && t[1..][k] == x;
      assert t[k + 1] == x && x in t;
      assert s == [s[0]] + s[1..];
    }
  }

  /**
    A strictly ascending list is determined by its elements: two such
    lists with the same members are equal. So whichever algorithm sorts,
    the sorted distinct list is the same.
  */
  lemma {:induction false} StrictlyAscendingUnique(s: seq<string>, t: seq<string>)
    requires StrictlyAscending(s) && StrictlyAscending(t)
    requires forall x :: x in s <==> x in t
    ensures s == t
    decreases |s|
  {
    StrictlyAscendingHasNoDuplicates(s);
    StrictlyAscendingHasNoDuplicates(t);
    NoDuplicatesCardinality(s);
    NoDuplicatesCardinality(t);
    assert (set x | x in s) == (set x | x in t);
    if s != [] {
      AscendingHeadsEqual(s, t);
      AscendingTailsSameMembers(s, t);
      StrictlyAscendingUnique(s[1..], t[1..]);
      assert s == [s[0]] + s[1..] && t == [t[0]] + t[1..];
    }
  }

  /** One step of insertion sort: put x before the first element not below it. */
  function Insert(x: string, s: seq<string>): (r: seq<string>)
    ensures multiset(r) == multiset(s) + multiset{x}
  {
    if s == [] || !LexLess(s[0], x) then [x] + s
    else
      assert s == [s[0]] + s[1..];
      [s[0]] + Insert(x, s[1..])
  }

  lemma {:induction false} InsertAscending(x: string, s: seq<string>)
    requires StrictlyAscending(s) && x !in s
    ensures StrictlyAscending(Insert(x, s))
    decreases |s|
  {
    var r := Insert(x, s);
    if s == [] {
    } else if !LexLess(s[0], x) {
      assert x != s[0];
      LexLessTotal(x, s[0]);
      forall j | 1 <= j < |r|
        ensures LexLess(r[0], r[j])
      {
        if j > 1 {
          LexLessTransitive(x, s[0], s[j - 1]);
        }
      }
    } else {
      InsertAscending(x, s[1..]);
      var tail := Insert(x, s[1..]);
      assert r == [s[0]] + tail;
      forall j | 0 <= j < |tail|
        ensures LexLess(s[0], tail[j])
      {
        assert tail[j] in multiset(tail);
        assert tail[j] == x || tail[j] in s[1..];
      }
    }
  }

  /** Insertion sort under the default string order. */
  function SortStrings(s: seq<string>): (r: seq<string>)
    ensures multiset(r) == multiset(s)
  {
    if s == [] then []
    else
      assert s == [s[0]] + s[1..];
      Insert(s[0], SortStrings(s[1..]))
  }

  /** Sorting a duplicate-free list gives a strictly ascending list. */
  lemma {:induction false} SortStringsAscending(s: seq<string>)
    requires NoDuplicates(s)
    ensures StrictlyAscending(SortStrings(s))
    decreases |s|
  {
    if s != [] {
      SortStringsAscending(s[1..]);
      var rest := SortStrings(s[1..]);
      assert s[0] !in multiset(s[1..]);
      assert s[0] !in rest by {
        assert multiset(rest) == multiset(s[1..]);
      }
      InsertAscending(s[0], rest);
    }
  }
}
