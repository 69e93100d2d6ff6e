/**
 * The Go standard-library string operations the volume commands rely on:
 * substring search (strings.Contains), the ordering of strings used by
 * sort.Strings and by table sorting, sort.Strings itself and strings.Join.
 * Strings are sequences of characters; Go compares the UTF-8 bytes, which
 * orders valid text the same way as comparing code points does.
 */
module Text {

  /** `sub` occurs somewhere in `s`; the empty string occurs in every string. */
  predicate Contains(s: string, sub: string)
    decreases |s|
  {
    sub <= s || (s != [] && Contains(s[1..], sub))
  }

  /** Contains means: some suffix of `s` starts with `sub`. */
  lemma {:induction false} ContainsAt(s: string, sub: string)
    ensures Contains(s, sub) <==> exists i :: 0 <= i <= |s| && sub <= s[i..]
    decreases |s|
  {
    if s == [] {
      assert s[0..] == s;
    } else {
      ContainsAt(s[1..], sub);
      if Contains(s, sub) {
        if sub <= s {
          assert s[0..] == s;
        } else {
          var i :| 0 <= i <= |s[1..]| && sub <= s[1..][i..];
          assert s[1..][i..] == s[i + 1..];
        }
      }
      if exists i :: 0 <= i <= |s| && sub <= s[i..] {
        var i :| 0 <= i <= |s| && sub <= s[i..];
        if i == 0 {
          assert s[0..] == s;
        } else {
          assert s[1..][i - 1..] == s[i..];
        }
      }
    }
  }

  /** Lexicographic order of strings: a prefix comes first, otherwise the first differing character decides. */
  predicate StrLeq(a: string, b: string)
    decreases |a|
  {
    a == [] || (b != [] && (a[0] < b[0] || (a[0] == b[0] && StrLeq(a[1..], b[1..]))))
  }

  lemma {:induction false} StrLeqRefl(a: string)
    ensures StrLeq(a, a)
    decreases |a|
  {
    if a != [] {
      StrLeqRefl(a[1..]);
    }
  }

  lemma {:induction false} StrLeqTotal(a: string, b: string)
    ensures StrLeq(a, b) || StrLeq(b, a)
    decreases |a|
  {
    if a != [] && b != [] && a[0] == b[0] {
      StrLeqTotal(a[1..], b[1..]);
    }
  }

  lemma {:induction false} StrLeqAntisym(a: string, b: string)
    requires StrLeq(a, b) && StrLeq(b, a)
    ensures a == b
    decreases |a|
  {
    if a != [] {
      assert a[0] == b[0];
      StrLeqAntisym(a[1..], b[1..]);
      assert a == [a[0]] + a[1..] && b == [b[0]] + b[1..];
    }
  }

  lemma {:induction false} StrLeqTrans(a: string, b: string, c: string)
    requires StrLeq(a, b) && StrLeq(b, c)
    ensures StrLeq(a, c)
    decreases |a|
  {
    if a != [] && a[0] == b[0] && b[0] == c[0] {
      StrLeqTrans(a[1..], b[1..], c[1..]);
    }
  }

  /** Each string is at most its successor. */
  predicate SortedStrings(s: seq<string>)
  {
    forall i :: 0 < i < |s| ==> StrLeq(s[i - 1], s[i])
  }

  /** Inserts `x` into the sorted `s` before the first element it does not exceed. */
  function InsertString(x: string, s: seq<string>): (r: seq<string>)
    requires SortedStrings(s)
    ensures SortedStrings(r)
    ensures multiset(r) == multiset(s) + multiset{x}
    ensures |r| == |s| + 1 && (r[0] == x || (s != [] && r[0] == s[0]))
  {
    if s == [] then [x]
    else if StrLeq(x, s[0]) then [x] + s
    else
      StrLeqTotal(x, s[0]);
      assert s == [s[0]] + s[1..];
      [s[0]] + InsertString(x, s[1..])
  }

  /** sort.Strings: an ascending permutation of `s`. */
  function SortStrings(s: seq<string>): (r: seq<string>)
    ensures SortedStrings(r)
    ensures multiset(r) == multiset(s)
  {
    if s == [] then []
    else
      assert s == [s[0]] + s[1..];
      InsertString(s[0], SortStrings(s[1..]))
  }

  lemma {:induction false} SortedHeadLeast(s: seq<string>, j: int)
    requires SortedStrings(s) && 0 <= j < |s|
    ensures StrLeq(s[0], s[j])
  {
    if j == 0 {
      StrLeqRefl(s[0]);
    } else {
      SortedHeadLeast(s, j - 1);
      StrLeqTrans(s[0], s[j - 1], s[j]);
    }
  }

  lemma SortedHeadsAgree(a: seq<string>, b: seq<string>)
    requires SortedStrings(a) && SortedStrings(b)
    requires a != [] && multiset(a) == multiset(b)
    ensures b != [] && a[0] == b[0]
  {
    assert a[0] in multiset(b);
    var j :| 0 <= j < |b| && b[j] == a[0];
    SortedHeadLeast(b, j);
    assert b[0] in multiset(a);
    var i :| 0 <= i < |a| && a[i] == b[0];
    SortedHeadLeast(a, i);
    StrLeqAntisym(a[0], b[0]);
  }

  lemma TailMultiset(s: seq<string>)
    requires s != []
    ensures multiset(s[1..]) == multiset(s) - multiset{s[0]}
  {
    assert s == [s[0]] + s[1..];
  }

  /** A sorted permutation is unique: however the strings were gathered, sorting them gives one result. */
  lemma {:induction false} SortedStringsUnique(a: seq<string>, b: seq<string>)
    requires SortedStrings(a) && SortedStrings(b)
    requires multiset(a) == multiset(b)
    ensures a == b
    decreases |a|
  {
    if a == [] {
      assert |multiset(b)| == 0;
    } else {
      SortedHeadsAgree(a, b);
      TailMultiset(a);
      TailMultiset(b);
      assert SortedStrings(a[1..]) && SortedStrings(b[1..]);
      SortedStringsUnique(a[1..], b[1..]);
      assert a == [a[0]] + a[1..] && b == [b[0]] + b[1..];
    }
  }

  /** strings.Join: the elements with `sep` between consecutive ones. */
  function Join(elems: seq<string>, sep: string): string
  {
    if elems == [] then ""
    else if |elems| == 1 then elems[0]
    else elems[0] + sep + Join(elems[1..], sep)
  }
}
