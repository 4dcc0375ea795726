/** The JavaScript string operations used to build a run's identifier and timestamp. */
module Text {

  /** `s.slice(0, n)`: the first `n` characters, or all of `s` when it is shorter. */
  function Prefix(s: string, n: nat): (r: string)
    ensures |r| == if |s| < n then |s| else n
    ensures r <= s
  {
    if |s| <= n then s else s[..n]
  }

  /** `s.replace(/c/g, "")`: every occurrence of `c` deleted, everything else kept in order. */
  function RemoveAll(s: string, c: char): (r: string)
    ensures forall i :: 0 <= i < |r| ==> r[i] != c
    ensures forall d :: d != c ==> multiset(r)[d] == multiset(s)[d]
    ensures |r| <= |s|
  {
    if |s| == 0 then ""
    else
      assert s == [s[0]] + s[1..];
      assert multiset(s) == multiset{s[0]} + multiset(s[1..]);
      if s[0] == c then RemoveAll(s[1..], c)
      else [s[0]] + RemoveAll(s[1..], c)
  }

  /** Deleting a character distributes over concatenation, which pins down the order of what is kept. */
  lemma {:induction false} RemoveAllAppend(a: string, b: string, c: char)
    ensures RemoveAll(a + b, c) == RemoveAll(a, c) + RemoveAll(b, c)
    decreases |a|
  {
    if |a| == 0 {
      assert a + b == b;
    } else {
      assert (a + b)[0] == a[0];
      assert (a + b)[1..] == a[1..] + b;
      RemoveAllAppend(a[1..], b, c);
    }
  }

  /** A string without `c` is left untouched. */
  lemma {:induction false} RemoveAllAbsent(s: string, c: char)
    requires forall i :: 0 <= i < |s| ==> s[i] != c
    ensures RemoveAll(s, c) == s
    decreases |s|
  {
    if |s| > 0 {
      RemoveAllAbsent(s[1..], c);
      assert s == [s[0]] + s[1..];
    }
  }

  /** Deleting `c` from a string followed by `c` then by a `c`-free part drops the separator. */
  lemma RemoveAllSeparator(x: string, y: string, c: char)
    requires forall i :: 0 <= i < |y| ==> y[i] != c
    ensures RemoveAll(x + [c] + y, c) == RemoveAll(x, c) + y
  {
    RemoveAllAppend(x + [c], y, c);
    RemoveAllAppend(x, [c], c);
    RemoveAllAbsent(y, c);
    assert RemoveAll([c], c) == [] by {
      assert [c][1..] == [];
    }
    assert RemoveAll(x, c) + [] == RemoveAll(x, c);
  }

  /** Deleting the separator `c` from `a c b c e` joins the three parts when none of them contains `c`. */
  lemma RemoveAllSeparators(a: string, b: string, e: string, c: char)
    requires forall i :: 0 <= i < |a| ==> a[i] != c
    requires forall i :: 0 <= i < |b| ==> b[i] != c
    requires forall i :: 0 <= i < |e| ==> e[i] != c
    ensures RemoveAll(a + [c] + b + [c] + e, c) == a + b + e
  {
    var ab := a + [c] + b;
    RemoveAllSeparator(ab, e, c);
    RemoveAllSeparator(a, b, c);
    RemoveAllAbsent(a, c);
  }

  /** `s.replace("c", "d")` with a one-character string pattern: only the FIRST occurrence of `c` is
      replaced by `d`; every other character, later copies of `c` included, is kept in place. */
  function ReplaceFirst(s: string, c: char, d: char): (r: string)
    ensures |r| == |s|
    ensures forall i :: 0 <= i < |s| ==> r[i] == if s[i] == c && c !in s[..i] then d else s[i]
  {
    if |s| == 0 then ""
    else
      assert forall i :: 1 <= i <= |s| ==> s[..i] == [s[0]] + s[1..][..i - 1];
      if s[0] == c then [d] + s[1..]
      else [s[0]] + ReplaceFirst(s[1..], c, d)
  }
}
