/** Substring search as `String.prototype.includes` and Python's `in` perform it. */
module Text {

  predicate StartsWith(s: string, p: string) {
    |p| <= |s| && s[..|p|] == p
  }

  /** `s.includes(p)`: `p` occurs in `s` at some position. */
  predicate Contains(s: string, p: string)
    decreases |s|
  {
    StartsWith(s, p) || (|s| > 0 && Contains(s[1..], p))
  }

  /** The three parts of `head + mid + tail` are found again at their places. */
  lemma Framed(head: string, mid: string, tail: string)
    ensures var c := head + mid + tail;
      && |c| == |head| + |mid| + |tail|
      && c[..|head|] == head && c[|c| - |tail|..] == tail && c[|head|..|c| - |tail|] == mid
  {
    var c := head + mid + tail;
    assert c[..|head|] == head;
    assert c[|c| - |tail|..] == tail;
    assert c[|head|..|c| - |tail|] == mid;
  }

  /** Regrouping a five-part concatenation around its second part. */
  lemma Regroup(a: string, b: string, c: string, d: string, e: string)
    ensures a + b + c + d + e == a + b + (c + d + e)
  {
  }

  /** An occurrence at a known index is found by the search. */
  lemma {:induction false} ContainsAt(s: string, p: string, i: nat)
    requires i + |p| <= |s| && s[i..i + |p|] == p
    ensures Contains(s, p)
    decreases i
  {
    if i == 0 {
      assert s[..|p|] == p;
    } else {
      assert s[1..][i - 1..i - 1 + |p|] == s[i..i + |p|];
      ContainsAt(s[1..], p, i - 1);
    }
  }

  /** A text that is spliced into a message can always be found in it. */
  lemma ContainsSpliced(a: string, p: string, b: string)
    ensures Contains(a + p + b, p)
  {
    var s := a + p + b;
    assert s[|a|..|a| + |p|] == p;
    ContainsAt(s, p, |a|);
  }

  /** Every occurrence of `p` in `s` is a slice of `s`, so `p`'s characters are in `s`. */
  lemma {:induction false} ContainsWitness(s: string, p: string) returns (i: nat)
    requires Contains(s, p)
    ensures i + |p| <= |s| && s[i..i + |p|] == p
    decreases |s|
  {
    if StartsWith(s, p) {
      i := 0;
    } else {
      var j := ContainsWitness(s[1..], p);
      assert s[1..][j..j + |p|] == s[j + 1..j + 1 + |p|];
      i := j + 1;
    }
  }

  /** Every character of a pattern that occurs in `s` is a character of `s`. */
  lemma ContainedChars(s: string, p: string)
    requires Contains(s, p)
    ensures forall c :: c in p ==> c in s
  {
    var i := ContainsWitness(s, p);
    forall c | c in p
      ensures c in s
    {
      var k :| 0 <= k < |p| && p[k] == c;
      assert s[i + k] == s[i..i + |p|][k];
    }
  }

  /** A pattern holding a character the text lacks cannot occur in it. */
  lemma MissingChar(s: string, p: string, c: char)
    requires c in p && c !in s
    ensures !Contains(s, p)
  {
    if Contains(s, p) {
      ContainedChars(s, p);
    }
  }

  /** `x` is never directly followed by `y` in `s`. */
  predicate NoPair(s: string, x: char, y: char) {
    forall k :: 0 <= k < |s| - 1 ==> !(s[k] == x && s[k + 1] == y)
  }

  /** A pattern holding two adjacent characters the text never shows adjacent cannot occur in it. */
  lemma MissingPair(s: string, p: string, k: nat)
    requires k + 1 < |p| && NoPair(s, p[k], p[k + 1])
    ensures !Contains(s, p)
  {
    if Contains(s, p) {
      var i := ContainsWitness(s, p);
    }
  }

  /** Pair freedom of a concatenation is decided piecewise and at the seam. */
  lemma NoPairConcat(a: string, b: string, x: char, y: char)
    requires NoPair(a, x, y) && NoPair(b, x, y)
    requires |a| > 0 && |b| > 0 ==> !(a[|a| - 1] == x && b[0] == y)
    ensures NoPair(a + b, x, y)
  {
    var s := a + b;
    forall k | 0 <= k < |s| - 1
      ensures !(s[k] == x && s[k + 1] == y)
    {
      if k + 1 < |a| {
        assert s[k] == a[k] && s[k + 1] == a[k + 1];
      } else if k >= |a| {
        assert s[k] == b[k - |a|] && s[k + 1] == b[k + 1 - |a|];
      }
    }
  }
}
