/**
  Strings as the tests look at them: substring containment (what
  `assert.Contains` checks on a string) and the way Go's `%v` verb prints a
  `[]string` — the elements separated by single spaces inside brackets.
 */
module Text {

  /** `t` occurs in `s` starting at position `k`. */
  predicate OccursAt(s: string, t: string, k: int) {
    0 <= k && k + |t| <= |s| && s[k..k + |t|] == t
  }

  /** `t` is a substring of `s`. */
  predicate Contains(s: string, t: string) {
    exists k :: 0 <= k <= |s| - |t| && OccursAt(s, t, k)
  }

  lemma ContainsMiddle(a: string, t: string, b: string)
    ensures Contains(a + t + b, t)
  {
    assert (a + t + b)[|a|..|a| + |t|] == t;
    assert OccursAt(a + t + b, t, |a|);
  }

  lemma ContainsSelf(t: string)
    ensures Contains(t, t)
  {
    assert t[0..|t|] == t;
    assert OccursAt(t, t, 0);
  }

  lemma ContainsLeft(a: string, b: string, t: string)
    requires Contains(a, t)
    ensures Contains(a + b, t)
  {
    var k :| 0 <= k <= |a| - |t| && OccursAt(a, t, k);
    assert (a + b)[k..k + |t|] == a[k..k + |t|];
    assert OccursAt(a + b, t, k);
  }

  lemma ContainsRight(a: string, b: string, t: string)
    requires Contains(b, t)
    ensures Contains(a + b, t)
  {
    var k :| 0 <= k <= |b| - |t| && OccursAt(b, t, k);
    assert (a + b)[|a| + k..|a| + k + |t|] == b[k..k + |t|];
    assert OccursAt(a + b, t, |a| + k);
  }

  lemma ContainsTransitive(s: string, t: string, u: string)
    requires Contains(s, t) && Contains(t, u)
    ensures Contains(s, u)
  {
    var k :| 0 <= k <= |s| - |t| && OccursAt(s, t, k);
    var j :| 0 <= j <= |t| - |u| && OccursAt(t, u, j);
    assert s[k..k + |t|] == t && t[j..j + |u|] == u;
    forall i | 0 <= i < |u|
      ensures s[k + j..k + j + |u|][i] == u[i]
    {
      assert u[i] == t[j + i] == s[k + j + i];
    }
    assert s[k + j..k + j + |u|] == u;
    assert OccursAt(s, u, k + j);
  }

  /** Equal strings with the same prefix and suffix have the same middle. */
  lemma MiddleUnique(a: string, x: string, y: string, b: string)
    requires a + x + b == a + y + b
    ensures x == y
  {
    assert |x| == |y|;
    assert x == (a + x + b)[|a|..|a| + |x|];
    assert y == (a + y + b)[|a|..|a| + |y|];
  }

  lemma PrefixCancel(a: string, x: string, y: string)
    requires a + x == a + y
    ensures x == y
  {
    assert x == (a + x)[|a|..];
    assert y == (a + y)[|a|..];
  }

  lemma SuffixCancel(x: string, y: string, b: string)
    requires x + b == y + b
    ensures x == y
  {
    assert |x| == |y|;
    assert x == (x + b)[..|x|];
    assert y == (y + b)[..|y|];
  }

  /** Lines as a text sink accumulates them: each followed by a newline. */
  function Lines(texts: seq<string>): string
  {
    if |texts| == 0 then "" else Lines(texts[..|texts| - 1]) + texts[|texts| - 1] + "\n"
  }

  /** Whatever one line contains, the accumulated text contains. */
  lemma {:induction false} LineInLines(texts: seq<string>, k: nat, t: string)
    requires k < |texts| && Contains(texts[k], t)
    ensures Contains(Lines(texts), t)
    decreases |texts|
  {
    var n := |texts| - 1;
    var prefix, last := Lines(texts[..n]), texts[n];
    assert Lines(texts) == prefix + last + "\n";
    if k < n {
      assert texts[..n][k] == texts[k];
      LineInLines(texts[..n], k, t);
      ContainsLeft(prefix, last, t);
    } else {
      ContainsRight(prefix, last, t);
    }
    ContainsLeft(prefix + last, "\n", t);
  }

  /** The elements of `xs` separated by single spaces. */
  function JoinSpaced(xs: seq<string>): string
  {
    if |xs| == 0 then "" else if |xs| == 1 then xs[0] else xs[0] + " " + JoinSpaced(xs[1..])
  }

  /** How `%v` prints a `[]string`: `[a b c]`. */
  function FormatList(xs: seq<string>): (r: string)
    ensures |r| >= 2 && r[0] == '[' && r[|r| - 1] == ']'
  {
    "[" + JoinSpaced(xs) + "]"
  }

  /** Cuts a string at every space; a string without spaces is one piece. */
  function SplitOnSpace(s: string): (r: seq<string>)
    ensures |r| >= 1
  {
    if |s| == 0 then [""]
    else
      var rest := SplitOnSpace(s[1..]);
      if s[0] == ' ' then [""] + rest else [[s[0]] + rest[0]] + rest[1..]
  }

  /** Reads a `%v`-printed list back, dropping the brackets. */
  function ParseList(r: string): (xs: seq<string>)
    requires |r| >= 2
    ensures |xs| >= 1
  {
    SplitOnSpace(r[1..|r| - 1])
  }

  predicate NoSpace(w: string) {
    ' ' !in w
  }

  lemma {:induction false} SplitWord(w: string, t: string)
    requires NoSpace(w)
    ensures SplitOnSpace(w) == [w]
    ensures SplitOnSpace(w + " " + t) == [w] + SplitOnSpace(t)
    decreases |w|
  {
    if |w| == 0 {
      assert w + " " + t == [' '] + t;
      assert (w + " " + t)[1..] == t;
    } else {
      SplitWord(w[1..], t);
      assert [w[0]] + w[1..] == w;
      assert (w + " " + t)[1..] == w[1..] + " " + t;
    }
  }

  /** Printing a non-empty list of space-free words and reading it back gives the list. */
  lemma {:induction false} JoinSplitRoundTrip(xs: seq<string>)
    requires |xs| >= 1
    requires forall i :: 0 <= i < |xs| ==> NoSpace(xs[i])
    ensures SplitOnSpace(JoinSpaced(xs)) == xs
    decreases |xs|
  {
    if |xs| == 1 {
      SplitWord(xs[0], "");
    } else {
      JoinSplitRoundTrip(xs[1..]);
      SplitWord(xs[0], JoinSpaced(xs[1..]));
    }
  }

  lemma FormatListRoundTrip(xs: seq<string>)
    requires |xs| >= 1
    requires forall i :: 0 <= i < |xs| ==> NoSpace(xs[i])
    ensures ParseList(FormatList(xs)) == xs
  {
    var r := FormatList(xs);
    assert r[1..|r| - 1] == JoinSpaced(xs);
    JoinSplitRoundTrip(xs);
  }
}
