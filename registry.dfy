/**
  The execution group's pid registry: a slice of ints kept with set semantics.
  `Added` and `Removed` are what `addPid` and `removePid` do to it; the lemmas
  are the properties the tests pin down (idempotent add, remove undoes add)
  and the set reading of the slice.
 */
module PidRegistry {

  /** No pid appears twice. */
  predicate NoDup(s: seq<int>) {
    forall i, j :: 0 <= i < j < |s| ==> s[i] != s[j]
  }

  /** The registry after `addPid(p)`: p appended unless already there. */
  function Added(s: seq<int>, p: int): seq<int>
  {
    if p in s then s else s + [p]
  }

  /** The registry with every occurrence of `p` taken out, order kept. */
  function Removed(s: seq<int>, p: int): seq<int>
  {
    if |s| == 0 then []
    else (if s[0] == p then [] else [s[0]]) + Removed(s[1..], p)
  }

  /** The registry after removing each of `ps` in turn. */
  function RemovedAll(s: seq<int>, ps: seq<int>): seq<int>
  {
    if |ps| == 0 then s else Removed(RemovedAll(s, ps[..|ps| - 1]), ps[|ps| - 1])
  }

  /**
    A linear search over the slice: whether `p` is present and, if so, its
    first position. This model's `addPid` and `removePid` look the pid up
    with it; how the Go code looks it up is not fixed by anything modelled.
   */
  method Find(s: seq<int>, p: int) returns (found: bool, i: nat)
    ensures found <==> p in s
    ensures found ==> i < |s| && s[i] == p
    ensures found ==> forall k :: 0 <= k < i ==> s[k] != p
  {
    i := 0;
    while i < |s|
      invariant 0 <= i <= |s|
      invariant forall k :: 0 <= k < i ==> s[k] != p
    {
      if s[i] == p {
        return true, i;
      }
      i := i + 1;
    }
    return false, 0;
  }

  /** Adding keeps the registry duplicate-free, holds exactly the old pids and p, and grows it by one exactly when p was new. */
  lemma AddedSpec(s: seq<int>, p: int)
    requires NoDup(s)
    ensures NoDup(Added(s, p))
    ensures forall x :: x in Added(s, p) <==> x in s || x == p
    ensures |Added(s, p)| == if p in s then |s| else |s| + 1
  {
  }

  /** addPid is idempotent; from an empty registry one add gives length 1 and a second add keeps it at 1. */
  lemma AddedIdempotent(s: seq<int>, p: int)
    ensures Added(Added(s, p), p) == Added(s, p)
    ensures |Added([], p)| == 1 && |Added(Added([], p), p)| == 1
  {
  }

  lemma {:induction false} RemovedSpec(s: seq<int>, p: int)
    ensures forall x :: x in Removed(s, p) <==> x in s && x != p
    ensures |Removed(s, p)| <= |s|
    ensures p !in s ==> Removed(s, p) == s
    decreases |s|
  {
    if |s| > 0 {
      RemovedSpec(s[1..], p);
      assert s == [s[0]] + s[1..];
    }
  }

  /** On a duplicate-free registry, removal keeps it duplicate-free and shrinks it by exactly one when p was present. */
  lemma {:induction false} RemovedNoDup(s: seq<int>, p: int)
    requires NoDup(s)
    ensures NoDup(Removed(s, p))
    ensures |Removed(s, p)| == if p in s then |s| - 1 else |s|
    decreases |s|
  {
    if |s| > 0 {
      assert NoDup(s[1..]);
      RemovedNoDup(s[1..], p);
      RemovedSpec(s[1..], p);
      assert s[0] !in s[1..];
      assert s == [s[0]] + s[1..];
      var r := Removed(s, p);
      if s[0] != p {
        assert r == [s[0]] + Removed(s[1..], p);
        assert s[0] !in Removed(s[1..], p);
      }
    }
  }

  /** When p sits at position i of a duplicate-free registry, removing it is cutting out position i. */
  lemma {:induction false} RemovedAt(s: seq<int>, p: int, i: nat)
    requires NoDup(s) && i < |s| && s[i] == p
    ensures Removed(s, p) == s[..i] + s[i + 1..]
    decreases i
  {
    if i == 0 {
      assert p !in s[1..];
      RemovedSpec(s[1..], p);
    } else {
      assert NoDup(s[1..]);
      RemovedAt(s[1..], p, i - 1);
      assert s[1..][..i - 1] == s[1..i];
      assert s[1..][i..] == s[i + 1..];
      assert s[..i] == [s[0]] + s[1..i];
    }
  }

  /** removePid after addPid of the same pid leaves the registry as removePid alone would; on a registry without p, exactly as before. */
  lemma AddedThenRemoved(s: seq<int>, p: int)
    requires NoDup(s)
    ensures Removed(Added(s, p), p) == Removed(s, p)
    ensures p !in s ==> Removed(Added(s, p), p) == s
  {
    RemovedSpec(s, p);
    if p !in s {
      RemovedAt(s + [p], p, |s|);
      assert (s + [p])[..|s|] == s;
    }
  }

  /** Adding and removing pids on an empty registry: one add then one remove gives length 0. */
  lemma AddRemoveEmpty(p: int)
    ensures |Added([], p)| == 1
    ensures Removed(Added([], p), p) == []
  {
  }

  /** After removing all of `ps`, exactly the old pids outside `ps` remain, still without duplicates. */
  lemma {:induction false} RemovedAllSpec(s: seq<int>, ps: seq<int>)
    requires NoDup(s)
    ensures NoDup(RemovedAll(s, ps))
    ensures forall x :: x in RemovedAll(s, ps) <==> x in s && x !in ps
    decreases |ps|
  {
    if |ps| > 0 {
      var init := ps[..|ps| - 1];
      RemovedAllSpec(s, init);
      RemovedNoDup(RemovedAll(s, init), ps[|ps| - 1]);
      RemovedSpec(RemovedAll(s, init), ps[|ps| - 1]);
      assert ps == init + [ps[|ps| - 1]];
    }
  }

  /** A registry that starts empty is empty again once every pid it saw has been removed. */
  lemma {:induction false} RemovedAllEmpty(ps: seq<int>)
    ensures RemovedAll([], ps) == []
    decreases |ps|
  {
    if |ps| > 0 {
      RemovedAllEmpty(ps[..|ps| - 1]);
    }
  }
}
