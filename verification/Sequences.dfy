/** Facts about sequences, stated without any other function in sight. */
module Sequences {

  lemma InitOfSnoc<T>(a: seq<T>, x: T)
    ensures (a + [x])[..|a|] == a
    ensures (a + [x])[|a|] == x
  {
  }

  lemma InitOfConcat<T>(a: seq<T>, b: seq<T>)
    requires b != []
    ensures (a + b)[..|a + b| - 1] == a + b[..|b| - 1]
    ensures (a + b)[|a + b| - 1] == b[|b| - 1]
  {
  }

  lemma Associative<T>(a: seq<T>, b: seq<T>, c: seq<T>)
    ensures a + (b + c) == (a + b) + c
  {
  }

  lemma SplitAt<T>(s: seq<T>, n: nat)
    requires n <= |s|
    ensures s[..n] + s[n..] == s
  {
  }

  lemma TakeDropOfConcat<T>(a: seq<T>, b: seq<T>)
    ensures (a + b)[..|a|] == a
    ensures (a + b)[|a|..] == b
    ensures b != [] ==> (a + b)[..|a| + 1] == a + [b[0]]
  {
  }

  /** Dropping `k` and then `n` elements, past the end of a first part. */
  lemma DropPast<T>(a: seq<T>, b: seq<T>, k: nat, n: nat)
    requires |a| <= k + n <= |a + b|
    ensures (a + b)[k..][n..] == b[k + n - |a|..]
  {
  }

  lemma MoveFirst<T>(a: seq<T>, b: seq<T>)
    requires b != []
    ensures a + [b[0]] + b[1..] == a + b
  {
  }

  lemma HeadTail<T>(s: seq<T>)
    requires s != []
    ensures [s[0]] + s[1..] == s
  {
  }

  lemma SliceOfTake<T>(s: seq<T>, lo: nat, hi: nat, n: nat)
    requires lo <= hi <= n <= |s|
    ensures s[..n][lo..hi] == s[lo..hi]
  {
  }

  lemma TakeThenSlice<T>(s: seq<T>, lo: nat, hi: nat)
    requires lo <= hi <= |s|
    ensures s[..lo] + s[lo..hi] == s[..hi]
  {
  }
}
