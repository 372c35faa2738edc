/** Small facts about sequences and sets, each proved on its own so that the proofs using them
    do not redo the element-wise reasoning in a larger context. */
module Seqs {
  lemma TakeSnoc<T>(s: seq<T>, n: nat)
    requires n < |s|
    ensures s[..n + 1] == s[..n] + [s[n]]
  {
  }

  lemma TakeAll<T>(s: seq<T>)
    ensures s[..|s|] == s
  {
  }

  lemma TailOfJoin<T>(a: seq<T>, b: seq<T>)
    requires |a| > 0
    ensures (a + b)[0] == a[0] && (a + b)[1..] == a[1..] + b
  {
  }

  lemma TakeOfJoin<T>(a: seq<T>, b: seq<T>)
    ensures (a + b)[..|a|] == a && (a + b)[|a|..] == b
  {
  }

  lemma JoinAssoc<T>(a: seq<T>, b: seq<T>, c: seq<T>)
    ensures a + b + c == a + (b + c)
  {
  }

  lemma TakeDrop<T>(s: seq<T>, n: nat)
    requires n <= |s|
    ensures s[..n] + s[n..] == s
  {
  }

  lemma HeadTail<T>(s: seq<T>)
    requires |s| > 0
    ensures s == [s[0]] + s[1..]
  {
  }

  lemma JoinEmpty<T>(s: seq<T>)
    ensures s + [] == s && [] + s == s
  {
  }

  lemma SliceOfSlice<T>(s: seq<T>, a: nat, i: nat, j: nat)
    requires a <= |s| && i <= j <= |s| - a
    ensures s[a..][i..j] == s[a + i..a + j]
  {
    assert forall k :: 0 <= k < j - i ==> s[a..][i..j][k] == s[a + i..a + j][k];
  }

  /** The middle part of `a + m + c` is `m`. */
  lemma MiddleSlice<T>(a: seq<T>, m: seq<T>, c: seq<T>)
    ensures (a + m + c)[|a|..|a| + |m|] == m
  {
    assert forall k :: 0 <= k < |m| ==> (a + m + c)[|a|..|a| + |m|][k] == m[k];
  }

  /** One step of a loop that moves the elements of `all` from `todo` to `done`. */
  lemma MoveOne<T>(todo: set<T>, done: set<T>, all: set<T>, x: T)
    requires todo + done == all && todo !! done && x in todo
    ensures (todo - {x}) + (done + {x}) == all && (todo - {x}) !! (done + {x})
    ensures |todo - {x}| < |todo|
  {
  }
}
