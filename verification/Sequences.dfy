/** Rearrangements of sequences that the framing proofs name one at a time. */
module Sequences {
  lemma Associates<T>(a: seq<T>, b: seq<T>, c: seq<T>)
    ensures (a + b) + c == a + (b + c)
  {
  }

  lemma TakeDrop<T>(a: seq<T>, b: seq<T>)
    ensures (a + b)[..|a|] == a && (a + b)[|a|..] == b
  {
  }

  lemma DropTwo<T>(a: seq<T>, b: seq<T>, c: seq<T>)
    ensures (a + (b + c))[|a| + |b|..] == c
  {
  }

  lemma Rejoin<T>(s: seq<T>, n: nat)
    requires n <= |s|
    ensures s[..n] + s[n..] == s
  {
  }

  lemma RejoinMiddle<T>(s: seq<T>, i: nat, n: nat)
    requires i + n <= |s|
    ensures s == s[..i] + (s[i..i + n] + s[i + n..])
  {
  }
}
