/**
 * Small facts about taking and dropping the ends of a sequence, used where a
 * loop or a recursion moves one element at a time.
 */
module Seqs {

  /** The prefix one longer is the prefix with the next element appended. */
  lemma TakeStep<T>(s: seq<T>, n: nat)
    requires n < |s|
    ensures s[..n + 1] == s[..n] + [s[n]]
  {
  }

  /** A non-empty sequence is its front followed by its last element. */
  lemma DropLast<T>(s: seq<T>)
    requires s != []
    ensures s == s[..|s| - 1] + [s[|s| - 1]]
  {
  }

  /** A sequence of two or more is its front followed by its last two elements. */
  lemma DropLastTwo<T>(s: seq<T>)
    requires |s| >= 2
    ensures s == s[..|s| - 2] + [s[|s| - 2], s[|s| - 1]]
  {
  }

  /** A prefix r of the suffix t = s[lead..] is the slice of s starting at lead, and
      what follows r in s is what follows it in t. */
  lemma SliceOfSuffix<T>(s: seq<T>, lead: nat, t: seq<T>, r: seq<T>)
    requires lead <= |s| && t == s[lead..]
    requires |r| <= |t| && r == t[..|r|]
    ensures r == s[lead..lead + |r|]
    ensures forall k :: lead + |r| <= k < |s| ==> s[k] == t[k - lead]
  {
  }

  /** A sequence is its first n + 1 elements followed by the rest. */
  lemma SplitAfter<T>(s: seq<T>, i: nat)
    requires i < |s|
    ensures s == s[..i + 1] + s[i + 1..]
  {
  }
}
