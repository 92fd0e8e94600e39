/** Small facts about sequence slices, stated once for any element type. Dafny proves each
    of them from its built-in sequence axioms; they are proof hints, which the callers use
    to name the one instance they need so that the solver does not search for it. */
module Seqs {

  lemma PrefixSnoc<T>(a: seq<T>, b: seq<T>, j: nat)
    requires j < |b|
    ensures a + b[..j + 1] == (a + b[..j]) + [b[j]]
    ensures b[..j + 1] == b[..j] + [b[j]]
    ensures b[..j + 1][..j] == b[..j]
  {
    assert b[..j + 1] == b[..j] + [b[j]];
  }

  lemma TakeAll<T>(a: seq<T>, b: seq<T>)
    ensures b[..|b|] == b && a + b[..0] == a
  {
  }

  lemma AppendAssoc<T>(a: seq<T>, b: seq<T>, c: seq<T>)
    ensures (a + b) + c == a + (b + c)
  {
  }

  lemma TakeLast<T>(s: seq<T>)
    requires |s| > 0
    ensures s == s[..|s| - 1] + [s[|s| - 1]]
  {
  }
}
