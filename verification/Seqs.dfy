/** Sequence algebra used to keep the verifier's sequence reasoning local. */
module Seqs {

  lemma {:induction false} Regroup<T>(a: seq<T>, b: seq<T>, c: seq<T>)
    ensures a + (b + c) == a + b + c
  {
  }

  lemma {:induction false} TakeNext<T>(s: seq<T>, n: nat)
    requires 0 < n <= |s|
    ensures s[..n] == s[..n - 1] + [s[n - 1]]
  {
  }

  lemma {:induction false} DropNext<T>(s: seq<T>, n: nat)
    requires n < |s|
    ensures s[n..] == [s[n]] + s[n + 1..]
  {
  }

  /** `word` is the part of `text` that starts at `pos`. */
  ghost predicate Occurs<T>(text: seq<T>, pos: nat, word: seq<T>) {
    && pos + |word| <= |text|
    && forall i | 0 <= i < |word| :: text[pos + i] == word[i]
  }

  lemma {:induction false} OccursSlice<T>(text: seq<T>, pos: nat, word: seq<T>)
    ensures Occurs(text, pos, word) <==>
            pos + |word| <= |text| && text[pos..pos + |word|] == word
  {
    if pos + |word| <= |text| && text[pos..pos + |word|] == word {
      forall i | 0 <= i < |word|
        ensures text[pos + i] == word[i]
      {
        assert text[pos..pos + |word|][i] == word[i];
      }
    }
  }

  /** A concatenation occurs exactly where its parts follow one another. */
  lemma {:induction false} OccursConcat<T>(text: seq<T>, pos: nat, a: seq<T>, b: seq<T>)
    ensures Occurs(text, pos, a + b) <==> Occurs(text, pos, a) && Occurs(text, pos + |a|, b)
  {
    if Occurs(text, pos, a + b) {
      forall i | 0 <= i < |a|
        ensures text[pos + i] == a[i]
      {
        assert (a + b)[i] == a[i];
      }
      forall i | 0 <= i < |b|
        ensures text[pos + |a| + i] == b[i]
      {
        assert (a + b)[|a| + i] == b[i];
        assert text[pos + (|a| + i)] == (a + b)[|a| + i];
      }
    }
    if Occurs(text, pos, a) && Occurs(text, pos + |a|, b) {
      forall i | 0 <= i < |a + b|
        ensures text[pos + i] == (a + b)[i]
      {
        if i >= |a| { assert text[pos + |a| + (i - |a|)] == b[i - |a|]; }
      }
    }
  }
}
