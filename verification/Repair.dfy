/** Typo repair of a query term against the index vocabulary. */
module Repair {
  import opened JsText
  import opened EditDistance

  /** A vocabulary word with the number of documents containing it. */
  datatype Word = Word(text: Text, df: nat)

  /** The vocabulary in its iteration order. */
  type Vocabulary = seq<Word>

  predicate Known(term: Text, vocab: Vocabulary) {
    exists k | 0 <= k < |vocab| :: vocab[k].text == term
  }

  predicate HasDigit(term: Text) {
    exists k | 0 <= k < |term| :: 48 <= term[k] <= 57
  }

  /** Terms that are never repaired. */
  predicate Untouched(term: Text, vocab: Vocabulary) {
    |term| < 4 || Known(term, vocab) || HasDigit(term)
  }

  predicate Eligible(term: Text, w: Word)
    requires term != []
  {
    |w.text| >= 3 && w.text[0] == term[0]
  }

  function Tolerance(term: Text): nat {
    if |term| >= 7 then 2 else 1
  }

  /** Short, known and numbered terms are left alone; candidates have three units or more and the same first one; long terms may be two edits away. */
  lemma WhatIsRepaired(term: Text, vocab: Vocabulary, w: Word)
    ensures Untouched(term, vocab) <==>
            |term| < 4 || (exists k :: 0 <= k < |vocab| && vocab[k].text == term) || (exists k :: 0 <= k < |term| && '0' as int <= term[k] <= '9' as int)
    ensures term != [] ==> (Eligible(term, w) <==> |w.text| >= 3 && w.text[0] == term[0])
    ensures Tolerance(term) == if |term| < 7 then 1 else 2
  {
  }

  ghost predicate InReach(term: Text, w: Word)
    requires term != []
  {
    Eligible(term, w) && Distance(term, w.text) <= Tolerance(term)
  }

  /** Whether a candidate at distance `dist` replaces a best one at `bestDist`. */
  predicate Beats(dist: int, df: nat, bestDist: int, bestDf: nat) {
    dist < bestDist || (dist == bestDist && df > bestDf)
  }

  /**
   A candidate just outside the tolerance: the search starts from a best
   distance of one more than the tolerance with document frequency 0, so such a
   candidate is taken for its frequency alone.
   */
  ghost predicate JustOutside(term: Text, w: Word)
    requires term != []
  {
    Eligible(term, w) && w.df > 0 && Bounded(term, w.text, Tolerance(term)) == Tolerance(term) + 1
  }

  /** `w` is at least as good as every eligible word in reach. */
  ghost predicate Closest(term: Text, vocab: Vocabulary, w: Word)
    requires term != []
  {
    forall k | 0 <= k < |vocab| && InReach(term, vocab[k]) ::
      || Distance(term, w.text) < Distance(term, vocab[k].text)
      || (Distance(term, w.text) == Distance(term, vocab[k].text) && w.df >= vocab[k].df)
  }

  method Repair(term: Text, vocab: Vocabulary) returns (best: Text)
    // the term itself, or a word it may be repaired to
    ensures best == term || (!Untouched(term, vocab) && exists k | 0 <= k < |vocab| :: Eligible(term, vocab[k]) && vocab[k].text == best)
    // with a word in reach: the nearest, and the most frequent of the nearest, in any iteration order
    ensures !Untouched(term, vocab) && (exists k | 0 <= k < |vocab| :: InReach(term, vocab[k])) ==>
      exists k | 0 <= k < |vocab| :: InReach(term, vocab[k]) && vocab[k].text == best && Closest(term, vocab, vocab[k])
    // the answer is within the tolerance, unless only words just outside it were there to take
    ensures Distance(term, best) <= Tolerance(term) <==>
      || Untouched(term, vocab)
      || (exists k | 0 <= k < |vocab| :: InReach(term, vocab[k]))
      || !(exists k | 0 <= k < |vocab| :: JustOutside(term, vocab[k]))
  {
    hide Distance, Bounded;
    SelfDistance(term);
    if Untouched(term, vocab) {
      return term;
    }
    var max := Tolerance(term);
    best := term;
    var bestDist, bestDf := max + 1, 0;
    for k := 0 to |vocab|
      invariant bestDist <= max + 1
      invariant (best == term && bestDist == max + 1 && bestDf == 0) ||
                exists w | 0 <= w < k :: Chosen(term, vocab[w], best, bestDist, bestDf)
      invariant forall w | 0 <= w < k && Eligible(term, vocab[w]) ::
                  !Beats(Bounded(term, vocab[w].text, max), vocab[w].df, bestDist, bestDf)
    {
      var cand, df := vocab[k].text, vocab[k].df;
      if |cand| < 3 || cand[0] != term[0] {
        continue;
      }
      var dist := EditDistance.EditDistance(term, cand, max);
      if Beats(dist, df, bestDist, bestDf) {
        best, bestDist, bestDf := cand, dist, df;
        assert Chosen(term, vocab[k], best, bestDist, bestDf);
      }
    }
    forall w | 0 <= w < |vocab| && Eligible(term, vocab[w]) ensures BoundedTells(term, vocab[w].text) {
      BoundedIsDistance(term, vocab[w].text, max);
    }
  }

  ghost predicate Chosen(term: Text, w: Word, best: Text, bestDist: int, bestDf: nat)
    requires term != []
  {
    && Eligible(term, w) && w.text == best && w.df == bestDf
    && bestDist == Bounded(term, w.text, Tolerance(term))
    && Beats(bestDist, bestDf, Tolerance(term) + 1, 0)
  }

  ghost predicate BoundedTells(term: Text, word: Text) {
    var max := Tolerance(term);
    if Distance(term, word) <= max then Bounded(term, word, max) == Distance(term, word)
    else Bounded(term, word, max) > max
  }

  /** A word too long to be in reach is just outside it: the length exit answers one more than the tolerance. */
  lemma LongWordIsJustOutside(term: Text, w: Word)
    requires term != [] && Eligible(term, w) && w.df > 0
    requires |w.text| > |term| + Tolerance(term)
    ensures JustOutside(term, w) && !InReach(term, w)
  {
    AtLeastLengthGap(term, w.text, |term|, |w.text|);
  }

  /** An unknown term next to a single long word of its first letter is replaced by that word. */
  method RepairsToLoneLongWord(term: Text, w: Word) returns (best: Text)
    requires !Untouched(term, [w]) && Eligible(term, w) && w.df > 0
    requires |w.text| > |term| + Tolerance(term)
    ensures best == w.text && Distance(term, best) > Tolerance(term)
  {
    LongWordIsJustOutside(term, w);
    assert [w][0] == w;
    best := Repair(term, [w]);
    SelfDistance(term);
  }

  lemma SelfDistance(a: Text)
    ensures Distance(a, a) == 0
  {
    SelfDistanceOfPrefix(a, |a|);
  }

  lemma {:induction false} SelfDistanceOfPrefix(a: Text, i: nat)
    requires i <= |a|
    ensures Osa(a, a, i, i) == 0
  {
    hide Osa;
    OsaOfEmpty(a, a, 0);
    if i > 0 {
      SelfDistanceOfPrefix(a, i - 1);
      OsaOfCell(a, a, i, i);
    }
  }
}
