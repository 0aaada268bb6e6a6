/**
 The integer rules of the hill-climbing search: which mutated decks are
 worth simulating and which are kept, by requirement gap first and score
 second, and how many more simulations a re-evaluation asks for. Scores
 are floating point and come from simulation, so a score comparison enters
 only as the boolean it produces.
 */
module Climb {
  import opened Cards

  /** A mutated deck is skipped unless it has no gap or a smaller gap than the best deck. */
  predicate WorthSimulating(newGap: U32, bestGap: U32)
  {
    !(newGap > 0 && newGap >= bestGap)
  }

  /** A simulated deck replaces the best one when its gap is smaller or its score is better by the minimum increment. */
  predicate Improves(newGap: U32, bestGap: U32, scoreBetter: bool)
  {
    newGap < bestGap || scoreBetter
  }

  /** The best gap after one candidate has been considered. */
  function NextBestGap(newGap: U32, bestGap: U32, scoreBetter: bool): (r: U32)
  {
    if WorthSimulating(newGap, bestGap) && Improves(newGap, bestGap, scoreBetter) then newGap else bestGap
  }

  /**
   The best gap never grows, and it shrinks whenever a deck with a
   smaller gap is met, whatever the scores say.
   */
  lemma GapNeverGrows(newGap: U32, bestGap: U32, scoreBetter: bool)
    ensures NextBestGap(newGap, bestGap, scoreBetter) <= bestGap
    ensures newGap < bestGap ==> NextBestGap(newGap, bestGap, scoreBetter) == newGap
    ensures NextBestGap(newGap, bestGap, scoreBetter) < bestGap ==> newGap < bestGap
  {
  }

  /** A deck with a gap is only ever replaced by one with a smaller gap: a better score alone does not do it. */
  lemma GapBeforeScore(newGap: U32, bestGap: U32, scoreBetter: bool)
    requires bestGap > 0 && newGap >= bestGap
    ensures NextBestGap(newGap, bestGap, scoreBetter) == bestGap
    ensures !WorthSimulating(newGap, bestGap)
  {
  }

  /** The number of simulations a re-evaluation of the best deck aims at: ten times as many, capped. */
  function RefineTarget(done: U32, numIterations: U32): U32
  {
    var tenfold := MulU32(done, 10);
    if tenfold < numIterations then tenfold else numIterations
  }

  /**
   The target never exceeds the cap, and while ten times the simulations
   done fit in an `unsigned` it is the smaller of the two exactly.
   */
  lemma RefineTargetBounds(done: U32, numIterations: U32)
    ensures RefineTarget(done, numIterations) <= numIterations
    ensures done * 10 < 0x1_0000_0000 ==>
      RefineTarget(done, numIterations) == if done * 10 < numIterations then done * 10 else numIterations
  {
    MulIsProduct(done, 10);
  }

  /**
   Once ten times the simulations done no longer fits in an `unsigned`,
   the product loses between one and nine multiples of 2^32, and the
   target is the smaller of that remainder and the cap.
   */
  lemma RefineTargetWraps(done: U32, numIterations: U32)
    requires 0x1_0000_0000 <= done * 10
    ensures var lost := done * 10 / 0x1_0000_0000;
      && 1 <= lost <= 9
      && RefineTarget(done, numIterations) ==
           if done * 10 - lost * 0x1_0000_0000 < numIterations then done * 10 - lost * 0x1_0000_0000 else numIterations
  {
    MulIsProduct(done, 10);
  }

  /**
   The wrap-around can bring the target below the simulations already
   done, and a re-evaluation then asks for no simulation at all.
   */
  lemma RefineTargetBelowDone()
    ensures RefineTarget(0x1999_999A, 0xFFFF_FFFF) == 4 < 0x1999_999A
    ensures MoreSimulations(RefineTarget(0x1999_999A, 0xFFFF_FFFF), 0x1999_999A) == 0
  {
    RefineTargetWraps(0x1999_999A, 0xFFFF_FFFF);
  }

  /** How many more simulations an evaluation runs: none when the deck already has `n`, otherwise the rest. */
  function MoreSimulations(n: U32, done: U32): (r: U32)
    ensures done + r == if n <= done then done else n
  {
    if n <= done then 0 else n - done
  }
}
