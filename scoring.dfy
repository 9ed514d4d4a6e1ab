/**
 * Scoring and movement arithmetic of the gameplay screen: how a finished
 * round's marks become a score, a number of steps, and a clamped position.
 */
module Scoring {

  /** Number of terms drawn for, and marks kept during, one round. */
  const ROUND_TERMS: nat := 5

  /** Extra step granted for a perfect round (every term guessed). */
  const PERFECT_BONUS: nat := 1

  /** The marks of a fresh round: nothing guessed yet. */
  function NoMarks(n: nat): (marks: seq<bool>)
    ensures |marks| == n
    ensures forall k | 0 <= k < n :: !marks[k]
  {
    seq(n, _ => false)
  }

  /** Every term of the round is marked as guessed. */
  predicate AllMarked(marks: seq<bool>) {
    forall k | 0 <= k < |marks| :: marks[k]
  }

  /** The round score: how many of the marks are `true`. */
  function Score(marks: seq<bool>): (n: nat)
    ensures n <= |marks|
  {
    if marks == [] then 0 else (if marks[0] then 1 else 0) + Score(marks[1..])
  }

  /** Steps granted for a score: the score itself, plus the bonus exactly for a perfect round. */
  function Steps(score: nat): (steps: nat)
    ensures score <= steps <= score + PERFECT_BONUS
    ensures steps == score + PERFECT_BONUS <==> score == ROUND_TERMS
  {
    if score == ROUND_TERMS then score + PERFECT_BONUS else score
  }

  /** A team's position after moving `steps` forward, never past the finish at `duration`. */
  function NewPosition(position: int, steps: nat, duration: int): (p: int)
    ensures p <= duration && p <= position + steps
    ensures p == position + steps || p == duration
    ensures position <= duration ==> position <= p
  {
    if position + steps < duration then position + steps else duration
  }

  /** The score counts exactly the marked entries: it is full exactly when every entry is marked. */
  lemma {:induction false} ScoreFullIffAllMarked(marks: seq<bool>)
    ensures Score(marks) == |marks| <==> AllMarked(marks)
  {
    if marks != [] {
      ScoreFullIffAllMarked(marks[1..]);
      assert AllMarked(marks) <==> marks[0] && AllMarked(marks[1..]) by {
        if marks[0] && AllMarked(marks[1..]) {
          forall k | 0 <= k < |marks| ensures marks[k] {
            if k > 0 { assert marks[k] == marks[1..][k - 1]; }
          }
        }
      }
    }
  }

  /** The score is zero exactly when no entry is marked. */
  lemma {:induction false} ScoreZeroIffNoneMarked(marks: seq<bool>)
    ensures Score(marks) == 0 <==> forall k | 0 <= k < |marks| :: !marks[k]
  {
    if marks != [] {
      ScoreZeroIffNoneMarked(marks[1..]);
      if !marks[0] && Score(marks[1..]) == 0 {
        forall k | 0 <= k < |marks| ensures !marks[k] {
          if k > 0 { assert marks[k] == marks[1..][k - 1]; }
        }
      }
    }
  }

  /** Flipping one mark moves the score by exactly one, up or down. */
  lemma {:induction false} ScoreFlip(marks: seq<bool>, i: nat)
    requires i < |marks|
    ensures Score(marks[i := !marks[i]]) == if marks[i] then Score(marks) - 1 else Score(marks) + 1
  {
    var flipped := marks[i := !marks[i]];
    if i > 0 {
      assert flipped[1..] == marks[1..][i - 1 := !marks[1..][i - 1]];
      ScoreFlip(marks[1..], i - 1);
    } else {
      assert flipped[1..] == marks[1..];
    }
  }

  /** A round of five marks yields at most six steps, and six only when all five are marked. */
  lemma RoundStepsBound(marks: seq<bool>)
    requires |marks| == ROUND_TERMS
    ensures Steps(Score(marks)) <= ROUND_TERMS + PERFECT_BONUS
    ensures Steps(Score(marks)) == ROUND_TERMS + PERFECT_BONUS <==> AllMarked(marks)
  {
    ScoreFullIffAllMarked(marks);
  }
}
