/** The game's shared vocabulary: phases, difficulties, the two record types,
    and the promise and random-index shapes every other module uses. */
module Types {

  /** The six phases of a game session; ERROR is declared but never entered. */
  datatype GameState = MENU | LOADING_TWISTER | PLAYING | GRADING | RESULT | ERROR

  datatype Difficulty = Easy | Medium | Hard

  datatype Option<+T> = None | Some(value: T)

  /** A tongue-twister challenge. The catalog entries and the remote
      response carry no repetition count, so at run time it is usually absent. */
  datatype Twister = Twister(text: string, topic: string, difficulty: Difficulty, repetitionCount: Option<int>)

  /** A grading verdict as the remote scorer returns it; `xpEarned` is
      declared but no code ever assigns it. */
  datatype GradingResult = GradingResult(score: int, feedback: string, isCorrect: bool, xpEarned: Option<int>)

  /** How an asynchronous call ends: it resolves with a value, rejects with
      a reason, or never settles at all. */
  datatype Settled<+T> = Resolved(value: T) | Rejected(reason: string) | Pending

  /** `Math.floor(Math.random() * n)` for a draw `u` of `Math.random()`,
      which lies in [0, 1): always a valid index into a list of length n. */
  function RandomIndex(u: real, n: nat): (k: nat)
    requires 0.0 <= u < 1.0
    requires n > 0
    ensures k < n
    ensures k as real <= u * n as real < k as real + 1.0
  {
    assert 0.0 <= u * n as real < n as real by {
      assert u * n as real < 1.0 * n as real;
    }
    (u * n as real).Floor
  }

  /** Picks from a non-empty list the way the game does with Math.random(). */
  function RandomElement<T>(xs: seq<T>, u: real): (x: T)
    requires 0.0 <= u < 1.0
    requires |xs| > 0
    ensures x in xs
  {
    xs[RandomIndex(u, |xs|)]
  }

  /** Every element of a non-empty list is reachable by some draw. */
  lemma {:induction false} RandomElementReachesAll<T>(xs: seq<T>, k: nat)
    requires k < |xs|
    ensures exists u: real :: 0.0 <= u < 1.0 && RandomElement(xs, u) == xs[k]
  {
    var n := |xs| as real;
    var u := k as real / n;
    assert u * n == k as real;
    assert 0.0 <= u < 1.0 by {
      assert k as real < n;
    }
    assert RandomIndex(u, |xs|) == k;
    assert RandomElement(xs, u) == xs[k];
  }
}
