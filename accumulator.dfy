/**
 * The cumulative pending-jobs counter: how one poll changes it, and how a
 * sequence of polls does.
 *
 * The outcome of one poll is a `Sample`: `None` when the HTTP request failed
 * (the counter is left alone), `Some(v)` when the `drone_pending_jobs` gauge
 * was read with value `v`. Only whether `v` is zero affects the counter.
 */
module Accumulator {
  import opened Wrappers

  type Sample = Option<real>

  /**
   * One successful poll with gauge value `v`: a zero reading with jobs still
   * counted decrements the counter, every other reading, the zero reading at
   * an empty counter included, increments it by one.
   */
  function Update(pending: int, v: real): (r: int)
    ensures r == pending - 1 || r == pending + 1
    ensures pending >= 0 ==> r >= 0
  {
    if v == 0.0 && pending > 0 then pending - 1 else pending + 1
  }

  /** A zero reading with a positive counter lowers it by exactly one. */
  lemma ZeroReadingDecrements(pending: int)
    requires pending > 0
    ensures Update(pending, 0.0) == pending - 1
  {
  }

  /** A nonzero reading raises the counter by exactly one, whatever its magnitude. */
  lemma NonZeroReadingIncrements(pending: int, v: real)
    requires v != 0.0
    ensures Update(pending, v) == pending + 1
  {
  }

  /** A zero reading at an empty counter does not keep it at zero: it becomes one. */
  lemma ZeroReadingAtZero()
    ensures Update(0, 0.0) == 1
  {
  }

  /** One poll: a failed fetch returns before the update, so the counter is unchanged. */
  function Poll(pending: int, s: Sample): (r: int)
    ensures s.None? ==> r == pending
    ensures s.Some? ==> r == pending - 1 || r == pending + 1
    ensures pending >= 0 ==> r >= 0
  {
    match s
    case None => pending
    case Some(v) => Update(pending, v)
  }

  /** The counter after polling with outcomes `samples`, in order, starting from `pending`. */
  function Replay(pending: int, samples: seq<Sample>): int
  {
    if |samples| == 0 then pending
    else Poll(Replay(pending, samples[..|samples| - 1]), samples[|samples| - 1])
  }

  /** Number of successful polls that read a zero gauge. */
  function ZeroReadings(samples: seq<Sample>): nat
  {
    if |samples| == 0 then 0
    else ZeroReadings(samples[..|samples| - 1]) + (if samples[|samples| - 1] == Some(0.0) then 1 else 0)
  }

  /** Number of successful polls. */
  function Successes(samples: seq<Sample>): nat
  {
    if |samples| == 0 then 0
    else Successes(samples[..|samples| - 1]) + (if samples[|samples| - 1].Some? then 1 else 0)
  }

  /** Polling one sequence of outcomes and then another is polling their concatenation. */
  lemma {:induction false} ReplayAppend(pending: int, a: seq<Sample>, b: seq<Sample>)
    ensures Replay(pending, a + b) == Replay(Replay(pending, a), b)
  {
    if |b| == 0 {
      assert a + b == a;
    } else {
      assert (a + b)[..|a + b| - 1] == a + b[..|b| - 1];
      assert (a + b)[|a + b| - 1] == b[|b| - 1];
      ReplayAppend(pending, a, b[..|b| - 1]);
    }
  }

  /** The counter never becomes negative, whatever the outcomes of the polls. */
  lemma {:induction false} ReplayNonNegative(pending: int, samples: seq<Sample>)
    requires pending >= 0
    ensures Replay(pending, samples) >= 0
  {
    if |samples| > 0 {
      ReplayNonNegative(pending, samples[..|samples| - 1]);
    }
  }

  /** Failed polls alone leave the counter where it was. */
  lemma {:induction false} FailuresChangeNothing(pending: int, samples: seq<Sample>)
    requires forall i :: 0 <= i < |samples| ==> samples[i].None?
    ensures Replay(pending, samples) == pending
  {
    if |samples| > 0 {
      FailuresChangeNothing(pending, samples[..|samples| - 1]);
    }
  }

  /**
   * Each successful poll moves the counter by exactly one: it falls by at
   * most the number of zero readings, rises by at most the number of
   * successful polls, and its parity flips with every successful poll.
   */
  lemma {:induction false} ReplayBounds(pending: int, samples: seq<Sample>)
    ensures ZeroReadings(samples) <= Successes(samples)
    ensures pending - ZeroReadings(samples) <= Replay(pending, samples) <= pending + Successes(samples)
    ensures (Replay(pending, samples) - pending - Successes(samples)) % 2 == 0
  {
    if |samples| > 0 {
      ReplayBounds(pending, samples[..|samples| - 1]);
    }
  }

  /** `n` consecutive successful polls that all read zero. */
  function Zeros(n: nat): (s: seq<Sample>)
    ensures |s| == n
    ensures forall i :: 0 <= i < n ==> s[i] == Some(0.0)
  {
    seq(n, _ => Some(0.0))
  }

  /**
   * Under a queue that stays empty the counter decays by one per poll until
   * it reaches zero, and from then on alternates between zero and one.
   */
  lemma {:induction false} ZerosDecayThenAlternate(pending: nat, n: nat)
    ensures Replay(pending, Zeros(n)) == if n <= pending then pending - n else (n - pending) % 2
  {
    if n > 0 {
      assert Zeros(n)[..n - 1] == Zeros(n - 1);
      ZerosDecayThenAlternate(pending, n - 1);
    }
  }
}
