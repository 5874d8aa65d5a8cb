/**
 * The polling program: the process-wide pending-jobs counter, the metrics
 * poll that updates it, and the main loop that polls, logs the counter and
 * logs a scaling decision on every cycle.
 */
module Scaler {
  import opened Wrappers
  import opened Config
  import opened Scaling
  import opened Accumulator

  /** What one cycle of the main loop logs: the counter, then the line for the decision taken on it. */
  datatype Report = Report(pending: int, decision: Decision, line: string)

  /** The report of a cycle that left the counter at `p`: which line is logged for which counter range. */
  function ReportFor(p: int): (r: Report)
    ensures r.pending == p
    ensures r.line == "We should probably scale now..." <==> p > ScaleUpThreshold
    ensures r.line == "Might want to scale down..." <==> p == 0
    ensures r.line == "Nothing to do..." <==> p != 0 && p <= ScaleUpThreshold
  {
    var d := Classify(p);
    Report(p, d, Message(d))
  }

  /** The reports logged by the cycles polled with outcomes `samples`, starting from `pending`. */
  function Trace(pending: int, samples: seq<Sample>): (t: seq<Report>)
    ensures |t| == |samples|
  {
    if |samples| == 0 then []
    else
      var p := Replay(pending, samples);
      Trace(pending, samples[..|samples| - 1]) + [ReportFor(p)]
  }

  /** Cycle `i` logs the counter as it stands after the first `i + 1` polls, its classification and that decision's line. */
  lemma {:induction false} TraceAt(pending: int, samples: seq<Sample>, i: nat)
    requires i < |samples|
    ensures Trace(pending, samples)[i] == ReportFor(Replay(pending, samples[..i + 1]))
  {
    var n := |samples|;
    assert samples[..n] == samples;
    if i < n - 1 {
      assert samples[..n - 1][..i + 1] == samples[..i + 1];
      TraceAt(pending, samples[..n - 1], i);
    }
  }

  /** Starting from a non-negative counter, no logged counter is ever negative. */
  lemma TraceNonNegative(pending: int, samples: seq<Sample>, i: nat)
    requires pending >= 0 && i < |samples|
    ensures Trace(pending, samples)[i].pending >= 0
  {
    TraceAt(pending, samples, i);
    ReplayNonNegative(pending, samples[..i + 1]);
  }

  /** From process start, a scale-up takes at least eleven successful polls. */
  lemma ScaleUpNeedsElevenSuccesses(samples: seq<Sample>)
    requires Classify(Replay(0, samples)) == ScaleUp
    ensures Successes(samples) >= ScaleUpThreshold + 1
  {
    ReplayBounds(0, samples);
  }

  /** A counter at `pending` reaches a scale-down after exactly `pending` zero readings, not earlier. */
  lemma EmptyQueueScalesDown(pending: nat, n: nat)
    requires n <= pending
    ensures Classify(Replay(pending, Zeros(n))) == ScaleDown <==> n == pending
  {
    ZerosDecayThenAlternate(pending, n);
  }

  /**
   * A burst followed by an empty queue, from process start: the counter
   * counts polls, not jobs, so a reading of 5 adds one, and the zero
   * readings then toggle it between zero and one.
   */
  lemma BurstThenEmptyQueue()
    ensures Trace(0, [Some(5.0), Some(0.0), Some(0.0), Some(0.0)])
         == [Report(1, NoOp, "Nothing to do..."), Report(0, ScaleDown, "Might want to scale down..."),
             Report(1, NoOp, "Nothing to do..."), Report(0, ScaleDown, "Might want to scale down...")]
  {
    var s: seq<Sample> := [Some(5.0), Some(0.0), Some(0.0), Some(0.0)];
    assert s[..1] == [Some(5.0)];
    assert s[..2] == [Some(5.0), Some(0.0)];
    assert s[..3] == [Some(5.0), Some(0.0), Some(0.0)];
    assert [Some(5.0)][..0] == [];
    assert s[..2][..1] == s[..1];
    assert s[..3][..2] == s[..2];
    assert Replay(0, s[..1]) == 1;
    assert Replay(0, s[..2]) == 0;
    assert Replay(0, s[..3]) == 1;
    assert Replay(0, s) == 0;
    assert Trace(0, s[..1]) == [ReportFor(1)];
    assert Trace(0, s[..2]) == [ReportFor(1), ReportFor(0)];
    assert Trace(0, s[..3]) == [ReportFor(1), ReportFor(0), ReportFor(1)];
    assert s[..4] == s;
    assert ReportFor(1) == Report(1, NoOp, "Nothing to do...");
    assert ReportFor(0) == Report(0, ScaleDown, "Might want to scale down...");
  }

  /** The poller owns the Drone endpoint and the cumulative pending-jobs counter. */
  class Poller {
    const drone: Drone
    var pending: int

    ghost predicate Valid()
      reads this
    {
      pending >= 0
    }

    /** The counter starts at zero, as an uninitialised package-level integer does. */
    constructor (drone: Drone)
      ensures Valid()
      ensures this.drone == drone && pending == 0
    {
      this.drone := drone;
      pending := 0;
    }

    /**
     * One poll. `outcome` stands for the HTTP exchange and the parse of the
     * gauge: `None` when the request fails, which is reported and leaves the
     * counter unchanged.
     */
    method GetMetrics(outcome: Sample) returns (req: Request, failed: bool)
      requires Valid()
      modifies this
      ensures Valid()
      ensures req == NewRequest(drone)
      ensures failed <==> outcome.None?
      ensures failed ==> pending == old(pending)
      ensures pending == Poll(old(pending), outcome)
    {
      req := Request("GET", Fqdn(drone), map[]);
      if drone.token != "" {
        req := req.(header := req.header["Authorization" := "Bearer " + drone.token]);
      }
      if outcome.None? {
        return req, true;
      }
      var v := outcome.value;
      if v == 0.0 && pending > 0 {
        pending := pending - 1;
      } else {
        pending := pending + 1;
      }
      failed := false;
    }

    /**
     * The main loop over a finite run of cycles: each cycle polls (a failure
     * is ignored), then logs the counter and the decision for it.
     */
    method Run(samples: seq<Sample>) returns (log: seq<Report>)
      requires Valid()
      modifies this
      ensures Valid()
      ensures pending == Replay(old(pending), samples)
      ensures log == Trace(old(pending), samples)
    {
      log := [];
      var i := 0;
      while i < |samples|
        invariant 0 <= i <= |samples|
        invariant Valid()
        invariant pending == Replay(old(pending), samples[..i])
        invariant log == Trace(old(pending), samples[..i])
      {
        var _, _ := GetMetrics(samples[i]);
        assert samples[..i + 1][..i] == samples[..i];
        var decision := Classify(pending);
        log := log + [Report(pending, decision, Message(decision))];
        i := i + 1;
      }
      assert samples[..i] == samples;
    }
  }
}
