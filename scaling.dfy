/**
 * The scaling decision taken after each poll: a three-way threshold on the
 * cumulative pending-jobs counter, and the line logged for each outcome.
 */
module Scaling {

  datatype Decision = ScaleUp | ScaleDown | NoOp

  /** A counter strictly above this value asks for more capacity. */
  const ScaleUpThreshold: int := 10

  /** The decision for a counter value, tested in the program's order: above the threshold, then zero. */
  function Classify(pending: int): (d: Decision)
    ensures d == ScaleUp <==> pending > ScaleUpThreshold
    ensures d == ScaleDown <==> pending == 0
    ensures d == NoOp <==> pending != 0 && pending <= ScaleUpThreshold
  {
    if pending > ScaleUpThreshold then ScaleUp
    else if pending == 0 then ScaleDown
    else NoOp
  }

  /** Over the counter's reachable values, "nothing to do" is exactly the band 1..10. */
  lemma NoOpBand(pending: int)
    requires pending >= 0
    ensures Classify(pending) == NoOp <==> 1 <= pending <= 10
  {
  }

  /** The line logged for a decision. */
  function Message(d: Decision): string
  {
    match d
    case ScaleUp => "We should probably scale now..."
    case ScaleDown => "Might want to scale down..."
    case NoOp => "Nothing to do..."
  }

  /** Different decisions are logged with different lines, so the log determines the decision. */
  lemma MessageInjective(d1: Decision, d2: Decision)
    requires Message(d1) == Message(d2)
    ensures d1 == d2
  {
  }
}
