/**
  What one `_compute` step does to the controller record, stated against the
  record before the step rather than against the deque operations of the body.
 */
module ComputeFacts {
  import opened BoundedDeque
  import opened PumpController

  /**
    A step that raises IndexError (`u[-1]` on delay 0, `e[-2]` on delay 1) has
    already tracked the setpoint and appended the error, but has not touched
    the output history or the accumulator.
   */
  lemma ComputeRaisedPartialUpdate(p: Pump, y: real)
    requires WellFormed(p) && Compute(p, y).Raised?
    ensures var q := Compute(p, y).partial;
      q.u == p.u && q.ui == p.ui && q.e == Append(p.e, p.tr, q.r - y)
  {
  }

  /** The error appended by a step is 0 in MANUAL mode and `r - y` in AUTO mode. */
  lemma ComputeError(p: Pump, y: real)
    requires WellFormed(p) && Compute(p, y).Stepped?
    ensures p.mode == Manual ==> Last(Compute(p, y).next.e) == 0.0
    ensures p.mode == Auto ==> Last(Compute(p, y).next.e) == p.r - y
  {
  }

  /**
    `get_op()` after a step never exceeds the top limit, and is at least the
    bottom limit whenever the limits are ordered.
   */
  lemma ComputeOutputBounded(p: Pump, y: real)
    requires WellFormed(p) && Compute(p, y).Stepped?
    ensures var op := Last(Compute(p, y).next.u);
      && op <= p.satTopLimit
      && (p.satBottomLimit <= p.satTopLimit ==> p.satBottomLimit <= op)
      && (p.satTopLimit < p.satBottomLimit ==> op == p.satTopLimit)
  {
  }

  /** An idle accumulator stays idle while the raw output needs no saturation. */
  lemma AccumulatorStaysZero(p: Pump, y: real)
    requires WellFormed(p) && Compute(p, y).Stepped?
    requires p.ui == 0.0
    requires p.satBottomLimit <= RawOutput(p, y) <= p.satTopLimit
    ensures Compute(p, y).next.ui == 0.0
    ensures Last(Compute(p, y).next.u) == RawOutput(p, y)
  {
  }

  /**
    With an unsaturated output a leftover accumulator is not cleared: because
    the update compares against the value before `ui` was added, it grows by
    the factor `1 + aw_gain` every step, in either mode, and the output sits
    `ui` away from the raw value.
   */
  lemma UnsaturatedAccumulatorGrowth(p: Pump, y: real)
    requires WellFormed(p) && Compute(p, y).Stepped?
    requires p.satBottomLimit <= RawOutput(p, y) + p.ui <= p.satTopLimit
    ensures Last(Compute(p, y).next.u) == RawOutput(p, y) + p.ui
    ensures Compute(p, y).next.ui == p.ui * (1.0 + p.awGain)
  {
  }

  /** In MANUAL mode this means the output drifts away from the manual operating point. */
  lemma ManualAccumulatorDrift(p: Pump, y: real)
    requires WellFormed(p) && Compute(p, y).Stepped? && p.mode == Manual
    requires p.satBottomLimit <= p.manualU + p.ui <= p.satTopLimit
    ensures Last(Compute(p, y).next.u) == p.manualU + p.ui
    ensures Compute(p, y).next.ui == p.ui * (1.0 + p.awGain)
  {
    UnsaturatedAccumulatorGrowth(p, y);
  }

  /**
    In MANUAL mode the output depends on neither the setpoint nor the
    histories nor the measurement.
   */
  lemma ManualIgnoresSetpointAndHistory(p: Pump, p': Pump, y: real, y': real)
    requires WellFormed(p) && WellFormed(p') && p.mode == Manual
    requires p' == p.(r := p'.r, u := p'.u, e := p'.e)
    requires Compute(p, y).Stepped? && Compute(p', y').Stepped?
    ensures GetOp(Compute(p, y).next) == GetOp(Compute(p', y').next)
  {
  }

  /**
    On full histories a step drops the oldest entry of each, shifts the others
    one place unchanged, and appends one new entry.
   */
  lemma ComputeHistoryShift(p: Pump, y: real)
    requires WellFormed(p) && Full(p) && Compute(p, y).Stepped?
    ensures var q := Compute(p, y).next;
      && |q.u| == |q.e| == p.tr
      && q.u[..p.tr - 1] == p.u[1..]
      && q.e[..p.tr - 1] == p.e[1..]
  {
  }
}
