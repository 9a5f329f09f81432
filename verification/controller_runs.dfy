/**
  Sequences of operations on one pump controller: measurements handed to
  `_compute` interleaved with the three setters, as an operator channel and a
  flow measurement would drive them.
 */
module ControllerRuns {
  import opened Results
  import opened BoundedDeque
  import opened PumpController
  import opened ComputeFacts

  /** One call on the controller. */
  datatype Command =
    | Measure(y: real)
    | SetSetpoint(sp: real)
    | SetManualMode(enable: bool)
    | SetManualOperatingPoint(op: real)

  /**
    One command applied to the record. The setters return `None` and never
    publish, so their outcome carries `false` as its publish flag.
   */
  function Apply(p: Pump, c: Command): StepOutcome
    requires WellFormed(p)
  {
    match c
    case Measure(y) => Compute(p, y)
    case SetSetpoint(sp) => Stepped(SetSp(p, sp), false)
    case SetManualMode(enable) => Stepped(SetManual(p, enable), false)
    case SetManualOperatingPoint(op) => Stepped(SetManualOp(p, op), false)
  }

  /**
    Applies the commands in order. The first IndexError ends the run with the
    record it left behind.
   */
  function Run(p: Pump, cmds: seq<Command>): Result<Pump, Pump>
    requires WellFormed(p)
    decreases |cmds|
  {
    if |cmds| == 0 then Ok(p)
    else
      match Apply(p, cmds[0])
      case Raised(q) => Err(q)
      case Stepped(q, _) =>
        assert WellFormed(q);
        Run(q, cmds[1..])
  }

  /** The fixed configuration and identity of a controller, and its hysteresis baseline. */
  predicate SameFixed(p: Pump, q: Pump) {
    && q.id == p.id && q.tr == p.tr
    && q.q0 == p.q0 && q.q1 == p.q1 && q.awGain == p.awGain
    && q.satTopLimit == p.satTopLimit && q.satBottomLimit == p.satBottomLimit
    && q.hystTopOffset == p.hystTopOffset && q.hystBottomOffset == p.hystBottomOffset
    && q.lastU == p.lastU
  }

  /** The stored output lies within the saturation limits, as far as the limits allow. */
  predicate OutputSaturated(p: Pump)
    requires |p.u| > 0
  {
    Last(p.u) <= p.satTopLimit && (p.satBottomLimit <= p.satTopLimit ==> p.satBottomLimit <= Last(p.u))
  }

  /**
    One command keeps the histories full, keeps the configuration and the
    baseline, and completes when the delay is at least 2; after a measurement
    the output is saturated.
   */
  lemma ApplyKeepsInvariant(p: Pump, c: Command)
    requires WellFormed(p) && Full(p) && p.tr >= 2
    ensures Apply(p, c).Stepped?
    ensures var q := Apply(p, c).next;
      WellFormed(q) && Full(q) && SameFixed(p, q)
    ensures c.Measure? ==> OutputSaturated(Apply(p, c).next)
    ensures OutputSaturated(p) ==> OutputSaturated(Apply(p, c).next)
  {
    match c
    case Measure(y) =>
      ComputeOutputBounded(p, y);
    case SetSetpoint(sp) =>
    case SetManualMode(enable) =>
    case SetManualOperatingPoint(op) =>
  }

  /**
    Over any run from a full record with delay at least 2: no IndexError is
    raised, the histories stay full, nothing fixed changes (`last_u` in
    particular is never written), and once a measurement has been processed
    every later output respects the saturation limits.
   */
  lemma {:induction false} RunKeepsInvariant(p: Pump, cmds: seq<Command>)
    requires WellFormed(p) && Full(p) && p.tr >= 2
    ensures Run(p, cmds).Ok?
    ensures var q := Run(p, cmds).value;
      WellFormed(q) && Full(q) && SameFixed(p, q)
    ensures OutputSaturated(p) ==> OutputSaturated(Run(p, cmds).value)
    ensures (exists i :: 0 <= i < |cmds| && cmds[i].Measure?) ==> OutputSaturated(Run(p, cmds).value)
    decreases |cmds|
  {
    if |cmds| > 0 {
      ApplyKeepsInvariant(p, cmds[0]);
      var q := Apply(p, cmds[0]).next;
      RunKeepsInvariant(q, cmds[1..]);
      if exists i :: 0 <= i < |cmds| && cmds[i].Measure? {
        var i :| 0 <= i < |cmds| && cmds[i].Measure?;
        if i > 0 {
          assert cmds[1..][i - 1].Measure?;
        }
      }
    }
  }

  /** The record a run ends with, whether it completed or stopped at an IndexError. */
  function Final(r: Result<Pump, Pump>): Pump {
    match r
    case Ok(p) => p
    case Err(p) => p
  }

  /** No call writes `last_u`, not even one that raises part-way. */
  lemma {:induction false} RunKeepsBaseline(p: Pump, cmds: seq<Command>)
    requires WellFormed(p)
    ensures Final(Run(p, cmds)).lastU == p.lastU
    decreases |cmds|
  {
    if |cmds| > 0 {
      match Apply(p, cmds[0])
      case Raised(q) =>
      case Stepped(q, _) =>
        RunKeepsBaseline(q, cmds[1..]);
    }
  }

  /**
    A freshly constructed controller keeps its hysteresis baseline at 0
    whatever commands it receives, so every publish decision compares the
    output against 0; with delay at least 2 it never raises.
   */
  lemma BaselineStaysZero(id: string, cfg: PumpParams, cmds: seq<Command>)
    requires cfg.delay >= 0
    ensures New(id, cfg).Ok?
    ensures Final(Run(New(id, cfg).value, cmds)).lastU == 0.0
    ensures cfg.delay >= 2 ==> Run(New(id, cfg).value, cmds).Ok?
  {
    RunKeepsBaseline(New(id, cfg).value, cmds);
    if cfg.delay >= 2 {
      RunKeepsInvariant(New(id, cfg).value, cmds);
    }
  }
}
