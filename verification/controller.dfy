/**
  The per-pump PI controller (`PIController_Pump`): a state record, the
  constructor, the single control step `_compute`, the three setters and
  `get_op`. Python floats are modelled as `real`; every operation is a pure
  function from the old record to the new one.
 */
module PumpController {
  import opened Results
  import opened BoundedDeque

  /** `ControllerState`: the two operating modes. */
  datatype Mode = Manual | Auto

  /** The exceptions `PIController_Pump` can raise from these operations. */
  datatype PyError =
    | ValueError   // `deque(maxlen=n)` with a negative `n`
    | IndexError   // `d[-1]` or `d[-2]` on a deque that is too short

  /** The configuration section of one pump, after `float()`/`int()` conversion. */
  datatype PumpParams = PumpParams(
    q0: real,
    q1: real,
    delay: int,
    defaultSp: real,
    defaultU: real,
    hystTopOffset: real,
    hystBottomOffset: real,
    satTopLimit: real,
    satBottomLimit: real,
    awGain: real)

  /**
    The controller object. `u` and `e` are the output and error histories,
    oldest first, each a deque with capacity `tr`; `ui` is the anti-windup
    accumulator and `lastU` the hysteresis baseline.
   */
  datatype Pump = Pump(
    id: string,
    mode: Mode,
    q0: real,
    q1: real,
    tr: nat,
    r: real,
    manualU: real,
    lastU: real,
    hystTopOffset: real,
    hystBottomOffset: real,
    satTopLimit: real,
    satBottomLimit: real,
    awGain: real,
    u: seq<real>,
    e: seq<real>,
    ui: real)

  /** The deque invariant: neither history holds more than `tr` entries. */
  predicate WellFormed(p: Pump) {
    |p.u| <= p.tr && |p.e| <= p.tr
  }

  /** Both histories are at capacity, as the constructor leaves them. */
  predicate Full(p: Pump) {
    |p.u| == p.tr && |p.e| == p.tr
  }

  /** The output last stored by a step, when there is one. */
  function GetOp(p: Pump): (r: Result<real, PyError>)
    ensures r.Ok? <==> |p.u| > 0
    ensures r.Ok? ==> r.value == p.u[|p.u| - 1]
    ensures r.Err? ==> r.error == IndexError
  {
    if |p.u| == 0 then Err(IndexError) else Ok(Last(p.u))
  }

  /** `PIController_Pump(id, params)`. */
  function New(id: string, cfg: PumpParams): (r: Result<Pump, PyError>)
    ensures r.Err? <==> cfg.delay < 0
    ensures r.Err? ==> r.error == ValueError
    ensures r.Ok? ==> WellFormed(r.value) && Full(r.value)
    ensures r.Ok? ==> r.value.mode == Manual && r.value.tr == cfg.delay
    ensures r.Ok? ==> forall i :: 0 <= i < cfg.delay ==> r.value.u[i] == 0.0 && r.value.e[i] == 0.0
    ensures r.Ok? ==> r.value.ui == 0.0 && r.value.lastU == 0.0
    ensures r.Ok? ==> r.value.r == cfg.defaultSp && r.value.manualU == cfg.defaultU
    ensures r.Ok? ==> r.value.id == id && r.value.satTopLimit == cfg.satTopLimit && r.value.satBottomLimit == cfg.satBottomLimit
    ensures r.Ok? ==> r.value.q0 == cfg.q0 && r.value.q1 == cfg.q1 && r.value.awGain == cfg.awGain
    ensures r.Ok? ==> r.value.hystTopOffset == cfg.hystTopOffset && r.value.hystBottomOffset == cfg.hystBottomOffset
  {
    if cfg.delay < 0 then Err(ValueError)
    else
      var zeros := seq(cfg.delay, _ => 0.0);
      Ok(Pump(
        id, Manual, cfg.q0, cfg.q1, cfg.delay, cfg.defaultSp, cfg.defaultU, 0.0,
        cfg.hystTopOffset, cfg.hystBottomOffset, cfg.satTopLimit, cfg.satBottomLimit,
        cfg.awGain, zeros, zeros, 0.0))
  }

  function Min(a: real, b: real): real {
    if b < a then b else a
  }

  function Max(a: real, b: real): real {
    if b > a then b else a
  }

  /**
    `min(max(x, bottom), top)`. Nothing orders the two limits: when they are
    inverted the top limit wins.
   */
  function Saturate(x: real, bottom: real, top: real): (s: real)
    ensures s <= top
    ensures bottom <= top ==> bottom <= s
    ensures bottom <= x <= top ==> s == x
    ensures top < bottom ==> s == top
    ensures x < bottom <= top ==> s == bottom
    ensures bottom <= top < x ==> s == top
  {
    Min(Max(x, bottom), top)
  }

  /** The dead band around the baseline inside which a new output is not published. */
  predicate InDeadBand(out: real, base: real, topOffset: real, bottomOffset: real) {
    base - bottomOffset <= out <= base + topOffset
  }

  /** The hysteresis decision: true when the output left the dead band. */
  function Hysteresis(out: real, base: real, topOffset: real, bottomOffset: real): (publish: bool)
    ensures publish <==> !InDeadBand(out, base, topOffset, bottomOffset)
  {
    out > base + topOffset || out < base - bottomOffset
  }

  /** The incremental PI recurrence `u[t] = u[t-1] + q0*e[t] + q1*e[t-1]`. */
  function Recurrence(uPrev: real, eNow: real, ePrev: real, q0: real, q1: real): real {
    uPrev + q0 * eNow + q1 * ePrev
  }

  /** The anti-windup update: the accumulator integrates the saturation error. */
  function AntiWindup(ui: real, gain: real, uSat: real, raw: real): real {
    ui + gain * (uSat - raw)
  }

  /**
    The unsaturated output of a step, before the accumulator is added: the
    manual operating point in MANUAL mode, the incremental PI recurrence
    `u[t-1] + q0*e[t] + q1*e[t-1]` in AUTO mode.
   */
  function RawOutput(p: Pump, y: real): real
    requires |p.u| > 0 && |p.e| > 0
  {
    match p.mode
    case Manual => p.manualU
    case Auto => Recurrence(Last(p.u), p.r - y, Last(p.e), p.q0, p.q1)
  }

  /** Result of `_compute`: the new state and the returned bool, or the state left behind by an IndexError. */
  datatype StepOutcome = Stepped(next: Pump, publish: bool) | Raised(partial: Pump) {
    function State(): Pump {
      match this
      case Stepped(next, _) => next
      case Raised(partial) => partial
    }
  }

  /** `_compute(y)`: one control step on the measurement `y`. */
  function Compute(p: Pump, y: real): (o: StepOutcome)
    requires WellFormed(p)
    ensures WellFormed(o.State())
    ensures o.Stepped? ==> |p.u| > 0 && |p.e| > 0 && |o.next.u| > 0 && |o.next.e| > 0
    ensures Full(p) ==> Full(o.State()) && (o.Stepped? <==> p.tr >= 2)
    // only the setpoint, the histories and the accumulator change
    ensures o.State() == p.(r := o.State().r, u := o.State().u, e := o.State().e, ui := o.State().ui)
    ensures o.State().r == if p.mode == Manual then y else p.r
    ensures o.Stepped? ==> Last(o.next.e) == o.next.r - y
    // the output is the raw value plus the accumulator, saturated
    ensures o.Stepped? ==> Last(o.next.u) == Saturate(RawOutput(p, y) + p.ui, p.satBottomLimit, p.satTopLimit)
    ensures o.Stepped? ==> o.next.ui == AntiWindup(p.ui, p.awGain, Last(o.next.u), RawOutput(p, y))
    ensures o.Stepped? ==> o.publish == Hysteresis(Last(o.next.u), p.lastU, p.hystTopOffset, p.hystBottomOffset)
  {
    var r := if p.mode == Manual then y else p.r;
    var e := Append(p.e, p.tr, r - y);
    if |p.u| == 0 || |e| < 2 then
      Raised(p.(r := r, e := e))
    else
      var u := Append(p.u, p.tr, Recurrence(Last(p.u), Last(e), e[|e| - 2], p.q0, p.q1));
      var u := if p.mode == Manual then SetLast(u, p.manualU) else u;
      var uSat := Saturate(Last(u) + p.ui, p.satBottomLimit, p.satTopLimit);
      var ui := AntiWindup(p.ui, p.awGain, uSat, Last(u));
      var u := SetLast(u, uSat);
      Stepped(p.(r := r, e := e, u := u, ui := ui),
              Hysteresis(Last(u), p.lastU, p.hystTopOffset, p.hystBottomOffset))
  }

  /** `set_sp(sp)`: changes the setpoint and nothing else. */
  function SetSp(p: Pump, sp: real): (q: Pump)
    ensures q.r == sp
    ensures q.(r := p.r) == p
  {
    p.(r := sp)
  }

  /** `set_manual(enable=True)`. */
  function SetManual(p: Pump, enable: bool := true): (q: Pump)
    ensures q.mode == Manual <==> enable
    ensures q.(mode := p.mode) == p
  {
    var q := p.(mode := Auto);
    if enable then q.(mode := Manual) else q
  }

  /** `set_manual_op(op)`: changes the manual operating point and nothing else. */
  function SetManualOp(p: Pump, op: real): (q: Pump)
    ensures q.manualU == op
    ensures q.(manualU := p.manualU) == p
  {
    p.(manualU := op)
  }
}
