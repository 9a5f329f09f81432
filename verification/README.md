# Pump PI controller and dotted configuration lookup, in Dafny

This project models two pieces of the MD-controller process-control node.

1. **`PIController_Pump`** is the per-pump discrete PI controller. It holds:
   - the mode (MANUAL or AUTO), the setpoint `r` and the manual operating point `manual_u`;
   - two fixed-length histories, outputs `u` and errors `e`. Each is a `deque` whose `maxlen` is the delay `tr`;
   - the anti-windup accumulator `ui` and the hysteresis baseline `last_u`;
   - the fixed gains, saturation limits, hysteresis offsets and anti-windup gain.

   One call to `_compute(y)` is one control step. It tracks the setpoint in MANUAL mode, pushes the error, runs the incremental recurrence `u[t] = u[t-1] + q0*e[t] + q1*e[t-1]`, applies the manual override, saturates the value plus `ui`, updates the accumulator, and returns whether the new output left the hysteresis dead band around `last_u`.
2. **`ConfigManager.get_value`** looks up a dotted path such as `"a.b.c"` in the nested configuration dictionaries. Missing intermediate keys are replaced by an empty dict, and the default is used only at the last key.

Every operation is a pure function over immutable records. Python floats are `real`. Python exceptions become values:
- `ValueError` and `IndexError` in `PumpController.PyError`, and `AttributeError` in `ConfigLookup.LookupError`.
- When `_compute` raises part-way, `PumpController.StepOutcome.Raised` carries the record it left behind.

Files:
- `results.dfy`: the `Result` type.
- `deque.dfy`: the bounded deque (`Append`, `SetLast`, `Last`).
- `controller.dfy`: the controller record, the constructor, `_compute`, the setters and `get_op`.
- `compute_facts.dfy`: what one step does.
- `controller_runs.dfy`: invariants over any sequence of steps and setter calls.
- `dotted_path.dfy`: `str.split(".")` and its inverse.
- `config_manager.dfy`: `get_value` and a reference reading of nested lookup.

The model keeps these quirks of the code:
- In MANUAL mode `ui` is still added to the output (`PumpController.Compute`).
- The accumulator is updated against the value before `ui` was added (`PumpController.Compute`).
- As a result, whenever the output is unsaturated, a leftover `ui` grows by the factor `1 + aw_gain` every step, in either mode (`ComputeFacts.UnsaturatedAccumulatorGrowth`). In MANUAL mode this makes the output drift away from `manual_u` (`ComputeFacts.ManualAccumulatorDrift`).
- `last_u` is set to 0 by the constructor and is never written again, not even by a step that raises part-way (`ControllerRuns.RunKeepsBaseline`, `ControllerRuns.BaselineStaysZero`).
- Nothing orders the saturation limits; when they are inverted, `min(max(x, bottom), top)` always yields the top limit (`PumpController.Saturate`).

An idealised PI controller with a publish-confirm protocol would differ from the code in these ways. The model follows the code:
- The accumulator is accumulated (`ui += …`), not replaced, and it is not reset in MANUAL mode.
- Inverted saturation limits are not rejected at construction.
- There is no publish-confirm step that moves the hysteresis baseline.
- The manual operating point is not clamped before use; only the final output (with `ui` added) is clamped.
- Setters do not validate their arguments.

## Model

| member | source | states |
|---|---|---|
| `PumpController.New` | src/controllers.py:6-29 | A controller starts in MANUAL with `u` and `e` each holding `tr` zeros and `ui` and `last_u` 0. The setpoint, manual point, gains `q0` and `q1`, hysteresis offsets, saturation limits and anti-windup gain all come from the configuration. A negative delay raises ValueError, from `deque(maxlen=…)`. |
| `PumpController.Compute` | src/controllers.py:32-42 | A step changes only the setpoint, the histories and the accumulator; mode, gains, limits, offsets, `manual_u` and `last_u` are untouched. In MANUAL the setpoint becomes the measurement; in AUTO it is kept. The appended error is the new setpoint minus the measurement. From full histories the step completes iff the delay is at least 2, and the histories stay full. The stored output (`get_op()`) is `clamp(raw + ui)`. Here `raw` is `RawOutput`: `manual_u` in MANUAL, so `ui` is still added there, and in AUTO the recurrence `Recurrence` of line 36, `u[-1] + q0*(r - y) + q1*e[-1]`, over the previous histories. The accumulator becomes `AntiWindup` of line 40, `ui + aw_gain * (u_sat - raw)`, compared against the value before `ui` was added. The returned bool is the hysteresis decision on the new output against `last_u`. |
| `ComputeFacts.ComputeRaisedPartialUpdate` | src/controllers.py:33-36 | A step that raises IndexError (`u[-1]` on delay 0, `e[-2]` on delay 1) has already tracked the setpoint and appended the error. It leaves `u` and `ui` unchanged. |
| `ComputeFacts.ComputeError` | src/controllers.py:33-35 | The appended error is exactly 0 in MANUAL and `r - y` in AUTO. |
| `ComputeFacts.ComputeOutputBounded` | src/controllers.py:39-41 | `get_op()` after a step never exceeds the top limit. It is at least the bottom limit whenever bottom <= top, and equals the top limit when the limits are inverted. |
| `ComputeFacts.AccumulatorStaysZero` | src/controllers.py:39-40 | With `ui == 0` and the raw value inside the limits, the output is the raw value and `ui` stays 0. |
| `ComputeFacts.UnsaturatedAccumulatorGrowth` | src/controllers.py:39-40 | In either mode, with `raw + ui` inside the limits, the output is `raw + ui` and the accumulator becomes `ui * (1 + aw_gain)`. |
| `ComputeFacts.ManualAccumulatorDrift` | src/controllers.py:37-40 | In MANUAL with `manual_u + ui` inside the limits, the output is `manual_u + ui` and the accumulator becomes `ui * (1 + aw_gain)`. |
| `ComputeFacts.ManualIgnoresSetpointAndHistory` | src/controllers.py:33-39 | In MANUAL, two records that differ only in setpoint and histories give the same output, whatever the two measurements. |
| `ComputeFacts.ComputeHistoryShift` | src/controllers.py:35-41 | On full histories each step keeps both at length `tr`. The surviving entries are the previous ones shifted left unchanged. |
| `PumpController.Saturate` | src/controllers.py:39 | The clamp never exceeds the top limit. It respects the bottom limit when the limits are ordered, returns its argument when that lies inside the limits, and returns the top limit when the limits are inverted. |
| `PumpController.Hysteresis` | src/controllers.py:42 | The publish decision is true exactly when the output lies outside the dead band `[last_u - bottom_offset, last_u + top_offset]`. |
| `PumpController.GetOp` | src/controllers.py:55-56 | `get_op()` is the newest output entry. It fails exactly when the output history is empty, and the failure is IndexError. |
| `PumpController.SetSp` | src/controllers.py:44-45 | `set_sp` sets the setpoint and changes no other field. |
| `PumpController.SetManual` | src/controllers.py:47-50 | After `set_manual(enable)` the mode is MANUAL iff `enable` (which defaults to true), whatever the previous mode. No other field changes, so histories and accumulator survive a mode switch. |
| `PumpController.SetManualOp` | src/controllers.py:52-53 | `set_manual_op` sets the manual operating point and changes no other field. |
| `BoundedDeque.Append` | src/controllers.py:35-36 | Appending to a deque with `maxlen = tr` grows it by one until it is full and then keeps its length. The new entry is last, and a deque of capacity 0 stays empty. |
| `BoundedDeque.AppendKeepsNewest` | src/controllers.py:35-36 | The entries kept by an append are the newest entries of the old deque, in their order. |
| `BoundedDeque.SetLast` | src/controllers.py:38 | `u[-1] = x` keeps the length, makes `x` the newest entry, and leaves every older entry unchanged. |
| `ControllerRuns.ApplyKeepsInvariant` | src/controllers.py:32-53 | From full histories with delay at least 2, any one call completes. It keeps the histories full and the configuration and `last_u` fixed. After a measurement the output respects the limits, and a setter keeps an output that already did. |
| `ControllerRuns.RunKeepsInvariant` | src/controllers.py:18-53 | Over any sequence of measurements and setter calls from such a record: nothing raises, the histories stay full, and configuration and `last_u` never change. Once a measurement has been processed, the output respects the saturation limits. |
| `ControllerRuns.RunKeepsBaseline` | src/controllers.py:18-53 | No sequence of calls writes `last_u`, whether the run completes or stops at an IndexError. |
| `ControllerRuns.BaselineStaysZero` | src/controllers.py:6-42 | For every non-negative delay, a freshly built controller keeps its hysteresis baseline at 0 after any sequence of calls, including one that stops at an IndexError. With delay at least 2 it never raises. |
| `DottedPath.Split` | src/config_manager.py:14 | `key_path.split(".")` yields at least one segment, and no segment contains a `.`. |
| `DottedPath.SplitCount` | src/config_manager.py:14 | A path splits into one segment more than it has dots. |
| `DottedPath.JoinSplit` | src/config_manager.py:14 | Joining the segments of a split with `.` reproduces the path. |
| `DottedPath.SplitJoin` | src/config_manager.py:14 | Splitting the `.`-join of a non-empty list of dot-free segments gives back the list. |
| `DottedPath.SplitNoSep` | src/config_manager.py:14 | A path without dots is a single segment. |
| `ConfigLookup.NewManager` | src/config_manager.py:4-6 | A new manager holds an empty configuration dict. |
| `ConfigLookup.Get` | src/config_manager.py:17-18 | `.get` raises AttributeError exactly when it is called on something other than a dict. |
| `ConfigLookup.Descend` | src/config_manager.py:15-17 | The loop over all keys but the last agrees with following the keys strictly wherever every key is present. Once it has fallen back to an empty dict, it stays in an empty dict for every further key. |
| `ConfigLookup.DescendThenGet` | src/config_manager.py:15-18 | Walking every key but the last and then calling `get` on the last key agrees with the reference reading of nested lookup. The leaf is returned when every key is present, the default when a key is missing, and AttributeError when a present key leads to a non-dict too early. |
| `ConfigLookup.GetValue` | src/config_manager.py:13-18 | `get_value` gives the reference reading of the split path against the configuration. That is the leaf when every key is present, the default when a key is missing, and AttributeError when a present key leads to a non-dict too early. |
| `ConfigLookup.GetValuePresent` | src/config_manager.py:16-18 | When every segment is present, the result is the stored leaf, whatever the default. |
| `ConfigLookup.GetValueMissing` | src/config_manager.py:13-18 | When a segment is missing from a dict reached through present segments, the result is the default. When the caller omits the default, as `default_value=None` allows, the result is `None` (`Null`). |
| `ConfigLookup.GetValueTopLevel` | src/config_manager.py:14-18 | A path without dots is a single `get` on the top-level configuration. On a dict it returns the stored value if the key is present and the default otherwise. |

## Left out

- Python float semantics: IEEE-754 rounding, NaN and infinities. Every quantity is an exact `real`. In particular, `r - y` in MANUAL mode is exactly 0 only for finite measurements.
- The `float()`/`int()` conversions of configuration values, and the KeyError a missing configuration entry would raise in the constructor. `PumpController.New` takes the already-converted `PumpParams`.
- The controller's `id` is stored and never read.
- `PIController` (src/controllers.py:58-95): an unfinished draft that cannot run. It uses enum members that do not exist and augments an unbound local.
- `ConfigManager.load_config`: file I/O and YAML parsing. `ConfigManager.get_path`: a field read with no logic.
- Dict keys other than strings. Only string keys can match the segments of a dotted path.
- src/mqtt_handler.py (the MQTT network client) and src/main.py (process wiring and signal handling). These are I/O glue and do not run as written.
- src/enums/config_paths.py and `MDState` are constants only. `ControllerState` is `PumpController.Mode`.
- No confirm-publish operation that would update `last_u`, because `PIController_Pump` has none.
- Setter calls arriving concurrently with a step. The model is sequential.
- What a caller does after `_compute` raises. No driver loop in the Python code shows this, so `ControllerRuns.Run` simply stops there with the partial record.
- `ComputeFacts.ComputeHistoryShift`: stated only for full histories. The constructor produces only those, and every step keeps them full.
