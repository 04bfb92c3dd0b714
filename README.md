# TCP congestion-window controllers in Dafny

This project models a small simulator of TCP congestion control. The simulator has five per-connection window controllers, an ACK-event generator and a driver loop:

- **Reno**: slow start, fast recovery and congestion avoidance on an integer window. A third duplicate ACK re-applies the loss transition within the same update.
- **AIMD**: additive increase and multiplicative decrease, with a stale-ACK time-out.
- **CUBIC**: the cubic window function of the time elapsed since the first ACK, with a back-off factor of 0.7.
- **Westwood**: an exponentially weighted bandwidth estimate that sets `ssthresh` after a loss.
- **HyStart**: leaves slow start when the RTT grows past 1.25 times the smallest RTT seen.
- **Generator**: `generate_ack_array` builds the stream of (number, time, loss) ACKs, with jitter and a one-way link-saturation mode.
- **Driver**: `simulate` feeds the ACKs to one controller and records four parallel traces.

Each controller is a module in the same three layers:

- a datatype `XState` holding the controller's fields;
- a pure function `Update` giving the state after one `update_cwnd` call, whose `ensures` clauses state the per-call behaviour;
- a class `TcpX` with the same fields, whose method `UpdateCwnd` rewrites them in place, step by step as the source does. It is proved to give `State() == Update(old(State()), …)`.

Lemmas over `Run` (a fold of `Update` over a sequence of inputs) prove the properties that hold across calls.

Windows and times are exact rationals (`real`). Reno's and HyStart's windows are integers, because those controllers use `//`; Dafny's `/` on `int` with divisor 2 is floor division, like Python's `//`.

Randomness is an input. Every draw of `random.random()` is a number `u` passed in a sequence. `random.uniform(a, b)` is `a + (b − a)·u`, the formula CPython uses.

The cube root of CUBIC is a function parameter `cubeRoot`. Nothing is assumed about it, so every CUBIC property holds whatever it computes.

Three Python run-time failures are modelled as preconditions, each stated exactly (a `Defined` predicate):

- AIMD and Westwood raise `ZeroDivisionError` on `MSS / cwnd` when `cwnd == 0` in the avoidance branch.
- CUBIC takes a fractional power of a negative `W_max`. That gives a complex number, and the following `max` raises.

Lemmas then show these failures cannot happen from the usual starting states: each controller's own run lemma (`Aimd.RunKeepsWindow`, `Cubic.RunStaysDefined`, `Westwood.RunKeepsEstimate`) and, for the driver, `Simulation.UsualStartRunDefined`.

`methods/reno.py` and `reno.py` are the same text; the module `Reno` models both.

Three consequences of the code as written, each stated as a lemma:

- An AIMD loss at `cwnd = 10, ssthresh = 80` gives `ssthresh = max(80·0.5, 10 + 1, 2) = 40` and `cwnd = 5` (`Aimd.LossFromTen`).
- A CUBIC loss at `cwnd = 1` leaves `cwnd = 0.7`, below one segment, with `ssthresh = 1` (`Cubic.LossBelowOneSegment`). The CUBIC back-off is not floored at one segment, and its `ssthresh` is floored at 1, not 2.
- Reno's duplicate counter only advances when `ack_time` equals the previous ACK's time. Three duplicate ACKs fire the loss on the third only when the ACK before them had the same time (`Reno.TripleDuplicateAck`). Otherwise the first duplicate resets the counter and the loss fires on the fourth (`Reno.DuplicateAfterNewAck`).

## Model

| member | source | states |
|---|---|---|
| `Common.Trunc` | methods/westwood.py:50 | `int()` on a float truncates toward zero: the result is within one of `x`, on the side of zero |
| `Reno.Update` | methods/reno.py:28-73 | every call ends with `cwnd <= 100` and `last_ack == ack_time`; a window `>= 1` stays `>= 1`; a time-out gives `cwnd = 1`, `ssthresh = max(cwnd // 2, 2)`, slow start on, fast recovery off, no loss flag; a loss without time-out (and not also a third duplicate) gives `ssthresh = max(cwnd // 2, 2) >= 2`, `cwnd = ssthresh` (clamped), fast recovery on, slow start off, loss flag set; otherwise slow start doubles and ends exactly when the doubled window reaches `ssthresh`; fast recovery and avoidance add 1; a third duplicate ACK re-applies the loss transition to the grown window; the loss flag holds iff (loss and no time-out) or fast retransmit; the duplicate counter goes up by 1 on a duplicate at the previous time, resets on a duplicate at a new time, and is otherwise unchanged (reset by a time-out) |
| `Reno.ReentryIsLossUpdate` | methods/reno.py:64-65 | the helper for the nested call equals a full `update_cwnd(ack_time, loss_event=True)` |
| `Reno.TripleDuplicateAck` | reno.py:61-65 | three duplicate ACKs at the previous ACK's time: only the third reports a loss and enters fast recovery (counter 3); a fourth reports none (counter 4) |
| `Reno.DuplicateAfterNewAck` | reno.py:61-67 | when the previous ACK had a different time, the first duplicate resets the counter and the loss fires on the fourth call, not the third |
| `Reno.RunKeepsWindow` | methods/reno.py:30-70 | from an integer window in [1, 100], any sequence of updates keeps it in [1, 100] |
| `Reno.TcpReno.constructor` | methods/reno.py:16-23 | fields start as given, counter 0, no last ACK, slow start on, fast recovery and loss flag off |
| `Reno.TcpReno.UpdateCwnd` | reno.py:28-73 | rewrites the fields in place exactly as `Reno.Update` describes |
| `Reno.TcpReno.EnterFastRecovery` | methods/reno.py:38-44 | performs the nested call's loss transition, clamp and ACK-time update in place |
| `Aimd.Update` | aimd.py:31-67 | `cwnd <= 100` and `last_ack_time == ack_time` after every call; `start_time` is set only by the first call; a window `>= 1` stays `>= 1`; a gap over 3.0 s gives `cwnd = 1`, `ssthresh = 100` and no loss flag even when the loss argument is set; a loss without time-out gives `ssthresh = max(ssthresh·0.5, cwnd + 1, 2)`, `cwnd = max(cwnd·0.5, 1)` (clamped), with `ssthresh >= 2` and `ssthresh > cwnd`; below `ssthresh` the window grows by 1; at or above it by `1/cwnd`, and `ssthresh` becomes `max(ssthresh, new cwnd)` and never drops |
| `Aimd.RunKeepsWindow` | aimd.py:37-64 | from a window in [1, 100], no update ever divides by zero and the window stays in [1, 100] |
| `Aimd.RunKeepsStartTime` | aimd.py:33-34 | over any sequence of updates the start time is the first ACK's time, never changed afterwards |
| `Aimd.LossFromTen` | aimd.py:44-50 | a loss at `cwnd = 10, ssthresh = 80` gives `cwnd = 5`, `ssthresh = 40` and the loss flag |
| `Aimd.TimeoutAfterFiveSeconds` | aimd.py:37-42 | an ACK 5 s after one at time 0 resets the window to 1 and reports no loss |
| `Aimd.TcpAimd.constructor` | aimd.py:22-28 | fields start as given, with no start time, no last ACK time and no loss flag |
| `Aimd.TcpAimd.UpdateCwnd` | aimd.py:31-67 | rewrites the fields in place exactly as `Aimd.Update` describes |
| `Cubic.Update` | cubic.py:41-77 | `cwnd <= 100` and `last_ack_time == ack_time` after every call; `start_time` is set only by the first call; a time-out gives `cwnd = 1` and keeps `ssthresh`, `W_max` and the last loss time, with no loss flag; a loss without time-out sets `W_max = cwnd`, `cwnd = 0.7·cwnd`, `ssthresh = max(0.7·cwnd, 1)`, the last loss time to the elapsed time, and the loss flag; slow start adds 1; the cubic step gives `cwnd >= 1`, is the clamped cubic window at the elapsed time, and sets `W_max` to the window when unset; neither growth branch touches `ssthresh` or the last loss time; a non-negative window and `W_max` stay non-negative |
| `Cubic.Window` | cubic.py:38-39 | the cubic window `C·(t − K)³ + W_max` with `K = ∛(W_max·(1 − β)/C)`; at `t = K` it is exactly `W_max` |
| `Cubic.WindowMonotone` | cubic.py:34-39 | whatever the cube root gives, the cubic window never decreases as time grows |
| `Cubic.WindowPlateau` | cubic.py:38-39 | the cubic window is at or above `W_max` exactly from `t = K` on |
| `Cubic.RunStaysDefined` | cubic.py:50-74 | from a non-negative window and `W_max`, every update takes the cube root of a non-negative number and the window stays in [0, 100] |
| `Cubic.RunKeepsStartTime` | cubic.py:43-47 | the start time is the first ACK's time for the whole run, so elapsed time is measured from it |
| `Cubic.LossBelowOneSegment` | cubic.py:56-63 | a loss at `cwnd = 1` leaves `cwnd = 0.7` and `ssthresh = 1` |
| `Cubic.TcpCubic.constructor` | cubic.py:24-31 | fields start as given, with no `W_max`, loss time, start time or last ACK time |
| `Cubic.TcpCubic.CubicWnd` | cubic.py:34-39 | sets `W_max` to the current window only when unset, changes nothing else, and returns `C·(t − K)³ + W_max` |
| `Cubic.TcpCubic.UpdateCwnd` | cubic.py:41-77 | rewrites the fields in place exactly as `Cubic.Update` describes |
| `Westwood.Estimate` | methods/westwood.py:40-44 | the estimate is unchanged unless a previous ACK exists and this one is strictly later; it stays non-negative when the window and the old estimate are |
| `Westwood.EstimateUpdate` | methods/westwood.py:40-47 | after a call, the estimate is `0.9·bw + 0.1·cwnd/(ack_time − last_ack_time)` on a strictly later ACK and unchanged otherwise |
| `Westwood.LossThreshold` | methods/westwood.py:50 | the loss threshold lies in [2, 100]; it equals `int(bw_est·ssthresh)` when that lies in [2, 100], is exactly 100 when it is 100 or more (the threshold sticks at the window maximum), and exactly 2 when it is 2 or less |
| `Westwood.Grow` | methods/westwood.py:55-60 | below `ssthresh` the window grows by exactly 1, at or above it by exactly `1/cwnd`; a positive window always grows |
| `Westwood.Update` | methods/westwood.py:37-63 | `last_ack_time == ack_time` and `cwnd <= 100` after every call; the loss flag equals the loss argument; a loss sets `ssthresh` to the loss threshold in [2, 100] and `cwnd = ssthresh`; without loss `ssthresh` is kept and the window grows; a non-negative window keeps the estimate non-negative; a positive window stays positive |
| `Westwood.RunKeepsEstimate` | methods/westwood.py:40-63 | from a positive window and a non-negative estimate, no update divides by zero, the estimate stays non-negative and the window positive |
| `Westwood.TcpWestwood.constructor` | methods/westwood.py:28-34 | fields start as given, with estimate 0, no last ACK time and no loss flag |
| `Westwood.TcpWestwood.UpdateCwnd` | methods/westwood.py:37-63 | rewrites the fields in place exactly as `Westwood.Update` describes |
| `Westwood.TcpWestwood.SampleBandwidth` | methods/westwood.py:40-44 | updates only the estimate, to `Westwood.Estimate` of the old state |
| `HyStart.NewMinRtt` | methods/hystart.py:38-39 | the new minimum RTT is `min(old, rtt)`, and `rtt` itself when the old one is infinity |
| `HyStart.Update` | methods/hystart.py:34-65 | `ack_count` goes up by exactly 1, `prev_rtt == rtt`, `min_rtt` is updated, `cwnd <= 100`; a loss sets `ssthresh = max(cwnd // 2, 2)`, leaves slow start, and then the avoidance growth gives `cwnd = min(ssthresh + 1, 100)`; a delay exit (slow start, a previous RTT, `rtt > 1.25·min_rtt` with `min_rtt` already updated) sets `ssthresh = cwnd`, leaves slow start, and gives `cwnd = min(cwnd + 1, 100)`; otherwise slow start doubles and avoidance adds 1; slow start is never re-entered; the loss flag is never cleared |
| `HyStart.RunIsMonotone` | methods/hystart.py:35-52 | over any run: `ack_count` grows by the number of calls, slow start once left stays left, a reported loss stays reported |
| `HyStart.RunMinRtt` | methods/hystart.py:25-39 | after a non-empty run, `min_rtt` is finite and at most every RTT of the run |
| `HyStart.RunMinRttBelow` | methods/hystart.py:38-39 | a run never raises a finite `min_rtt` |
| `HyStart.TcpHyStart.constructor` | methods/hystart.py:22-31 | fields start as given, with infinite `min_rtt`, no previous RTT, slow start on, count 0 and no loss flag |
| `HyStart.FirstAckDoubles` | methods/hystart.py:22-58 | from the constructor defaults (`cwnd = 1`, `ssthresh = 64`), a first ACK without loss doubles the window to 2, stays in slow start and takes its RTT as the minimum |
| `HyStart.TcpHyStart.UpdateCwnd` | methods/hystart.py:34-65 | rewrites the fields in place exactly as `HyStart.Update` describes |
| `Simulation.Uniform` | simulation.py:48 | `random.uniform(a, b)` as CPython computes it, `a + (b − a)·u`: the draw 0 gives `a`, the draw 1 gives `b`, equal bounds give that bound |
| `Simulation.UniformBetween` | simulation.py:48 | `random.uniform(a, b)` of a draw in [0, 1] lies between `a` and `b` |
| `Simulation.ExtraDelay` | simulation.py:54-61 | the ACK at the saturation event gets 0.1; a later ACK, when the event lies at 1 or above, gets 0.05; any other ACK gets 0; the delay is never negative |
| `Simulation.SaturationBurst` | simulation.py:48-56 | the saturation event's ACK arrives at the previous time plus the base interval, its jitter and 0.1, so at least the base interval less the absolute jitter, plus 0.1, after the previous ACK |
| `Simulation.SaturationIsPermanent` | simulation.py:56-61 | once an ACK carries extra delay, every later ACK carries the 0.05 delay: saturation is never left |
| `Simulation.ArrivalTime` | simulation.py:46-68 | the time of ACK k, built ACK by ACK from the previous time, the base interval, the jitter and the extra delay; without jitter and before any saturation it is exactly `k·base_interval` |
| `Simulation.ArrivalsIncrease` | simulation.py:48-68 | with the jitter below the base interval and every draw in [0, 1], arrival times strictly increase |
| `Simulation.GenerateAckArray` | simulation.py:22-70 | returns exactly `num_acks` ACKs (none when `num_acks <= 0`), numbered 1, 2, …; ACK k is lost iff its draw is below `min(loss_prob, 0.25)`; its time is the previous time plus the base interval, the jitter, 0.1 at the saturation event and 0.05 at every later ACK when the event lies in 1 .. `num_acks` |
| `Simulation.Step` | simulation.py:93 | the driver's two-argument call keeps the controller kind and leaves `cwnd <= 100` |
| `Simulation.UsualStartRunDefined` | simulation.py:92-93 | from a usual starting state (any Reno window; AIMD window in [1, 100]; CUBIC window in [0, 100] with non-negative `W_max`; positive Westwood window with non-negative estimate) every `update_cwnd` of the driver loop is defined, for any ACK array |
| `Simulation.Sim` | simulation.py:73-101 | the four traces have the ACK array's length, the time stamps are the ACK times in order, every loss entry is 0 or 1, every window entry is at most 100 |
| `Simulation.TraceIsStateAfterUpdate` | simulation.py:92-99 | entry i of the trace holds the controller's `cwnd`, `ssthresh` and loss flag (as 1 or 0) right after the update for ACK i |
| `Simulation.UpdateCwnd` | simulation.py:93 | calls the held controller's `update_cwnd(ack_time, loss_event)`; its new state is `Simulation.Step` of the old one |
| `Simulation.Simulate` | simulation.py:73-101 | the loop leaves the controller in the final state of `Simulation.Sim` and returns exactly its four traces |

## Left out

- Command-line parsing, method selection, the `0 < loss_prob <= 1` assertion and plotting (simulation.py:104-194): option wiring and user interface.
- `logging.debug` and `print` calls in the controllers: output only, no effect on state.
- Seeding and the Mersenne Twister behind `random`: the draws are inputs. The source takes the jitter draw and the loss draw of each ACK from one stream, in that order. The model takes them as two sequences, with draw k of each belonging to ACK k + 1.
- IEEE-754 rounding: all arithmetic is exact. For example `1 − 0.7` is exactly 0.3 here.
- The cube root is abstract: the model does not say what `∛` returns, only that all of its properties hold whatever it returns.
- Python's dynamic typing: Reno's and HyStart's windows are modelled as integers. That is what the default and command-line values are; a float window would make `//` floor a float.
- Python's complex result for a negative `W_max`, and the `ZeroDivisionError` of a zero window: modelled as the `Defined` preconditions, not as exceptions.
- Default arguments of `generate_ack_array` (`num_acks = 100`, `base_interval = 0.1`, `loss_prob = 0.1`, `jitter = 0.02`, `saturation_event = 80`): the model takes all five as explicit arguments. The sixth, `seed = None`, only seeds `random`, and the model replaces `random` with the two draw sequences.
- Default arguments of the `update_cwnd` flags (`loss_event`, and Reno's `timeout` and `dup_ack`, all `False`): the model takes them as explicit arguments; `Simulation.Step` passes `false` for Reno's two extra flags, as the driver's two-argument call does.
- Constructor default arguments: the constructors take both values. The defaults are the constants `InitialCwnd` and `InitialSsthresh`, and `HyStartInitialSsthresh` for HyStart.
- Fields with no behaviour: `RTO_THRESHOLD` in Reno, `in_slow_start` in AIMD (written, never read), and `delay_threshold` in HyStart (a constant, `DelayThreshold`).
- `__repr__` methods and the `numpy` imports.
- HyStart in the driver: its `update_cwnd(ack_time, rtt, loss_event)` would receive the loss flag as its RTT, so `simulate` is modelled for the four controllers whose signature matches.
