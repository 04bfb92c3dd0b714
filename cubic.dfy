/** CUBIC: time-out, multiplicative decrease by 0.7, linear slow start and a
    cubic growth function of the time elapsed since the first ACK. The cube
    root is the one operation left abstract: every function that needs it
    takes it as a parameter `cubeRoot`. */
module Cubic {
  import opened Common

  /** Scaling factor of the cubic function. */
  const C: real := 0.4
  /** Multiplicative decrease factor. */
  const Beta: real := 0.7

  /** The fields of a CUBIC controller. */
  datatype CubicState = CubicState(
    cwnd: real,
    ssthresh: real,
    wMax: Option<real>,
    lastLossTime: Option<real>,
    startTime: Option<real>,
    lastAckTime: Option<real>,
    lossEvent: bool)

  function Init(cwnd: real, ssthresh: real): CubicState
  {
    CubicState(cwnd, ssthresh, None, None, None, None, false)
  }

  function Cube(x: real): real
  {
    x * x * x
  }

  /** The window the cubic function gives at time t for the window maximum
      wMax: C·(t − K)³ + wMax with K = ∛(wMax·(1 − β)/C). */
  function Window(wMax: real, t: real, cubeRoot: real -> real): (w: real)
    // at the inflection point K the window is exactly wMax
    ensures t == cubeRoot(wMax * (1.0 - Beta) / C) ==> w == wMax
  {
    C * Cube(t - cubeRoot(wMax * (1.0 - Beta) / C)) + wMax
  }

  lemma SquareNonneg(x: real)
    ensures x * x >= 0.0
  {
    if x < 0.0 {
      assert x * x == (-x) * (-x);
    }
  }

  lemma CubeMonotone(a: real, b: real)
    requires a <= b
    ensures Cube(a) <= Cube(b)
  {
    var d := b - a;
    var m := a + b / 2.0;
    assert Cube(b) - Cube(a) == d * (a * a + a * b + b * b);
    assert a * a + a * b + b * b == m * m + 3.0 * b * b / 4.0;
    SquareNonneg(m);
    SquareNonneg(b);
    assert a * a + a * b + b * b >= 0.0;
    assert d >= 0.0;
  }

  lemma CubeSign(x: real)
    ensures Cube(x) >= 0.0 <==> x >= 0.0
  {
    if x >= 0.0 {
      CubeMonotone(0.0, x);
    } else {
      assert x * x > 0.0;
      assert Cube(x) == (x * x) * x;
    }
  }

  /** Whatever the cube root returns, the cubic window grows with time. */
  lemma WindowMonotone(wMax: real, t1: real, t2: real, cubeRoot: real -> real)
    requires t1 <= t2
    ensures Window(wMax, t1, cubeRoot) <= Window(wMax, t2, cubeRoot)
  {
    var k := cubeRoot(wMax * (1.0 - Beta) / C);
    CubeMonotone(t1 - k, t2 - k);
  }

  /** The window is at or above wMax exactly from the inflection point K on. */
  lemma WindowPlateau(wMax: real, t: real, cubeRoot: real -> real)
    ensures var k := cubeRoot(wMax * (1.0 - Beta) / C);
      Window(wMax, t, cubeRoot) >= wMax <==> t >= k
  {
    var k := cubeRoot(wMax * (1.0 - Beta) / C);
    CubeSign(t - k);
  }

  /** The window maximum cubic_wnd works with: the stored one, or the current
      window when none is stored yet. */
  function LazyWMax(s: CubicState): real
  {
    if s.wMax.None? then s.cwnd else s.wMax.value
  }

  /** Time since the first ACK (the start time is set by this very call when unset). */
  function Elapsed(s: CubicState, ackTime: real): real
  {
    ackTime - (if s.startTime.Some? then s.startTime.value else ackTime)
  }

  predicate TimedOut(lastAckTime: Option<real>, ackTime: real)
  {
    lastAckTime.Some? && ackTime - lastAckTime.value > RtoThreshold
  }

  /** The update reaches the cubic growth branch. */
  predicate Avoidance(s: CubicState, ackTime: real, loss: bool)
  {
    !TimedOut(s.lastAckTime, ackTime) && !loss && !(s.cwnd < s.ssthresh)
  }

  /** The cube root is taken of a non-negative number (for a negative one the
      source computes a complex number and the following max() raises). */
  predicate Defined(s: CubicState, ackTime: real, loss: bool)
  {
    Avoidance(s, ackTime, loss) ==> LazyWMax(s) >= 0.0
  }

  /** One call of update_cwnd(ack_time, loss_event). */
  function Update(s: CubicState, ackTime: real, loss: bool, cubeRoot: real -> real): (r: CubicState)
    requires Defined(s, ackTime, loss)
    ensures r.cwnd <= CwndMax as real && r.lastAckTime == Some(ackTime)
    ensures r.startTime == if s.startTime.None? then Some(ackTime) else s.startTime
    // a time-out restarts at one segment and keeps ssthresh and W_max
    ensures TimedOut(s.lastAckTime, ackTime) ==>
      r.cwnd == 1.0 && r.ssthresh == s.ssthresh && r.wMax == s.wMax &&
      r.lastLossTime == s.lastLossTime
    ensures r.lossEvent <==> !TimedOut(s.lastAckTime, ackTime) && loss
    // loss: remember the window, back off by 0.7, stamp the loss time
    ensures !TimedOut(s.lastAckTime, ackTime) && loss ==>
      r.wMax == Some(s.cwnd) &&
      r.cwnd == MinReal(Beta * s.cwnd, CwndMax as real) &&
      r.ssthresh == MaxReal(Beta * s.cwnd, 1.0) &&
      r.lastLossTime == Some(Elapsed(s, ackTime))
    // slow start adds one segment
    ensures !TimedOut(s.lastAckTime, ackTime) && !loss && s.cwnd < s.ssthresh ==>
      r.cwnd == MinReal(s.cwnd + 1.0, CwndMax as real) &&
      r.ssthresh == s.ssthresh && r.wMax == s.wMax && r.lastLossTime == s.lastLossTime
    // cubic growth never leaves less than one segment, and sets W_max if unset
    ensures Avoidance(s, ackTime, loss) ==>
      1.0 <= r.cwnd &&
      r.cwnd == MinReal(MaxReal(Window(LazyWMax(s), Elapsed(s, ackTime), cubeRoot), 1.0), CwndMax as real) &&
      r.wMax == Some(LazyWMax(s)) && r.ssthresh == s.ssthresh && r.lastLossTime == s.lastLossTime
    // a non-negative window and W_max stay non-negative
    ensures s.cwnd >= 0.0 && (s.wMax.Some? ==> s.wMax.value >= 0.0) ==>
      r.cwnd >= 0.0 && (r.wMax.Some? ==> r.wMax.value >= 0.0)
  {
    var s := s.(startTime := if s.startTime.None? then Some(ackTime) else s.startTime,
                lossEvent := false);
    var elapsed := ackTime - s.startTime.value;
    var s :=
      if TimedOut(s.lastAckTime, ackTime) then
        s.(cwnd := Mss as real)
      else if loss then
        var c := s.cwnd * Beta;
        s.(wMax := Some(s.cwnd), cwnd := c, ssthresh := MaxReal(c, 1.0),
           lastLossTime := Some(elapsed), lossEvent := true)
      else if s.cwnd < s.ssthresh then
        s.(cwnd := s.cwnd + Mss as real)
      else
        var w := LazyWMax(s);
        s.(wMax := Some(w), cwnd := MaxReal(Window(w, elapsed, cubeRoot), Mss as real));
    s.(cwnd := MinReal(s.cwnd, CwndMax as real), lastAckTime := Some(ackTime))
  }

  predicate RunDefined(s: CubicState, inputs: seq<AckInput>, cubeRoot: real -> real)
    decreases |inputs|
  {
    inputs == [] ||
    (Defined(s, inputs[0].time, inputs[0].loss) &&
     RunDefined(Update(s, inputs[0].time, inputs[0].loss, cubeRoot), inputs[1..], cubeRoot))
  }

  function Run(s: CubicState, inputs: seq<AckInput>, cubeRoot: real -> real): CubicState
    requires RunDefined(s, inputs, cubeRoot)
    decreases |inputs|
  {
    if inputs == [] then s
    else Run(Update(s, inputs[0].time, inputs[0].loss, cubeRoot), inputs[1..], cubeRoot)
  }

  /** From a non-negative window (and W_max), every update takes the cube root
      of a non-negative number, and the window stays in [0, 100]. */
  lemma {:induction false} RunStaysDefined(s: CubicState, inputs: seq<AckInput>, cubeRoot: real -> real)
    requires 0.0 <= s.cwnd <= CwndMax as real && (s.wMax.Some? ==> s.wMax.value >= 0.0)
    ensures RunDefined(s, inputs, cubeRoot) && 0.0 <= Run(s, inputs, cubeRoot).cwnd <= CwndMax as real
    decreases |inputs|
  {
    if inputs != [] {
      RunStaysDefined(Update(s, inputs[0].time, inputs[0].loss, cubeRoot), inputs[1..], cubeRoot);
    }
  }

  /** The start time is fixed by the first ACK, so elapsed time is always
      measured from it. */
  lemma {:induction false} RunKeepsStartTime(s: CubicState, inputs: seq<AckInput>, cubeRoot: real -> real)
    requires RunDefined(s, inputs, cubeRoot)
    ensures Run(s, inputs, cubeRoot).startTime ==
      if s.startTime.None? && inputs != [] then Some(inputs[0].time) else s.startTime
    decreases |inputs|
  {
    if inputs != [] {
      RunKeepsStartTime(Update(s, inputs[0].time, inputs[0].loss, cubeRoot), inputs[1..], cubeRoot);
    }
  }

  /** A loss at a one-segment window leaves the window below one segment and
      ssthresh at 1: the back-off is not floored at MSS. */
  lemma LossBelowOneSegment(cubeRoot: real -> real)
    ensures
      var r := Update(Init(InitialCwnd as real, InitialSsthresh as real), 0.0, true, cubeRoot);
      r.cwnd == 0.7 && r.ssthresh == 1.0
  {
  }

  /** A CUBIC controller whose fields update_cwnd rewrites in place. */
  class TcpCubic {
    var cwnd: real
    var ssthresh: real
    var wMax: Option<real>
    var lastLossTime: Option<real>
    var startTime: Option<real>
    var lastAckTime: Option<real>
    var lossEvent: bool

    function State(): CubicState
      reads this
    {
      CubicState(cwnd, ssthresh, wMax, lastLossTime, startTime, lastAckTime, lossEvent)
    }

    constructor (initialCwnd: real, initialSsthresh: real)
      ensures State() == Init(initialCwnd, initialSsthresh)
    {
      cwnd := initialCwnd;
      ssthresh := initialSsthresh;
      wMax := None;
      lastLossTime := None;
      startTime := None;
      lastAckTime := None;
      lossEvent := false;
    }

    /** cubic_wnd(t): sets W_max to the window when it is unset, then
        evaluates the cubic function. */
    method CubicWnd(t: real, cubeRoot: real -> real) returns (w: real)
      requires LazyWMax(State()) >= 0.0
      modifies this
      ensures wMax == Some(LazyWMax(old(State())))
      ensures w == Window(LazyWMax(old(State())), t, cubeRoot)
      ensures State() == old(State()).(wMax := wMax)
    {
      if wMax.None? {
        wMax := Some(cwnd);
      }
      var k := cubeRoot(wMax.value * (1.0 - Beta) / C);
      w := C * Cube(t - k) + wMax.value;
    }

    method UpdateCwnd(ackTime: real, loss: bool, cubeRoot: real -> real)
      requires Defined(State(), ackTime, loss)
      modifies this
      ensures State() == Update(old(State()), ackTime, loss, cubeRoot)
    {
      if startTime.None? {
        startTime := Some(ackTime);
      }
      lossEvent := false;
      var elapsed := ackTime - startTime.value;
      if lastAckTime.Some? && ackTime - lastAckTime.value > RtoThreshold {
        cwnd := Mss as real;
      } else if loss {
        wMax := Some(cwnd);
        cwnd := cwnd * Beta;
        ssthresh := MaxReal(cwnd, 1.0);
        lastLossTime := Some(elapsed);
        lossEvent := true;
      } else if cwnd < ssthresh {
        cwnd := cwnd + Mss as real;
      } else {
        var w := CubicWnd(elapsed, cubeRoot);
        cwnd := MaxReal(w, Mss as real);
      }
      cwnd := MinReal(cwnd, CwndMax as real);
      lastAckTime := Some(ackTime);
    }
  }
}
