/** HyStart: slow start left either on loss or when the RTT rises above
    1.25 times the smallest RTT seen so far. */
module HyStart {
  import opened Common

  /** RTT increase, relative to the minimum RTT, that ends slow start. */
  const DelayThreshold: real := 1.25
  /** This controller's constructor default for ssthresh. */
  const HyStartInitialSsthresh: int := 64

  /** The fields of a HyStart controller; minRtt == None stands for the
      initial value infinity. */
  datatype HyStartState = HyStartState(
    cwnd: int,
    ssthresh: int,
    minRtt: Option<real>,
    prevRtt: Option<real>,
    inSlowStart: bool,
    ackCount: int,
    lossEvent: bool)

  function Init(cwnd: int, ssthresh: int): HyStartState
  {
    HyStartState(cwnd, ssthresh, None, None, true, 0, false)
  }

  /** The minimum RTT after seeing rtt: smaller than infinity always, smaller
      than a finite minimum when strictly below it. */
  function NewMinRtt(minRtt: Option<real>, rtt: real): (m: Option<real>)
    ensures m.Some? && m.value <= rtt
    ensures minRtt.None? ==> m == Some(rtt)
    ensures minRtt.Some? ==> m.value == MinReal(minRtt.value, rtt)
  {
    if minRtt.None? || rtt < minRtt.value then Some(rtt) else minRtt
  }

  /** The update leaves slow start because the RTT grew (the test uses the
      minimum that already includes rtt). */
  predicate DelayExit(s: HyStartState, rtt: real, loss: bool)
  {
    !loss && s.inSlowStart && s.prevRtt.Some? &&
    rtt > NewMinRtt(s.minRtt, rtt).value * DelayThreshold
  }

  /** One call of update_cwnd(ack_time, rtt, loss_event); ack_time is not used
      by the source. */
  function Update(s: HyStartState, ackTime: real, rtt: real, loss: bool): (r: HyStartState)
    ensures r.ackCount == s.ackCount + 1 && r.prevRtt == Some(rtt)
    ensures r.minRtt == NewMinRtt(s.minRtt, rtt)
    ensures r.cwnd <= CwndMax
    // loss: halve into ssthresh (floor, at least 2), leave slow start, then grow by one
    ensures loss ==>
      r.ssthresh == MaxInt(s.cwnd / 2, 2) && !r.inSlowStart &&
      r.cwnd == MinInt(r.ssthresh + 1, CwndMax)
    // delay exit: ssthresh is the current window, then grow by one
    ensures DelayExit(s, rtt, loss) ==>
      r.ssthresh == s.cwnd && !r.inSlowStart && r.cwnd == MinInt(s.cwnd + 1, CwndMax)
    // otherwise slow start doubles
    ensures !loss && !DelayExit(s, rtt, loss) && s.inSlowStart ==>
      r.inSlowStart && r.ssthresh == s.ssthresh && r.cwnd == MinInt(2 * s.cwnd, CwndMax)
    // and congestion avoidance adds one segment
    ensures !loss && !s.inSlowStart ==>
      !r.inSlowStart && r.ssthresh == s.ssthresh && r.cwnd == MinInt(s.cwnd + 1, CwndMax)
    // slow start is never re-entered, and the loss flag is never cleared
    ensures r.inSlowStart ==> s.inSlowStart
    ensures r.lossEvent == (s.lossEvent || loss)
  {
    var s := s.(ackCount := s.ackCount + 1);
    var s := s.(minRtt := if s.minRtt.None? || rtt < s.minRtt.value then Some(rtt) else s.minRtt);
    var s :=
      if loss then
        var th := MaxInt(s.cwnd / 2, 2);
        s.(ssthresh := th, cwnd := th, inSlowStart := false, lossEvent := true)
      else if s.inSlowStart && s.prevRtt.Some? then
        if rtt > s.minRtt.value * DelayThreshold then
          s.(ssthresh := s.cwnd, inSlowStart := false)
        else s
      else s;
    var s := if s.inSlowStart then s.(cwnd := s.cwnd * 2) else s.(cwnd := s.cwnd + 1);
    s.(cwnd := MinInt(s.cwnd, CwndMax), prevRtt := Some(rtt))
  }

  /** From the constructor defaults, a first ACK without loss doubles the
      window, stays in slow start (there is no previous RTT to compare) and
      records its RTT as the minimum. */
  lemma FirstAckDoubles(ackTime: real, rtt: real)
    ensures
      var r := Update(Init(InitialCwnd, HyStartInitialSsthresh), ackTime, rtt, false);
      r.cwnd == 2 && r.inSlowStart && r.minRtt == Some(rtt) && r.ssthresh == HyStartInitialSsthresh
  {
  }

  /** The inputs of one update_cwnd call. */
  datatype RttInput = RttInput(ackTime: real, rtt: real, loss: bool)

  function Run(s: HyStartState, inputs: seq<RttInput>): HyStartState
    decreases |inputs|
  {
    if inputs == [] then s
    else Run(Update(s, inputs[0].ackTime, inputs[0].rtt, inputs[0].loss), inputs[1..])
  }

  /** Over any sequence of updates: one count per ACK, slow start once left
      stays left, a reported loss stays reported. */
  lemma {:induction false} RunIsMonotone(s: HyStartState, inputs: seq<RttInput>)
    ensures Run(s, inputs).ackCount == s.ackCount + |inputs|
    ensures Run(s, inputs).inSlowStart ==> s.inSlowStart
    ensures s.lossEvent ==> Run(s, inputs).lossEvent
    decreases |inputs|
  {
    if inputs != [] {
      RunIsMonotone(Update(s, inputs[0].ackTime, inputs[0].rtt, inputs[0].loss), inputs[1..]);
    }
  }

  /** The minimum RTT after a run is at most every RTT of the run. */
  lemma {:induction false} RunMinRtt(s: HyStartState, inputs: seq<RttInput>)
    requires inputs != []
    ensures Run(s, inputs).minRtt.Some?
    ensures forall i :: 0 <= i < |inputs| ==> Run(s, inputs).minRtt.value <= inputs[i].rtt
    decreases |inputs|
  {
    var s1 := Update(s, inputs[0].ackTime, inputs[0].rtt, inputs[0].loss);
    if |inputs| > 1 {
      RunMinRtt(s1, inputs[1..]);
      RunMinRttBelow(s1, inputs[1..]);
      assert forall i :: 1 <= i < |inputs| ==> inputs[i] == inputs[1..][i - 1];
    }
  }

  /** A run never raises the minimum RTT. */
  lemma {:induction false} RunMinRttBelow(s: HyStartState, inputs: seq<RttInput>)
    requires s.minRtt.Some?
    ensures Run(s, inputs).minRtt.Some? && Run(s, inputs).minRtt.value <= s.minRtt.value
    decreases |inputs|
  {
    if inputs != [] {
      RunMinRttBelow(Update(s, inputs[0].ackTime, inputs[0].rtt, inputs[0].loss), inputs[1..]);
    }
  }

  /** A HyStart controller whose fields update_cwnd rewrites in place. */
  class TcpHyStart {
    var cwnd: int
    var ssthresh: int
    var minRtt: Option<real>
    var prevRtt: Option<real>
    var inSlowStart: bool
    var ackCount: int
    var lossEvent: bool

    function State(): HyStartState
      reads this
    {
      HyStartState(cwnd, ssthresh, minRtt, prevRtt, inSlowStart, ackCount, lossEvent)
    }

    constructor (initialCwnd: int, initialSsthresh: int)
      ensures State() == Init(initialCwnd, initialSsthresh)
    {
      cwnd := initialCwnd;
      ssthresh := initialSsthresh;
      minRtt := None;
      prevRtt := None;
      inSlowStart := true;
      ackCount := 0;
      lossEvent := false;
    }

    method UpdateCwnd(ackTime: real, rtt: real, loss: bool)
      modifies this
      ensures State() == Update(old(State()), ackTime, rtt, loss)
    {
      ackCount := ackCount + 1;
      if minRtt.None? || rtt < minRtt.value {
        minRtt := Some(rtt);
      }
      if loss {
        ssthresh := MaxInt(cwnd / 2, 2);
        cwnd := ssthresh;
        inSlowStart := false;
        lossEvent := true;
      } else if inSlowStart && prevRtt.Some? {
        if rtt > minRtt.value * DelayThreshold {
          ssthresh := cwnd;
          inSlowStart := false;
        }
      }
      if inSlowStart {
        cwnd := cwnd * 2;
      } else {
        cwnd := cwnd + 1;
      }
      cwnd := MinInt(cwnd, CwndMax);
      prevRtt := Some(rtt);
    }
  }
}
