/** AIMD: linear slow start, additive increase by 1/cwnd, multiplicative
    decrease by one half, and a stale-ACK retransmission time-out that takes
    priority over loss. Windows and times are exact rationals. */
module Aimd {
  import opened Common

  /** Multiplicative decrease factor. */
  const Beta: real := 0.5

  /** The fields of an AIMD controller (in_slow_start is written by the source
      but never read, so it is not kept). */
  datatype AimdState = AimdState(
    cwnd: real,
    ssthresh: real,
    startTime: Option<real>,
    lastAckTime: Option<real>,
    lossEvent: bool)

  function Init(cwnd: real, ssthresh: real): AimdState
  {
    AimdState(cwnd, ssthresh, None, None, false)
  }

  /** More than RtoThreshold seconds since the previous ACK. */
  predicate TimedOut(lastAckTime: Option<real>, ackTime: real)
  {
    lastAckTime.Some? && ackTime - lastAckTime.value > RtoThreshold
  }

  /** The update reaches the additive-increase branch. */
  predicate Avoidance(s: AimdState, ackTime: real, loss: bool)
  {
    !TimedOut(s.lastAckTime, ackTime) && !loss && !(s.cwnd < s.ssthresh)
  }

  /** The update does not divide by a zero window (the source raises
      ZeroDivisionError there). */
  predicate Defined(s: AimdState, ackTime: real, loss: bool)
  {
    Avoidance(s, ackTime, loss) ==> s.cwnd != 0.0
  }

  /** One call of update_cwnd(ack_time, loss_event). */
  function Update(s: AimdState, ackTime: real, loss: bool): (r: AimdState)
    requires Defined(s, ackTime, loss)
    ensures r.cwnd <= CwndMax as real && r.lastAckTime == Some(ackTime)
    // the start time is taken from the first call only
    ensures r.startTime == if s.startTime.None? then Some(ackTime) else s.startTime
    // a one-segment window stays within [1, 100]
    ensures s.cwnd >= 1.0 ==> 1.0 <= r.cwnd
    // the time-out wins over loss
    ensures TimedOut(s.lastAckTime, ackTime) ==>
      r.cwnd == 1.0 && r.ssthresh == CwndMax as real && !r.lossEvent
    ensures r.lossEvent <==> !TimedOut(s.lastAckTime, ackTime) && loss
    // multiplicative decrease keeps ssthresh at least 2 and above the window
    ensures !TimedOut(s.lastAckTime, ackTime) && loss ==>
      r.ssthresh == MaxReal(MaxReal(s.ssthresh * Beta, s.cwnd + 1.0), 2.0) &&
      r.cwnd == MinReal(MaxReal(s.cwnd * Beta, 1.0), CwndMax as real) &&
      r.ssthresh >= 2.0 && r.ssthresh > r.cwnd
    // slow start adds one segment
    ensures !TimedOut(s.lastAckTime, ackTime) && !loss && s.cwnd < s.ssthresh ==>
      r.cwnd == MinReal(s.cwnd + 1.0, CwndMax as real) && r.ssthresh == s.ssthresh
    // additive increase adds 1/cwnd; ssthresh tracks the largest window and never drops
    ensures Avoidance(s, ackTime, loss) ==>
      r.cwnd == MinReal(s.cwnd + 1.0 / s.cwnd, CwndMax as real) &&
      r.ssthresh == MaxReal(s.ssthresh, s.cwnd + 1.0 / s.cwnd) &&
      r.ssthresh >= s.ssthresh
  {
    var s := s.(startTime := if s.startTime.None? then Some(ackTime) else s.startTime,
                lossEvent := false);
    var s :=
      if TimedOut(s.lastAckTime, ackTime) then
        s.(cwnd := Mss as real, ssthresh := CwndMax as real)
      else if loss then
        s.(ssthresh := MaxReal(MaxReal(s.ssthresh * Beta, s.cwnd + 1.0), 2.0),
           cwnd := MaxReal(s.cwnd * Beta, 1.0),
           lossEvent := true)
      else if s.cwnd < s.ssthresh then
        s.(cwnd := s.cwnd + Mss as real)
      else
        var c := s.cwnd + Mss as real / s.cwnd;
        s.(cwnd := c, ssthresh := MaxReal(s.ssthresh, c));
    s.(cwnd := MinReal(s.cwnd, CwndMax as real), lastAckTime := Some(ackTime))
  }

  /** Every update of the sequence is defined. */
  predicate RunDefined(s: AimdState, inputs: seq<AckInput>)
    decreases |inputs|
  {
    inputs == [] ||
    (Defined(s, inputs[0].time, inputs[0].loss) &&
     RunDefined(Update(s, inputs[0].time, inputs[0].loss), inputs[1..]))
  }

  /** The state after feeding a sequence of ACKs, in order. */
  function Run(s: AimdState, inputs: seq<AckInput>): AimdState
    requires RunDefined(s, inputs)
    decreases |inputs|
  {
    if inputs == [] then s
    else Run(Update(s, inputs[0].time, inputs[0].loss), inputs[1..])
  }

  /** From a window in [1, 100], no update ever divides by zero and the
      window stays in [1, 100]. */
  lemma {:induction false} RunKeepsWindow(s: AimdState, inputs: seq<AckInput>)
    requires 1.0 <= s.cwnd <= CwndMax as real
    ensures RunDefined(s, inputs) && 1.0 <= Run(s, inputs).cwnd <= CwndMax as real
    decreases |inputs|
  {
    if inputs != [] {
      RunKeepsWindow(Update(s, inputs[0].time, inputs[0].loss), inputs[1..]);
    }
  }

  /** The start time is fixed by the first ACK ever processed. */
  lemma {:induction false} RunKeepsStartTime(s: AimdState, inputs: seq<AckInput>)
    requires RunDefined(s, inputs)
    ensures Run(s, inputs).startTime ==
      if s.startTime.None? && inputs != [] then Some(inputs[0].time) else s.startTime
    decreases |inputs|
  {
    if inputs != [] {
      RunKeepsStartTime(Update(s, inputs[0].time, inputs[0].loss), inputs[1..]);
    }
  }

  /** Starting at cwnd = 10, ssthresh = 80, a loss gives cwnd = 5 and
      ssthresh = max(40, 11, 2) = 40. */
  lemma LossFromTen()
    ensures
      var r := Update(Init(10.0, InitialSsthresh as real), 0.0, true);
      r.cwnd == 5.0 && r.ssthresh == 40.0 && r.lossEvent
  {
  }

  /** An ACK five seconds after one at time zero is a time-out. */
  lemma TimeoutAfterFiveSeconds(s: AimdState)
    requires s.lastAckTime == Some(0.0)
    ensures Update(s, 5.0, true).cwnd == 1.0 && !Update(s, 5.0, true).lossEvent
  {
  }

  /** An AIMD controller whose fields update_cwnd rewrites in place. */
  class TcpAimd {
    var cwnd: real
    var ssthresh: real
    var startTime: Option<real>
    var lastAckTime: Option<real>
    var lossEvent: bool

    function State(): AimdState
      reads this
    {
      AimdState(cwnd, ssthresh, startTime, lastAckTime, lossEvent)
    }

    constructor (initialCwnd: real, initialSsthresh: real)
      ensures State() == Init(initialCwnd, initialSsthresh)
    {
      cwnd := initialCwnd;
      ssthresh := initialSsthresh;
      startTime := None;
      lastAckTime := None;
      lossEvent := false;
    }

    method UpdateCwnd(ackTime: real, loss: bool)
      requires Defined(State(), ackTime, loss)
      modifies this
      ensures State() == Update(old(State()), ackTime, loss)
    {
      if startTime.None? {
        startTime := Some(ackTime);
      }
      lossEvent := false;
      if lastAckTime.Some? && ackTime - lastAckTime.value > RtoThreshold {
        cwnd := Mss as real;
        ssthresh := CwndMax as real;
      } else if loss {
        ssthresh := MaxReal(MaxReal(ssthresh * Beta, cwnd + 1.0), 2.0);
        cwnd := MaxReal(cwnd * Beta, 1.0);
        lossEvent := true;
      } else if cwnd < ssthresh {
        cwnd := cwnd + Mss as real;
      } else {
        cwnd := cwnd + Mss as real / cwnd;
        ssthresh := MaxReal(ssthresh, cwnd);
      }
      cwnd := MinReal(cwnd, CwndMax as real);
      lastAckTime := Some(ackTime);
    }
  }
}
