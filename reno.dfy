/** TCP Reno: slow start, fast recovery and congestion avoidance on an
    integer window, with a duplicate-ACK counter whose third increment
    re-applies the loss transition within the same update. */
module Reno {
  import opened Common

  /** The fields of a Reno controller. */
  datatype RenoState = RenoState(
    cwnd: int,
    ssthresh: int,
    dupAckCount: nat,
    lastAck: Option<real>,
    inSlowStart: bool,
    inFastRecovery: bool,
    lossEvent: bool)

  /** The state a fresh controller starts in. */
  function Init(cwnd: int, ssthresh: int): RenoState
  {
    RenoState(cwnd, ssthresh, 0, None, true, false, false)
  }

  /** The first stage of an update: the loss flag is cleared, then exactly one
      of the time-out, loss, slow-start, fast-recovery and avoidance rules. */
  function Phase(s: RenoState, loss: bool, timeout: bool): RenoState
  {
    var s := s.(lossEvent := false);
    if timeout then
      s.(ssthresh := MaxInt(s.cwnd / 2, 2), cwnd := 1, dupAckCount := 0,
         inSlowStart := true, inFastRecovery := false)
    else if loss then
      var th := MaxInt(s.cwnd / 2, 2);
      s.(ssthresh := th, cwnd := th, inSlowStart := false, inFastRecovery := true, lossEvent := true)
    else if s.inSlowStart then
      var c := s.cwnd * 2;
      s.(cwnd := c, inSlowStart := !(c >= s.ssthresh))
    else if s.inFastRecovery then
      s.(cwnd := s.cwnd + 1)
    else
      s.(cwnd := s.cwnd + 1)
  }

  /** The last stage of an update: clamp the window and record the ACK time. */
  function Finish(s: RenoState, ackTime: real): RenoState
  {
    s.(cwnd := MinInt(s.cwnd, CwndMax), lastAck := Some(ackTime))
  }

  /** What the nested call update_cwnd(ack_time, loss_event=True) does to the
      state it is handed: a loss update with no time-out and no duplicate ACK. */
  function LossReentry(s: RenoState, ackTime: real): RenoState
  {
    Finish(Phase(s, true, false), ackTime)
  }

  /** Duplicate-ACK bookkeeping on the state left by Phase (whose lastAck is
      still the previous ACK's time). */
  function DupAck(s: RenoState, ackTime: real, dupAck: bool): RenoState
  {
    if !dupAck then s
    else if s.lastAck == Some(ackTime) then
      var s1 := s.(dupAckCount := s.dupAckCount + 1);
      if s1.dupAckCount == 3 then LossReentry(s1, ackTime) else s1
    else
      s.(dupAckCount := 0)
  }

  /** The counter value Phase leaves behind. */
  function CountAfterPhase(s: RenoState, timeout: bool): nat
  {
    if timeout then 0 else s.dupAckCount
  }

  /** The update re-applies the loss transition: a duplicate ACK at the
      previous ACK's time takes the counter to exactly 3. */
  predicate FastRetransmit(s: RenoState, ackTime: real, timeout: bool, dupAck: bool)
  {
    dupAck && s.lastAck == Some(ackTime) && CountAfterPhase(s, timeout) + 1 == 3
  }

  /** One call of update_cwnd(ack_time, loss_event, timeout, dup_ack). */
  function Update(s: RenoState, ackTime: real, loss: bool, timeout: bool, dupAck: bool): (r: RenoState)
    // every call clamps the window and records the ACK time
    ensures r.cwnd <= CwndMax && r.lastAck == Some(ackTime)
    // a window of at least one segment stays at least one segment
    ensures s.cwnd >= 1 ==> 1 <= r.cwnd
    // time-out: halve into ssthresh (floor, at least 2), restart slow start
    ensures timeout ==>
      r.cwnd == 1 && r.ssthresh == MaxInt(s.cwnd / 2, 2) &&
      r.inSlowStart && !r.inFastRecovery && !r.lossEvent
    // loss without time-out: window and threshold both become the halved window
    ensures !timeout && loss && !FastRetransmit(s, ackTime, timeout, dupAck) ==>
      r.ssthresh == MaxInt(s.cwnd / 2, 2) && r.ssthresh >= 2 &&
      r.cwnd == MinInt(r.ssthresh, CwndMax) &&
      r.inFastRecovery && !r.inSlowStart && r.lossEvent
    // slow start doubles, and ends exactly when the doubled window reaches ssthresh
    ensures !timeout && !loss && s.inSlowStart && !FastRetransmit(s, ackTime, timeout, dupAck) ==>
      r.cwnd == MinInt(2 * s.cwnd, CwndMax) && r.ssthresh == s.ssthresh &&
      r.inSlowStart == (2 * s.cwnd < s.ssthresh) && r.inFastRecovery == s.inFastRecovery &&
      !r.lossEvent
    // fast recovery and congestion avoidance add one segment
    ensures !timeout && !loss && !s.inSlowStart && !FastRetransmit(s, ackTime, timeout, dupAck) ==>
      r.cwnd == MinInt(s.cwnd + 1, CwndMax) && r.ssthresh == s.ssthresh &&
      !r.inSlowStart && r.inFastRecovery == s.inFastRecovery && !r.lossEvent
    // the third duplicate ACK applies the loss transition on top of the growth
    ensures FastRetransmit(s, ackTime, timeout, dupAck) ==>
      var grown := if loss then MaxInt(s.cwnd / 2, 2) else if s.inSlowStart then 2 * s.cwnd else s.cwnd + 1;
      r.ssthresh == MaxInt(grown / 2, 2) &&
      r.cwnd == MinInt(r.ssthresh, CwndMax) &&
      r.inFastRecovery && !r.inSlowStart && r.lossEvent
    // the loss flag reports a loss argument or a fast retransmit, never a time-out alone
    ensures r.lossEvent <==> (!timeout && loss) || FastRetransmit(s, ackTime, timeout, dupAck)
    // the duplicate-ACK counter
    ensures r.dupAckCount ==
      if !dupAck then CountAfterPhase(s, timeout)
      else if s.lastAck == Some(ackTime) then CountAfterPhase(s, timeout) + 1
      else 0
  {
    Finish(DupAck(Phase(s, loss, timeout), ackTime, dupAck), ackTime)
  }

  /** The helper for the nested call is exactly update_cwnd with loss_event
      set and the other two flags left at their defaults. */
  lemma ReentryIsLossUpdate(s: RenoState, ackTime: real)
    ensures LossReentry(s, ackTime) == Update(s, ackTime, true, false, false)
  {
  }

  /** Three duplicate ACKs at the time of the previous ACK: only the third
      reports a loss, and a fourth does not report another. */
  lemma TripleDuplicateAck(s: RenoState, t: real)
    requires s.lastAck == Some(t) && s.dupAckCount == 0
    ensures
      var s1 := Update(s, t, false, false, true);
      var s2 := Update(s1, t, false, false, true);
      var s3 := Update(s2, t, false, false, true);
      var s4 := Update(s3, t, false, false, true);
      !s1.lossEvent && !s2.lossEvent && s3.lossEvent && s3.inFastRecovery &&
      s3.dupAckCount == 3 && !s4.lossEvent && s4.dupAckCount == 4
  {
  }

  /** When the previous ACK carried a different time, the first duplicate only
      resets the counter, so the loss fires on the fourth call. */
  lemma DuplicateAfterNewAck(s: RenoState, t: real)
    requires s.lastAck != Some(t)
    ensures
      var s1 := Update(s, t, false, false, true);
      var s2 := Update(s1, t, false, false, true);
      var s3 := Update(s2, t, false, false, true);
      var s4 := Update(s3, t, false, false, true);
      s1.dupAckCount == 0 && !s3.lossEvent && s4.lossEvent
  {
  }

  /** The inputs of one update_cwnd call. */
  datatype RenoEvent = RenoEvent(ackTime: real, loss: bool, timeout: bool, dupAck: bool)

  /** The state after feeding a sequence of events, in order. */
  function Run(s: RenoState, events: seq<RenoEvent>): RenoState
    decreases |events|
  {
    if events == [] then s
    else
      var e := events[0];
      Run(Update(s, e.ackTime, e.loss, e.timeout, e.dupAck), events[1..])
  }

  /** Starting from an integer window in [1, 100], every sequence of updates
      keeps the window in [1, 100]. */
  lemma {:induction false} RunKeepsWindow(s: RenoState, events: seq<RenoEvent>)
    requires 1 <= s.cwnd <= CwndMax
    ensures 1 <= Run(s, events).cwnd <= CwndMax
    decreases |events|
  {
    if events != [] {
      var e := events[0];
      RunKeepsWindow(Update(s, e.ackTime, e.loss, e.timeout, e.dupAck), events[1..]);
    }
  }

  /** A Reno controller whose fields update_cwnd rewrites in place. */
  class TcpReno {
    var cwnd: int
    var ssthresh: int
    var dupAckCount: nat
    var lastAck: Option<real>
    var inSlowStart: bool
    var inFastRecovery: bool
    var lossEvent: bool

    function State(): RenoState
      reads this
    {
      RenoState(cwnd, ssthresh, dupAckCount, lastAck, inSlowStart, inFastRecovery, lossEvent)
    }

    constructor (initialCwnd: int, initialSsthresh: int)
      ensures State() == Init(initialCwnd, initialSsthresh)
    {
      cwnd := initialCwnd;
      ssthresh := initialSsthresh;
      dupAckCount := 0;
      lastAck := None;
      inSlowStart := true;
      inFastRecovery := false;
      lossEvent := false;
    }

    method UpdateCwnd(ackTime: real, loss: bool, timeout: bool, dupAck: bool)
      modifies this
      ensures State() == Update(old(State()), ackTime, loss, timeout, dupAck)
    {
      lossEvent := false;
      if timeout {
        ssthresh := MaxInt(cwnd / 2, 2);
        cwnd := 1;
        dupAckCount := 0;
        inSlowStart := true;
        inFastRecovery := false;
      } else if loss {
        ssthresh := MaxInt(cwnd / 2, 2);
        cwnd := ssthresh;
        inSlowStart := false;
        inFastRecovery := true;
        lossEvent := true;
      } else if inSlowStart {
        cwnd := cwnd * 2;
        if cwnd >= ssthresh {
          inSlowStart := false;
        }
      } else if inFastRecovery {
        cwnd := cwnd + 1;
      } else {
        cwnd := cwnd + 1;
      }

      if dupAck {
        if lastAck == Some(ackTime) {
          dupAckCount := dupAckCount + 1;
          if dupAckCount == 3 {
            EnterFastRecovery(ackTime);
          }
        } else {
          dupAckCount := 0;
        }
      }

      cwnd := MinInt(cwnd, CwndMax);
      lastAck := Some(ackTime);
    }

    /** The body of the nested update_cwnd(ack_time, loss_event=True) call. */
    method EnterFastRecovery(ackTime: real)
      modifies this
      ensures State() == LossReentry(old(State()), ackTime)
    {
      lossEvent := false;
      ssthresh := MaxInt(cwnd / 2, 2);
      cwnd := ssthresh;
      inSlowStart := false;
      inFastRecovery := true;
      lossEvent := true;
      cwnd := MinInt(cwnd, CwndMax);
      lastAck := Some(ackTime);
    }
  }
}
