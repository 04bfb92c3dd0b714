/** TCP Westwood: an exponentially weighted bandwidth estimate, updated on
    every strictly later ACK, sets ssthresh after a loss. */
module Westwood {
  import opened Common

  /** The fields of a Westwood controller. */
  datatype WestwoodState = WestwoodState(
    cwnd: real,
    bwEst: real,
    ssthresh: real,
    lastAckTime: Option<real>,
    lossEvent: bool)

  /** A fresh controller: no bandwidth estimate yet. */
  function Init(cwnd: real, ssthresh: real): WestwoodState
  {
    WestwoodState(cwnd, 0.0, ssthresh, None, false)
  }

  /** The ACK is strictly later than a previous one, so a rate sample exists. */
  predicate HasSample(s: WestwoodState, ackTime: real)
  {
    s.lastAckTime.Some? && ackTime > s.lastAckTime.value
  }

  /** The update reaches the 1/cwnd growth branch. */
  predicate Avoidance(s: WestwoodState, loss: bool)
  {
    !loss && !(s.cwnd < s.ssthresh)
  }

  /** The update does not divide by a zero window (the source raises
      ZeroDivisionError there). */
  predicate Defined(s: WestwoodState, loss: bool)
  {
    Avoidance(s, loss) ==> s.cwnd != 0.0
  }

  /** The bandwidth estimate after the ACK: the 0.9 / 0.1 moving average of
      the old estimate and the rate sample cwnd / (time since the last ACK),
      taken only when the ACK is strictly later. */
  function Estimate(s: WestwoodState, ackTime: real): (bw: real)
    ensures !HasSample(s, ackTime) ==> bw == s.bwEst
    ensures s.cwnd >= 0.0 && s.bwEst >= 0.0 ==> bw >= 0.0
  {
    if s.lastAckTime.Some? && ackTime > s.lastAckTime.value then
      var rttSample := ackTime - s.lastAckTime.value;
      if rttSample > 0.0 then
        var sampleBw := s.cwnd / rttSample;
        0.9 * s.bwEst + 0.1 * sampleBw
      else s.bwEst
    else s.bwEst
  }

  /** The ssthresh a loss sets: int(bwEst * ssthresh) clamped to [2, 100]. */
  function LossThreshold(bwEst: real, ssthresh: real): (th: real)
    ensures 2.0 <= th <= CwndMax as real
    ensures 2.0 <= Trunc(bwEst * ssthresh) as real <= CwndMax as real ==> th == Trunc(bwEst * ssthresh) as real
    // the clamp edges: a large product sticks at 100, a small one at 2
    ensures Trunc(bwEst * ssthresh) >= CwndMax ==> th == CwndMax as real
    ensures Trunc(bwEst * ssthresh) <= 2 ==> th == 2.0
  {
    MinReal(MaxReal(Trunc(bwEst * ssthresh) as real, 2.0), CwndMax as real)
  }

  /** Growth without loss: one segment below ssthresh, 1/cwnd at or above it. */
  function Grow(cwnd: real, ssthresh: real): (c: real)
    requires cwnd < ssthresh || cwnd != 0.0
    ensures cwnd < ssthresh ==> c == cwnd + 1.0
    ensures !(cwnd < ssthresh) ==> c == cwnd + 1.0 / cwnd
    ensures cwnd > 0.0 ==> c > cwnd
  {
    if cwnd < ssthresh then cwnd + 1.0 else cwnd + 1.0 / cwnd
  }

  /** One call of update_cwnd(ack_time, loss_event). */
  function Update(s: WestwoodState, ackTime: real, loss: bool): (r: WestwoodState)
    requires Defined(s, loss)
    ensures r.lastAckTime == Some(ackTime) && r.cwnd <= CwndMax as real
    ensures r.bwEst == Estimate(s, ackTime)
    ensures r.lossEvent == loss
    // loss: ssthresh from the estimate, clamped to [2, 100]; the window follows it
    ensures loss ==>
      r.ssthresh == LossThreshold(r.bwEst, s.ssthresh) &&
      2.0 <= r.ssthresh <= CwndMax as real && r.cwnd == r.ssthresh
    // no loss: ssthresh kept, the window grows
    ensures !loss ==>
      r.ssthresh == s.ssthresh && r.cwnd == MinReal(Grow(s.cwnd, s.ssthresh), CwndMax as real)
    // a non-negative window keeps the estimate non-negative
    ensures s.cwnd >= 0.0 && s.bwEst >= 0.0 ==> r.bwEst >= 0.0
    // a positive window stays positive
    ensures s.cwnd > 0.0 ==> r.cwnd > 0.0
  {
    var s := s.(lossEvent := false);
    var s := s.(bwEst := Estimate(s, ackTime));
    var s := s.(lastAckTime := Some(ackTime));
    var s :=
      if loss then
        var th := LossThreshold(s.bwEst, s.ssthresh);
        s.(ssthresh := th, cwnd := th, lossEvent := true)
      else
        s.(cwnd := Grow(s.cwnd, s.ssthresh));
    s.(cwnd := MinReal(s.cwnd, CwndMax as real))
  }

  /** The estimate moves only on a strictly later ACK, and then by the
      0.9 / 0.1 average with the sample cwnd / (time since the last ACK). */
  lemma EstimateUpdate(s: WestwoodState, ackTime: real, loss: bool)
    requires Defined(s, loss)
    ensures Update(s, ackTime, loss).bwEst ==
      if HasSample(s, ackTime)
      then 0.9 * s.bwEst + 0.1 * (s.cwnd / (ackTime - s.lastAckTime.value))
      else s.bwEst
  {
  }

  predicate RunDefined(s: WestwoodState, inputs: seq<AckInput>)
    decreases |inputs|
  {
    inputs == [] ||
    (Defined(s, inputs[0].loss) &&
     RunDefined(Update(s, inputs[0].time, inputs[0].loss), inputs[1..]))
  }

  function Run(s: WestwoodState, inputs: seq<AckInput>): WestwoodState
    requires RunDefined(s, inputs)
    decreases |inputs|
  {
    if inputs == [] then s
    else Run(Update(s, inputs[0].time, inputs[0].loss), inputs[1..])
  }

  /** From a positive window and a non-negative estimate, no update divides by
      zero, and the estimate stays non-negative and the window positive. */
  lemma {:induction false} RunKeepsEstimate(s: WestwoodState, inputs: seq<AckInput>)
    requires s.cwnd > 0.0 && s.bwEst >= 0.0
    ensures RunDefined(s, inputs) && Run(s, inputs).bwEst >= 0.0 && Run(s, inputs).cwnd > 0.0
    decreases |inputs|
  {
    if inputs != [] {
      RunKeepsEstimate(Update(s, inputs[0].time, inputs[0].loss), inputs[1..]);
    }
  }

  /** A Westwood controller whose fields update_cwnd rewrites in place. */
  class TcpWestwood {
    var cwnd: real
    var bwEst: real
    var ssthresh: real
    var lastAckTime: Option<real>
    var lossEvent: bool

    function State(): WestwoodState
      reads this
    {
      WestwoodState(cwnd, bwEst, ssthresh, lastAckTime, lossEvent)
    }

    constructor (initialCwnd: real, initialSsthresh: real)
      ensures State() == Init(initialCwnd, initialSsthresh)
    {
      cwnd := initialCwnd;
      bwEst := 0.0;
      ssthresh := initialSsthresh;
      lastAckTime := None;
      lossEvent := false;
    }

    method UpdateCwnd(ackTime: real, loss: bool)
      requires Defined(State(), loss)
      modifies this
      ensures State() == Update(old(State()), ackTime, loss)
    {
      lossEvent := false;
      SampleBandwidth(ackTime);
      lastAckTime := Some(ackTime);
      if loss {
        ssthresh := LossThreshold(bwEst, ssthresh);
        cwnd := ssthresh;
        lossEvent := true;
      } else if cwnd < ssthresh {
        cwnd := cwnd + 1.0;
      } else {
        cwnd := cwnd + 1.0 / cwnd;
      }
      cwnd := MinReal(cwnd, CwndMax as real);
    }

    /** The EWMA step at the head of update_cwnd. */
    method SampleBandwidth(ackTime: real)
      modifies this
      ensures State() == old(State()).(bwEst := Estimate(old(State()), ackTime))
    {
      if lastAckTime.Some? && ackTime > lastAckTime.value {
        var rttSample := ackTime - lastAckTime.value;
        if rttSample > 0.0 {
          var sampleBw := cwnd / rttSample;
          bwEst := 0.9 * bwEst + 0.1 * sampleBw;
        }
      }
    }
  }
}
