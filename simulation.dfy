/** The ACK generator and the driver that feeds an ACK array into one
    controller and records a trace. Random numbers are inputs: each draw of
    random.random() is a number u, and random.uniform(a, b) is a + (b − a)·u. */
module Simulation {
  import opened Common
  import Reno
  import Aimd
  import Cubic
  import Westwood

  /** Upper bound on the loss probability. */
  const MaxLossProb: real := 0.25
  /** Extra delay of the ACK at the saturation event. */
  const SaturationDelay: real := 0.1
  /** Extra delay of every ACK after the saturation event. */
  const SaturatedExtraDelay: real := 0.05

  /** One generated ACK: (ACK number, arrival time, loss flag). */
  datatype Ack = Ack(number: int, time: real, lost: bool)

  /** random.uniform(a, b) for the draw u of random.random(). */
  function Uniform(a: real, b: real, u: real): (x: real)
    ensures u == 0.0 ==> x == a
    ensures u == 1.0 ==> x == b
    ensures a == b ==> x == a
  {
    a + (b - a) * u
  }

  /** A draw in [0, 1] gives a value between the two bounds. */
  lemma UniformBetween(a: real, b: real, u: real)
    requires 0.0 <= u <= 1.0
    ensures a <= b ==> a <= Uniform(a, b, u) <= b
    ensures b < a ==> b <= Uniform(a, b, u) <= a
  {
    if a <= b {
      MulNonneg(b - a, u);
      MulNonneg(b - a, 1.0 - u);
    } else {
      MulNonneg(a - b, u);
      MulNonneg(a - b, 1.0 - u);
    }
  }

  lemma MulNonneg(x: real, y: real)
    requires x >= 0.0 && y >= 0.0
    ensures x * y >= 0.0
  {
  }

  /** Extra delay of ACK number i: the burst at the saturation event, the
      smaller delay at every later ACK once the event has been reached (it
      is reached only when it lies in 1 .. i), none otherwise. */
  function ExtraDelay(i: int, saturationEvent: int): (d: real)
    ensures d >= 0.0
    ensures i == saturationEvent ==> d == SaturationDelay
    ensures i != saturationEvent && 1 <= saturationEvent < i ==> d == SaturatedExtraDelay
    ensures i != saturationEvent && (i < saturationEvent || saturationEvent < 1) ==> d == 0.0
  {
    if i == saturationEvent then SaturationDelay
    else if 1 <= saturationEvent < i then SaturatedExtraDelay
    else 0.0
  }

  /** Saturation is one-way: after an ACK with extra delay, every later ACK
      carries the smaller extra delay. */
  lemma SaturationIsPermanent(i: int, j: int, saturationEvent: int)
    requires 1 <= i < j && ExtraDelay(i, saturationEvent) > 0.0
    ensures ExtraDelay(j, saturationEvent) == SaturatedExtraDelay
  {
  }

  /** Arrival time of ACK number k (0 for k = 0): the previous time plus the
      base interval, the jitter of draw k and the extra delay of ACK k. */
  function ArrivalTime(k: nat, baseInterval: real, jitter: real, saturationEvent: int, jitterDraws: seq<real>): (t: real)
    requires k <= |jitterDraws|
    // without jitter and before any saturation, ACKs arrive on the base-interval grid
    ensures jitter == 0.0 && (saturationEvent < 1 || saturationEvent > k) ==> t == k as real * baseInterval
  {
    if k == 0 then 0.0
    else
      ArrivalTime(k - 1, baseInterval, jitter, saturationEvent, jitterDraws)
      + baseInterval + Uniform(-jitter, jitter, jitterDraws[k - 1])
      + ExtraDelay(k, saturationEvent)
  }

  /** The ACK of the saturation event arrives the base interval, its jitter
      and the 0.1 burst after the previous one; with its draw in [0, 1] that
      is at least the base interval less |jitter|, plus 0.1. */
  lemma SaturationBurst(baseInterval: real, jitter: real, saturationEvent: int, jitterDraws: seq<real>)
    requires 1 <= saturationEvent <= |jitterDraws|
    requires 0.0 <= jitterDraws[saturationEvent - 1] <= 1.0
    ensures ArrivalTime(saturationEvent, baseInterval, jitter, saturationEvent, jitterDraws)
      == ArrivalTime(saturationEvent - 1, baseInterval, jitter, saturationEvent, jitterDraws)
         + baseInterval + Uniform(-jitter, jitter, jitterDraws[saturationEvent - 1]) + SaturationDelay
    ensures ArrivalTime(saturationEvent, baseInterval, jitter, saturationEvent, jitterDraws)
      >= ArrivalTime(saturationEvent - 1, baseInterval, jitter, saturationEvent, jitterDraws)
         + baseInterval - (if jitter >= 0.0 then jitter else -jitter) + SaturationDelay
  {
    UniformBetween(-jitter, jitter, jitterDraws[saturationEvent - 1]);
  }

  /** With the jitter smaller than the base interval and every draw in
      [0, 1], arrival times strictly increase. */
  lemma {:induction false} ArrivalsIncrease(i: nat, j: nat, baseInterval: real, jitter: real, saturationEvent: int, jitterDraws: seq<real>)
    requires i < j <= |jitterDraws|
    requires jitter < baseInterval && -jitter < baseInterval
    requires forall k :: 0 <= k < |jitterDraws| ==> 0.0 <= jitterDraws[k] <= 1.0
    ensures ArrivalTime(i, baseInterval, jitter, saturationEvent, jitterDraws)
          < ArrivalTime(j, baseInterval, jitter, saturationEvent, jitterDraws)
    decreases j
  {
    UniformBetween(-jitter, jitter, jitterDraws[j - 1]);
    if i < j - 1 {
      ArrivalsIncrease(i, j - 1, baseInterval, jitter, saturationEvent, jitterDraws);
    }
  }

  /** generate_ack_array with the draws of random.uniform (jitterDraws) and
      random.random (lossDraws) passed in; draw k belongs to ACK k + 1. */
  method GenerateAckArray(numAcks: int, baseInterval: real, lossProb: real, jitter: real,
                          saturationEvent: int, jitterDraws: seq<real>, lossDraws: seq<real>)
    returns (ackArray: seq<Ack>)
    requires numAcks <= |jitterDraws| && numAcks <= |lossDraws|
    ensures |ackArray| == MaxInt(numAcks, 0)
    ensures forall k :: 0 <= k < |ackArray| ==> ackArray[k].number == k + 1
    ensures forall k :: 0 <= k < |ackArray| ==>
      (ackArray[k].lost <==> lossDraws[k] < MinReal(lossProb, MaxLossProb))
    ensures forall k :: 0 <= k < |ackArray| ==>
      ackArray[k].time == ArrivalTime(k + 1, baseInterval, jitter, saturationEvent, jitterDraws)
  {
    ackArray := [];
    var currentTime := 0.0;
    var linkSaturation := false;
    var p := MinReal(lossProb, MaxLossProb);
    var i := 1;
    while i <= numAcks
      invariant 1 <= i <= MaxInt(numAcks, 0) + 1
      invariant |ackArray| == i - 1
      invariant linkSaturation <==> 1 <= saturationEvent < i
      invariant currentTime == ArrivalTime(i - 1, baseInterval, jitter, saturationEvent, jitterDraws)
      invariant forall k :: 0 <= k < |ackArray| ==> ackArray[k].number == k + 1
      invariant forall k :: 0 <= k < |ackArray| ==> (ackArray[k].lost <==> lossDraws[k] < p)
      invariant forall k :: 0 <= k < |ackArray| ==>
        ackArray[k].time == ArrivalTime(k + 1, baseInterval, jitter, saturationEvent, jitterDraws)
    {
      var ackTime := currentTime + baseInterval + Uniform(-jitter, jitter, jitterDraws[i - 1]);
      var lossEvent := lossDraws[i - 1] < p;
      if i == saturationEvent {
        ackTime := ackTime + SaturationDelay;
        linkSaturation := true;
      } else if linkSaturation {
        ackTime := ackTime + SaturatedExtraDelay;
      }
      ackArray := ackArray + [Ack(i, ackTime, lossEvent)];
      currentTime := ackTime;
      i := i + 1;
    }
  }

  /** The controller field values the driver observes. */
  datatype Snapshot =
    | RenoSnap(reno: Reno.RenoState)
    | AimdSnap(aimd: Aimd.AimdState)
    | CubicSnap(cubic: Cubic.CubicState)
    | WestwoodSnap(westwood: Westwood.WestwoodState)

  function Cwnd(snap: Snapshot): real
  {
    match snap
    case RenoSnap(s) => s.cwnd as real
    case AimdSnap(s) => s.cwnd
    case CubicSnap(s) => s.cwnd
    case WestwoodSnap(s) => s.cwnd
  }

  function Ssthresh(snap: Snapshot): real
  {
    match snap
    case RenoSnap(s) => s.ssthresh as real
    case AimdSnap(s) => s.ssthresh
    case CubicSnap(s) => s.ssthresh
    case WestwoodSnap(s) => s.ssthresh
  }

  function LossEvent(snap: Snapshot): bool
  {
    match snap
    case RenoSnap(s) => s.lossEvent
    case AimdSnap(s) => s.lossEvent
    case CubicSnap(s) => s.lossEvent
    case WestwoodSnap(s) => s.lossEvent
  }

  /** The update for this ACK does not fail. */
  predicate StepDefined(snap: Snapshot, ack: Ack)
  {
    match snap
    case RenoSnap(_) => true
    case AimdSnap(s) => Aimd.Defined(s, ack.time, ack.lost)
    case CubicSnap(s) => Cubic.Defined(s, ack.time, ack.lost)
    case WestwoodSnap(s) => Westwood.Defined(s, ack.lost)
  }

  /** tcp.update_cwnd(ack_time, loss_event): the two-argument call, so Reno
      sees no time-out and no duplicate ACK. */
  function Step(snap: Snapshot, ack: Ack, cubeRoot: real -> real): (r: Snapshot)
    requires StepDefined(snap, ack)
    ensures Cwnd(r) <= CwndMax as real
    ensures r.RenoSnap? == snap.RenoSnap? && r.AimdSnap? == snap.AimdSnap? &&
            r.CubicSnap? == snap.CubicSnap? && r.WestwoodSnap? == snap.WestwoodSnap?
  {
    match snap
    case RenoSnap(s) => RenoSnap(Reno.Update(s, ack.time, ack.lost, false, false))
    case AimdSnap(s) => AimdSnap(Aimd.Update(s, ack.time, ack.lost))
    case CubicSnap(s) => CubicSnap(Cubic.Update(s, ack.time, ack.lost, cubeRoot))
    case WestwoodSnap(s) => WestwoodSnap(Westwood.Update(s, ack.time, ack.lost))
  }

  /** The four parallel lists simulate returns. */
  datatype Trace = Trace(timeStamps: seq<real>, cwndEvolution: seq<real>, lossEvents: seq<int>, ssthreshs: seq<real>)

  const EmptyTrace := Trace([], [], [], [])

  /** The trace entry of one ACK, read from the state right after its update. */
  function Entry(time: real, snap: Snapshot): Trace
  {
    Trace([time], [Cwnd(snap)], [if LossEvent(snap) then 1 else 0], [Ssthresh(snap)])
  }

  function Concat(a: Trace, b: Trace): Trace
  {
    Trace(a.timeStamps + b.timeStamps, a.cwndEvolution + b.cwndEvolution,
          a.lossEvents + b.lossEvents, a.ssthreshs + b.ssthreshs)
  }

  lemma ConcatAssoc(a: Trace, b: Trace, c: Trace)
    ensures Concat(Concat(a, b), c) == Concat(a, Concat(b, c))
  {
    assert (a.timeStamps + b.timeStamps) + c.timeStamps == a.timeStamps + (b.timeStamps + c.timeStamps);
    assert (a.cwndEvolution + b.cwndEvolution) + c.cwndEvolution == a.cwndEvolution + (b.cwndEvolution + c.cwndEvolution);
    assert (a.lossEvents + b.lossEvents) + c.lossEvents == a.lossEvents + (b.lossEvents + c.lossEvents);
    assert (a.ssthreshs + b.ssthreshs) + c.ssthreshs == a.ssthreshs + (b.ssthreshs + c.ssthreshs);
  }

  /** Every update of the ACK array is defined. */
  predicate RunDefined(snap: Snapshot, acks: seq<Ack>, cubeRoot: real -> real)
    decreases |acks|
  {
    acks == [] ||
    (StepDefined(snap, acks[0]) && RunDefined(Step(snap, acks[0], cubeRoot), acks[1..], cubeRoot))
  }

  /** simulate(tcp, ack_array) on values: the final controller state and the trace. */
  function Sim(snap: Snapshot, acks: seq<Ack>, cubeRoot: real -> real): (out: (Snapshot, Trace))
    requires RunDefined(snap, acks, cubeRoot)
    ensures var tr := out.1;
      |tr.timeStamps| == |acks| && |tr.cwndEvolution| == |acks| &&
      |tr.lossEvents| == |acks| && |tr.ssthreshs| == |acks|
    ensures forall i :: 0 <= i < |acks| ==> out.1.timeStamps[i] == acks[i].time
    ensures forall i :: 0 <= i < |acks| ==> out.1.lossEvents[i] == 0 || out.1.lossEvents[i] == 1
    ensures forall i :: 0 <= i < |acks| ==> out.1.cwndEvolution[i] <= CwndMax as real
    decreases |acks|
  {
    if acks == [] then (snap, EmptyTrace)
    else
      var s1 := Step(snap, acks[0], cubeRoot);
      var rest := Sim(s1, acks[1..], cubeRoot);
      (rest.0, Concat(Entry(acks[0].time, s1), rest.1))
  }

  /** The usual starting states: Reno from any window, AIMD from a window in
      [1, 100], CUBIC from a window in [0, 100] and a non-negative W_max,
      Westwood from a positive window and a non-negative estimate. */
  predicate UsualStart(snap: Snapshot)
  {
    match snap
    case RenoSnap(_) => true
    case AimdSnap(s) => 1.0 <= s.cwnd <= CwndMax as real
    case CubicSnap(s) => 0.0 <= s.cwnd <= CwndMax as real && (s.wMax.Some? ==> s.wMax.value >= 0.0)
    case WestwoodSnap(s) => s.cwnd > 0.0 && s.bwEst >= 0.0
  }

  /** From a usual starting state the driver never fails on any ACK array:
      no division by a zero window and no cube root of a negative number. */
  lemma {:induction false} UsualStartRunDefined(snap: Snapshot, acks: seq<Ack>, cubeRoot: real -> real)
    requires UsualStart(snap)
    ensures RunDefined(snap, acks, cubeRoot)
    decreases |acks|
  {
    if acks != [] {
      assert StepDefined(snap, acks[0]);
      UsualStartRunDefined(Step(snap, acks[0], cubeRoot), acks[1..], cubeRoot);
    }
  }

  /** Running a prefix is defined when running the whole array is. */
  lemma {:induction false} RunDefinedPrefix(snap: Snapshot, acks: seq<Ack>, k: nat, cubeRoot: real -> real)
    requires RunDefined(snap, acks, cubeRoot) && k <= |acks|
    ensures RunDefined(snap, acks[..k], cubeRoot)
    decreases k
  {
    if k > 0 {
      assert acks[..k][0] == acks[0] && acks[..k][1..] == acks[1..][..k - 1];
      RunDefinedPrefix(Step(snap, acks[0], cubeRoot), acks[1..], k - 1, cubeRoot);
    }
  }

  /** One step of Sim: the first update, then the rest of the array. */
  lemma SimUnfold(snap: Snapshot, acks: seq<Ack>, cubeRoot: real -> real)
    requires RunDefined(snap, acks, cubeRoot) && acks != []
    ensures var s1 := Step(snap, acks[0], cubeRoot);
      RunDefined(s1, acks[1..], cubeRoot) &&
      Sim(snap, acks, cubeRoot) ==
        (Sim(s1, acks[1..], cubeRoot).0, Concat(Entry(acks[0].time, s1), Sim(s1, acks[1..], cubeRoot).1))
  {
  }

  /** Indexing a trace that starts with one entry. */
  lemma ConcatEntryAt(time: real, snap: Snapshot, tr: Trace, i: nat)
    requires i <= |tr.cwndEvolution| && i <= |tr.lossEvents| && i <= |tr.ssthreshs|
    ensures var c := Concat(Entry(time, snap), tr);
      (i == 0 ==> c.cwndEvolution[0] == Cwnd(snap) && c.ssthreshs[0] == Ssthresh(snap) &&
                  c.lossEvents[0] == (if LossEvent(snap) then 1 else 0)) &&
      (i > 0 ==> c.cwndEvolution[i] == tr.cwndEvolution[i - 1] && c.ssthreshs[i] == tr.ssthreshs[i - 1] &&
                 c.lossEvents[i] == tr.lossEvents[i - 1])
  {
  }

  /** Entry i of the trace holds the controller's cwnd, ssthresh and loss flag
      right after the update for ACK i. */
  lemma {:induction false} TraceIsStateAfterUpdate(snap: Snapshot, acks: seq<Ack>, i: nat, cubeRoot: real -> real)
    requires RunDefined(snap, acks, cubeRoot) && i < |acks|
    ensures RunDefined(snap, acks[..i + 1], cubeRoot)
    ensures var after := Sim(snap, acks[..i + 1], cubeRoot).0;
      var tr := Sim(snap, acks, cubeRoot).1;
      tr.cwndEvolution[i] == Cwnd(after) && tr.ssthreshs[i] == Ssthresh(after) &&
      tr.lossEvents[i] == (if LossEvent(after) then 1 else 0)
    decreases i
  {
    RunDefinedPrefix(snap, acks, i + 1, cubeRoot);
    var s1 := Step(snap, acks[0], cubeRoot);
    SimUnfold(snap, acks, cubeRoot);
    var tail := Sim(s1, acks[1..], cubeRoot).1;
    ConcatEntryAt(acks[0].time, s1, tail, i);
    var prefix := acks[..i + 1];
    assert prefix[0] == acks[0] && prefix[1..] == acks[1..][..i];
    SimUnfold(snap, prefix, cubeRoot);
    if i > 0 {
      TraceIsStateAfterUpdate(s1, acks[1..], i - 1, cubeRoot);
      assert acks[1..][..i - 1 + 1] == acks[1..][..i];
    } else {
      assert acks[1..][..0] == [];
    }
  }

  /** A controller the driver can run: the four classes whose update_cwnd
      takes (ack_time, loss_event). */
  datatype Tcp =
    | RenoTcp(reno: Reno.TcpReno)
    | AimdTcp(aimd: Aimd.TcpAimd)
    | CubicTcp(cubic: Cubic.TcpCubic)
    | WestwoodTcp(westwood: Westwood.TcpWestwood)
  {
    function Obj(): object
    {
      match this
      case RenoTcp(c) => c
      case AimdTcp(c) => c
      case CubicTcp(c) => c
      case WestwoodTcp(c) => c
    }

    function Snap(): Snapshot
      reads Obj()
    {
      match this
      case RenoTcp(c) => RenoSnap(c.State())
      case AimdTcp(c) => AimdSnap(c.State())
      case CubicTcp(c) => CubicSnap(c.State())
      case WestwoodTcp(c) => WestwoodSnap(c.State())
    }
  }

  /** tcp.update_cwnd(ack_time, loss_event) on whichever controller tcp holds. */
  method UpdateCwnd(tcp: Tcp, ack: Ack, cubeRoot: real -> real)
    requires StepDefined(tcp.Snap(), ack)
    modifies tcp.Obj()
    ensures tcp.Snap() == Step(old(tcp.Snap()), ack, cubeRoot)
  {
    match tcp {
      case RenoTcp(c) => c.UpdateCwnd(ack.time, ack.lost, false, false);
      case AimdTcp(c) => c.UpdateCwnd(ack.time, ack.lost);
      case CubicTcp(c) => c.UpdateCwnd(ack.time, ack.lost, cubeRoot);
      case WestwoodTcp(c) => c.UpdateCwnd(ack.time, ack.lost);
    }
  }

  /** simulate(tcp, ack_array): update the controller once per ACK, in order,
      and append time, cwnd, loss flag and ssthresh after each update. */
  method Simulate(tcp: Tcp, ackArray: seq<Ack>, cubeRoot: real -> real)
    returns (timeStamps: seq<real>, cwndEvolution: seq<real>, lossEvents: seq<int>, ssthreshs: seq<real>)
    requires RunDefined(tcp.Snap(), ackArray, cubeRoot)
    modifies tcp.Obj()
    ensures tcp.Snap() == Sim(old(tcp.Snap()), ackArray, cubeRoot).0
    ensures Trace(timeStamps, cwndEvolution, lossEvents, ssthreshs) == Sim(old(tcp.Snap()), ackArray, cubeRoot).1
  {
    ghost var snap0 := tcp.Snap();
    timeStamps, cwndEvolution, lossEvents, ssthreshs := [], [], [], [];
    var i := 0;
    assert ackArray[i..] == ackArray;
    assert Concat(EmptyTrace, Sim(snap0, ackArray, cubeRoot).1) == Sim(snap0, ackArray, cubeRoot).1;
    while i < |ackArray|
      invariant 0 <= i <= |ackArray|
      invariant RunDefined(tcp.Snap(), ackArray[i..], cubeRoot)
      invariant Sim(snap0, ackArray, cubeRoot) ==
        (Sim(tcp.Snap(), ackArray[i..], cubeRoot).0,
         Concat(Trace(timeStamps, cwndEvolution, lossEvents, ssthreshs), Sim(tcp.Snap(), ackArray[i..], cubeRoot).1))
    {
      var ack := ackArray[i];
      assert ackArray[i..][0] == ack && ackArray[i..][1..] == ackArray[i + 1..];
      ghost var done := Trace(timeStamps, cwndEvolution, lossEvents, ssthreshs);
      UpdateCwnd(tcp, ack, cubeRoot);
      var now := tcp.Snap();
      ghost var rest := Sim(now, ackArray[i + 1..], cubeRoot).1;
      timeStamps := timeStamps + [ack.time];
      cwndEvolution := cwndEvolution + [Cwnd(now)];
      lossEvents := lossEvents + [if LossEvent(now) then 1 else 0];
      ssthreshs := ssthreshs + [Ssthresh(now)];
      ConcatAssoc(done, Entry(ack.time, now), rest);
      i := i + 1;
    }
    assert ackArray[i..] == [];
  }
}
