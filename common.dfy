/** Values and constants shared by every congestion controller. */
module Common {

  /** An optional value; None stands for Python's None (and for HyStart's
      initial minimum RTT of infinity). */
  datatype Option<T> = None | Some(value: T)

  /** Maximum segment size: the unit of the congestion window. */
  const Mss: int := 1
  /** Upper bound of the congestion window (the simulated bandwidth limit). */
  const CwndMax: int := 100
  /** Gap between two ACKs, in seconds, that counts as a retransmission time-out. */
  const RtoThreshold: real := 3.0
  /** Constructor defaults of the controllers. */
  const InitialCwnd: int := 1
  const InitialSsthresh: int := 80

  /** One ACK as the driver hands it to a controller: its time and loss flag. */
  datatype AckInput = AckInput(time: real, loss: bool)

  function MinInt(a: int, b: int): (m: int)
    ensures m <= a && m <= b && (m == a || m == b)
  {
    if a <= b then a else b
  }

  function MaxInt(a: int, b: int): (m: int)
    ensures m >= a && m >= b && (m == a || m == b)
  {
    if a >= b then a else b
  }

  function MinReal(a: real, b: real): (m: real)
    ensures m <= a && m <= b && (m == a || m == b)
  {
    if a <= b then a else b
  }

  function MaxReal(a: real, b: real): (m: real)
    ensures m >= a && m >= b && (m == a || m == b)
  {
    if a >= b then a else b
  }

  /** Python's int() on a float: truncation toward zero. */
  function Trunc(x: real): (n: int)
    ensures 0.0 <= x ==> n as real <= x < n as real + 1.0
    ensures x < 0.0 ==> n as real - 1.0 < x <= n as real
  {
    if x >= 0.0 then x.Floor else -((-x).Floor)
  }
}
