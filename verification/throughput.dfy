/**
 Network throughput of one sample (SHM/monitor.py lines 34-46): two snapshots
 of the cumulative byte counters, taken a sampling window apart, turned into
 megabits per second. The counters themselves and the sleep are inputs.
 */
module Throughput {

  /** The smallest divisor the throughput formula ever uses, in seconds. */
  const MinWindow: real := 0.001

  /** Bits per megabit in the formula (decimal megabits). */
  const BitsPerMegabit: real := 1000000.0

  /** Cumulative byte counters of all interfaces at one instant. */
  datatype NetCounters = NetCounters(bytesSent: int, bytesRecv: int)

  /** Python's `max(a, b)` on two reals. */
  function Max(a: real, b: real): real
  {
    if a >= b then a else b
  }

  /** `bytes_to_mbps`: a byte count over `seconds` as megabits per second.
      Python raises ZeroDivisionError for a zero divisor, so that is the one
      input the caller must avoid. */
  function BytesToMbps(byteDelta: int, seconds: real): (mbps: real)
    requires seconds != 0.0
    ensures mbps * seconds * BitsPerMegabit == byteDelta as real * 8.0
    ensures seconds > 0.0 && byteDelta >= 0 ==> mbps >= 0.0
    ensures seconds > 0.0 && byteDelta > 0 ==> mbps > 0.0
  {
    (byteDelta as real * 8.0 / BitsPerMegabit) / seconds
  }

  /** The divisor `collect` hands to `bytes_to_mbps`: the configured window,
      floored at one millisecond. */
  function EffectiveWindow(sampleSeconds: real): (w: real)
    ensures w >= MinWindow && w > 0.0
    ensures w >= sampleSeconds
    ensures w == sampleSeconds || w == MinWindow
  {
    Max(MinWindow, sampleSeconds)
  }

  /** How long `collect` sleeps between the two snapshots: the configured
      window, floored at zero. */
  function SleepSeconds(sampleSeconds: real): (d: real)
    ensures d >= 0.0 && d >= sampleSeconds
    ensures d == sampleSeconds || d == 0.0
  {
    Max(0.0, sampleSeconds)
  }

  /** Bytes received plus bytes sent between two snapshots. */
  function ByteDelta(before: NetCounters, after: NetCounters): int
  {
    (after.bytesRecv - before.bytesRecv) + (after.bytesSent - before.bytesSent)
  }

  /** The throughput `collect` reports, defined for every configured window
      because the divisor is floored. */
  function Mbps(before: NetCounters, after: NetCounters, sampleSeconds: real): (mbps: real)
    ensures mbps * EffectiveWindow(sampleSeconds) * BitsPerMegabit
            == ByteDelta(before, after) as real * 8.0
    ensures before.bytesSent <= after.bytesSent && before.bytesRecv <= after.bytesRecv
            ==> mbps >= 0.0
  {
    BytesToMbps(ByteDelta(before, after), EffectiveWindow(sampleSeconds))
  }

  /** With a window of at least one millisecond the divisor is the window
      itself, and it is also exactly the time slept between the snapshots. */
  lemma WindowIsSleepAboveFloor(sampleSeconds: real)
    requires sampleSeconds >= MinWindow
    ensures EffectiveWindow(sampleSeconds) == sampleSeconds
    ensures SleepSeconds(sampleSeconds) == sampleSeconds
  {
  }

  /** Below one millisecond the divisor is the floor, not the window: a zero
      or negative window still gives a finite throughput. */
  lemma WindowFloorBelowMinimum(sampleSeconds: real)
    requires sampleSeconds < MinWindow
    ensures EffectiveWindow(sampleSeconds) == MinWindow
    ensures SleepSeconds(sampleSeconds) < MinWindow
  {
  }

  /** For a positive window more traffic never reports less throughput. */
  lemma MbpsMonotone(d1: int, d2: int, seconds: real)
    requires seconds > 0.0 && d1 <= d2
    ensures BytesToMbps(d1, seconds) <= BytesToMbps(d2, seconds)
  {
  }
}
