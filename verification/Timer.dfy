// JitterResistantTimerLoop (stream-gateway/timer.ts): drift compensation, in milliseconds.
module Timer {
  import opened Prelude

  function Max(a: real, b: real): real {
    if a <= b then b else a
  }

  /** What the event loop does around one tick: how late it fires the timeout, and how long the callback runs. */
  datatype Tick = Tick(jitter: real, callback: real)

  /** Neither is ever negative: a timeout never fires early. */
  ghost predicate Physical(ticks: seq<Tick>) {
    forall k :: 0 <= k < |ticks| ==> ticks[k].jitter >= 0.0 && ticks[k].callback >= 0.0
  }

  /** The slot of tick k: the first tick comes two intervals after the start, the others one interval apart. */
  function Slot(start: real, interval: real, k: nat): real {
    start + (k + 2) as real * interval
  }

  /** How far behind its slot tick k fires. */
  function Lateness(interval: real, ticks: seq<Tick>, k: nat): real
    requires k < |ticks|
  {
    if k == 0 then ticks[0].jitter
    else Max(0.0, Lateness(interval, ticks, k - 1) + ticks[k - 1].callback - interval) + ticks[k].jitter
  }

  lemma {:induction false} NeverEarly(interval: real, ticks: seq<Tick>, k: nat)
    requires Physical(ticks) && k < |ticks|
    ensures Lateness(interval, ticks, k) >= ticks[k].jitter
  {
    if k > 0 { NeverEarly(interval, ticks, k - 1); }
  }

  /** While callbacks and jitter fit in the interval, lateness does not accumulate over any number of ticks. */
  lemma {:induction false} LatenessStaysBounded(interval: real, ticks: seq<Tick>, bound: real, k: nat)
    requires Physical(ticks) && k < |ticks|
    requires forall i :: 0 <= i < |ticks| ==> ticks[i].jitter <= bound && ticks[i].callback + bound <= interval
    ensures 0.0 <= Lateness(interval, ticks, k) <= bound
  {
    if k > 0 { LatenessStaysBounded(interval, ticks, bound, k - 1); }
  }

  class JitterResistantTimerLoop {
    const intervalMs: real
    var running: bool
    var expectedTickMs: real
    /** When the pending timeout is due. */
    var handle: Option<real>

    constructor (intervalMs: real)
      requires intervalMs > 0.0
      ensures this.intervalMs == intervalMs && !running && handle.None?
    {
      this.intervalMs, running, expectedTickMs, handle := intervalMs, false, 0.0, None;
    }

    method ScheduleTick(now: real)
      modifies this`handle
      ensures handle == if running then Some(Max(now, expectedTickMs + intervalMs)) else old(handle)
    {
      if !running {
        return;
      }
      var drift := now - expectedTickMs;
      var adjustedDelay := Max(0.0, intervalMs - drift);
      handle := Some(now + adjustedDelay);
    }

    method Start(now: real)
      modifies this
      ensures running
      ensures old(running) ==> expectedTickMs == old(expectedTickMs) && handle == old(handle)
      ensures !old(running) ==> expectedTickMs == now + intervalMs && handle == Some(Max(now, now + 2.0 * intervalMs))
    {
      if running {
        return;
      }
      running := true;
      expectedTickMs := now + intervalMs;
      ScheduleTick(now);
    }

    method Stop()
      modifies this
      ensures !running && handle.None? && expectedTickMs == old(expectedTickMs)
    {
      running := false;
      handle := None;
    }

    /** The timeout fires at tickNow; the callback runs until done. */
    method Fire(tickNow: real, done: real)
      modifies this
      ensures running == old(running)
      ensures if running then expectedTickMs == old(expectedTickMs) + intervalMs
                              && handle == Some(Max(done, old(expectedTickMs) + 2.0 * intervalMs))
              else expectedTickMs == old(expectedTickMs) && handle == old(handle)
    {
      if !running {
        return;
      }
      expectedTickMs := expectedTickMs + intervalMs;
      ScheduleTick(done);
    }
  }

  /** Started and left to the event loop, the timer fires each tick as late as Lateness says and no later. */
  method Drive(timer: JitterResistantTimerLoop, start: real, ticks: seq<Tick>) returns (fired: seq<real>)
    requires !timer.running && timer.intervalMs > 0.0 && Physical(ticks)
    modifies timer
    ensures |fired| == |ticks|
    ensures forall k :: 0 <= k < |ticks| ==>
              fired[k] == Slot(start, timer.intervalMs, k) + Lateness(timer.intervalMs, ticks, k)
  {
    hide Slot;
    fired := [];
    timer.Start(start);
    var interval := timer.intervalMs;
    FirstSlot(start, interval);
    for k := 0 to |ticks|
      invariant timer.running && |fired| == k
      invariant timer.expectedTickMs + interval == Slot(start, interval, k)
      invariant timer.handle == Some(Slot(start, interval, k) + if k == 0 then 0.0
                  else Max(0.0, Lateness(interval, ticks, k - 1) + ticks[k - 1].callback - interval))
      invariant forall i :: 0 <= i < k ==> fired[i] == Slot(start, interval, i) + Lateness(interval, ticks, i)
    {
      var tickNow := timer.handle.value + ticks[k].jitter;
      SlotStep(start, interval, k);
      timer.Fire(tickNow, tickNow + ticks[k].callback);
      fired := fired + [tickNow];
    }
  }

  lemma FirstSlot(start: real, interval: real)
    ensures Slot(start, interval, 0) == start + 2.0 * interval
  {
  }

  lemma SlotStep(start: real, interval: real, k: nat)
    ensures Slot(start, interval, k + 1) == Slot(start, interval, k) + interval
  {
    var x := (k + 2) as real;
    assert (k + 1 + 2) as real == x + 1.0;
    assert (x + 1.0) * interval == x * interval + interval;
  }
}
