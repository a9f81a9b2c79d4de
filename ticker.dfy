/** IntervalPerFrame: runs a callback once per rendered frame for a bounded
    number of frames, optionally after an initial delay.

    The source drives this with a Unity coroutine. Unity runs a coroutine
    synchronously up to its first `yield` when it is started, and resumes it
    once per frame afterwards. The model keeps that: `Start` runs the
    coroutine to its first suspension point (so it may already invoke the
    callback), and `Tick` is one frame, resuming it to the next one. The
    initial `WaitForSeconds(delay)` is a single pre-phase ended by one `Tick`. */
module Ticker {
  import opened Common

  /** Where a running coroutine is suspended: in the initial wait, or after
      the loop body has invoked the callback for the `done`-th time. */
  datatype Suspension = Delaying | AfterCall(done: nat)

  class IntervalPerFrame {
    var times: int
    var callback: Option<Callback>
    var delay: real
    /** The `coroutine` field: None when no run is in progress. */
    var coroutine: Option<Suspension>
    /** How many times the callback has been invoked so far. */
    var invocations: nat

    /** IntervalPerFrame.Create(mono) */
    constructor ()
      ensures times == 0 && callback == None && delay == 0.0
      ensures coroutine == None && invocations == 0
    {
      times, callback, delay := 0, None, 0.0;
      coroutine, invocations := None, 0;
    }

    method SetTimes(t: int) returns (self: IntervalPerFrame)
      modifies this
      ensures self == this && times == t
      ensures callback == old(callback) && delay == old(delay)
      ensures coroutine == old(coroutine) && invocations == old(invocations)
    {
      times := t;
      self := this;
    }

    method SetCallback(func: Option<Callback>) returns (self: IntervalPerFrame)
      modifies this
      ensures self == this && callback == func
      ensures times == old(times) && delay == old(delay)
      ensures coroutine == old(coroutine) && invocations == old(invocations)
    {
      callback := func;
      self := this;
    }

    method SetDelay(d: real) returns (self: IntervalPerFrame)
      modifies this
      ensures self == this && delay == d
      ensures times == old(times) && callback == old(callback)
      ensures coroutine == old(coroutine) && invocations == old(invocations)
    {
      delay := d;
      self := this;
    }

    /** Runs the loop of the coroutine from iteration `i` to its next
        suspension: one invocation while `i < times`, otherwise the end of the
        run, which clears the coroutine. */
    method RunFrom(i: nat) returns (fired: bool)
      modifies this
      ensures fired == (i < times && callback.Some?)
      ensures coroutine == if i < times then Some(AfterCall(i + 1)) else None
      ensures invocations == old(invocations) + (if fired then 1 else 0)
      ensures times == old(times) && callback == old(callback) && delay == old(delay)
    {
      fired := false;
      if i < times {
        if callback.Some? {
          invocations := invocations + 1;
          fired := true;
        }
        coroutine := Some(AfterCall(i + 1));
      } else {
        coroutine := None;
      }
    }

    /** Starts a run unless `times <= 0` or a run is in progress. */
    method Start() returns (fired: bool)
      modifies this
      ensures times == old(times) && callback == old(callback) && delay == old(delay)
      ensures old(times <= 0 || coroutine.Some?) ==> unchanged(this) && !fired
      ensures old(times > 0 && coroutine.None?) ==>
        if delay > 0.0 then coroutine == Some(Delaying) && !fired && invocations == old(invocations)
        else coroutine == Some(AfterCall(1)) && fired == callback.Some?
             && invocations == old(invocations) + (if fired then 1 else 0)
    {
      fired := false;
      if times <= 0 || coroutine.Some? {
        return;
      }
      if delay > 0.0 {
        coroutine := Some(Delaying);
      } else {
        fired := RunFrom(0);
      }
    }

    /** Cancels the run in progress, if any. */
    method Stop()
      modifies this
      ensures coroutine == None
      ensures times == old(times) && callback == old(callback) && delay == old(delay)
      ensures invocations == old(invocations)
    {
      if coroutine.None? {
        return;
      }
      coroutine := None;
    }

    /** One rendered frame: resumes a suspended run. */
    method Tick() returns (fired: bool)
      modifies this
      ensures times == old(times) && callback == old(callback) && delay == old(delay)
      ensures old(coroutine).None? ==> unchanged(this) && !fired
      ensures old(coroutine).Some? ==>
        var i := if old(coroutine).value.Delaying? then 0 else old(coroutine).value.done;
        && fired == (i < times && callback.Some?)
        && coroutine == (if i < times then Some(AfterCall(i + 1)) else None)
        && invocations == old(invocations) + (if fired then 1 else 0)
    {
      fired := false;
      match coroutine
      case None =>
      case Some(Delaying) =>
        fired := RunFrom(0);
      case Some(AfterCall(done)) =>
        fired := RunFrom(done);
    }
  }

  /** A whole run of a fresh ticker with a callback: it invokes the callback
      exactly `t` times (none when `t <= 0`), the run ends by itself after `t`
      frames (one more when there is a delay), and a second `Start` without
      `Stop` starts a new run. */
  method CountRun(t: int, d: real) returns (calls: nat, frames: nat, restarted: bool)
    ensures calls == (if t > 0 then t else 0)
    ensures frames == (if t <= 0 then 0 else if d > 0.0 then t + 1 else t)
    ensures restarted == (t > 0)
  {
    var ticker := new IntervalPerFrame();
    var self := ticker.SetTimes(t);
    self := ticker.SetCallback(Some(0));
    self := ticker.SetDelay(d);
    var fired := ticker.Start();
    calls := if fired then 1 else 0;
    frames := 0;
    while ticker.coroutine.Some?
      invariant ticker.times == t && ticker.delay == d && ticker.callback == Some(0)
      invariant t <= 0 ==> ticker.coroutine == None && calls == 0 && frames == 0
      invariant ticker.coroutine == Some(Delaying) ==> d > 0.0 && frames == 0 && calls == 0
      invariant ticker.coroutine.Some? && ticker.coroutine.value.AfterCall? ==>
        && calls == ticker.coroutine.value.done <= t
        && frames == (if d > 0.0 then calls else calls - 1)
      invariant ticker.coroutine == None && t > 0 ==>
        calls == t && frames == (if d > 0.0 then t + 1 else t)
      decreases if ticker.coroutine == Some(Delaying) then t + 2
                else if ticker.coroutine.Some? then t + 1 - ticker.coroutine.value.done
                else 0
    {
      fired := ticker.Tick();
      if fired {
        calls := calls + 1;
      }
      frames := frames + 1;
    }
    fired := ticker.Start();
    restarted := ticker.coroutine.Some?;
  }
}
