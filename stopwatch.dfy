/**
 * pkg/stopwatch: a stopwatch that stops once, freezing its elapsed time and
 * firing its stop callbacks with it, until it is reset.
 *
 * Instants and durations are integer nanoseconds on one clock; `now` is
 * what `time.Now` reads at the call. A callback is known by a number, and
 * the goroutines `Stop` starts are recorded, in order, in `fired`. The
 * mutex is left out: every call here runs alone.
 */
module Stopwatch {
  /** A callback, known by a number. */
  type Callback = nat

  /** One invocation of a stop callback. */
  datatype Call = Call(callback: Callback, elapsed: int)

  /** The options of `Start`. */
  datatype StartOption = WithStartTime(startTime: int) | WithLogger | WithAutoLog(autoLog: bool)
                       | WithOnStop(onStop: seq<Callback>)

  /** What the options leave: the start time, whether to log, the callbacks. */
  datatype Settings = Settings(startTime: int, autoLog: bool, onStop: seq<Callback>)

  /** The stopwatch's fields, as one value. */
  datatype Watch = Watch(message: string, startTime: int, elapsed: int, autoLog: bool, onStop: seq<Callback>,
                         stopped: bool)

  /** The options applied in order to the defaults: start now, log, no callbacks. */
  function Configured(opts: seq<StartOption>, now: int): Settings {
    if opts == [] then Settings(now, true, [])
    else
      var s := Configured(opts[..|opts| - 1], now);
      match opts[|opts| - 1]
      case WithStartTime(t) => s.(startTime := t)
      case WithLogger => s
      case WithAutoLog(b) => s.(autoLog := b)
      case WithOnStop(cbs) => s.(onStop := cbs)
  }

  /** Of several options setting one field, the last one wins; with none, the default stays. */
  lemma {:induction false} LastOptionWins(opts: seq<StartOption>, now: int)
    ensures var s := Configured(opts, now);
            && (forall i :: 0 <= i < |opts| && opts[i].WithStartTime? && (forall j :: i < j < |opts| ==> !opts[j].WithStartTime?)
                  ==> s.startTime == opts[i].startTime)
            && ((forall i :: 0 <= i < |opts| ==> !opts[i].WithStartTime?) ==> s.startTime == now)
            && ((forall i :: 0 <= i < |opts| ==> !opts[i].WithAutoLog?) ==> s.autoLog)
            && ((forall i :: 0 <= i < |opts| ==> !opts[i].WithOnStop?) ==> s.onStop == [])
  {
    if opts != [] {
      var init := opts[..|opts| - 1];
      LastOptionWins(init, now);
      assert forall i :: 0 <= i < |init| ==> init[i] == opts[i];
    }
  }

  /** `Elapsed`: frozen once stopped, the time since the start while running. */
  function ElapsedAt(w: Watch, now: int): int {
    if w.stopped then w.elapsed else now - w.startTime
  }

  /** `Stop`'s outcome: the new fields, the elapsed time returned and the callbacks fired. */
  datatype Stopped = Stopped(after: Watch, elapsed: int, calls: seq<Call>)

  /** Each callback, in order, called with `d`. */
  function CallEach(cbs: seq<Callback>, d: int): (r: seq<Call>)
    ensures |r| == |cbs| && forall i :: 0 <= i < |cbs| ==> r[i] == Call(cbs[i], d)
  {
    if cbs == [] then [] else CallEach(cbs[..|cbs| - 1], d) + [Call(cbs[|cbs| - 1], d)]
  }

  function StopAt(w: Watch, now: int): Stopped {
    if w.stopped then Stopped(w, w.elapsed, [])
    else
      var d := now - w.startTime;
      Stopped(w.(elapsed := d, stopped := true), d, CallEach(w.onStop, d))
  }

  function ResetAt(w: Watch, now: int): Watch {
    w.(startTime := now, elapsed := 0, stopped := false)
  }

  function AddCallbackTo(w: Watch, cb: Callback): Watch {
    w.(onStop := w.onStop + [cb])
  }

  class Stopwatch {
    var message: string
    var startTime: int
    var elapsed: int
    var autoLog: bool
    var onStop: seq<Callback>
    var stopped: bool
    /** The stop callbacks called so far, in order. */
    var fired: seq<Call>

    function State(): Watch
      reads this
    {
      Watch(message, startTime, elapsed, autoLog, onStop, stopped)
    }

    /** `Start`: a running stopwatch set up by the options. */
    constructor Start(message: string, opts: seq<StartOption>, now: int)
      ensures State() == Watch(message, Configured(opts, now).startTime, 0, Configured(opts, now).autoLog,
                               Configured(opts, now).onStop, false)
      ensures fired == []
    {
      var o := Settings(now, true, []);
      var i := 0;
      while i < |opts|
        invariant 0 <= i <= |opts| && o == Configured(opts[..i], now)
      {
        assert opts[..i + 1][..i] == opts[..i];
        match opts[i] {
          case WithStartTime(t) => o := o.(startTime := t);
          case WithLogger =>
          case WithAutoLog(b) => o := o.(autoLog := b);
          case WithOnStop(cbs) => o := o.(onStop := cbs);
        }
        i := i + 1;
      }
      assert opts[..|opts|] == opts;
      this.message := message;
      this.startTime := o.startTime;
      this.elapsed := 0;
      this.autoLog := o.autoLog;
      this.onStop := o.onStop;
      this.stopped := false;
      this.fired := [];
    }

    method Elapsed(now: int) returns (d: int)
      ensures d == ElapsedAt(State(), now)
    {
      if stopped {
        return elapsed;
      }
      return now - startTime;
    }

    /**
     * `Stop`: the first stop freezes the elapsed time and calls every
     * callback registered by then with it; a later one returns the frozen
     * time and calls nothing.
     */
    method Stop(now: int) returns (d: int)
      modifies this
      ensures |old(fired)| <= |fired| && fired[..|old(fired)|] == old(fired)
      ensures Stopped(State(), d, fired[|old(fired)|..]) == StopAt(old(State()), now)
    {
      if stopped {
        assert fired[|fired|..] == [];
        return elapsed;
      }
      elapsed := now - startTime;
      stopped := true;
      var callbacks := onStop;
      d := elapsed;
      var calls: seq<Call> := [];
      var i := 0;
      while i < |callbacks|
        invariant 0 <= i <= |callbacks| && calls == CallEach(callbacks[..i], d)
      {
        assert callbacks[..i + 1][..i] == callbacks[..i];
        calls := calls + [Call(callbacks[i], d)];
        i := i + 1;
      }
      assert callbacks[..|callbacks|] == callbacks;
      ghost var before := fired;
      fired := fired + calls;
      assert fired[|before|..] == calls;
    }

    /** `Reset`: running again from `now`, with nothing elapsed. */
    method Reset(now: int)
      modifies this
      ensures State() == ResetAt(old(State()), now) && fired == old(fired)
    {
      startTime := now;
      elapsed := 0;
      stopped := false;
    }

    method IsRunning() returns (running: bool)
      ensures running == !State().stopped
    {
      return !stopped;
    }

    /** `AddCallback`: one more callback for the stops to come. */
    method AddCallback(cb: Callback)
      modifies this
      ensures State() == AddCallbackTo(old(State()), cb) && fired == old(fired)
    {
      onStop := onStop + [cb];
    }
  }

  /** A stopwatch just started is running, and reports the time since its start. */
  lemma StartedIsRunning(message: string, opts: seq<StartOption>, now: int, later: int)
    ensures var s := Configured(opts, now);
            var w := Watch(message, s.startTime, 0, s.autoLog, s.onStop, false);
            !w.stopped && ElapsedAt(w, later) == later - s.startTime
  {
  }

  /**
   * The first stop records the time since the start, leaves the stopwatch
   * stopped and calls each registered callback once, in order, with that
   * time; the elapsed time then stays put whenever it is read.
   */
  lemma FirstStop(w: Watch, now: int, later: int)
    requires !w.stopped
    ensures var r := StopAt(w, now);
            && r.elapsed == now - w.startTime && r.after.stopped
            && |r.calls| == |w.onStop|
            && (forall i :: 0 <= i < |w.onStop| ==> r.calls[i] == Call(w.onStop[i], r.elapsed))
            && ElapsedAt(r.after, later) == r.elapsed
  {
  }

  /** Stopping again returns the frozen time, changes nothing and calls nothing. */
  lemma StopAgainIsSilent(w: Watch, now: int, again: int)
    requires !w.stopped
    ensures var first := StopAt(w, now);
            StopAt(first.after, again) == Stopped(first.after, first.elapsed, [])
  {
  }

  /** After a reset the stopwatch runs again from `now`. */
  lemma ResetRunsAgain(w: Watch, now: int, later: int)
    ensures var r := ResetAt(w, now);
            !r.stopped && r.elapsed == 0 && ElapsedAt(r, later) == later - now && r.onStop == w.onStop
  {
  }

  /**
   * The callbacks are taken as they are at the stop: one added after a stop
   * is not called by a later stop, but is called, last, by the next stop
   * after a reset.
   */
  lemma CallbacksTakenAtStop(w: Watch, cb: Callback, t1: int, t2: int, t3: int, t4: int)
    requires !w.stopped
    ensures var added := AddCallbackTo(StopAt(w, t1).after, cb);
            && StopAt(added, t2).calls == []
            && var again := StopAt(ResetAt(added, t3), t4);
               again.calls == CallEach(w.onStop, t4 - t3) + [Call(cb, t4 - t3)]
  {
    var cbs := w.onStop + [cb];
    assert cbs[..|cbs| - 1] == w.onStop;
  }
}
