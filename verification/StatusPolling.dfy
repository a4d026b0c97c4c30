// The status poller of the web client: a state machine driven by timers,
// responses, visibility changes and the caller's stop.
module StatusPolling {
  import opened Basics

  datatype PauseReason = Network | Timeout

  // The callbacks a poller makes, in order.
  datatype Callback = OnValue | OnError | OnTerminal | OnPause(reason: PauseReason)

  datatype Timer = PollTimer(delay: int) | RequestTimer(delay: int)

  type Handle = nat

  datatype Options = Options(
    intervalMs: Option<int>, maxDurationMs: Option<int>, requestTimeoutMs: Option<int>, maxErrors: Option<int>,
    hasVisibility: bool)
  {
    function Interval(): int { if intervalMs.Some? then intervalMs.value else 3000 }
    function MaxDuration(): int { if maxDurationMs.Some? then maxDurationMs.value else 20 * 60000 }
    function RequestTimeout(): int { if requestTimeoutMs.Some? then requestTimeoutMs.value else 15000 }
    function MaxErrors(): int { if maxErrors.Some? then maxErrors.value else 5 }
  }

  // The closure variables, followed by what the browser holds for the poller:
  // its scheduled timers, its listener and its unsettled requests.
  datatype State = State(
    stopped: bool, inFlight: bool, errors: int, timer: Option<Handle>, requestTimer: Option<Handle>,
    pending: map<Handle, Timer>, nextHandle: Handle, listening: bool, outstanding: nat,
    log: seq<Callback>)

  datatype Event =
    | TimerFires(handle: Handle, now: int)
    | Resolves(terminal: bool, hidden: bool)
    | Rejects(hidden: bool)
    | VisibilityChanges(hidden: bool, now: int)
    | CallerStops

  // ------------------------------------------------------------------------
  // The transitions

  function Cancel(s: State, h: Option<Handle>): State {
    if h.None? then s else s.(pending := s.pending - {h.value})
  }

  function Stop(s: State): State {
    Cancel(Cancel(s.(stopped := true), s.timer), s.requestTimer).(listening := false)
  }

  function SchedulePoll(s: State, delay: int): State {
    s.(timer := Some(s.nextHandle), pending := s.pending[s.nextHandle := PollTimer(delay)], nextHandle := s.nextHandle + 1)
  }

  function Tick(o: Options, started: int, s: State, now: int): State {
    if s.stopped || s.inFlight then s
    else if now - started >= o.MaxDuration() then
      var t := Stop(s);
      t.(log := t.log + [OnPause(Timeout)])
    else
      s.(inFlight := true, outstanding := s.outstanding + 1, requestTimer := Some(s.nextHandle),
         pending := s.pending[s.nextHandle := RequestTimer(o.RequestTimeout())], nextHandle := s.nextHandle + 1)
  }

  // The finally block: the request is over, and the next poll is scheduled.
  function Settled(o: Options, s: State, hidden: bool): State {
    var t := Cancel(s, s.requestTimer).(requestTimer := None, inFlight := false, outstanding := if s.outstanding == 0 then 0 else s.outstanding - 1);
    if t.stopped then t
    else SchedulePoll(t, if o.hasVisibility && hidden then 30000 else o.Interval())
  }

  // The catch block.
  function Failed(o: Options, s: State): State {
    if s.stopped then s
    else
      var t := s.(errors := s.errors + 1, log := s.log + [OnError]);
      if t.errors >= o.MaxErrors() then
        var u := Stop(t);
        u.(log := u.log + [OnPause(Network)])
      else t
  }

  function Rejected(o: Options, s: State, hidden: bool): State {
    Settled(o, Failed(o, s), hidden)
  }

  function Resolved(o: Options, s: State, terminal: bool, hidden: bool): State {
    var t := Settled(o, s, hidden);
    if t.stopped then t
    else
      var u := t.(errors := 0, log := t.log + [OnValue]);
      if terminal then
        var w := Stop(u);
        w.(log := w.log + [OnTerminal])
      else u
  }

  function VisibilityChanged(o: Options, started: int, s: State, hidden: bool, now: int): State {
    if s.stopped || hidden then s else Tick(o, started, Cancel(s, s.timer), now)
  }

  function Start(o: Options): State {
    SchedulePoll(State(false, false, 0, None, None, map[], 0, o.hasVisibility, 0, []), 0)
  }

  // Which events the browser can deliver.
  predicate Enabled(o: Options, s: State, e: Event) {
    match e
    case TimerFires(h, _) => h in s.pending
    case Resolves(_, _) => s.outstanding > 0
    case Rejects(_) => s.outstanding > 0
    case VisibilityChanges(_, _) => s.listening
    case CallerStops => true
  }

  function Next(o: Options, started: int, s: State, e: Event): State
    requires Enabled(o, s, e)
  {
    match e
    case TimerFires(h, now) =>
      var fired := s.(pending := s.pending - {h});
      // A request timer only aborts; the request then settles, or not, by itself.
      if s.pending[h].PollTimer? then Tick(o, started, fired, now) else fired
    case Resolves(terminal, hidden) => Resolved(o, s, terminal, hidden)
    case Rejects(hidden) => Rejected(o, s, hidden)
    case VisibilityChanges(hidden, now) => VisibilityChanged(o, started, s, hidden, now)
    case CallerStops => Stop(s)
  }

  // ------------------------------------------------------------------------
  // The invariant

  predicate IsEnd(c: Callback) {
    c.OnTerminal? || c.OnPause?
  }

  // At most one ending callback, and only as the very last callback.
  ghost predicate EndsOnce(log: seq<Callback>) {
    forall i :: 0 <= i < |log| - 1 ==> !IsEnd(log[i])
  }

  ghost predicate NotEnded(log: seq<Callback>) {
    forall i :: 0 <= i < |log| ==> !IsEnd(log[i])
  }

  // The errors since the last value.
  function TrailingErrors(log: seq<Callback>): nat {
    if log == [] || !log[|log| - 1].OnError? then 0 else 1 + TrailingErrors(log[..|log| - 1])
  }

  ghost predicate PollPending(s: State) {
    exists h :: h in s.pending && s.pending[h].PollTimer?
  }

  ghost predicate Valid(o: Options, s: State) {
    && (forall h :: h in s.pending ==>
          && h < s.nextHandle
          && !s.stopped
          && if s.pending[h].PollTimer? then !s.inFlight && s.timer == Some(h) else s.inFlight && s.requestTimer == Some(h))
    && (s.timer.Some? ==> s.timer.value < s.nextHandle)
    && (s.requestTimer.Some? ==> s.requestTimer.value < s.nextHandle)
    && s.outstanding == (if s.inFlight then 1 else 0)
    && (!s.stopped && !s.inFlight ==> s.timer.Some? && s.timer.value in s.pending && s.pending[s.timer.value].PollTimer?)
    && (s.stopped ==> !s.listening)
    && (if s.stopped then EndsOnce(s.log) else NotEnded(s.log))
    && 0 <= s.errors
    && (!s.stopped ==> s.errors < o.MaxErrors() && s.errors == TrailingErrors(s.log))
  }

  lemma StartValid(o: Options)
    requires o.MaxErrors() >= 1
    ensures Valid(o, Start(o))
  {
  }

  lemma TrailingErrorsAppend(log: seq<Callback>)
    ensures TrailingErrors(log + [OnError]) == TrailingErrors(log) + 1
    ensures TrailingErrors(log + [OnValue]) == 0
  {
    assert (log + [OnError])[..|log|] == log;
  }

  // Between two polls: nothing is scheduled and nothing is in flight.
  ghost predicate Ready(o: Options, s: State) {
    && !s.stopped && !s.inFlight && s.outstanding == 0
    && s.pending == map[]
    && (s.timer.Some? ==> s.timer.value < s.nextHandle)
    && (s.requestTimer.Some? ==> s.requestTimer.value < s.nextHandle)
    && NotEnded(s.log)
    && 0 <= s.errors < o.MaxErrors() && s.errors == TrailingErrors(s.log)
  }

  lemma TickValid(o: Options, started: int, s: State, now: int)
    requires Ready(o, s)
    ensures Valid(o, Tick(o, started, s, now))
  {
  }

  lemma IdleIsReady(o: Options, s: State, h: Handle)
    requires Valid(o, s) && !s.stopped && !s.inFlight && s.timer == Some(h)
    ensures Ready(o, s.(pending := s.pending - {h}))
  {
    assert s.pending - {h} == map[];
  }

  // In flight, or stopped with a request that has not settled yet.
  lemma SettledValid(o: Options, s: State, hidden: bool)
    requires Valid(o, s) && s.inFlight
    ensures Valid(o, Settled(o, s, hidden))
    ensures !s.stopped ==> s.requestTimer.None? || s.pending.Keys <= {s.requestTimer.value}
  {
  }

  lemma StopValid(o: Options, s: State)
    requires Valid(o, s)
    ensures Valid(o, Stop(s)) && Stop(s).pending == map[]
  {
    assert Stop(s).pending == map[];
  }

  lemma CountedValid(o: Options, s: State)
    requires Valid(o, s) && s.inFlight && !s.stopped && s.errors + 1 < o.MaxErrors()
    ensures Valid(o, s.(errors := s.errors + 1, log := s.log + [OnError]))
  {
    TrailingErrorsAppend(s.log);
  }

  lemma PausedValid(o: Options, s: State)
    requires Valid(o, s) && s.inFlight && !s.stopped
    ensures Valid(o, Stop(s).(errors := s.errors + 1, log := s.log + [OnError] + [OnPause(Network)]))
  {
    StopValid(o, s);
  }

  lemma FailedValid(o: Options, s: State)
    requires Valid(o, s) && s.inFlight
    ensures Valid(o, Failed(o, s)) && Failed(o, s).inFlight
  {
    if !s.stopped {
      if s.errors + 1 < o.MaxErrors() {
        CountedValid(o, s);
      } else {
        PausedValid(o, s);
      }
    }
  }

  lemma RejectedValid(o: Options, s: State, hidden: bool)
    requires Valid(o, s) && s.inFlight
    ensures Valid(o, Rejected(o, s, hidden))
  {
    FailedValid(o, s);
    SettledValid(o, Failed(o, s), hidden);
  }

  lemma ResolvedValid(o: Options, s: State, terminal: bool, hidden: bool)
    requires Valid(o, s) && s.inFlight
    ensures Valid(o, Resolved(o, s, terminal, hidden))
  {
    SettledValid(o, s, hidden);
    var t := Settled(o, s, hidden);
    if !t.stopped {
      TrailingErrorsAppend(t.log);
      var u := t.(errors := 0, log := t.log + [OnValue]);
      assert Valid(o, u);
      StopValid(o, u);
    }
  }

  lemma TimerValid(o: Options, started: int, s: State, h: Handle, now: int)
    requires Valid(o, s) && h in s.pending
    ensures Valid(o, Next(o, started, s, TimerFires(h, now)))
  {
    if s.pending[h].PollTimer? {
      IdleIsReady(o, s, h);
      TickValid(o, started, s.(pending := s.pending - {h}), now);
    }
  }

  lemma VisibilityValid(o: Options, started: int, s: State, hidden: bool, now: int)
    requires Valid(o, s)
    ensures Valid(o, VisibilityChanged(o, started, s, hidden, now))
  {
    if !s.stopped && !hidden && !s.inFlight {
      IdleIsReady(o, s, s.timer.value);
      TickValid(o, started, Cancel(s, s.timer), now);
    }
  }

  lemma NextValid(o: Options, started: int, s: State, e: Event)
    requires Valid(o, s) && Enabled(o, s, e)
    ensures Valid(o, Next(o, started, s, e))
  {
    match e
    case TimerFires(h, now) => TimerValid(o, started, s, h, now);
    case Resolves(terminal, hidden) => ResolvedValid(o, s, terminal, hidden);
    case Rejects(hidden) => RejectedValid(o, s, hidden);
    case VisibilityChanges(hidden, now) => VisibilityValid(o, started, s, hidden, now);
    case CallerStops => StopValid(o, s);
  }

  // ------------------------------------------------------------------------
  // Every interleaving

  // The state after a history of events; an event the browser cannot deliver is no event.
  function Run(o: Options, started: int, events: seq<Event>): State {
    if events == [] then Start(o)
    else
      var s := Run(o, started, events[..|events| - 1]);
      var e := events[|events| - 1];
      if Enabled(o, s, e) then Next(o, started, s, e) else s
  }

  lemma {:induction false} RunValid(o: Options, started: int, events: seq<Event>)
    requires o.MaxErrors() >= 1
    ensures Valid(o, Run(o, started, events))
  {
    if events == [] {
      StartValid(o);
    } else {
      var front := events[..|events| - 1];
      RunValid(o, started, front);
      if Enabled(o, Run(o, started, front), events[|events| - 1]) {
        NextValid(o, started, Run(o, started, front), events[|events| - 1]);
      }
    }
  }

  lemma StoppedHasNoTimers(o: Options, s: State)
    requires Valid(o, s) && s.stopped
    ensures s.pending == map[]
  {
    assert s.pending.Keys == {};
  }

  // Main result, for every history of events.
  lemma PollerIsSafe(o: Options, started: int, events: seq<Event>)
    requires o.MaxErrors() >= 1
    ensures var s := Run(o, started, events);
            && s.outstanding <= 1
            && (!s.stopped ==> (s.inFlight <==> !PollPending(s)))
            && (!s.stopped ==> TrailingErrors(s.log) < o.MaxErrors())
            && (forall h, k :: h in s.pending && k in s.pending && s.pending[h].PollTimer? && s.pending[k].PollTimer? ==> h == k)
            && (s.stopped ==> s.pending == map[] && !s.listening)
            && EndsOnce(s.log)
  {
    RunValid(o, started, events);
    var s := Run(o, started, events);
    if !s.stopped && !s.inFlight { assert s.pending[s.timer.value].PollTimer?; }
    if s.stopped {
      StoppedHasNoTimers(o, s);
    }
  }

  // Once stopped, whether by the caller or by an ending callback, a poller makes no further callback.
  lemma StoppedIsSilent(o: Options, started: int, s: State, e: Event)
    requires Valid(o, s) && s.stopped && Enabled(o, s, e)
    ensures Next(o, started, s, e).stopped && Next(o, started, s, e).log == s.log
  {
  }

  // An ending callback stops the poller, so nothing can follow it.
  lemma EndingStops(o: Options, started: int, s: State, e: Event)
    requires Valid(o, s) && Enabled(o, s, e)
    requires var t := Next(o, started, s, e); |t.log| > |s.log| && IsEnd(t.log[|t.log| - 1])
    ensures Next(o, started, s, e).stopped
  {
    NextValid(o, started, s, e);
  }

  // No request starts once the maximum duration has passed.
  lemma NoLateRequest(o: Options, started: int, s: State, e: Event)
    requires Valid(o, s) && Enabled(o, s, e)
    requires Next(o, started, s, e).outstanding > s.outstanding
    ensures e.TimerFires? || e.VisibilityChanges?
    ensures e.now - started < o.MaxDuration()
  {
  }

  // ------------------------------------------------------------------------
  // startStatusPolling, with its closure variables as fields

  class Poller {
    const o: Options
    const started: int
    var stopped: bool
    var inFlight: bool
    var errors: int
    var timer: Option<Handle>
    var requestTimer: Option<Handle>
    var pending: map<Handle, Timer>
    var nextHandle: Handle
    var listening: bool
    var outstanding: nat
    var log: seq<Callback>

    ghost function Snapshot(): State
      reads this
    {
      State(stopped, inFlight, errors, timer, requestTimer, pending, nextHandle, listening, outstanding, log)
    }

    constructor (options: Options, now: int)
      ensures o == options && started == now && Snapshot() == Start(options)
    {
      o, started := options, now;
      stopped, inFlight, errors, outstanding, log := false, false, 0, 0, [];
      requestTimer := None;
      listening := options.hasVisibility;
      timer, pending, nextHandle := Some(0), map[0 := PollTimer(0)], 1;
    }

    method Schedule(t: Timer) returns (h: Handle)
      modifies `pending, `nextHandle
      ensures h == old(nextHandle) && nextHandle == h + 1 && pending == old(pending)[h := t]
    {
      h := nextHandle;
      pending := pending[h := t];
      nextHandle := nextHandle + 1;
    }

    method CancelTimer(h: Option<Handle>)
      modifies `pending
      ensures Snapshot() == Cancel(old(Snapshot()), h)
    {
      if h.Some? { pending := pending - {h.value}; }
    }

    method StopPolling()
      modifies this
      ensures Snapshot() == Stop(old(Snapshot()))
    {
      stopped := true;
      CancelTimer(timer);
      CancelTimer(requestTimer);
      listening := false;
    }

    // tick() up to the await on options.load
    method BeginTick(now: int)
      modifies this
      ensures Snapshot() == Tick(o, started, old(Snapshot()), now)
    {
      if stopped || inFlight { return; }
      if now - started >= o.MaxDuration() {
        StopPolling();
        log := log + [OnPause(Timeout)];
        return;
      }
      inFlight := true;
      var h := Schedule(RequestTimer(o.RequestTimeout()));
      requestTimer := Some(h);
      outstanding := outstanding + 1;
    }

    method Finally(hidden: bool)
      modifies this
      ensures Snapshot() == Settled(o, old(Snapshot()), hidden)
    {
      CancelTimer(requestTimer);
      requestTimer := None;
      inFlight := false;
      outstanding := if outstanding == 0 then 0 else outstanding - 1;
      if !stopped {
        var h := Schedule(PollTimer(if o.hasVisibility && hidden then 30000 else o.Interval()));
        timer := Some(h);
      }
    }

    // tick() after the await, when the load fails
    method LoadFails(hidden: bool)
      modifies this
      ensures Snapshot() == Rejected(o, old(Snapshot()), hidden)
    {
      Catch();
      Finally(hidden);
    }

    method Catch()
      modifies this
      ensures Snapshot() == Failed(o, old(Snapshot()))
    {
      if stopped { return; }
      errors := errors + 1;
      log := log + [OnError];
      assert Snapshot() == old(Snapshot()).(errors := errors, log := log);
      if errors >= o.MaxErrors() {
        StopPolling();
        log := log + [OnPause(Network)];
      }
    }

    // tick() after the await, when the load succeeds
    method LoadSucceeds(terminal: bool, hidden: bool)
      modifies this
      ensures Snapshot() == Resolved(o, old(Snapshot()), terminal, hidden)
    {
      Finally(hidden);
      if stopped { return; }
      errors := 0;
      log := log + [OnValue];
      if terminal {
        StopPolling();
        log := log + [OnTerminal];
      }
    }

    method OnVisibility(hidden: bool, now: int)
      modifies this
      ensures Snapshot() == VisibilityChanged(o, started, old(Snapshot()), hidden, now)
    {
      if stopped || hidden { return; }
      CancelTimer(timer);
      BeginTick(now);
    }

    // The browser delivers one event.
    method Deliver(e: Event)
      requires Enabled(o, Snapshot(), e)
      modifies this
      ensures Snapshot() == Next(o, started, old(Snapshot()), e)
    {
      match e {
        case TimerFires(h, now) =>
          var t := pending[h];
          pending := pending - {h};
          if t.PollTimer? { BeginTick(now); }
        case Resolves(terminal, hidden) => LoadSucceeds(terminal, hidden);
        case Rejects(hidden) => LoadFails(hidden);
        case VisibilityChanges(hidden, now) => OnVisibility(hidden, now);
        case CallerStops => StopPolling();
      }
    }
  }
}
