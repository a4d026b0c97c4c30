// What the poller does on each event, while it runs.
module PollerOutcomes {
  import opened StatusPolling

  // A request is in flight and the poller runs.
  ghost predicate Waiting(o: Options, s: State) {
    Valid(o, s) && !s.stopped && s.inFlight
  }

  // The poll timer is the only thing pending.
  ghost predicate Idle(o: Options, s: State) {
    Valid(o, s) && !s.stopped && !s.inFlight
  }

  // Exactly one poll is scheduled, after this delay.
  predicate NextPollAfter(s: State, delay: int) {
    && !s.stopped && !s.inFlight && s.outstanding == 0
    && s.timer.Some? && s.pending == map[s.timer.value := PollTimer(delay)]
  }

  // The poller is over: nothing is pending, and nobody listens.
  predicate Over(s: State) {
    s.stopped && s.pending == map[] && !s.listening
  }

  function Delay(o: Options, hidden: bool): int {
    if o.hasVisibility && hidden then 30000 else (match o.intervalMs case Some(ms) => ms case None => 3000)
  }

  // The first poll is due at once.
  lemma StartOutcome(o: Options)
    ensures NextPollAfter(Start(o), 0) && Start(o).log == [] && Start(o).errors == 0 && Start(o).listening == o.hasVisibility
  {
  }

  lemma WaitingHasOnlyItsTimer(o: Options, s: State)
    requires Waiting(o, s)
    ensures Cancel(s, s.requestTimer).pending == map[]
  {
    var rest := Cancel(s, s.requestTimer).pending;
    assert forall h :: h in rest ==> false;
  }

  // A value resets the errors and is delivered; a terminal one ends the polling, any
  // other leaves the next poll scheduled.
  lemma ValueOutcome(o: Options, started: int, s: State, terminal: bool, hidden: bool)
    requires Waiting(o, s)
    ensures var t := Next(o, started, s, Resolves(terminal, hidden));
            && t.errors == 0
            && (terminal ==> t.log == s.log + [OnValue] + [OnTerminal] && Over(t))
            && (!terminal ==> t.log == s.log + [OnValue] && NextPollAfter(t, Delay(o, hidden)) && t.listening == s.listening)
  {
    WaitingHasOnlyItsTimer(o, s);
    NextValid(o, started, s, Resolves(terminal, hidden));
    if terminal { StoppedHasNoTimers(o, Next(o, started, s, Resolves(terminal, hidden))); }
  }

  function Allowed(o: Options): int { match o.maxErrors case Some(n) => n case None => 5 }

  // An error is counted and reported, and the next poll scheduled ...
  lemma ErrorOutcome(o: Options, started: int, s: State, hidden: bool)
    requires Waiting(o, s) && s.errors + 1 < Allowed(o)
    ensures var t := Next(o, started, s, Rejects(hidden));
            && t.errors == s.errors + 1 && t.log == s.log + [OnError]
            && NextPollAfter(t, Delay(o, hidden)) && t.listening == s.listening
  {
    WaitingHasOnlyItsTimer(o, s);
  }

  // ... but the last one allowed pauses the polling.
  lemma LastErrorOutcome(o: Options, started: int, s: State, hidden: bool)
    requires Waiting(o, s) && s.errors + 1 >= Allowed(o)
    ensures var t := Next(o, started, s, Rejects(hidden));
            t.errors == s.errors + 1 && t.log == s.log + [OnError] + [OnPause(Network)] && Over(t)
  {
    NextValid(o, started, s, Rejects(hidden));
    StoppedHasNoTimers(o, Next(o, started, s, Rejects(hidden)));
  }

  // A poll that comes up starts a request with its own time limit, or pauses when the
  // longest duration is over.
  ghost predicate Polled(o: Options, started: int, s: State, t: State, now: int) {
    if now - started >= (match o.maxDurationMs case Some(ms) => ms case None => 1200000)
    then t.log == s.log + [OnPause(Timeout)] && Over(t)
    else
      && t.log == s.log && !t.stopped && t.inFlight && t.outstanding == 1 && t.errors == s.errors && t.listening == s.listening
      && t.requestTimer.Some?
      && t.pending == map[t.requestTimer.value := RequestTimer(match o.requestTimeoutMs case Some(ms) => ms case None => 15000)]
  }

  lemma TimerOutcome(o: Options, started: int, s: State, h: Handle, now: int)
    requires Idle(o, s) && h in s.pending
    ensures Polled(o, started, s, Next(o, started, s, TimerFires(h, now)), now)
  {
    IdleIsReady(o, s, h);
    NextValid(o, started, s, TimerFires(h, now));
    var t := Next(o, started, s, TimerFires(h, now));
    if t.stopped { StoppedHasNoTimers(o, t); }
  }

  // The request's own timer only aborts it.
  lemma RequestTimerOutcome(o: Options, started: int, s: State, h: Handle, now: int)
    requires Waiting(o, s) && h in s.pending
    ensures Next(o, started, s, TimerFires(h, now)) == s.(pending := s.pending - {h})
  {
  }

  // A page that becomes visible polls at once; a hidden one, or one with a request in
  // flight, does not.
  lemma VisibilityOutcome(o: Options, started: int, s: State, hidden: bool, now: int)
    requires Valid(o, s) && s.listening
    ensures hidden ==> Next(o, started, s, VisibilityChanges(hidden, now)) == s
    ensures !hidden && !s.inFlight ==> Polled(o, started, s, Next(o, started, s, VisibilityChanges(hidden, now)), now)
    ensures !hidden && s.inFlight ==> Next(o, started, s, VisibilityChanges(hidden, now)).log == s.log
                                      && Next(o, started, s, VisibilityChanges(hidden, now)).outstanding == s.outstanding
  {
    if !hidden && !s.inFlight {
      IdleIsReady(o, s, s.timer.value);
      NextValid(o, started, s, VisibilityChanges(hidden, now));
      var t := Next(o, started, s, VisibilityChanges(hidden, now));
      if t.stopped { StoppedHasNoTimers(o, t); }
    }
  }

  // The caller's stop ends everything without a callback.
  lemma CallerStopOutcome(o: Options, started: int, s: State)
    requires Valid(o, s)
    ensures Over(Next(o, started, s, CallerStops)) && Next(o, started, s, CallerStops).log == s.log
  {
    NextValid(o, started, s, CallerStops);
    StoppedHasNoTimers(o, Next(o, started, s, CallerStops));
  }
}
