/** The countdown timer (electron/modules/timer.js). While running, the absolute
    end time `endTs` (ms) is the truth and `remainingSeconds` only a cache; the
    wall clock is the parameter `now` (ms). Each operation is specified by a
    step function on the state value, and the TimerManager class performs it
    field by field, appending the callbacks it fires to an event log. */
module Timer {
  import opened Wrappers
  import opened State

  /** Callbacks and side effects: `onTick`, `onEnd`, the end sound and the
      save scheduled `delayMs` after a natural end. */
  datatype Event = OnTick | OnEnd | EndSound | FlushAfter(delayMs: int)

  datatype Step = Step(state: AppState, events: seq<Event>)

  const FlushDelayMs := 250

  function Max(a: int, b: int): int {
    if a >= b then a else b
  }

  /** What every operation keeps true. */
  predicate Valid(s: AppState) {
    s.timer.remainingSeconds >= 0 &&
    s.timer.initialSeconds >= 0 &&
    (!s.timer.running ==> s.timer.endTs == 0) &&
    (s.timer.running ==> s.lastEnded == None)
  }

  /** `timeRemainingSeconds`: the cached value when stopped, otherwise the whole
      seconds left until `endTs`, never below zero. */
  function Remaining(s: AppState, now: int): (r: int)
    ensures !s.timer.running ==> r == s.timer.remainingSeconds
    ensures s.timer.running ==> r >= 0
    ensures s.timer.running ==> (r == 0 <==> s.timer.endTs - now < 1000)
    ensures s.timer.running && r > 0 ==> r * 1000 <= s.timer.endTs - now < r * 1000 + 1000
  {
    if !s.timer.running then s.timer.remainingSeconds
    else Max(0, (s.timer.endTs - now) / 1000)
  }

  /** `secondsToMinutesFloor`: whole minutes, never below zero. */
  function MinutesFloor(seconds: int): (m: nat)
    ensures seconds < 60 ==> m == 0
    ensures seconds >= 0 ==> m * 60 <= seconds < m * 60 + 60
  {
    Max(0, seconds / 60)
  }

  /** `Math.max(0, Math.floor(minutes * 60))`: the whole seconds in `minutes`. */
  function DurationSeconds(minutes: real): (n: nat)
    ensures minutes >= 0.0 ==> n as real <= minutes * 60.0 < n as real + 1.0
    ensures minutes < 0.0 ==> n == 0
  {
    Max(0, (minutes * 60.0).Floor)
  }

  // ---------------------------------------------------------------------------
  // The operations on state values

  /** `startTimer`: runs the configured length of the requested mode. */
  function StartStep(s: AppState, isBreak: bool, d: Durations, now: int): (r: Step)
    ensures Valid(r.state) && r.events == [OnTick]
  {
    var secs := DurationSeconds(if isBreak then d.breakMinutes else d.workMinutes);
    Step(AppState(TimerFields(true, isBreak, secs, now + secs * 1000, secs), None), [OnTick])
  }

  /** `stopTimer`: drops the anchor without refreshing the cache. */
  function StopStep(s: AppState): (r: Step)
    ensures Valid(s) ==> Valid(r.state)
    ensures !r.state.timer.running && r.events == [OnTick]
  {
    Step(s.(timer := s.timer.(running := false, endTs := 0)), [OnTick])
  }

  /** `pauseTimer`: snapshots the remaining time, only while running. */
  function PauseStep(s: AppState, now: int): (r: Step)
    ensures Valid(s) ==> Valid(r.state)
    ensures !r.state.timer.running
    ensures r.events == (if s.timer.running then [OnTick] else [])
  {
    if !s.timer.running then Step(s, [])
    else Step(s.(timer := s.timer.(remainingSeconds := Remaining(s, now), running := false, endTs := 0)), [OnTick])
  }

  /** `initialSeconds` is only filled in when it is 0 (falsy). */
  function FillInitial(t: TimerFields, next: int): TimerFields {
    if t.initialSeconds == 0 then t.(initialSeconds := next) else t
  }

  /** `resumeTimer`: anchors the cached time at `now`, only when stopped with time left. */
  function ResumeStep(s: AppState, now: int): (r: Step)
    ensures Valid(s) ==> Valid(r.state)
    ensures r.state.timer.running <==> s.timer.running || s.timer.remainingSeconds > 0
    ensures r.events == (if !s.timer.running && s.timer.remainingSeconds > 0 then [OnTick] else [])
  {
    var next := Max(0, s.timer.remainingSeconds);
    if s.timer.running || next <= 0 then Step(s, [])
    else Step(AppState(FillInitial(s.timer.(endTs := now + next * 1000, running := true), next), None), [OnTick])
  }

  /** `extendTimer`: moves the end by whole seconds, or adds to the cache of a stopped timer. */
  function ExtendStep(s: AppState, secondsDelta: real, now: int): (r: Step)
    ensures Valid(s) ==> Valid(r.state)
    ensures r.state.timer.isBreak == s.timer.isBreak && r.events == [OnTick]
  {
    var delta := secondsDelta.Floor;
    if s.timer.running then
      var shifted := s.(timer := s.timer.(endTs := s.timer.endTs + delta * 1000));
      Step(shifted.(timer := shifted.timer.(remainingSeconds := Remaining(shifted, now))), [OnTick])
    else
      var next := Max(0, s.timer.remainingSeconds + delta);
      if next > 0 && s.lastEnded.Some? then
        var t := s.timer.(remainingSeconds := next, endTs := now + next * 1000, running := true);
        Step(AppState(FillInitial(t, next), None), [OnTick])
      else
        Step(s.(timer := s.timer.(remainingSeconds := next, endTs := 0, running := false)), [OnTick])
  }

  /** The body of the one-second interval. */
  function TickStep(s: AppState, now: int): (r: Step)
    ensures Valid(s) ==> Valid(r.state)
    ensures !s.timer.running ==> r == Step(s, [])
    ensures r.state.timer.isBreak == s.timer.isBreak
  {
    if !s.timer.running then Step(s, [])
    else
      var rem := Remaining(s, now);
      var changed := if s.timer.remainingSeconds != rem then [OnTick] else [];
      var cached := s.timer.(remainingSeconds := rem);
      if rem <= 0 then
        Step(AppState(cached.(running := false, endTs := 0), Some(EndRecord(cached.isBreak, now))),
             [OnEnd, EndSound, FlushAfter(FlushDelayMs)] + changed)
      else
        Step(s.(timer := cached), changed)
  }

  /** The snapshot the notification sink and the command surface receive:
      the timer with a freshly computed remaining time. */
  function PublicState(s: AppState, now: int): (p: AppState)
    ensures p.timer.remainingSeconds == Remaining(s, now)
    ensures p.timer.(remainingSeconds := s.timer.remainingSeconds) == s.timer && p.lastEnded == s.lastEnded
  {
    s.(timer := s.timer.(remainingSeconds := Remaining(s, now)))
  }

  // ---------------------------------------------------------------------------
  // Arithmetic on whole seconds and milliseconds

  lemma SecondsRoundTrip(k: int)
    ensures (k * 1000) / 1000 == k
  {
  }

  /** Moving the end time by whole seconds moves the floor by exactly as many seconds. */
  lemma ShiftFloor(x: int, d: int)
    ensures (x + d * 1000) / 1000 == x / 1000 + d
  {
    var q, r := x / 1000, x % 1000;
    assert x + d * 1000 == (q + d) * 1000 + r;
  }

  // ---------------------------------------------------------------------------
  // Properties

  /** The state the state manager starts with satisfies the invariant. */
  lemma DefaultValid()
    ensures Valid(DefaultState)
  {
  }

  /** A running timer may have `endTs == 0`: a zero-length run started at time 0. */
  lemma RunningWithZeroEnd()
    ensures var t := StartStep(DefaultState, false, Durations(0.0, 3.0), 0).state;
            t.timer.running && t.timer.endTs == 0
  {
  }

  /** Remaining time is never negative on a valid state. */
  lemma RemainingNonNegative(s: AppState, now: int)
    requires Valid(s)
    ensures Remaining(s, now) >= 0
  {
  }

  /** Starting runs the configured duration: running, the mode as given, the
      cache and the initial length equal to it, no end record, and the remaining
      time immediately afterwards is exactly that duration. */
  lemma StartRunsDuration(s: AppState, isBreak: bool, d: Durations, now: int)
    ensures var t := StartStep(s, isBreak, d, now).state;
            var secs := DurationSeconds(if isBreak then d.breakMinutes else d.workMinutes);
            t.timer.running && t.timer.isBreak == isBreak &&
            t.timer.remainingSeconds == secs && t.timer.initialSeconds == secs &&
            t.timer.endTs == now + secs * 1000 && t.lastEnded == None &&
            Remaining(t, now) == secs
  {
    var secs := DurationSeconds(if isBreak then d.breakMinutes else d.workMinutes);
    SecondsRoundTrip(secs);
  }

  /** Whole-minute durations start exactly `minutes * 60` seconds. */
  lemma StartWholeMinutes(s: AppState, m: nat, now: int)
    ensures Remaining(StartStep(s, false, Durations(m as real, 3.0), now).state, now) == m * 60
  {
    assert (m as real * 60.0).Floor == m * 60;
    StartRunsDuration(s, false, Durations(m as real, 3.0), now);
  }

  /** Stop clears the anchor but keeps the cache, the initial length, the mode
      and any end record. */
  lemma StopKeepsCache(s: AppState, now: int)
    ensures var t := StopStep(s).state;
            !t.timer.running && t.timer.endTs == 0 &&
            t.timer.remainingSeconds == s.timer.remainingSeconds &&
            t.timer.initialSeconds == s.timer.initialSeconds &&
            t.timer.isBreak == s.timer.isBreak && t.lastEnded == s.lastEnded &&
            Remaining(t, now) == s.timer.remainingSeconds
  {
  }

  /** Because stop does not snapshot, time that passed since the last tick is
      given back: a timer with 5 s left whose cache still says 10 shows 10 after stop. */
  lemma StopGivesBackStaleCache()
    ensures var s := AppState(TimerFields(true, false, 10, 10000, 10), None);
            Remaining(s, 5000) == 5 && Remaining(StopStep(s).state, 5000) == 10 &&
            Remaining(ResumeStep(StopStep(s).state, 5000).state, 5000) == 10
  {
    SecondsRoundTrip(10);
  }

  /** Pause is a no-op when stopped; when running it snapshots the remaining
      time and keeps the initial length. */
  lemma PauseSnapshots(s: AppState, now: int)
    ensures !s.timer.running ==> PauseStep(s, now) == Step(s, [])
    ensures s.timer.running ==>
            var t := PauseStep(s, now).state;
            !t.timer.running && t.timer.endTs == 0 &&
            t.timer.remainingSeconds == Remaining(s, now) &&
            Remaining(t, now) == Remaining(s, now) &&
            t.timer.initialSeconds == s.timer.initialSeconds &&
            t.timer.isBreak == s.timer.isBreak && t.lastEnded == s.lastEnded
  {
  }

  /** Resume is a no-op when running or with nothing left; otherwise it anchors
      the cached time at `now`, clears the end record and fills in a missing
      initial length. */
  lemma ResumeAnchors(s: AppState, now: int)
    ensures s.timer.running || s.timer.remainingSeconds <= 0 ==> ResumeStep(s, now) == Step(s, [])
    ensures !s.timer.running && s.timer.remainingSeconds > 0 ==>
            var t := ResumeStep(s, now).state;
            t.timer.running && t.lastEnded == None &&
            t.timer.endTs == now + s.timer.remainingSeconds * 1000 &&
            t.timer.remainingSeconds == s.timer.remainingSeconds &&
            t.timer.isBreak == s.timer.isBreak &&
            Remaining(t, now) == s.timer.remainingSeconds &&
            t.timer.initialSeconds == (if s.timer.initialSeconds == 0 then s.timer.remainingSeconds
                                       else s.timer.initialSeconds)
  {
    SecondsRoundTrip(s.timer.remainingSeconds);
  }

  /** Pausing and resuming at the same instant shows the same remaining time;
      the timer runs again exactly when time was left, and a set initial length
      survives. */
  lemma {:induction false} PauseResumeRoundTrip(s: AppState, now: int)
    requires s.timer.running
    ensures var t := ResumeStep(PauseStep(s, now).state, now).state;
            Remaining(t, now) == Remaining(s, now) &&
            (t.timer.running <==> Remaining(s, now) > 0) &&
            (s.timer.initialSeconds != 0 ==> t.timer.initialSeconds == s.timer.initialSeconds)
  {
    SecondsRoundTrip(Remaining(s, now));
  }

  /** Extending a running timer moves the anchor by whole seconds, keeps it
      running even at zero, and, while the end lies ahead, adds the seconds
      to what is shown (clamped at zero). */
  lemma {:induction false} ExtendWhileRunning(s: AppState, secondsDelta: real, now: int)
    requires s.timer.running
    ensures var t := ExtendStep(s, secondsDelta, now).state;
            t.timer.running &&
            t.timer.endTs == s.timer.endTs + secondsDelta.Floor * 1000 &&
            t.timer.remainingSeconds == Remaining(t, now) &&
            t.timer.isBreak == s.timer.isBreak && t.timer.initialSeconds == s.timer.initialSeconds &&
            t.lastEnded == s.lastEnded &&
            (s.timer.endTs >= now ==> Remaining(t, now) == Max(0, Remaining(s, now) + secondsDelta.Floor))
  {
    ShiftFloor(s.timer.endTs - now, secondsDelta.Floor);
  }

  /** Extending a stopped timer adds to the cache (clamped at zero) and resumes
      it exactly when time is left and the countdown had ended naturally; a
      resume fills in a missing initial length, and the mode is kept. */
  lemma {:induction false} ExtendWhileStopped(s: AppState, secondsDelta: real, now: int)
    requires !s.timer.running
    ensures var t := ExtendStep(s, secondsDelta, now).state;
            var next := Max(0, s.timer.remainingSeconds + secondsDelta.Floor);
            t.timer.remainingSeconds == next &&
            (t.timer.running <==> next > 0 && s.lastEnded.Some?) &&
            (t.timer.running ==> t.lastEnded == None && Remaining(t, now) == next &&
                                 t.timer.endTs == now + next * 1000) &&
            (!t.timer.running ==> t.timer.endTs == 0 && t.lastEnded == s.lastEnded &&
                                  t.timer.initialSeconds == s.timer.initialSeconds) &&
            t.timer.initialSeconds == (if t.timer.running && s.timer.initialSeconds == 0 then next
                                       else s.timer.initialSeconds) &&
            t.timer.isBreak == s.timer.isBreak
  {
    SecondsRoundTrip(Max(0, s.timer.remainingSeconds + secondsDelta.Floor));
  }

  /** A tick while stopped changes nothing and fires nothing. */
  lemma TickIdle(s: AppState, now: int)
    requires !s.timer.running
    ensures TickStep(s, now) == Step(s, [])
  {
  }

  /** A tick while running caches the fresh remaining time; it ends the
      countdown exactly when less than a whole second is left, recording the
      mode and the instant; `onEnd` fires exactly then and `onTick` exactly
      when the cache changed. */
  lemma TickRunning(s: AppState, now: int)
    requires s.timer.running
    ensures var r := TickStep(s, now);
            var ended := s.timer.endTs - now < 1000;
            r.state.timer.remainingSeconds == Remaining(s, now) &&
            (r.state.timer.running <==> !ended) &&
            (ended ==> r.state.timer.endTs == 0 &&
                       r.state.lastEnded == Some(EndRecord(s.timer.isBreak, now)) &&
                       r.events[..3] == [OnEnd, EndSound, FlushAfter(250)]) &&
            (!ended ==> r.state.timer.endTs == s.timer.endTs && r.state.lastEnded == s.lastEnded) &&
            r.events == (if ended then [OnEnd, EndSound, FlushAfter(250)] else []) +
                        (if s.timer.remainingSeconds != Remaining(s, now) then [OnTick] else []) &&
            (OnEnd in r.events <==> ended) &&
            (OnTick in r.events <==> s.timer.remainingSeconds != Remaining(s, now)) &&
            r.state.timer.isBreak == s.timer.isBreak &&
            r.state.timer.initialSeconds == s.timer.initialSeconds
  {
    var r := TickStep(s, now);
    if s.timer.endTs - now < 1000 {
      assert r.events[0] == OnEnd;
    }
  }

  /** A 25-minute work session started at 0 shows 1500 s and ends on the tick at 1500 s. */
  lemma WorkSessionEnds(s: AppState)
    ensures var started := StartStep(s, false, Durations(25.0, 5.0), 0).state;
            var ended := TickStep(started, 1500000).state;
            Remaining(started, 0) == 1500 &&
            !ended.timer.running && ended.lastEnded == Some(EndRecord(false, 1500000)) &&
            OnEnd in TickStep(started, 1500000).events
  {
    StartWholeMinutes(s, 25, 0);
    SecondsRoundTrip(1500);
  }

  /** A 5-minute break paused at 60 s shows 240 s; extending by -300 s clamps to 0
      and does not resume, since the break never ended. */
  lemma PausedBreakStaysPaused(s: AppState)
    ensures var started := StartStep(s, true, Durations(25.0, 5.0), 0).state;
            var paused := PauseStep(started, 60000).state;
            var extended := ExtendStep(paused, -300.0, 60000).state;
            Remaining(paused, 60000) == 240 &&
            extended.timer.remainingSeconds == 0 && !extended.timer.running
  {
    assert (5.0 * 60.0).Floor == 300;
    assert (-300.0).Floor == -300;
  }

  /** Extending an ended timer by 30 s revives it with 30 s and clears the end record. */
  lemma ExtendRevivesEnded(s: AppState, now: int)
    requires !s.timer.running && s.timer.remainingSeconds == 0 && s.lastEnded.Some?
    ensures var t := ExtendStep(s, 30.0, now).state;
            t.timer.running && Remaining(t, now) == 30 && t.lastEnded == None
  {
    assert (30.0).Floor == 30;
    SecondsRoundTrip(30);
  }

  // ---------------------------------------------------------------------------
  // The timer object

  class TimerManager {
    /** The state manager whose `state` the timer reads and updates in place,
        so that every save writes the live timer. */
    const store: StateManager
    /** The callbacks fired so far, oldest first. */
    var events: seq<Event>

    constructor (store: StateManager)
      ensures this.store == store && events == []
    {
      this.store := store;
      events := [];
    }

    method TimeRemainingSeconds(now: int) returns (r: int)
      ensures r == Remaining(store.state, now)
      ensures store.state.timer.running ==> r >= 0
    {
      if !store.state.timer.running {
        return store.state.timer.remainingSeconds;
      }
      r := Max(0, (store.state.timer.endTs - now) / 1000);
    }

    /** Reads the length of the mode from the manager's settings. */
    method StartTimer(isBreak: bool, now: int)
      modifies this`events, store`state
      ensures store.state == StartStep(old(store.state), isBreak, store.settings.durations, now).state
      ensures events == old(events) + [OnTick]
      ensures Valid(store.state)
    {
      var d := store.settings.durations;
      var minutes := if isBreak then d.breakMinutes else d.workMinutes;
      store.state := store.state.(timer := store.state.timer.(isBreak := isBreak));
      store.state := store.state.(timer := store.state.timer.(running := true));
      store.state := store.state.(timer := store.state.timer.(remainingSeconds := Max(0, (minutes * 60.0).Floor)));
      store.state := store.state.(timer := store.state.timer.(initialSeconds := store.state.timer.remainingSeconds));
      store.state := store.state.(timer := store.state.timer.(endTs := now + store.state.timer.remainingSeconds * 1000));
      store.state := store.state.(lastEnded := None);
      events := events + [OnTick];
    }

    method StopTimer()
      modifies this`events, store`state
      ensures store.state == StopStep(old(store.state)).state
      ensures events == old(events) + [OnTick]
      ensures Valid(old(store.state)) ==> Valid(store.state)
    {
      store.state := store.state.(timer := store.state.timer.(running := false));
      store.state := store.state.(timer := store.state.timer.(endTs := 0));
      events := events + [OnTick];
    }

    method PauseTimer(now: int)
      modifies this`events, store`state
      ensures store.state == PauseStep(old(store.state), now).state
      ensures events == old(events) + PauseStep(old(store.state), now).events
      ensures Valid(old(store.state)) ==> Valid(store.state)
    {
      if !store.state.timer.running {
        return;
      }
      var rem := TimeRemainingSeconds(now);
      store.state := store.state.(timer := store.state.timer.(remainingSeconds := rem));
      store.state := store.state.(timer := store.state.timer.(running := false));
      store.state := store.state.(timer := store.state.timer.(endTs := 0));
      events := events + [OnTick];
    }

    method ResumeTimer(now: int)
      modifies this`events, store`state
      ensures store.state == ResumeStep(old(store.state), now).state
      ensures events == old(events) + ResumeStep(old(store.state), now).events
      ensures Valid(old(store.state)) ==> Valid(store.state)
    {
      if store.state.timer.running {
        return;
      }
      var next := Max(0, store.state.timer.remainingSeconds);
      if next <= 0 {
        return;
      }
      store.state := store.state.(timer := store.state.timer.(endTs := now + next * 1000));
      store.state := store.state.(timer := store.state.timer.(running := true));
      store.state := store.state.(lastEnded := None);
      if store.state.timer.initialSeconds == 0 {
        store.state := store.state.(timer := store.state.timer.(initialSeconds := next));
      }
      events := events + [OnTick];
    }

    method ExtendTimer(secondsDelta: real, now: int)
      modifies this`events, store`state
      ensures store.state == ExtendStep(old(store.state), secondsDelta, now).state
      ensures events == old(events) + [OnTick]
      ensures Valid(old(store.state)) ==> Valid(store.state)
    {
      var delta := secondsDelta.Floor;
      if store.state.timer.running {
        store.state := store.state.(timer := store.state.timer.(endTs := store.state.timer.endTs + delta * 1000));
        var rem := TimeRemainingSeconds(now);
        store.state := store.state.(timer := store.state.timer.(remainingSeconds := rem));
      } else {
        var next := Max(0, store.state.timer.remainingSeconds + delta);
        store.state := store.state.(timer := store.state.timer.(remainingSeconds := next));
        if next > 0 && store.state.lastEnded.Some? {
          store.state := store.state.(timer := store.state.timer.(endTs := now + next * 1000));
          store.state := store.state.(timer := store.state.timer.(running := true));
          if store.state.timer.initialSeconds == 0 {
            store.state := store.state.(timer := store.state.timer.(initialSeconds := next));
          }
          store.state := store.state.(lastEnded := None);
        } else {
          store.state := store.state.(timer := store.state.timer.(endTs := 0));
          store.state := store.state.(timer := store.state.timer.(running := false));
        }
      }
      events := events + [OnTick];
    }

    /** The callback of the one-second interval. */
    method Tick(now: int)
      modifies this`events, store`state
      ensures store.state == TickStep(old(store.state), now).state
      ensures events == old(events) + TickStep(old(store.state), now).events
      ensures Valid(old(store.state)) ==> Valid(store.state)
    {
      if !store.state.timer.running {
        return;
      }
      var rem := TimeRemainingSeconds(now);
      var lastRem := store.state.timer.remainingSeconds;
      store.state := store.state.(timer := store.state.timer.(remainingSeconds := rem));
      if rem <= 0 {
        store.state := store.state.(timer := store.state.timer.(running := false));
        store.state := store.state.(timer := store.state.timer.(endTs := 0));
        store.state := store.state.(lastEnded := Some(EndRecord(store.state.timer.isBreak, now)));
        events := events + [OnEnd, EndSound, FlushAfter(FlushDelayMs)];
      }
      if lastRem != rem {
        events := events + [OnTick];
      }
    }
  }
}
