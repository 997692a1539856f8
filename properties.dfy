/**
 * Properties of the session component: the invariant every event keeps, what
 * each entry and exit does, at most one refresh request per entry into
 * `running`, the refresh race, and the two scenarios of a session that
 * expires and one that is renewed.
 */
module SessionProperties {
  import opened Wrappers
  import opened SessionMachine
  import opened SessionModel

  /** Every event keeps the invariant. */
  lemma HandleKeepsInv(v: Snapshot, i: Input)
    requires Inv(v)
    ensures Inv(Handle(v, i))
  {
  }

  /** The invariant holds after any sequence of events. */
  lemma {:induction false} TraceKeepsInv(v: Snapshot, ins: seq<Input>)
    requires Inv(v)
    ensures Inv(Trace(v, ins))
    decreases |ins|
  {
    if ins != [] {
      HandleKeepsInv(v, ins[0]);
      TraceKeepsInv(Handle(v, ins[0]), ins[1..]);
    }
  }

  /** Whatever an earlier page load left in storage and whatever happens
      afterwards, the invariant holds. */
  lemma ReachableSatisfiesInv(storedAtLoad: Option<int>, ins: seq<Input>)
    ensures Inv(Trace(Initial(storedAtLoad), ins))
  {
    TraceKeepsInv(Initial(storedAtLoad), ins);
  }

  /** The login-status check always rejects, so the first run settles in
      `loggedOut` with the storage key removed. */
  lemma FirstCheckSettlesLoggedOut(storedAtLoad: Option<int>)
    ensures Handle(Initial(storedAtLoad), CheckRejects).state == LoggedOut
    ensures Handle(Initial(storedAtLoad), CheckRejects).stored == None
  {
  }

  /** The only way into `loggedIn` from `loggedOut`: REQUEST_LOGIN, then the
      login service, which raises `hasSession` before the machine enters
      `running`. */
  lemma LoginEntersRunning(v: Snapshot, nowMs: nat)
    requires Inv(v) && v.state == LoggedOut
    ensures Handle(v, Login).state == AuthUser
    ensures Handle(Handle(v, Login), LogInResolves(nowMs)).state == Running
    ensures Handle(Handle(v, Login), LogInResolves(nowMs)).hasSession
  {
  }

  /** An event enters `running` when it takes a transition whose target is
      `running`: the login service resolving, REFRESH_TIMER while waiting,
      or REFRESH_TIMER while running (a self-transition that leaves and
      re-enters the state). */
  predicate EntersRunning(v: Snapshot, i: Input)
  {
    Handle(v, i).state == Running && (v.state != Running || i.Refresh?)
  }

  /** Every entry into `running` stamps the start time from the clock, writes
      the same value to storage and restores `timeToExpire`, and leaves the
      counters alone; `hasSession` is true afterwards. */
  lemma EveryEntryToRunningStamps(v: Snapshot, i: Input)
    requires Inv(v) && EntersRunning(v, i)
    ensures i.LogInResolves? || i.Refresh?
    ensures var r := Handle(v, i);
      && r.sessionStartDateTime == Seconds(i.nowMs)
      && r.stored == Some(r.sessionStartDateTime)
      && r.timeToExpire == MaxSessionTime
      && r.currentSessionTime == v.currentSessionTime
      && r.tempCount == v.tempCount
      && r.hasSession
      && !r.hasSessionRefreshRequest
  {
  }

  /** Leaving `loggedIn` (by logout or by the answer deadline) passes through
      `stopped`: the countdown is cleared, the counters and flags are reset,
      the storage key is removed, and the start time is kept. */
  lemma LeavingLoggedInResets(v: Snapshot, i: Input)
    requires Inv(v) && IsLoggedIn(v.state) && !IsLoggedIn(Handle(v, i).state)
    ensures i.Logout? || i.AnswerDeadline?
    ensures var r := Handle(v, i);
      && r.state == LoggedOut
      && !r.countdownLive
      && r.tempCount == TempCountStart
      && r.timeToExpire == MaxSessionTime
      && r.currentSessionTime == 0
      && !r.hasSession && !r.hasSessionRefreshRequest
      && r.stored == None
      && r.sessionStartDateTime == v.sessionStartDateTime
      && r.leakedCountdowns == v.leakedCountdowns
  {
  }

  /** The refresh race: confirming before the deadline returns to `running`,
      the deadline first ends the session with the flag cleared, and a logout
      ends it regardless of the deadline. */
  lemma RefreshRace(v: Snapshot, nowMs: nat)
    requires v.state == WaitingRefresh
    ensures Handle(v, Refresh(nowMs)).state == Running
    ensures !Handle(v, Refresh(nowMs)).hasSessionRefreshRequest
    ensures Handle(v, AnswerDeadline).state == LoggedOut
    ensures !Handle(v, AnswerDeadline).hasSessionRefreshRequest
    ensures Handle(v, Logout).state == LoggedOut
  {
  }

  /** `doRefresh` neither resets `tempCount` nor clears the countdown. */
  lemma RefreshKeepsCountdown(v: Snapshot, nowMs: nat)
    requires Inv(v) && v.state == WaitingRefresh
    ensures Handle(v, Refresh(nowMs)).tempCount == v.tempCount
    ensures Handle(v, Refresh(nowMs)).countdownLive
  {
  }

  /** REFRESH_TIMER while running keeps the state and restarts the timer
      bookkeeping, without resetting the count of active seconds. */
  lemma RefreshWhileRunning(v: Snapshot, nowMs: nat)
    requires Inv(v) && v.state == Running
    ensures Handle(v, Refresh(nowMs)).state == Running
    ensures Handle(v, Refresh(nowMs)).sessionStartDateTime == Seconds(nowMs)
    ensures Handle(v, Refresh(nowMs)).currentSessionTime == v.currentSessionTime
  {
  }

  // ----- at most one REQUEST_REFRESH per entry into running -----

  /** The session checker raises REQUEST_REFRESH on this event. */
  predicate RaisesRefreshRequest(v: Snapshot, i: Input)
  {
    i.SessionCheckerTick? && v.state == Running
    && Seconds(i.nowMs) - v.sessionStartDateTime > MaxSessionTime
  }

  function RefreshRequests(v: Snapshot, ins: seq<Input>): nat
    decreases |ins|
  {
    if ins == [] then 0
    else (if RaisesRefreshRequest(v, ins[0]) then 1 else 0) + RefreshRequests(Handle(v, ins[0]), ins[1..])
  }

  function RunningEntries(v: Snapshot, ins: seq<Input>): nat
    decreases |ins|
  {
    if ins == [] then 0
    else (if EntersRunning(v, ins[0]) then 1 else 0) + RunningEntries(Handle(v, ins[0]), ins[1..])
  }

  function InRunning(v: Snapshot): nat
  {
    if v.state == Running then 1 else 0
  }

  /** A request moves the machine out of `running`, which cancels the
      checker. */
  lemma RefreshRequestLeavesRunning(v: Snapshot, i: Input)
    requires RaisesRefreshRequest(v, i)
    ensures Handle(v, i).state == WaitingRefresh
  {
  }

  /** Over any sequence of events, the checker raises REQUEST_REFRESH at most
      once per entry into `running` (counting the stay in progress at the
      start), and not at all during a stay that is still in progress. */
  lemma {:induction false} AtMostOneRefreshRequestPerEntry(v: Snapshot, ins: seq<Input>)
    ensures RefreshRequests(v, ins) + InRunning(Trace(v, ins)) <= RunningEntries(v, ins) + InRunning(v)
    decreases |ins|
  {
    if ins != [] {
      var i := ins[0];
      if RaisesRefreshRequest(v, i) {
        RefreshRequestLeavesRunning(v, i);
      }
      AtMostOneRefreshRequestPerEntry(Handle(v, i), ins[1..]);
    }
  }

  // ----- the countdown interval -----

  /** Asking again while the previous countdown is still live (a refresh
      leaves it running) starts a second interval and loses the handle of the
      first, which nothing clears afterwards. */
  lemma SecondRequestLeaksCountdown(v: Snapshot, i: Input)
    requires RaisesRefreshRequest(v, i) && v.countdownLive
    ensures Handle(v, i).leakedCountdowns == v.leakedCountdowns + 1
  {
  }

  lemma HandleNeverClearsLeak(v: Snapshot, i: Input)
    ensures Handle(v, i).leakedCountdowns >= v.leakedCountdowns
  {
  }

  /** No event ever clears a leaked countdown interval. */
  lemma {:induction false} LeakedCountdownsNeverCleared(v: Snapshot, ins: seq<Input>)
    ensures Trace(v, ins).leakedCountdowns >= v.leakedCountdowns
    decreases |ins|
  {
    if ins != [] {
      HandleNeverClearsLeak(v, ins[0]);
      LeakedCountdownsNeverCleared(Handle(v, ins[0]), ins[1..]);
    }
  }

  /** With no leaked interval, `loggedOut` shows the full countdown; with one,
      a countdown tick still lowers it after logout. */
  lemma CountdownAfterLogout(v: Snapshot)
    requires Inv(v) && v.state == LoggedOut
    ensures v.leakedCountdowns == 0 ==> v.tempCount == TempCountStart && Handle(v, TempCountTick) == v
    ensures v.leakedCountdowns > 0 ==> Handle(v, TempCountTick).tempCount == v.tempCount - TempCountStep
  {
  }

  // ----- scenarios -----

  /** The session starts at t = 0 after a login. */
  function LoggedInAtZero(storedAtLoad: Option<int>): Snapshot
  {
    Handle(Handle(Handle(Initial(storedAtLoad), CheckRejects), Login), LogInResolves(0))
  }

  /** A checker tick at `k` seconds into a session started at 0. */
  function TickAt(v: Snapshot, k: nat): Snapshot
  {
    Handle(v, SessionCheckerTick(k * 1000))
  }

  /** Checker ticks at 1 s, 2 s, .., n s. */
  function TicksThrough(v: Snapshot, n: nat): Snapshot
  {
    if n == 0 then v else TickAt(TicksThrough(v, n - 1), n)
  }

  lemma ScenarioSessionStarts(storedAtLoad: Option<int>)
    ensures LoggedInAtZero(storedAtLoad).state == Running
    ensures LoggedInAtZero(storedAtLoad).sessionStartDateTime == 0
    ensures LoggedInAtZero(storedAtLoad).stored == Some(0)
    ensures LoggedInAtZero(storedAtLoad).currentSessionTime == 0
    ensures LoggedInAtZero(storedAtLoad).timeToExpire == MaxSessionTime
    ensures LoggedInAtZero(storedAtLoad).hasSession
  {
  }

  /** A tick within the maximum keeps the session running and counts one
      more active second. */
  lemma TickWithinMaximum(v: Snapshot, k: nat)
    requires v.state == Running && v.sessionStartDateTime == 0 && k <= MaxSessionTime
    ensures TickAt(v, k).state == Running
    ensures TickAt(v, k).sessionStartDateTime == 0
    ensures TickAt(v, k).currentSessionTime == v.currentSessionTime + 1
    ensures TickAt(v, k).timeToExpire == MaxSessionTime - k
  {
  }

  /** Ticks at 1 s .. n s, n within the maximum, keep a session started at 0
      running; each counts one active second. */
  lemma {:induction false} TicksWithinMaximum(v: Snapshot, n: nat)
    requires v.state == Running && v.sessionStartDateTime == 0 && v.timeToExpire == MaxSessionTime
    requires n <= MaxSessionTime
    ensures TicksThrough(v, n).state == Running
    ensures TicksThrough(v, n).sessionStartDateTime == 0
    ensures TicksThrough(v, n).currentSessionTime == v.currentSessionTime + n
    ensures TicksThrough(v, n).timeToExpire == MaxSessionTime - n
  {
    if n > 0 {
      TicksWithinMaximum(v, n - 1);
      TickWithinMaximum(TicksThrough(v, n - 1), n);
    }
  }

  /** A tick past the maximum raises the refresh request and counts one
      more active second. */
  lemma TickBeyondMaximum(v: Snapshot, k: nat)
    requires v.state == Running && v.sessionStartDateTime == 0 && k > MaxSessionTime
    ensures TickAt(v, k).state == WaitingRefresh
    ensures TickAt(v, k).hasSessionRefreshRequest
    ensures TickAt(v, k).currentSessionTime == v.currentSessionTime + 1
    ensures TickAt(v, k).timeToExpire == MaxSessionTime - k
  {
  }

  /** The session started at 0, ticked at 1 s .. 5 s, then at 6 s. */
  function ExpiredAtSix(storedAtLoad: Option<int>): Snapshot
  {
    TickAt(TicksThrough(LoggedInAtZero(storedAtLoad), 5), 6)
  }

  /** Scenario: the ticks up to 5 s keep the session running; the tick at 6 s
      sees diff = 6 > 5 and enters `waitingRefresh`; with no answer the
      deadline ends the session in `loggedOut` with the flag cleared. */
  lemma ScenarioExpires(storedAtLoad: Option<int>)
    ensures ExpiredAtSix(storedAtLoad).state == WaitingRefresh
    ensures ExpiredAtSix(storedAtLoad).hasSessionRefreshRequest
    ensures ExpiredAtSix(storedAtLoad).currentSessionTime == 6
    ensures ExpiredAtSix(storedAtLoad).timeToExpire == -1
    ensures Handle(ExpiredAtSix(storedAtLoad), AnswerDeadline).state == LoggedOut
    ensures !Handle(ExpiredAtSix(storedAtLoad), AnswerDeadline).hasSessionRefreshRequest
  {
    var v0 := LoggedInAtZero(storedAtLoad);
    ScenarioSessionStarts(storedAtLoad);
    TicksWithinMaximum(v0, 5);
    TickBeyondMaximum(TicksThrough(v0, 5), 6);
    RefreshRace(ExpiredAtSix(storedAtLoad), 0);
  }

  /** Scenario: the user confirms 2 s into the wait. The machine returns to
      `running` with the start restamped and `timeToExpire` = 5; the count of
      active seconds keeps its 6, since entering `running` does not reset it. */
  lemma ScenarioRenewed(storedAtLoad: Option<int>)
    ensures Handle(ExpiredAtSix(storedAtLoad), Refresh(8000)).state == Running
    ensures Handle(ExpiredAtSix(storedAtLoad), Refresh(8000)).timeToExpire == 5
    ensures Handle(ExpiredAtSix(storedAtLoad), Refresh(8000)).sessionStartDateTime == 8
    ensures Handle(ExpiredAtSix(storedAtLoad), Refresh(8000)).currentSessionTime == 6
  {
    ScenarioExpires(storedAtLoad);
  }
}
