/**
 * The observable state of `AppComponent` together with its state chart, as a
 * value, and what each action, timer firing and command does to it. The
 * class in app.dfy is proved against these functions.
 */
module SessionModel {
  import opened Wrappers
  import opened SessionMachine

  /** `maxSessionTime`, in seconds; the component never reassigns it. */
  const MaxSessionTime: int := 5
  /** The value `tempCount` starts from and is reset to, in milliseconds. */
  const TempCountStart: int := 5000
  /** What one firing of the 100 ms countdown interval subtracts. */
  const TempCountStep: int := 100

  datatype Snapshot = Snapshot(
    state: State,
    sessionStartDateTime: int,      // the machine context, in seconds
    currentSessionTime: int,
    timeToExpire: int,
    tempCount: int,
    hasSession: bool,
    hasSessionRefreshRequest: bool,
    countdownLive: bool,            // `tempCountInterval` names an interval not yet cleared
    leakedCountdowns: nat,          // countdown intervals still firing whose handle was overwritten
    stored: Option<int>)            // sessionStorage['sessionStartDateTime']

  /** The component as `ngOnInit` starts it; the storage slot holds whatever
      an earlier page load left there. */
  function Initial(storedAtLoad: Option<int>): (r: Snapshot)
    ensures Inv(r)
    ensures r.stored == storedAtLoad
  {
    Snapshot(CheckIfIsLoggedIn, 0, 0, MaxSessionTime, TempCountStart,
             false, false, false, 0, storedAtLoad)
  }

  /** Whole seconds since the epoch of a non-negative millisecond clock. */
  function Seconds(nowMs: nat): (r: nat)
    ensures r * 1000 <= nowMs < r * 1000 + 1000
  {
    nowMs / 1000
  }

  // ----- entry actions -----

  /** `setSessionStartTime`: stamp the start, persist it, restore the expiry. */
  function SetSessionStartTime(v: Snapshot, nowMs: nat): (r: Snapshot)
    ensures r.sessionStartDateTime * 1000 <= nowMs < r.sessionStartDateTime * 1000 + 1000
    ensures r.stored == Some(r.sessionStartDateTime)
    ensures r.timeToExpire == MaxSessionTime
    ensures r == v.(sessionStartDateTime := r.sessionStartDateTime, stored := r.stored,
                    timeToExpire := r.timeToExpire)
  {
    var start := Seconds(nowMs);
    v.(sessionStartDateTime := start, stored := Some(start), timeToExpire := MaxSessionTime)
  }

  /** `askForRefresh`, that is `askToContinue`: start a fresh countdown
      interval, overwriting the handle of any earlier one, and raise the flag. */
  function AskToContinue(v: Snapshot): (r: Snapshot)
    ensures r.countdownLive && r.hasSessionRefreshRequest
    ensures r.tempCount == v.tempCount
    ensures r.leakedCountdowns >= v.leakedCountdowns
    ensures r.leakedCountdowns > v.leakedCountdowns <==> v.countdownLive
    ensures r == v.(countdownLive := true, leakedCountdowns := r.leakedCountdowns,
                    hasSessionRefreshRequest := true)
  {
    v.(countdownLive := true,
       leakedCountdowns := if v.countdownLive then v.leakedCountdowns + 1 else v.leakedCountdowns,
       hasSessionRefreshRequest := true)
  }

  /** `resetSessionStartTime`. The context is not assigned, so the start time
      survives. */
  function ResetSessionStartTime(v: Snapshot): (r: Snapshot)
    ensures !r.countdownLive && !r.hasSession && !r.hasSessionRefreshRequest
    ensures r.tempCount == TempCountStart && r.timeToExpire == MaxSessionTime
    ensures r.currentSessionTime == 0
    ensures r.state == v.state && r.sessionStartDateTime == v.sessionStartDateTime
    ensures r.stored == v.stored && r.leakedCountdowns == v.leakedCountdowns
  {
    v.(countdownLive := false, tempCount := TempCountStart, timeToExpire := MaxSessionTime,
       currentSessionTime := 0, hasSession := false, hasSessionRefreshRequest := false)
  }

  /** `deleteUserData`: remove the storage key. */
  function DeleteUserData(v: Snapshot): (r: Snapshot)
    ensures r.stored.None?
    ensures r.(stored := v.stored) == v
  {
    v.(stored := None)
  }

  /** Enter `t` and run its entry actions; `stopped` runs its own and then
      falls through to `loggedOut`, running that state's. */
  function EnterState(v: Snapshot, t: State, nowMs: nat): (r: Snapshot)
    ensures r.state == Settle(t)
  {
    match t
    case Running => SetSessionStartTime(v, nowMs).(state := Running)
    case WaitingRefresh => AskToContinue(v).(state := WaitingRefresh)
    case Stopped => DeleteUserData(ResetSessionStartTime(v.(state := Stopped))).(state := LoggedOut)
    case LoggedOut => DeleteUserData(v.(state := LoggedOut))
    case _ => v.(state := t)
  }

  /** Deliver one event to the machine. The clock matters only to an entry
      into `running`. */
  function Dispatch(v: Snapshot, e: Event, nowMs: nat): (r: Snapshot)
    ensures r.state == Step(v.state, e)
    ensures Target(v.state, e) == None ==> r == v
  {
    match Target(v.state, e)
    case None => v
    case Some(t) => EnterState(v, t, nowMs)
  }

  // ----- timers -----

  /** One firing of the 1-second `sessionChecker` interval. The interval lives
      only while the machine is in `running`. */
  function SessionCheckerFires(v: Snapshot, nowMs: nat): (r: Snapshot)
    ensures v.state != Running ==> r == v
    ensures v.state == Running ==>
      && r.currentSessionTime == v.currentSessionTime + 1
      && r.timeToExpire == MaxSessionTime - (Seconds(nowMs) - v.sessionStartDateTime)
      && (r.state == WaitingRefresh <==> r.timeToExpire < 0)
      && (r.state == Running <==> r.timeToExpire >= 0)
      && r.sessionStartDateTime == v.sessionStartDateTime
      && r.stored == v.stored
      && r.tempCount == v.tempCount
      && r.hasSession == v.hasSession
  {
    if v.state != Running then v
    else
      var diff := Seconds(nowMs) - v.sessionStartDateTime;
      var ticked := v.(currentSessionTime := v.currentSessionTime + 1,
                       timeToExpire := MaxSessionTime - diff);
      if diff > MaxSessionTime then Dispatch(ticked, RequestRefresh, nowMs) else ticked
  }

  /** One firing of a 100 ms countdown interval, if any is still live. Nothing
      clamps the count at zero. */
  function CountdownFires(v: Snapshot): (r: Snapshot)
    ensures r == v.(tempCount := r.tempCount)
    ensures (v.countdownLive || v.leakedCountdowns > 0) ==> r.tempCount == v.tempCount - TempCountStep
    ensures !(v.countdownLive || v.leakedCountdowns > 0) ==> r == v
  {
    if v.countdownLive || v.leakedCountdowns > 0 then v.(tempCount := v.tempCount - TempCountStep)
    else v
  }

  // ----- everything that can happen to the component -----

  datatype Input =
    | CheckRejects                // the login-status check settles: it always rejects
    | LogInResolves(nowMs: nat)   // the login service settles: it always resolves
    | Login                       // `doLogin`'s delayed REQUEST_LOGIN arrives
    | Logout                      // `doLogout`
    | Refresh(nowMs: nat)         // `doRefresh`
    | SessionCheckerTick(nowMs: nat)
    | AnswerDeadline              // WAITING_ANSWER_TIMEOUT elapses
    | TempCountTick

  function Handle(v: Snapshot, i: Input): (r: Snapshot)
    ensures v.state != Exit ==> r.state != Exit
    ensures v.state != Stopped ==> r.state != Stopped
    ensures i.Logout? ==> !r.hasSession && !r.hasSessionRefreshRequest
    ensures i.Refresh? ==> !r.hasSessionRefreshRequest
    ensures i.CheckRejects? && v.state == CheckIfIsLoggedIn ==> r.state == LoggedOut && r.stored.None?
    ensures i.LogInResolves? && v.state == AuthUser ==> r.state == Running && r.hasSession
    ensures r.state == Running && v.state != Running ==> i.LogInResolves? || i.Refresh?
    ensures i.TempCountTick? ==> r.state == v.state && r.stored == v.stored
  {
    match i
    case CheckRejects =>
      if v.state == CheckIfIsLoggedIn then Dispatch(v, ServiceError, 0) else v
    case LogInResolves(nowMs) =>
      if v.state == AuthUser then Dispatch(v.(hasSession := true), ServiceDone, nowMs) else v
    case Login => Dispatch(v, RequestLogin, 0)
    case Logout => Dispatch(v.(hasSessionRefreshRequest := false, hasSession := false), StopTimer, 0)
    case Refresh(nowMs) => Dispatch(v.(hasSessionRefreshRequest := false), RefreshTimer, nowMs)
    case SessionCheckerTick(nowMs) => SessionCheckerFires(v, nowMs)
    case AnswerDeadline => Dispatch(v, AnswerTimeout, 0)
    case TempCountTick => CountdownFires(v)
  }

  function Trace(v: Snapshot, ins: seq<Input>): Snapshot
    decreases |ins|
  {
    if ins == [] then v else Trace(Handle(v, ins[0]), ins[1..])
  }

  /** What holds between events, from the first page load on. */
  ghost predicate Inv(v: Snapshot)
    ensures Inv(v) && v.state != CheckIfIsLoggedIn ==> (v.stored.Some? <==> v.hasSession)
    ensures Inv(v) ==> (v.hasSessionRefreshRequest ==> v.hasSession && v.countdownLive)
  {
    && v.state != Stopped
    && v.state != Exit
    && (v.state == Running || v.state == WaitingRefresh ==> v.stored == Some(v.sessionStartDateTime))
    && (v.state == AuthUser || v.state == LoggedOut ==> v.stored == None)
    && (v.hasSession <==> v.state == Running || v.state == WaitingRefresh)
    && (v.hasSessionRefreshRequest <==> v.state == WaitingRefresh)
    && (v.state == WaitingRefresh ==> v.countdownLive)
    && (!IsLoggedIn(v.state) ==>
          && !v.countdownLive
          && v.currentSessionTime == 0
          && v.timeToExpire == MaxSessionTime
          && (v.leakedCountdowns == 0 ==> v.tempCount == TempCountStart))
  }
}
