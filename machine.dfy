/**
 * The `timerSession` state chart of `AppComponent`, reduced to its states,
 * its events and its transition table. The compound state `loggedIn` is
 * flattened into its four sub-states; entering `loggedIn` means entering its
 * initial sub-state `running`.
 */
module SessionMachine {
  import opened Wrappers

  datatype State =
    | CheckIfIsLoggedIn  // initial; invokes the login-status check
    | AuthUser           // invokes the login service
    | Stopped            // loggedIn.stopped
    | Running            // loggedIn.running; the session checker runs here
    | WaitingRefresh     // loggedIn.waitingRefresh; the answer deadline runs here
    | Exit               // loggedIn.exit, a final state
    | LoggedOut

  predicate IsLoggedIn(s: State)
  {
    s.Stopped? || s.Running? || s.WaitingRefresh? || s.Exit?
  }

  datatype Event =
    | RequestLogin    // REQUEST_LOGIN
    | StopTimer       // STOP_TIMER
    | RefreshTimer    // REFRESH_TIMER
    | RequestRefresh  // REQUEST_REFRESH, raised by the session checker
    | ServiceDone     // the service invoked by the current state resolved
    | ServiceError    // the service invoked by the current state rejected
    | AnswerTimeout   // the WAITING_ANSWER_TIMEOUT delay of waitingRefresh elapsed
    | Always          // an ordinary event whose type is the string "always"

  /** True of every event some part of the program can deliver: no code sends
      an event whose type is "always". */
  predicate Sendable(e: Event)
  {
    e != Always
  }

  /** The `on`, `invoke` and `after` tables of the chart, as written: `stopped`
      lists "always" as the name of an event it accepts. */
  function Target(s: State, e: Event): (r: Option<State>)
    ensures r != Some(Exit)
    ensures s == Exit ==> r == None
    ensures r == Some(Running) ==> e == ServiceDone || e == RefreshTimer
    ensures r == Some(Stopped) ==> e == StopTimer || e == AnswerTimeout
    ensures r == Some(AuthUser) <==> s == LoggedOut && e == RequestLogin
  {
    match (s, e)
    case (CheckIfIsLoggedIn, ServiceDone) => Some(Running)
    case (CheckIfIsLoggedIn, ServiceError) => Some(LoggedOut)
    case (AuthUser, ServiceDone) => Some(Running)
    case (AuthUser, ServiceError) => Some(LoggedOut)
    case (Stopped, Always) => Some(LoggedOut)
    case (Running, StopTimer) => Some(Stopped)
    case (Running, RefreshTimer) => Some(Running)
    case (Running, RequestRefresh) => Some(WaitingRefresh)
    case (WaitingRefresh, StopTimer) => Some(Stopped)
    case (WaitingRefresh, RefreshTimer) => Some(Running)
    case (WaitingRefresh, AnswerTimeout) => Some(Stopped)
    case (LoggedOut, RequestLogin) => Some(AuthUser)
    case _ => None
  }

  /** The state the machine rests in after entering `t`: `stopped` is a
      cleanup state that immediately falls through to `loggedOut`. */
  function Settle(t: State): (r: State)
    ensures r != Stopped
    ensures t != Stopped ==> r == t
  {
    if t == Stopped then LoggedOut else t
  }

  /** One event, with the intended eventless `stopped -> loggedOut` edge. An
      event the current state does not list is ignored. */
  function Step(s: State, e: Event): (r: State)
    ensures Target(s, e) == Some(Stopped) ==> r == LoggedOut
    ensures Target(s, e).Some? && Target(s, e) != Some(Stopped) ==> r == Target(s, e).value
    ensures Target(s, e) == None ==> r == s
    ensures s != Stopped ==> r != Stopped
  {
    match Target(s, e)
    case None => s
    case Some(t) => Settle(t)
  }

  /** One event, as the chart is written: `stopped` waits for an event named
      "always". */
  function WrittenStep(s: State, e: Event): (r: State)
    ensures s == Stopped && Sendable(e) ==> r == Stopped
    ensures r != Stopped ==> r == Step(s, e)
    ensures r == Stopped && s != Stopped ==> Step(s, e) == LoggedOut
  {
    match Target(s, e)
    case None => s
    case Some(t) => t
  }

  function Run(s: State, es: seq<Event>): State
    decreases |es|
  {
    if es == [] then s else Run(Step(s, es[0]), es[1..])
  }

  function WrittenRun(s: State, es: seq<Event>): State
    decreases |es|
  {
    if es == [] then s else WrittenRun(WrittenStep(s, es[0]), es[1..])
  }

  /** Each state accepts exactly the events its table lists, reaching the
      listed target (through `stopped` to `loggedOut` where the target is
      `stopped`); every other event leaves the state as it is. */
  lemma TransitionTable()
    ensures Step(Running, StopTimer) == LoggedOut
    ensures Step(Running, RefreshTimer) == Running
    ensures Step(Running, RequestRefresh) == WaitingRefresh
    ensures forall e :: e != StopTimer && e != RefreshTimer && e != RequestRefresh ==> Step(Running, e) == Running
    ensures Step(WaitingRefresh, StopTimer) == LoggedOut
    ensures Step(WaitingRefresh, RefreshTimer) == Running
    ensures Step(WaitingRefresh, AnswerTimeout) == LoggedOut
    ensures forall e :: e != StopTimer && e != RefreshTimer && e != AnswerTimeout ==> Step(WaitingRefresh, e) == WaitingRefresh
    ensures forall e :: Step(LoggedOut, e) != LoggedOut <==> e == RequestLogin
    ensures Step(LoggedOut, RequestLogin) == AuthUser
    ensures forall e :: Step(CheckIfIsLoggedIn, e) != CheckIfIsLoggedIn <==> e == ServiceDone || e == ServiceError
    ensures forall e :: Step(AuthUser, e) != AuthUser <==> e == ServiceDone || e == ServiceError
    ensures Step(CheckIfIsLoggedIn, ServiceDone) == Running && Step(CheckIfIsLoggedIn, ServiceError) == LoggedOut
    ensures Step(AuthUser, ServiceDone) == Running && Step(AuthUser, ServiceError) == LoggedOut
    ensures forall e :: Step(Exit, e) == Exit
  {
  }

  /** `exit` is unreachable: from any other state, no sequence of events
      leads into it. */
  lemma {:induction false} RunNeverReachesExit(s: State, es: seq<Event>)
    requires s != Exit
    ensures Run(s, es) != Exit
    decreases |es|
  {
    if es != [] {
      RunNeverReachesExit(Step(s, es[0]), es[1..]);
    }
  }

  /** With the fall-through, the machine never rests in `stopped`. */
  lemma {:induction false} RunNeverRestsInStopped(s: State, es: seq<Event>)
    requires s != Stopped
    ensures Run(s, es) != Stopped
    decreases |es|
  {
    if es != [] {
      RunNeverRestsInStopped(Step(s, es[0]), es[1..]);
    }
  }

  /** As written, `stopped` is a trap: once there, no event the program can
      send ever moves the machine out of it. */
  lemma {:induction false} StoppedTrapsAsWritten(es: seq<Event>)
    requires forall k :: 0 <= k < |es| ==> Sendable(es[k])
    ensures WrittenRun(Stopped, es) == Stopped
  {
    if es != [] {
      assert Sendable(es[0]);
      StoppedTrapsAsWritten(es[1..]);
    }
  }

  /** The consequence: as written, a user who logs out can never log in
      again; with the fall-through, REQUEST_LOGIN after STOP_TIMER starts a
      new authentication. */
  lemma LoginAfterLogout()
    ensures WrittenRun(Running, [StopTimer, RequestLogin]) == Stopped
    ensures Run(Running, [StopTimer, RequestLogin]) == AuthUser
  {
  }
}
