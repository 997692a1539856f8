/**
 * `AppComponent`: the fields its timer callbacks, entry actions and command
 * methods update in place, and one method per thing that can happen to it.
 * Every method is proved to change the fields exactly as the functions of
 * SessionModel say, and every event keeps the invariant `Valid()`.
 */
module SessionApp {
  import opened Wrappers
  import opened SessionMachine
  import SessionModel
  import SessionProperties

  class AppComponent {
    var state: State
    var sessionStartDateTime: int  // the machine context
    var hasSession: bool
    var hasSessionRefreshRequest: bool
    var currentSessionTime: int
    var timeToExpire: int
    var tempCount: int
    var countdownLive: bool        // `tempCountInterval` names an interval not yet cleared
    var leakedCountdowns: nat      // countdown intervals whose handle was overwritten
    var stored: Option<int>        // sessionStorage['sessionStartDateTime']

    /** The fields, as one value. */
    function View(): SessionModel.Snapshot
      reads this
    {
      SessionModel.Snapshot(state, sessionStartDateTime, currentSessionTime, timeToExpire,
                            tempCount, hasSession, hasSessionRefreshRequest, countdownLive,
                            leakedCountdowns, stored)
    }

    ghost predicate Valid()
      reads this
    {
      SessionModel.Inv(View())
    }

    /** The component after `ngOnInit` has started the machine. */
    constructor (storedAtLoad: Option<int>)
      ensures View() == SessionModel.Initial(storedAtLoad)
      ensures Valid()
    {
      state := CheckIfIsLoggedIn;
      sessionStartDateTime := 0;
      hasSession := false;
      hasSessionRefreshRequest := false;
      currentSessionTime := 0;
      timeToExpire := SessionModel.MaxSessionTime;
      tempCount := SessionModel.TempCountStart;
      countdownLive := false;
      leakedCountdowns := 0;
      stored := storedAtLoad;
    }

    // ----- entry actions -----

    method SetSessionStartTime(nowMs: nat)
      modifies this
      ensures View() == SessionModel.SetSessionStartTime(old(View()), nowMs)
    {
      var startDateTime := nowMs / 1000;
      stored := Some(startDateTime);
      timeToExpire := SessionModel.MaxSessionTime;
      sessionStartDateTime := startDateTime;
    }

    method AskToContinue()
      modifies this
      ensures View() == SessionModel.AskToContinue(old(View()))
    {
      if countdownLive {
        leakedCountdowns := leakedCountdowns + 1;
      }
      countdownLive := true;
      hasSessionRefreshRequest := true;
    }

    method ResetSessionStartTime()
      modifies this
      ensures View() == SessionModel.ResetSessionStartTime(old(View()))
    {
      countdownLive := false;
      tempCount := SessionModel.TempCountStart;
      timeToExpire := SessionModel.MaxSessionTime;
      currentSessionTime := 0;
      hasSession := false;
      hasSessionRefreshRequest := false;
    }

    method DeleteUserData()
      modifies this
      ensures View() == SessionModel.DeleteUserData(old(View()))
    {
      stored := None;
    }

    /** Enter `t`, run its entry actions, and take the fall-through out of
        `stopped`. */
    method Enter(t: State, nowMs: nat)
      modifies this
      ensures View() == SessionModel.EnterState(old(View()), t, nowMs)
    {
      state := t;
      match t {
        case Running =>
          SetSessionStartTime(nowMs);
        case WaitingRefresh =>
          AskToContinue();
        case Stopped =>
          ResetSessionStartTime();
          state := LoggedOut;
          DeleteUserData();
        case LoggedOut =>
          DeleteUserData();
        case _ =>
      }
    }

    /** The interpreter: deliver one event to the machine. */
    method Send(e: Event, nowMs: nat)
      modifies this
      ensures View() == SessionModel.Dispatch(old(View()), e, nowMs)
    {
      match Target(state, e) {
        case None =>
        case Some(t) =>
          Enter(t, nowMs);
      }
    }

    // ----- what happens to the component -----

    /** The login-status check settles; it always rejects. */
    method CheckLoggedInStatusSettles()
      requires Valid()
      modifies this
      ensures Valid()
      ensures View() == SessionModel.Handle(old(View()), SessionModel.CheckRejects)
    {
      SessionProperties.HandleKeepsInv(View(), SessionModel.CheckRejects);
      if state == CheckIfIsLoggedIn {
        Send(ServiceError, 0);
      }
    }

    /** The login service settles; it always resolves, after raising
        `hasSession`. */
    method LogInSettles(nowMs: nat)
      requires Valid()
      modifies this
      ensures Valid()
      ensures View() == SessionModel.Handle(old(View()), SessionModel.LogInResolves(nowMs))
    {
      SessionProperties.HandleKeepsInv(View(), SessionModel.LogInResolves(nowMs));
      if state == AuthUser {
        hasSession := true;
        Send(ServiceDone, nowMs);
      }
    }

    /** `doLogin`: its delayed REQUEST_LOGIN arrives. */
    method DoLogin()
      requires Valid()
      modifies this
      ensures Valid()
      ensures View() == SessionModel.Handle(old(View()), SessionModel.Login)
    {
      SessionProperties.HandleKeepsInv(View(), SessionModel.Login);
      Send(RequestLogin, 0);
    }

    method DoLogout()
      requires Valid()
      modifies this
      ensures Valid()
      ensures View() == SessionModel.Handle(old(View()), SessionModel.Logout)
    {
      SessionProperties.HandleKeepsInv(View(), SessionModel.Logout);
      hasSessionRefreshRequest := false;
      hasSession := false;
      Send(StopTimer, 0);
    }

    method DoRefresh(nowMs: nat)
      requires Valid()
      modifies this
      ensures Valid()
      ensures View() == SessionModel.Handle(old(View()), SessionModel.Refresh(nowMs))
    {
      SessionProperties.HandleKeepsInv(View(), SessionModel.Refresh(nowMs));
      hasSessionRefreshRequest := false;
      Send(RefreshTimer, nowMs);
    }

    /** One firing of the session checker's 1-second interval, which exists
        only while the machine is in `running`. */
    method SessionCheckerTick(nowMs: nat)
      requires Valid()
      modifies this
      ensures Valid()
      ensures View() == SessionModel.Handle(old(View()), SessionModel.SessionCheckerTick(nowMs))
    {
      SessionProperties.HandleKeepsInv(View(), SessionModel.SessionCheckerTick(nowMs));
      if state == Running {
        var diff := nowMs / 1000 - sessionStartDateTime;
        currentSessionTime := currentSessionTime + 1;
        timeToExpire := SessionModel.MaxSessionTime - diff;
        if diff > SessionModel.MaxSessionTime {
          Send(RequestRefresh, nowMs);
        }
      }
    }

    /** The WAITING_ANSWER_TIMEOUT delay elapses. */
    method WaitingAnswerTimeout()
      requires Valid()
      modifies this
      ensures Valid()
      ensures View() == SessionModel.Handle(old(View()), SessionModel.AnswerDeadline)
    {
      SessionProperties.HandleKeepsInv(View(), SessionModel.AnswerDeadline);
      Send(AnswerTimeout, 0);
    }

    /** One firing of a live 100 ms countdown interval. */
    method TempCountTick()
      requires Valid()
      modifies this
      ensures Valid()
      ensures View() == SessionModel.Handle(old(View()), SessionModel.TempCountTick)
    {
      SessionProperties.HandleKeepsInv(View(), SessionModel.TempCountTick);
      if countdownLive || leakedCountdowns > 0 {
        tempCount := tempCount - SessionModel.TempCountStep;
      }
    }
  }
}
