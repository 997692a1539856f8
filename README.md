# session-app: the session-lifecycle machine of `AppComponent`

This project models the session timer of the Angular component `AppComponent`
(src/app/app.component.ts). The component drives an xstate chart,
`timerSession`, with these states:

- `checkIfIsLoggedIn` runs a login-status check that always rejects.
- `authUser` runs a login that always resolves.
- `loggedIn` has four sub-states: `stopped`, `running`, `waitingRefresh` and `exit`.
- `loggedOut`.

A 1-second session checker runs while the machine is in `running`. Once more
than `maxSessionTime` (5) seconds have passed since the session started, it
raises REQUEST_REFRESH. In `waitingRefresh` the user has
WAITING_ANSWER_TIMEOUT to confirm (`doRefresh`) or the session ends. Entry
actions and timer callbacks keep these fields of the component up to date:

- `currentSessionTime`, `timeToExpire` and `tempCount`, a 100 ms countdown shown to the user;
- `hasSession` and `hasSessionRefreshRequest`;
- the `sessionStorage` key `sessionStartDateTime`.

The project has five files:

- wrappers.dfy: `Option`.
- machine.dfy: the states, the events and the transition table as data (`Target`). It gives the state-level step twice: with the intended fall-through out of `stopped` (`Step`, `Run`) and as written (`WrittenStep`, `WrittenRun`).
- model.dfy: every field of the component and the machine context as one value (`Snapshot`). Each entry action, timer firing and command is a function on that value, and `Handle` applies one input. `Inv` is the invariant that holds between events.
- properties.dfy: lemmas about `Handle` and about sequences of inputs (`Trace`).

model.dfy, properties.dfy and app.dfy take the intended fall-through out of
`stopped` (`Settle`): after a logout or the answer deadline they run
`stopped`'s reset and then `loggedOut`'s entry, which removes the storage key.
As written, the machine rests in `loggedIn.stopped` instead. `loggedOut`'s
`deleteUserData` never runs, so the storage key keeps the start time, and
REQUEST_LOGIN is ignored from then on (see "## Findings"). What the lemmas
state about reaching `loggedOut` (`LeavingLoggedInResets`, `RefreshRace`,
`ScenarioExpires`, `CountdownAfterLogout`, and the class methods `DoLogout`
and `WaitingAnswerTimeout`) describes the corrected chart.
- app.dfy: the class `AppComponent` with those fields. It has one method per entry action and one per input. Each method is proved to change the fields exactly as model.dfy says, and each input method keeps `Valid()`.

Timers are replaced by explicit inputs. One firing of the 1-second checker is
`SessionCheckerTick(nowMs)`. One firing of a 100 ms countdown is
`TempCountTick`. The WAITING_ANSWER_TIMEOUT deadline is `AnswerDeadline`. The
clock is a `nat` count of milliseconds passed to the inputs that may enter
`running`. `floor(now / 1000)` is integer division of that count.

Four details of the code that a reader might not expect, all modelled as the code has them:

- Entering `running` does not reset `currentSessionTime`. Only `stopped` does. After a confirmed refresh the count keeps its value (`ScenarioRenewed` shows 6, not 0).
- `stopped` does not zero the context's `sessionStartDateTime`, because nothing assigns it. Only the storage key is removed.
- The checker compares against the component field `maxSessionTime`. The context field `maxTimeout` is never read.
- The checker's `onReceive` handler would re-raise a forwarded REFRESH_TIMER. The invoke does not set `autoForward`, so nothing is ever forwarded. REFRESH_TIMER in `running` is handled by the state's own self-transition, which leaves and re-enters `running`.

`askToContinue` stores each new countdown interval in `tempCountInterval` without
clearing the previous one. `doRefresh` leaves that interval running. So a
second refresh request in the same session loses the handle of the first
interval. Nothing clears that interval afterwards, and it keeps lowering
`tempCount` even after logout. The model tracks this with `countdownLive` and
`leakedCountdowns` (`SecondRequestLeaksCountdown`,
`LeakedCountdownsNeverCleared`, `CountdownAfterLogout`).

## Model

| member | source | states |
|---|---|---|
| SessionMachine.Target | src/app/app.component.ts:33-90 | the transition table as written. No row targets `exit`, and `exit` has no rows. Only a service's done or REFRESH_TIMER leads into `running`. Only STOP_TIMER or the answer deadline leads into `stopped`. `authUser` is entered exactly by REQUEST_LOGIN from `loggedOut` |
| SessionMachine.WrittenStep | src/app/app.component.ts:54-56 | the step as written, where `'always'` is the name of an event. In `stopped`, every event the program sends leaves the machine in `stopped`. Wherever it does not rest in `stopped` it agrees with the intended `Step`. Where it enters `stopped`, the intended step reaches `loggedOut` |
| SessionMachine.Step | src/app/app.component.ts:52-90 | one event with the intended fall-through. A transition into `stopped` ends in `loggedOut`. Any other listed target is reached as listed. An unlisted event keeps the state. The machine never comes to rest in `stopped` |
| SessionMachine.Settle | src/app/app.component.ts:52-56 | the state entered after a transition is never `stopped`; any other target is kept |
| SessionMachine.TransitionTable | src/app/app.component.ts:33-90 | `running` accepts exactly STOP_TIMER (to `stopped`, then `loggedOut`), REFRESH_TIMER (to `running`) and REQUEST_REFRESH (to `waitingRefresh`). `waitingRefresh` accepts exactly STOP_TIMER, REFRESH_TIMER and the deadline. `loggedOut` accepts only REQUEST_LOGIN (to `authUser`). The two service states accept only their service's done (to `running`) and error (to `loggedOut`). Every other event leaves the state as it is |
| SessionMachine.RunNeverReachesExit | src/app/app.component.ts:79-81 | from any other state, no sequence of events reaches `exit`, which is therefore unreachable |
| SessionMachine.RunNeverRestsInStopped | src/app/app.component.ts:52-56 | with the fall-through, no sequence of events leaves the machine resting in `stopped` |
| SessionMachine.StoppedTrapsAsWritten | src/app/app.component.ts:54-56 | as written, once in `stopped` no sequence of events the program can send moves the machine out |
| SessionMachine.LoginAfterLogout | src/app/app.component.ts:54-56 | as written, STOP_TIMER then REQUEST_LOGIN leaves the machine in `stopped`. With the fall-through, the same events reach `authUser` |
| SessionModel.Seconds | src/app/app.component.ts:124-125 | the whole seconds of a millisecond clock: `r * 1000 <= nowMs < r * 1000 + 1000` |
| SessionModel.Initial | src/app/app.component.ts:12-32 | the component as `ngOnInit` starts it satisfies the invariant, with the storage slot as an earlier page load left it |
| SessionModel.SetSessionStartTime | src/app/app.component.ts:150-159 | sets the start to the whole seconds of the clock and stores that same value. Sets `timeToExpire` to `maxSessionTime`. Every other field, `currentSessionTime` and `tempCount` included, is kept |
| SessionModel.AskToContinue | src/app/app.component.ts:196-201 | a countdown is live and `hasSessionRefreshRequest` is set. `tempCount` is not reset. One more interval is lost exactly when a countdown was already live. Every other field is kept |
| SessionModel.ResetSessionStartTime | src/app/app.component.ts:160-168 | clears the countdown and both flags. Resets `tempCount` to 5000, `timeToExpire` to `maxSessionTime` and `currentSessionTime` to 0. Keeps the state, the start time (there is no `assign`), the storage slot and the lost intervals |
| SessionModel.DeleteUserData | src/app/app.component.ts:143-146 | empties the storage slot and changes nothing else |
| SessionModel.EnterState | src/app/app.component.ts:52-85 | entering a state leaves the machine in that state, or in `loggedOut` after the fall-through out of `stopped` |
| SessionModel.Dispatch | src/app/app.component.ts:33-90 | an event moves the machine to `Step` of its state. An event the current state does not list changes no field at all |
| SessionModel.SessionCheckerFires | src/app/app.component.ts:123-135 | outside `running` a tick changes nothing. In `running` it adds exactly 1 to `currentSessionTime`. It sets `timeToExpire` to `maxSessionTime - diff`, with no clamping. It enters `waitingRefresh` exactly when `timeToExpire < 0`, that is `diff > maxSessionTime`, and otherwise stays in `running`. The start time, the storage slot, `tempCount` and `hasSession` are kept |
| SessionModel.CountdownFires | src/app/app.component.ts:196-199 | while some countdown interval is live, a firing lowers `tempCount` by 100, with no floor. With none live it changes nothing. No other field changes |
| SessionModel.Handle | src/app/app.component.ts:95-206 | one input. Nothing reaches `exit` or rests in `stopped`. `doLogout` leaves both flags false and `doRefresh` leaves the request flag false, whatever the state. The rejected check moves `checkIfIsLoggedIn` to `loggedOut` with storage empty. The resolved login moves `authUser` to `running` with `hasSession` set. Only the login or `doRefresh` enters `running`. A countdown tick changes neither the state nor the storage |
| SessionModel.Inv | src/app/app.component.ts:143-168 | the invariant between events. Outside `checkIfIsLoggedIn`, the storage holds a value exactly when `hasSession` holds. A pending refresh request implies a session and a live countdown |
| SessionProperties.HandleKeepsInv | src/app/app.component.ts:143-206 | every input keeps the invariant. While in `running` or `waitingRefresh` the storage slot equals the start time. In `authUser` and `loggedOut` it is empty. `hasSession` holds exactly in `running` and `waitingRefresh`. `hasSessionRefreshRequest` holds exactly in `waitingRefresh`. Outside `loggedIn` the counters are at rest |
| SessionProperties.TraceKeepsInv | src/app/app.component.ts:143-206 | the invariant holds after any sequence of inputs |
| SessionProperties.ReachableSatisfiesInv | src/app/app.component.ts:24-32 | the invariant holds in every state reachable from the start |
| SessionProperties.FirstCheckSettlesLoggedOut | src/app/app.component.ts:95-102 | the login-status check rejects, so the first run ends in `loggedOut` with the storage key removed |
| SessionProperties.LoginEntersRunning | src/app/app.component.ts:103-112 | from `loggedOut`, REQUEST_LOGIN enters `authUser`. The login then enters `running` with `hasSession` set |
| SessionProperties.EveryEntryToRunningStamps | src/app/app.component.ts:150-159 | every entry into `running` comes from the login or from REFRESH_TIMER. It sets the start to `floor(now / 1000)` and stores that same value. It restores `timeToExpire` to `maxSessionTime`. It keeps `currentSessionTime` and `tempCount` |
| SessionProperties.LeavingLoggedInResets | src/app/app.component.ts:160-168 | only a logout or the answer deadline leaves `loggedIn`. Either ends in `loggedOut` with the countdown cleared, `tempCount` 5000, `timeToExpire` at the maximum, `currentSessionTime` 0, both flags false and the storage key removed. The start time is kept |
| SessionProperties.RefreshRace | src/app/app.component.ts:69-77 | from any snapshot in `waitingRefresh`, a confirmation returns to `running` with the flag cleared. The deadline reaches `loggedOut` with the flag cleared. A logout reaches `loggedOut` regardless |
| SessionProperties.RefreshKeepsCountdown | src/app/app.component.ts:203-206 | `doRefresh` neither resets `tempCount` nor clears the countdown |
| SessionProperties.RefreshWhileRunning | src/app/app.component.ts:65 | REFRESH_TIMER in `running` keeps the state and restamps the start time. It keeps `currentSessionTime` |
| SessionProperties.RefreshRequestLeavesRunning | src/app/app.component.ts:132-134 | a tick that raises REQUEST_REFRESH moves the machine to `waitingRefresh`, which stops the checker |
| SessionProperties.AtMostOneRefreshRequestPerEntry | src/app/app.component.ts:123-139 | over any sequence of inputs, the checker raises REQUEST_REFRESH at most once per entry into `running` |
| SessionProperties.SecondRequestLeaksCountdown | src/app/app.component.ts:196-201 | a refresh request while the previous countdown is still live loses that interval's handle |
| SessionProperties.HandleNeverClearsLeak | src/app/app.component.ts:160-163 | no input clears an interval whose handle was lost |
| SessionProperties.LeakedCountdownsNeverCleared | src/app/app.component.ts:160-163 | over any sequence of inputs, the number of lost countdown intervals never decreases |
| SessionProperties.CountdownAfterLogout | src/app/app.component.ts:162-163 | in `loggedOut` with no lost interval, `tempCount` is 5000 and a countdown tick changes nothing. With a lost interval, a tick still lowers it by 100 |
| SessionProperties.ScenarioSessionStarts | src/app/app.component.ts:103-112 | check, login and login success at t = 0 give a session in `running` started at 0 and stored as 0 |
| SessionProperties.TickWithinMaximum | src/app/app.component.ts:129-134 | for a session started at 0, a tick at k <= 5 s keeps it running. It counts one more second and shows `5 - k` seconds left |
| SessionProperties.TicksWithinMaximum | src/app/app.component.ts:123-134 | for a session started at 0, ticks at 1..n s with n <= 5 keep it running. They count n active seconds and leave `5 - n` seconds to expire |
| SessionProperties.TickBeyondMaximum | src/app/app.component.ts:132-134 | for a session started at 0, a tick at k > 5 s raises the request and enters `waitingRefresh` with the flag set. It counts one more second |
| SessionProperties.ScenarioExpires | src/app/app.component.ts:69-77 | ticks at 1..6 s: the tick at 6 s enters `waitingRefresh` with `timeToExpire` = -1 and 6 active seconds. With no answer, the deadline ends in `loggedOut` with the flag cleared |
| SessionProperties.ScenarioRenewed | src/app/app.component.ts:150-159 | confirming at 8 s returns to `running` with the start 8 and `timeToExpire` 5. `currentSessionTime` stays 6 |
| SessionApp.AppComponent.constructor | src/app/app.component.ts:12-32 | the fields start as the component declares them, in `checkIfIsLoggedIn`, with the storage as left by an earlier load |
| SessionApp.AppComponent.SetSessionStartTime | src/app/app.component.ts:150-159 | sets the start time and the storage key to `floor(now / 1000)` and `timeToExpire` to the maximum. Nothing else changes |
| SessionApp.AppComponent.AskToContinue | src/app/app.component.ts:196-201 | starts a countdown, losing the handle of a still-live earlier one, and raises `hasSessionRefreshRequest` |
| SessionApp.AppComponent.ResetSessionStartTime | src/app/app.component.ts:160-168 | clears the countdown. Resets `tempCount`, `timeToExpire` and `currentSessionTime`, and both flags |
| SessionApp.AppComponent.DeleteUserData | src/app/app.component.ts:143-146 | removes the storage key |
| SessionApp.AppComponent.Enter | src/app/app.component.ts:52-85 | runs the entry actions of the state entered, with the fall-through out of `stopped` |
| SessionApp.AppComponent.Send | src/app/app.component.ts:33-90 | delivers one event, changing the fields as `Dispatch` says |
| SessionApp.AppComponent.CheckLoggedInStatusSettles | src/app/app.component.ts:95-102 | the rejected check moves `checkIfIsLoggedIn` to `loggedOut`. It keeps the invariant |
| SessionApp.AppComponent.LogInSettles | src/app/app.component.ts:103-112 | in `authUser`, sets `hasSession` and enters `running`. It keeps the invariant |
| SessionApp.AppComponent.DoLogin | src/app/app.component.ts:179-186 | sends REQUEST_LOGIN. It keeps the invariant |
| SessionApp.AppComponent.DoLogout | src/app/app.component.ts:188-194 | clears both flags, then sends STOP_TIMER. It keeps the invariant |
| SessionApp.AppComponent.DoRefresh | src/app/app.component.ts:203-206 | clears `hasSessionRefreshRequest`, then sends REFRESH_TIMER. It keeps the invariant |
| SessionApp.AppComponent.SessionCheckerTick | src/app/app.component.ts:123-135 | one checker firing, as `SessionCheckerFires` says. It keeps the invariant |
| SessionApp.AppComponent.WaitingAnswerTimeout | src/app/app.component.ts:75-77 | the deadline moves `waitingRefresh` to `stopped` and on to `loggedOut`. It keeps the invariant |
| SessionApp.AppComponent.TempCountTick | src/app/app.component.ts:197-199 | one countdown firing, as `CountdownFires` says. It keeps the invariant |

## Findings

| source | as written | input that shows it | evidently intended | confidence | as-written member | corrected member |
|---|---|---|---|---|---|---|
| src/app/app.component.ts:54-56 | `'always'` is a key inside `on`, so `stopped` waits for an event whose type is the string "always". Nothing sends that event | log in, then `doLogout` (STOP_TIMER), then REQUEST_LOGIN: the machine stays in `loggedIn.stopped` and can never log in again; `loggedOut`'s entry never runs, so the storage key keeps the start time | an eventless transition, so that `stopped` immediately falls through to `loggedOut` | high; not executed | SessionMachine.StoppedTrapsAsWritten | SessionMachine.RunNeverRestsInStopped |

## Left out

- The Angular shell is not modelled: the decorator, template, styles, `title`, and the `console` logging.
- Real timer scheduling is not modelled. This covers `setInterval`, `setTimeout`, the `after` delay and the 1 s delay in `doLogin`. Each firing is an explicit input, so the model admits any order of firings. It does not capture that about 50 countdown ticks fit into one WAITING_ANSWER_TIMEOUT of 5000 ms.
- The browser `sessionStorage` API is not modelled. Its one key is an optional integer, not a string.
- The promise machinery of the two auth services is not modelled. Their outcomes are inputs. The check always rejects and the login always resolves, so the done row of `checkIfIsLoggedIn` and the error row of `authUser` are in the table but no input takes them.
- xstate's interpreter is not modelled: `interpret`, `strict` mode and `onTransition`. Only the events the program sends are modelled, and `strict` refuses no event that it sends.
- The `onReceive` forwarding inside `sessionChecker` is not modelled, because the parent never forwards an event to it.
- The machine context's `maxTimeout` is not modelled. It is never read.
- The interval and deadline handles are not modelled as objects. The checker is live exactly while in `running` and the deadline exactly while in `waitingRefresh`. The countdown is described by `countdownLive` and `leakedCountdowns`.
