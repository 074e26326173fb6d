# Employee time-clock kiosk: the session state machine

The kiosk shows a QR scanner until an employee scans their code. It then
logs the employee in against the attendance service and offers a clock
button and three break buttons (eating, restroom, praying). After every
successful command the kiosk logs itself out again. All of this lives in the
`App` component (`src/App.jsx`): nine state slots, five command handlers, a
logout handler, and the expressions that decide which handler a button calls
and when buttons are hidden or disabled.

The project models that component in three files:

- `session.dfy`, module `Session`: the state slots as one value (`State`).
  It also holds the two derivations the login makes from the service's
  reply (`DeriveStatus`, `ActiveBreak`), every handler as a function from
  state to state, the button dispatch and gating (`ClockCommand`,
  `BreakCommand`, `Pressed`), and one step of the event loop (`Step`) with
  the session invariant `Valid` it keeps.
- `kiosk.dfy`, module `Kiosk`: the component as a class `App`, one field per
  state slot. Each handler is a method that updates the fields one setter at
  a time. Each method is proved to reach exactly the state the matching
  `Session` function gives. The event methods (`OnScan`, `OnClick`, …) also
  keep `Valid`.
- `properties.dfy`, module `SessionProperties`: properties that relate
  several calls or events. These are the invariant over whole runs, logout's
  idempotence, the break lookup against the service's break list, command
  gating, and the kiosk's scenarios.

How the outside world enters the model:

- Each call to the attendance service is a `Reply` parameter: `Ok(data)` or
  `Err(detail)`, where `detail` is the optional text the service sent.
- A scan is the list of decoded codes the scanner hands over.
- Each scheduled auto-logout adds one to `pendingLogouts`. A `LogoutTimer`
  event stands for one of those timers firing.
- The message effect's clear-after-a-while timer is the `MessageTimer` event.
- Timestamps and the `detail` text are read with JavaScript truthiness, so
  null and `""` are both "absent" (`Truthy`).

The code does the following, which a reader might not expect:

- Auto-logout timers are never cancelled. A logout leaves already scheduled
  auto-logouts pending, and such a timer will end the next employee's
  session (`ScenarioStaleTimerEndsNextSession`). The message-clearing timer,
  by contrast, is replaced whenever the message changes.
- Starting a break does not record it locally; `breakType` is only set at
  login. Re-selecting ends a break only when the break was already open at
  login (`ScenarioReselectEndsBreak`). In the component, the success message
  stays up until the auto-logout fires, because that timer is registered
  before the message-clearing one. So the route to a second start in one
  session is a second click while the first request is still in flight,
  which this model does not cover. The model leaves the order of the two
  timers free. It therefore also has a run in which the message clears first
  and the same button issues a second start
  (`ScenarioReselectAfterStartStartsAgain`). That run exists only because
  the model drops timer order.
- Only the login error uses the service's `detail`. Clock and break errors
  always show fixed texts (`CommandErrorIgnoresDetail`).
- The handlers never check the status. Only two things gate the buttons:
  `shift_over` hides them, and a success message disables them. Break buttons
  are offered while clocked out, for example.
- A null or empty break list leaves `breakType` as it was rather than
  clearing it (`ActiveBreak`). `breakType` starts out null and every logout
  resets it to null, and a login only happens while logged out. So from a
  valid state, a login whose break list is null or empty always ends with no
  active break. `Valid` records this: a logged-in session's break type is
  always the one its break list's tail gives.

## Model

| member | source | states |
|---|---|---|
| `Session.DeriveStatus` | src/App.jsx:48-63 | `clocked_in` iff clock-in is set and clock-out is not; `shift_over` iff both are set; `clocked_out` iff there is no record or no clock-in, which includes clock-out without clock-in; never the empty status |
| `Session.ActiveBreak` | src/App.jsx:65-73 | a null or empty list leaves the current break type unchanged; otherwise there is an active type iff the last break has no end, and it is that break's type |
| `Session.LoginErrorText` | src/App.jsx:76-82 | the login error is the service's `detail` when it is non-empty, else the fixed fallback; never blank |
| `Session.HandleLogin` | src/App.jsx:31-84 | a login that gets through both calls sets logged-in, id, name, attendance and breaks, the derived status and break type, and the message `Welcome, {name} ({role})!`; it schedules one auto-logout exactly when the status is `shift_over`; an empty scan or a failure of either call changes no slot but the message, which is an error with the detail-or-fallback text |
| `Session.HandleClockIn` | src/App.jsx:86-102 | success shows `Clocked in successfully!` and schedules one auto-logout; failure shows the fixed clock-in error; nothing else changes |
| `Session.HandleClockOut` | src/App.jsx:104-120 | success shows `Clocked out successfully!` and schedules one auto-logout; failure shows the fixed clock-out error; nothing else changes |
| `Session.HandleBreakStart` | src/App.jsx:122-139 | with an attendance record and a successful call it shows `Started {type} break!` and schedules one auto-logout; with no record or a failed call it shows the fixed error; nothing else changes |
| `Session.HandleBreakEnd` | src/App.jsx:141-157 | with an attendance record and a successful call it shows `Break ended!` and schedules one auto-logout; with no record or a failed call it shows the fixed error; nothing else changes |
| `Session.HandleLogout` | src/App.jsx:159-169 | every slot is back at its initial value and the message is cleared; pending timers are kept |
| `Session.LogoutTimerFires` | src/App.jsx:58-60 | a firing timer performs the logout and consumes exactly that timer |
| `Session.MessageTimerFires` | src/App.jsx:22-29 | a non-empty message is reset to no type and empty text, which re-enables the command buttons; nothing else changes, and an empty message is left alone |
| `Session.ClockCommand` | src/App.jsx:200-201 | the clock button calls clock-out iff the status is `clocked_in`, and clock-in otherwise |
| `Session.BreakCommand` | src/App.jsx:229-233 | break button `t` ends the break iff `t` is the active break type, and otherwise starts a `t` break |
| `Session.Pressed` | src/App.jsx:197-247 | a click issues a command iff logged in, not `shift_over` and no success message is showing; the clock button issues clock-in or clock-out; a break button issues the end for the active type and a start for any other |
| `Session.Execute` | src/App.jsx:199-233 | a command never changes the session's slots; it succeeds iff its call succeeds and, for a break command, there is an attendance record; it schedules one auto-logout iff it succeeds |
| `Session.Step` | src/App.jsx:173-269 | every event (scan while logged out, command click, logout click while logged in, either timer) keeps the session invariant |
| `Kiosk.App.constructor` | src/App.jsx:10-18 | the slots start at their declared initial values, with no timer pending, and the invariant holds |
| `Kiosk.App.HandleLogin` | src/App.jsx:31-84 | the setters reach the state `Session.HandleLogin` gives |
| `Kiosk.App.HandleClockIn` | src/App.jsx:86-102 | the setters reach the state `Session.HandleClockIn` gives |
| `Kiosk.App.HandleClockOut` | src/App.jsx:104-120 | the setters reach the state `Session.HandleClockOut` gives |
| `Kiosk.App.HandleBreakStart` | src/App.jsx:122-139 | the setters reach the state `Session.HandleBreakStart` gives |
| `Kiosk.App.HandleBreakEnd` | src/App.jsx:141-157 | the setters reach the state `Session.HandleBreakEnd` gives |
| `Kiosk.App.HandleLogout` | src/App.jsx:159-169 | the setters reach the state `Session.HandleLogout` gives |
| `Kiosk.App.OnScan` | src/App.jsx:267-268 | a scan is handled as one `Step` and keeps the invariant |
| `Kiosk.App.OnClick` | src/App.jsx:197-247 | a click on a command button is handled as one `Step` and keeps the invariant |
| `Kiosk.App.OnLogoutClick` | src/App.jsx:181-186 | a click on Logout is handled as one `Step` and keeps the invariant |
| `Kiosk.App.OnLogoutTimer` | src/App.jsx:92-94 | an auto-logout timer firing is handled as one `Step` and keeps the invariant |
| `Kiosk.App.OnMessageTimer` | src/App.jsx:22-29 | the message timer firing is handled as one `Step` and keeps the invariant |
| `SessionProperties.InitialValid` | src/App.jsx:10-18 | the initial slots satisfy the session invariant |
| `SessionProperties.RunPreservesValid` | src/App.jsx:31-169 | every run of events from a valid state ends in a valid state: no half-loaded session, a status that is always the one derived from the loaded attendance record, a break type that is always the one the loaded break list's tail gives, and a pending auto-logout whenever a session is in `shift_over` |
| `SessionProperties.CommandsKeepSession` | src/App.jsx:86-157 | any run of command clicks and message timers leaves identity, attendance, breaks, break type and status as they were |
| `SessionProperties.LogoutIdempotent` | src/App.jsx:159-169 | logging out twice gives the same state as logging out once |
| `SessionProperties.LogoutWhenLoggedOutIsNoOp` | src/App.jsx:159-169 | on a logged-out kiosk with no message showing, logout changes nothing |
| `SessionProperties.LogoutTimerEndsSession` | src/App.jsx:58-60 | when a pending auto-logout fires, whatever session is open ends |
| `SessionProperties.CommandErrorIgnoresDetail` | src/App.jsx:95-157 | a failed command's resulting state does not depend on the service's `detail`, and its message is an error |
| `SessionProperties.LoginErrorShowsDetail` | src/App.jsx:76-82 | a login rejected with a non-empty `detail` shows exactly that text |
| `SessionProperties.ActiveBreakFindsOpenBreak` | src/App.jsx:65-73 | when only the last break can be open, the tail lookup finds an active break iff some break is open, and gives that break's type |
| `SessionProperties.StartedBreakIsActive` | src/App.jsx:65-73 | a newly opened break appended to the list is the active break at the next login |
| `SessionProperties.EndedBreakIsNotActive` | src/App.jsx:65-73 | a closed last break leaves no active break at the next login |
| `SessionProperties.SuccessDisablesCommands` | src/App.jsx:208-239 | after a successful command every clock and break button is disabled |
| `SessionProperties.ShiftOverOffersNoCommand` | src/App.jsx:191-247 | in `shift_over` no click issues a command and the state is unchanged |
| `SessionProperties.ScenarioWelcome` | src/App.jsx:42-75 | Ana (staff) with an open shift logs in as `clocked_in` with `Welcome, Ana (staff)!` and no auto-logout |
| `SessionProperties.ScenarioShiftOverLogsOut` | src/App.jsx:53-60 | a closed shift logs in as `shift_over` with one auto-logout pending, which then logs out |
| `SessionProperties.ScenarioRejectedCode` | src/App.jsx:76-82 | a code rejected with `QR not recognized` shows exactly that text and stays logged out |
| `SessionProperties.ScenarioClockOut` | src/App.jsx:104-112 | clocking out shows `Clocked out successfully!` and the auto-logout then logs out |
| `SessionProperties.ScenarioReselectEndsBreak` | src/App.jsx:229-233 | with an eating break open at login, pressing Eating ends the break with `Break ended!` |
| `SessionProperties.ScenarioReselectAfterStartStartsAgain` | src/App.jsx:122-131 | in a run where the message clears before the auto-logout, pressing the same break button again after a start issues another start; the component's timer order rules this run out, so it holds of the model only |
| `SessionProperties.ScenarioStaleTimerEndsNextSession` | src/App.jsx:58-60 | a `shift_over` auto-logout survives a manual logout and ends the next employee's session |

## Left out

- HTTP transport, the service URL, and the request bodies and parameters
  (the QR code, the employee id, the attendance id, the break type) are not
  modelled. Each call is only its `Reply`, so the model does not say what
  was sent.
- Timer durations (1000 and 4000 ms) are left out. So is the order they
  imply between the message timer and an auto-logout scheduled at the same
  moment. Either timer event may come first in the model. In the component,
  a command's auto-logout is registered first and fires first.
- Handlers are atomic: a call and its reply form one step. A logout or
  another command that lands while a request is in flight is not modelled.
  Neither is a second scan arriving while a login is still in progress.
- The QR scanner widget is not part of this model: camera access, decoding,
  and decode errors, which are only logged.
- `console.error` logging is left out; it has no effect on the session.
- Rendering is not modelled: the JSX markup, CSS classes, icons, the
  "Shift over for today" and "On … break" banners, and
  `src/components/Message.jsx`, which only picks colours for a message type.
- A break record's `break_type` is whatever string the service sends. The
  buttons use the three fixed types, so a type outside those three is never
  matched by a button.
- Service replies are assumed well-formed. In the component, a status reply
  whose last break entry is null makes the read of its `break_end` throw.
  By then the slots have been written, and for `shift_over` the auto-logout
  has been scheduled. The result is a logged-in session that shows the login
  error text. `Session.HandleLogin` has no such partial-login outcome.
