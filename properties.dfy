/**
 * Properties of the session state machine that relate several calls or
 * several events: the invariant every run keeps, logout's idempotence, the
 * break derivation against the service's break list, the command gating,
 * and the scenarios the kiosk is meant to go through.
 */
module SessionProperties {
  import opened Session

  // ---------------------------------------------------------------------------
  // The session invariant over whole runs
  // ---------------------------------------------------------------------------

  lemma InitialValid()
    ensures Valid(Initial)
  {
  }

  /** Every run of events from a valid state ends in a valid state. */
  lemma {:induction false} RunPreservesValid(s: State, events: seq<Event>)
    requires Valid(s)
    ensures Valid(Run(s, events))
    decreases |events|
  {
    if events != [] {
      RunPreservesValid(Step(s, events[0]), events[1..]);
    }
  }

  /** A run of command clicks and message timers never changes who is logged in or what is loaded. */
  lemma {:induction false} CommandsKeepSession(s: State, events: seq<Event>)
    requires forall i :: 0 <= i < |events| ==> events[i].Click? || events[i].MessageTimer?
    ensures SameSession(s, Run(s, events))
    decreases |events|
  {
    if events != [] {
      var t := Step(s, events[0]);
      assert SameSession(s, t);
      CommandsKeepSession(t, events[1..]);
    }
  }

  // ---------------------------------------------------------------------------
  // Logout
  // ---------------------------------------------------------------------------

  /** Logging out twice is logging out once. */
  lemma LogoutIdempotent(s: State)
    ensures HandleLogout(HandleLogout(s)) == HandleLogout(s)
  {
  }

  /** On a logged-out kiosk with no message showing, logout changes nothing. */
  lemma LogoutWhenLoggedOutIsNoOp(s: State)
    requires Valid(s) && !s.isLoggedIn && s.message == Cleared
    ensures HandleLogout(s) == s
  {
  }

  /** A pending auto-logout, when it fires, ends whatever session is open. */
  lemma LogoutTimerEndsSession(s: State)
    requires s.pendingLogouts > 0
    ensures var t := Step(s, LogoutTimer);
      !t.isLoggedIn && t.employeeId.None? && t.status == Unset && t.message == Cleared &&
      t.pendingLogouts == s.pendingLogouts - 1
  {
  }

  // ---------------------------------------------------------------------------
  // Error messages
  // ---------------------------------------------------------------------------

  /** A failed command's message never depends on the service's `detail`. */
  lemma CommandErrorIgnoresDetail(s: State, c: Command, d1: Option<string>, d2: Option<string>)
    ensures Execute(s, c, Err(d1)) == Execute(s, c, Err(d2))
    ensures Execute(s, c, Err(d1)).message.kind == Error
  {
  }

  /** A failed login shows the service's `detail` when there is one. */
  lemma LoginErrorShowsDetail(s: State, codes: seq<string>, d: string, report: Reply<StatusReport>)
    requires codes != [] && d != ""
    ensures HandleLogin(s, codes, Err(Some(d)), report).message == Message(Error, d)
  {
  }

  // ---------------------------------------------------------------------------
  // The active break against the service's break list
  // ---------------------------------------------------------------------------

  /**
   * When every break but the last is closed (the service opens a break only
   * after the previous one ended), the tail lookup finds the open break
   * exactly when there is one, and gives its type.
   */
  lemma ActiveBreakFindsOpenBreak(bs: seq<Break>, current: Option<string>)
    requires bs != []
    requires forall i :: 0 <= i < |bs| - 1 ==> Truthy(bs[i].breakEnd)
    ensures ActiveBreak(Some(bs), current).Some? <==> exists i :: 0 <= i < |bs| && !Truthy(bs[i].breakEnd)
    ensures forall i :: 0 <= i < |bs| && !Truthy(bs[i].breakEnd) ==>
      ActiveBreak(Some(bs), current) == Some(bs[i].breakType)
  {
  }

  /** A break the service has just opened is the active one at the next login. */
  lemma StartedBreakIsActive(bs: seq<Break>, b: Break, current: Option<string>)
    requires !Truthy(b.breakEnd)
    ensures ActiveBreak(Some(bs + [b]), current) == Some(b.breakType)
  {
  }

  /** A break the service has just closed leaves no active break at the next login. */
  lemma EndedBreakIsNotActive(bs: seq<Break>, b: Break, current: Option<string>)
    requires Truthy(b.breakEnd)
    ensures ActiveBreak(Some(bs + [b]), current) == None
  {
  }

  // ---------------------------------------------------------------------------
  // Gating
  // ---------------------------------------------------------------------------

  /** After a click whose command succeeded, every command button is disabled. */
  lemma SuccessDisablesCommands(s: State, b: Button, other: Button)
    requires Pressed(s, b).Some?
    requires Step(s, Click(b, Ok(()))).message.kind == Success
    ensures Pressed(Step(s, Click(b, Ok(()))), other) == None
  {
  }

  /** In `shift_over` no click issues a command, whatever the message. */
  lemma ShiftOverOffersNoCommand(s: State, b: Button, reply: Reply<()>)
    requires s.status == ShiftOver
    ensures Pressed(s, b) == None
    ensures Step(s, Click(b, reply)) == s
  {
  }

  // ---------------------------------------------------------------------------
  // Scenarios
  // ---------------------------------------------------------------------------

  const Ana := Employee(1, "Ana", "staff")
  const Ben := Employee(2, "Ben", "staff")
  const OpenShift := Attendance(10, Some("09:00"), None)
  const ClosedShift := Attendance(11, Some("09:00"), Some("17:00"))
  const OnEating := Break(10, "eating", Some("12:00"), None)

  /** A scan that finds an open shift logs in as `clocked_in` and greets by name and role. */
  lemma ScenarioWelcome()
    ensures var t := Step(Initial, Scan(["qr-ana"], Ok(Ana), Ok(StatusReport(Some(OpenShift), Some([])))));
      t.isLoggedIn && t.status == ClockedIn && t.breakType == None &&
      t.message == Message(Success, "Welcome, Ana (staff)!") && t.pendingLogouts == 0
  {
  }

  /** A scan that finds a closed shift shows `shift_over` and the pending timer then logs out. */
  lemma ScenarioShiftOverLogsOut()
    ensures var t := Step(Initial, Scan(["qr-ana"], Ok(Ana), Ok(StatusReport(Some(ClosedShift), None))));
      t.isLoggedIn && t.status == ShiftOver && t.pendingLogouts == 1 &&
      !Step(t, LogoutTimer).isLoggedIn
  {
  }

  /** A rejected QR code shows the service's words and leaves the kiosk logged out. */
  lemma ScenarioRejectedCode()
    ensures var t := Step(Initial, Scan(["bad"], Err(Some("QR not recognized")), Err(None)));
      !t.isLoggedIn && t.message == Message(Error, "QR not recognized") && SameSession(Initial, t)
  {
  }

  /** Clocking out, once the welcome has cleared, reports success and the timer then logs out. */
  lemma ScenarioClockOut()
    ensures var s := Step(Step(Initial, Scan(["qr-ana"], Ok(Ana), Ok(StatusReport(Some(OpenShift), None)))), MessageTimer);
      var t := Step(s, Click(ClockButton, Ok(())));
      t.message == Message(Success, "Clocked out successfully!") && t.pendingLogouts == 1 &&
      !Step(t, LogoutTimer).isLoggedIn
  {
  }

  /** Logging in on an open eating break and pressing Eating ends the break. */
  lemma ScenarioReselectEndsBreak()
    ensures var s := Step(Step(Initial, Scan(["qr-ana"], Ok(Ana), Ok(StatusReport(Some(OpenShift), Some([OnEating]))))), MessageTimer);
      s.breakType == Some("eating") &&
      Pressed(s, BreakButton(Eating)) == Some(EndBreak) &&
      Step(s, Click(BreakButton(Eating), Ok(()))).message == Message(Success, "Break ended!")
  {
  }

  /**
   * A successful break start does not record the break locally: in a run
   * where the message clears before the auto-logout fires, pressing the same
   * button again issues a second start, not an end. The model leaves timer
   * order free; the component registers the auto-logout first, so its own
   * route to a second start is a second click while the first request is
   * still in flight.
   */
  lemma ScenarioReselectAfterStartStartsAgain()
    ensures var s := Step(Step(Initial, Scan(["qr-ana"], Ok(Ana), Ok(StatusReport(Some(OpenShift), Some([]))))), MessageTimer);
      var t := Step(Step(s, Click(BreakButton(Eating), Ok(()))), MessageTimer);
      t.isLoggedIn && t.pendingLogouts == 1 &&
      Pressed(t, BreakButton(Eating)) == Some(StartBreak(Eating))
  {
  }

  /**
   * Timers are not cancelled on logout: the auto-logout a `shift_over` login
   * scheduled still fires after a manual logout and ends the next employee's
   * session.
   */
  lemma ScenarioStaleTimerEndsNextSession()
    ensures var s := Step(Step(Step(Initial,
        Scan(["qr-ana"], Ok(Ana), Ok(StatusReport(Some(ClosedShift), None)))),
        LogoutClick),
        Scan(["qr-ben"], Ok(Ben), Ok(StatusReport(Some(OpenShift), None))));
      s.isLoggedIn && s.employeeId == Some(2) && s.pendingLogouts == 1 &&
      !Step(s, LogoutTimer).isLoggedIn
  {
  }
}
