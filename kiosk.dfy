/**
 * The `App` component as an object: one field per state slot, one method
 * per handler, each updating the slots step by step as the handler's setters
 * do. Every method is proved to leave the object in the state the matching
 * function of module `Session` gives.
 */
module Kiosk {
  import opened Session

  class App {
    var isLoggedIn: bool
    var qrResult: Option<string>
    var employeeName: string
    var attendance: Option<Attendance>
    var breaks: Option<seq<Break>>
    var breakType: Option<string>
    var employeeId: Option<int>
    var status: Status
    var message: Message
    /** Auto-logout timers scheduled and not yet fired. */
    var pendingLogouts: nat

    /** The slots as one value. */
    function Snapshot(): State
      reads this
    {
      State(isLoggedIn, qrResult, employeeName, attendance, breaks, breakType,
            employeeId, status, message, pendingLogouts)
    }

    ghost predicate Valid()
      reads this
    {
      Session.Valid(Snapshot())
    }

    /** The slots' `useState` initial values. */
    constructor ()
      ensures Snapshot() == Initial && Valid()
    {
      isLoggedIn := false;
      qrResult := None;
      employeeName := "";
      attendance := None;
      breaks := None;
      breakType := None;
      employeeId := None;
      status := Unset;
      message := Cleared;
      pendingLogouts := 0;
    }

    method HandleLogin(codes: seq<string>, auth: Reply<Employee>, report: Reply<StatusReport>)
      modifies this
      ensures Snapshot() == Session.HandleLogin(old(Snapshot()), codes, auth, report)
    {
      if codes == [] {
        message := Message(Error, LoginErrorText(None));
        return;
      }
      match auth
      case Err(d) =>
        message := Message(Error, LoginErrorText(d));
      case Ok(emp) =>
        match report
        case Err(d) =>
          message := Message(Error, LoginErrorText(d));
        case Ok(rep) =>
          attendance := rep.attendance;
          breaks := rep.breaks;
          employeeId := Some(emp.id);
          employeeName := emp.name;
          isLoggedIn := true;

          if ClockInSet(rep.attendance) && !ClockOutSet(rep.attendance) {
            status := ClockedIn;
          } else if ClockInSet(rep.attendance) && ClockOutSet(rep.attendance) {
            status := ShiftOver;
            pendingLogouts := pendingLogouts + 1;
          } else {
            status := ClockedOut;
          }

          if rep.breaks.Some? && |rep.breaks.value| > 0 {
            var lastBreak := rep.breaks.value[|rep.breaks.value| - 1];
            if !Truthy(lastBreak.breakEnd) {
              breakType := Some(lastBreak.breakType);
            } else {
              breakType := None;
            }
          }

          message := Message(Success, WelcomeText(emp.name, emp.role));
    }

    method HandleClockIn(reply: Reply<()>)
      modifies this
      ensures Snapshot() == Session.HandleClockIn(old(Snapshot()), reply)
    {
      if reply.Ok? {
        message := Message(Success, ClockInDone);
        pendingLogouts := pendingLogouts + 1;
      } else {
        message := Message(Error, ClockInFailed);
      }
    }

    method HandleClockOut(reply: Reply<()>)
      modifies this
      ensures Snapshot() == Session.HandleClockOut(old(Snapshot()), reply)
    {
      if reply.Ok? {
        message := Message(Success, ClockOutDone);
        pendingLogouts := pendingLogouts + 1;
      } else {
        message := Message(Error, ClockOutFailed);
      }
    }

    method HandleBreakStart(kind: BreakKind, reply: Reply<()>)
      modifies this
      ensures Snapshot() == Session.HandleBreakStart(old(Snapshot()), kind, reply)
    {
      if attendance.Some? && reply.Ok? {
        message := Message(Success, BreakStartDone(kind));
        pendingLogouts := pendingLogouts + 1;
      } else {
        message := Message(Error, BreakStartFailed);
      }
    }

    method HandleBreakEnd(reply: Reply<()>)
      modifies this
      ensures Snapshot() == Session.HandleBreakEnd(old(Snapshot()), reply)
    {
      if attendance.Some? && reply.Ok? {
        message := Message(Success, BreakEndDone);
        pendingLogouts := pendingLogouts + 1;
      } else {
        message := Message(Error, BreakEndFailed);
      }
    }

    method HandleLogout()
      modifies this
      ensures Snapshot() == Session.HandleLogout(old(Snapshot()))
    {
      isLoggedIn := false;
      employeeName := "";
      attendance := None;
      breaks := None;
      breakType := None;
      employeeId := None;
      status := Unset;
      qrResult := None;
      message := Cleared;
    }

    /** The scanner's `onScan`: the scanner is only on screen while logged out. */
    method OnScan(codes: seq<string>, auth: Reply<Employee>, report: Reply<StatusReport>)
      requires Valid()
      modifies this
      ensures Valid()
      ensures Snapshot() == Step(old(Snapshot()), Scan(codes, auth, report))
    {
      if !isLoggedIn {
        HandleLogin(codes, auth, report);
      }
    }

    /** A click on the clock button or on a break button. */
    method OnClick(b: Button, reply: Reply<()>)
      requires Valid()
      modifies this
      ensures Valid()
      ensures Snapshot() == Step(old(Snapshot()), Click(b, reply))
    {
      var command := Pressed(Snapshot(), b);
      match command
      case None =>
      case Some(ClockIn) => HandleClockIn(reply);
      case Some(ClockOut) => HandleClockOut(reply);
      case Some(StartBreak(kind)) => HandleBreakStart(kind, reply);
      case Some(EndBreak) => HandleBreakEnd(reply);
    }

    /** A click on the Logout button, which is only on screen while logged in. */
    method OnLogoutClick()
      requires Valid()
      modifies this
      ensures Valid()
      ensures Snapshot() == Step(old(Snapshot()), LogoutClick)
    {
      if isLoggedIn {
        HandleLogout();
      }
    }

    /** One pending auto-logout timer fires. */
    method OnLogoutTimer()
      requires Valid()
      modifies this
      ensures Valid()
      ensures Snapshot() == Step(old(Snapshot()), LogoutTimer)
    {
      if pendingLogouts > 0 {
        pendingLogouts := pendingLogouts - 1;
        HandleLogout();
      }
    }

    /** The message effect's timer fires. */
    method OnMessageTimer()
      requires Valid()
      modifies this
      ensures Valid()
      ensures Snapshot() == Step(old(Snapshot()), MessageTimer)
    {
      if message.text != "" {
        message := Cleared;
      }
    }
  }
}
