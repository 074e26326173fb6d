/**
 * The kiosk's session state machine as values: the session record held by the
 * `App` component, the two derivations that read the attendance service's
 * reply, the command handlers, the button dispatch and gating, and one step
 * of the event loop (scan, click, timers).
 *
 * Every remote call is a `Reply` parameter: the service's answer is whatever
 * the caller passes in. Wall-clock timers are not durations here: a scheduled
 * auto-logout is a count of pending logout timers, and a timer firing is an
 * event of its own.
 */
module Session {

  datatype Option<+T> = None | Some(value: T)

  /** JavaScript truthiness of an optional string field: null and "" are falsy. */
  predicate Truthy(field: Option<string>) {
    field.Some? && field.value != ""
  }

  /** One attendance record: its id and its clock-in / clock-out timestamps. */
  datatype Attendance = Attendance(id: int, clockIn: Option<string>, clockOut: Option<string>)

  /** One break record; `breakType` is whatever string the service sent. */
  datatype Break = Break(attendanceId: int, breakType: string, breakStart: Option<string>, breakEnd: Option<string>)

  /** What the login call returns. */
  datatype Employee = Employee(id: int, name: string, role: string)

  /** What the status call returns; both parts may be null. */
  datatype StatusReport = StatusReport(attendance: Option<Attendance>, breaks: Option<seq<Break>>)

  /** The outcome of one remote call: its data, or an error that may carry a `detail` text. */
  datatype Reply<+T> = Ok(data: T) | Err(detail: Option<string>)

  /** The `status` slot: `Unset` is the empty string it starts with. */
  datatype Status = Unset | ClockedOut | ClockedIn | ShiftOver

  datatype MessageType = NoType | Success | Error
  datatype Message = Message(kind: MessageType, text: string)

  const Cleared := Message(NoType, "")

  /** The three break buttons. */
  datatype BreakKind = Eating | Restroom | Praying {
    /** The `type` string the button sends and compares with. */
    function Name(): string {
      match this
      case Eating => "eating"
      case Restroom => "restroom"
      case Praying => "praying"
    }
  }

  /**
   * The component's state slots, plus the number of auto-logout timers that
   * have been scheduled and have not fired yet.
   */
  datatype State = State(
    isLoggedIn: bool,
    qrResult: Option<string>,
    employeeName: string,
    attendance: Option<Attendance>,
    breaks: Option<seq<Break>>,
    breakType: Option<string>,
    employeeId: Option<int>,
    status: Status,
    message: Message,
    pendingLogouts: nat)

  /** The slots' initial values, with no timer pending. */
  const Initial := State(false, None, "", None, None, None, None, Unset, Cleared, 0)

  /** `s` and `t` differ at most in the message and in the pending timers. */
  predicate SameSession(s: State, t: State) {
    t == s.(message := t.message, pendingLogouts := t.pendingLogouts)
  }

  // ---------------------------------------------------------------------------
  // Derivations
  // ---------------------------------------------------------------------------

  /** `attendance?.clock_in` read as a condition. */
  predicate ClockInSet(attendance: Option<Attendance>) {
    attendance.Some? && Truthy(attendance.value.clockIn)
  }

  /** `attendance?.clock_out` read as a condition. */
  predicate ClockOutSet(attendance: Option<Attendance>) {
    attendance.Some? && Truthy(attendance.value.clockOut)
  }

  /** The status a login derives from the attendance record. */
  function DeriveStatus(attendance: Option<Attendance>): (st: Status)
    ensures st != Unset
    ensures st == ClockedOut <==> attendance.None? || !Truthy(attendance.value.clockIn)
    ensures st == ClockedIn <==>
      attendance.Some? && Truthy(attendance.value.clockIn) && !Truthy(attendance.value.clockOut)
    ensures st == ShiftOver <==>
      attendance.Some? && Truthy(attendance.value.clockIn) && Truthy(attendance.value.clockOut)
  {
    if ClockInSet(attendance) && !ClockOutSet(attendance) then ClockedIn
    else if ClockInSet(attendance) && ClockOutSet(attendance) then ShiftOver
    else ClockedOut
  }

  function Last(breaks: seq<Break>): Break
    requires breaks != []
  {
    breaks[|breaks| - 1]
  }

  /**
   * The `breakType` slot after a login: read from the last break when there
   * is one, and left at `current` when the list is null or empty.
   */
  function ActiveBreak(breaks: Option<seq<Break>>, current: Option<string>): (bt: Option<string>)
    ensures breaks.None? || breaks.value == [] ==> bt == current
    ensures breaks.Some? && breaks.value != [] ==>
      (bt.Some? <==> !Truthy(Last(breaks.value).breakEnd)) &&
      (bt.Some? ==> bt.value == Last(breaks.value).breakType)
  {
    if breaks.Some? && |breaks.value| > 0 then
      var lastBreak := breaks.value[|breaks.value| - 1];
      if !Truthy(lastBreak.breakEnd) then Some(lastBreak.breakType) else None
    else
      current
  }

  // ---------------------------------------------------------------------------
  // Messages
  // ---------------------------------------------------------------------------

  const LoginFallback := "Failed to log in. Please try again."
  const ClockInDone := "Clocked in successfully!"
  const ClockInFailed := "Failed to clock in. Please try again."
  const ClockOutDone := "Clocked out successfully!"
  const ClockOutFailed := "Failed to clock out. Please try again."
  const BreakStartFailed := "Failed to start break. Please try again."
  const BreakEndDone := "Break ended!"
  const BreakEndFailed := "Failed to end break. Please try again."

  function WelcomeText(name: string, role: string): string {
    "Welcome, " + name + " (" + role + ")!"
  }

  function BreakStartDone(kind: BreakKind): string {
    "Started " + kind.Name() + " break!"
  }

  /** The login error text: the service's `detail` when it has one, else the fallback. */
  function LoginErrorText(detail: Option<string>): (text: string)
    ensures text != ""
    ensures Truthy(detail) ==> text == detail.value
    ensures !Truthy(detail) ==> text == LoginFallback
  {
    if Truthy(detail) then detail.value else LoginFallback
  }

  // ---------------------------------------------------------------------------
  // Handlers
  // ---------------------------------------------------------------------------

  /** Whether a login attempt gets through both calls. */
  predicate LoginSucceeds(codes: seq<string>, auth: Reply<Employee>, report: Reply<StatusReport>) {
    codes != [] && auth.Ok? && report.Ok?
  }

  /**
   * The `detail` the failed attempt's error carries: none when the scan
   * result is empty (reading its first code throws before any call), else
   * that of the first call that failed.
   */
  function LoginFailureDetail(codes: seq<string>, auth: Reply<Employee>, report: Reply<StatusReport>): Option<string>
  {
    if codes == [] then None
    else if auth.Err? then auth.detail
    else if report.Err? then report.detail
    else None
  }

  /**
   * `handleLogin`: the login call with the first scanned code, then the
   * status call; only when both succeed are the slots written.
   */
  function HandleLogin(s: State, codes: seq<string>, auth: Reply<Employee>, report: Reply<StatusReport>): (t: State)
    ensures LoginSucceeds(codes, auth, report) ==>
      var emp, rep := auth.data, report.data;
      && t.isLoggedIn
      && t.employeeId == Some(emp.id)
      && t.employeeName == emp.name
      && t.attendance == rep.attendance
      && t.breaks == rep.breaks
      && t.status == DeriveStatus(rep.attendance)
      && t.breakType == ActiveBreak(rep.breaks, s.breakType)
      && t.qrResult == s.qrResult
      && t.message == Message(Success, WelcomeText(emp.name, emp.role))
      && t.pendingLogouts == s.pendingLogouts + (if t.status == ShiftOver then 1 else 0)
    ensures !LoginSucceeds(codes, auth, report) ==>
      && SameSession(s, t)
      && t.pendingLogouts == s.pendingLogouts
      && t.message == Message(Error, LoginErrorText(LoginFailureDetail(codes, auth, report)))
  {
    if codes == [] then
      s.(message := Message(Error, LoginErrorText(None)))
    else
      match auth
      case Err(d) => s.(message := Message(Error, LoginErrorText(d)))
      case Ok(emp) =>
        match report
        case Err(d) => s.(message := Message(Error, LoginErrorText(d)))
        case Ok(rep) =>
          var status := DeriveStatus(rep.attendance);
          s.(attendance := rep.attendance,
             breaks := rep.breaks,
             employeeId := Some(emp.id),
             employeeName := emp.name,
             isLoggedIn := true,
             status := status,
             pendingLogouts := if status == ShiftOver then s.pendingLogouts + 1 else s.pendingLogouts,
             breakType := ActiveBreak(rep.breaks, s.breakType),
             message := Message(Success, WelcomeText(emp.name, emp.role)))
  }

  /**
   * The two exits every command handler has: on success a fixed success text
   * and one more auto-logout timer, on failure a fixed error text.
   */
  function Settle(s: State, succeeded: bool, done: string, failed: string): State {
    if succeeded then s.(message := Message(Success, done), pendingLogouts := s.pendingLogouts + 1)
    else s.(message := Message(Error, failed))
  }

  /** `handleClockIn`. */
  function HandleClockIn(s: State, reply: Reply<()>): (t: State)
    ensures SameSession(s, t)
    ensures reply.Ok? ==> t.message == Message(Success, ClockInDone) && t.pendingLogouts == s.pendingLogouts + 1
    ensures reply.Err? ==> t.message == Message(Error, ClockInFailed) && t.pendingLogouts == s.pendingLogouts
  {
    Settle(s, reply.Ok?, ClockInDone, ClockInFailed)
  }

  /** `handleClockOut`. */
  function HandleClockOut(s: State, reply: Reply<()>): (t: State)
    ensures SameSession(s, t)
    ensures reply.Ok? ==> t.message == Message(Success, ClockOutDone) && t.pendingLogouts == s.pendingLogouts + 1
    ensures reply.Err? ==> t.message == Message(Error, ClockOutFailed) && t.pendingLogouts == s.pendingLogouts
  {
    Settle(s, reply.Ok?, ClockOutDone, ClockOutFailed)
  }

  /**
   * `handleBreakStart(type)`: with no attendance record, reading its id
   * throws before the call is made, so the reply plays no part.
   */
  function HandleBreakStart(s: State, kind: BreakKind, reply: Reply<()>): (t: State)
    ensures SameSession(s, t)
    ensures s.attendance.Some? && reply.Ok? ==>
      t.message == Message(Success, BreakStartDone(kind)) && t.pendingLogouts == s.pendingLogouts + 1
    ensures s.attendance.None? || reply.Err? ==>
      t.message == Message(Error, BreakStartFailed) && t.pendingLogouts == s.pendingLogouts
  {
    Settle(s, s.attendance.Some? && reply.Ok?, BreakStartDone(kind), BreakStartFailed)
  }

  /** `handleBreakEnd`: like `handleBreakStart`, no attendance record means failure. */
  function HandleBreakEnd(s: State, reply: Reply<()>): (t: State)
    ensures SameSession(s, t)
    ensures s.attendance.Some? && reply.Ok? ==>
      t.message == Message(Success, BreakEndDone) && t.pendingLogouts == s.pendingLogouts + 1
    ensures s.attendance.None? || reply.Err? ==>
      t.message == Message(Error, BreakEndFailed) && t.pendingLogouts == s.pendingLogouts
  {
    Settle(s, s.attendance.Some? && reply.Ok?, BreakEndDone, BreakEndFailed)
  }

  /** `handleLogout`: every slot back to its initial value; timers already scheduled stay scheduled. */
  function HandleLogout(s: State): (t: State)
    ensures !t.isLoggedIn && t.employeeName == "" && t.status == Unset && t.message == Cleared
    ensures t.qrResult.None? && t.attendance.None? && t.breaks.None? && t.breakType.None? && t.employeeId.None?
    ensures t.pendingLogouts == s.pendingLogouts
  {
    Initial.(pendingLogouts := s.pendingLogouts)
  }

  /** One scheduled auto-logout timer fires: it calls `handleLogout`. */
  function LogoutTimerFires(s: State): (t: State)
    requires s.pendingLogouts > 0
    ensures t.(pendingLogouts := s.pendingLogouts) == HandleLogout(s)
    ensures t.pendingLogouts == s.pendingLogouts - 1
  {
    HandleLogout(s).(pendingLogouts := s.pendingLogouts - 1)
  }

  /** The message effect's timer fires: a non-empty message is cleared. */
  function MessageTimerFires(s: State): (t: State)
    ensures SameSession(s, t) && t.pendingLogouts == s.pendingLogouts
    ensures t.message.text == ""
    ensures s.message.text != "" ==> t.message == Cleared
    ensures s.message.text == "" ==> t == s
  {
    if s.message.text != "" then s.(message := Cleared) else s
  }

  // ---------------------------------------------------------------------------
  // Buttons
  // ---------------------------------------------------------------------------

  datatype Button = ClockButton | BreakButton(kind: BreakKind)

  datatype Command = ClockIn | ClockOut | StartBreak(kind: BreakKind) | EndBreak

  /** The clock button's handler. */
  function ClockCommand(status: Status): (c: Command)
    ensures c == ClockOut <==> status == ClockedIn
    ensures c == ClockIn <==> status != ClockedIn
  {
    if status == ClockedIn then ClockOut else ClockIn
  }

  /** A break button's handler: re-selecting the active type ends the break. */
  function BreakCommand(breakType: Option<string>, kind: BreakKind): (c: Command)
    ensures c == EndBreak <==> breakType == Some(kind.Name())
    ensures c != EndBreak ==> c == StartBreak(kind)
    ensures c != StartBreak(kind) ==> c == EndBreak
  {
    if breakType == Some(kind.Name()) then EndBreak else StartBreak(kind)
  }

  /**
   * The command a click issues, if any: the clock and break buttons are only
   * on screen while logged in and not in `shift_over`, and are disabled
   * while a success message is showing.
   */
  function Pressed(s: State, b: Button): (c: Option<Command>)
    ensures c.Some? <==> s.isLoggedIn && s.status != ShiftOver && s.message.kind != Success
    ensures c.Some? && b.ClockButton? ==> (c.value == ClockOut <==> s.status == ClockedIn)
    ensures c.Some? && b.ClockButton? ==> c.value in {ClockIn, ClockOut}
    ensures c.Some? && b.BreakButton? ==>
      (c.value == EndBreak <==> s.breakType == Some(b.kind.Name())) &&
      c.value in {StartBreak(b.kind), EndBreak}
  {
    if !s.isLoggedIn || s.status == ShiftOver || s.message.kind == Success then None
    else
      match b
      case ClockButton => Some(ClockCommand(s.status))
      case BreakButton(kind) => Some(BreakCommand(s.breakType, kind))
  }

  /** Run the handler a command names. */
  function Execute(s: State, c: Command, reply: Reply<()>): (t: State)
    ensures SameSession(s, t)
    ensures t.message.kind == Success <==>
      reply.Ok? && (c.StartBreak? || c == EndBreak ==> s.attendance.Some?)
    ensures t.pendingLogouts == s.pendingLogouts + (if t.message.kind == Success then 1 else 0)
  {
    match c
    case ClockIn => HandleClockIn(s, reply)
    case ClockOut => HandleClockOut(s, reply)
    case StartBreak(kind) => HandleBreakStart(s, kind, reply)
    case EndBreak => HandleBreakEnd(s, reply)
  }

  // ---------------------------------------------------------------------------
  // The event loop
  // ---------------------------------------------------------------------------

  /**
   * What can happen to the kiosk: a QR scan (with the replies of the two
   * calls it makes), a click on a command button (with the reply of the call
   * it makes), a click on Logout, an auto-logout timer firing, and the
   * message timer firing.
   */
  datatype Event =
    | Scan(codes: seq<string>, auth: Reply<Employee>, report: Reply<StatusReport>)
    | Click(button: Button, reply: Reply<()>)
    | LogoutClick
    | LogoutTimer
    | MessageTimer

  /**
   * The session invariant: `qrResult` is never set; a session is either
   * fully loaded (an employee id and a status derived from the attendance
   * record) or fully empty; a logged-in session's break type is the one
   * its break list's tail gives; and a logged-in `shift_over` session always
   * has an auto-logout pending.
   */
  predicate Valid(s: State) {
    && s.qrResult == None
    && (s.isLoggedIn <==> s.employeeId.Some?)
    && (!s.isLoggedIn ==>
          s.employeeName == "" && s.attendance == None && s.breaks == None &&
          s.breakType == None && s.status == Unset)
    && (s.isLoggedIn ==> s.status == DeriveStatus(s.attendance))
    && (s.isLoggedIn ==> s.breakType == ActiveBreak(s.breaks, None))
    && (s.isLoggedIn && s.status == ShiftOver ==> s.pendingLogouts > 0)
  }

  /**
   * One event. The scanner is on screen only while logged out, the Logout
   * button only while logged in; a timer event with no timer pending does
   * nothing.
   */
  function Step(s: State, e: Event): (t: State)
    ensures Valid(s) ==> Valid(t)
  {
    match e
    case Scan(codes, auth, report) =>
      if !s.isLoggedIn then HandleLogin(s, codes, auth, report) else s
    case Click(b, reply) =>
      (match Pressed(s, b)
       case None => s
       case Some(c) => Execute(s, c, reply))
    case LogoutClick =>
      if s.isLoggedIn then HandleLogout(s) else s
    case LogoutTimer =>
      if s.pendingLogouts > 0 then LogoutTimerFires(s) else s
    case MessageTimer =>
      MessageTimerFires(s)
  }

  /** A sequence of events, in order. */
  function Run(s: State, events: seq<Event>): State
    decreases |events|
  {
    if events == [] then s else Run(Step(s, events[0]), events[1..])
  }
}
