/**
 * The first backend (check/app.py): its own schema, the safety-alert
 * classification of a machine's latest log, the baseline duration estimate
 * from a task type's average cycle rate, the scheduler dropdown, the month
 * calendar and task creation.
 */
module CheckApp {
  import opened Runtime
  import opened Calendar
  import opened Order
  import opened Http
  import opened Store

  datatype Operator = Operator(id: string, operatorIdStr: string, name: string)

  datatype TaskType = TaskType(id: string, name: string, category: string, avgCyclesPerHour: real)

  datatype ScheduledTask = ScheduledTask(id: string, predefinedTaskId: string, status: string, day: string,
                                         userId: string, machineId: string, createdAt: string)

  datatype MachineLog = MachineLog(id: string, machineId: string, userId: string, timestamp: string,
                                   seatbeltStatus: string, tiltAngle: real, visibilityPercent: int,
                                   safetyAlertType: string)

  // ---------------------------------------------------------------------
  // Safety alerts
  // ---------------------------------------------------------------------

  datatype Alert = Seatbelt | Tilt | Visibility | NoAlert

  /** The text stored in `safety_alert_type` for each alert. */
  function AlertName(a: Alert): (s: string)
    ensures a == Seatbelt <==> s == "Seatbelt"
    ensures a == Tilt <==> s == "Tilt"
    ensures a == Visibility <==> s == "Visibility"
    ensures a == NoAlert <==> s == "None"
  {
    match a
    case Seatbelt => "Seatbelt"
    case Tilt => "Tilt"
    case Visibility => "Visibility"
    case NoAlert => "None"
  }

  const TiltLimit: real := 15.0
  const VisibilityFloor: int := 50

  /**
   * The alert of a log, checked in priority order: an unfastened seatbelt,
   * then a tilt above 15 degrees, then visibility below 50 percent.
   */
  function Classify(seatbelt: string, tilt: real, visibility: int): (a: Alert)
    ensures a == Seatbelt <==> seatbelt == "Unfastened"
    ensures a == Tilt <==> seatbelt != "Unfastened" && tilt > TiltLimit
    ensures a == Visibility <==> seatbelt != "Unfastened" && tilt <= TiltLimit && visibility < VisibilityFloor
    ensures a == NoAlert <==> seatbelt != "Unfastened" && tilt <= TiltLimit && visibility >= VisibilityFloor
  {
    if seatbelt == "Unfastened" then Seatbelt
    else if tilt > TiltLimit then Tilt
    else if visibility < VisibilityFloor then Visibility
    else NoAlert
  }

  /** The thresholds themselves raise nothing: a tilt of exactly 15.0 and a visibility of exactly 50 are safe. */
  lemma BoundariesAreSafe(seatbelt: string)
    requires seatbelt != "Unfastened"
    ensures Classify(seatbelt, 15.0, 50) == NoAlert
    ensures Classify(seatbelt, 15.0, 49) == Visibility
    ensures forall t: real :: t > 15.0 ==> Classify(seatbelt, t, 50) == Tilt
  {
  }

  /** A raised alert stays raised when a reading gets worse (more tilt, less visibility). */
  lemma {:induction false} WorseReadingNeverClearsAlert(seatbelt: string, tilt: real, tilt': real, vis: int, vis': int)
    requires tilt <= tilt' && vis' <= vis
    ensures Classify(seatbelt, tilt, vis) != NoAlert ==> Classify(seatbelt, tilt', vis') != NoAlert
  {
  }

  /**
   * `get_latest_status`: the machine is looked up by its public id (none
   * found is a TypeError, so 500); no log for it is 404; otherwise its
   * latest log by timestamp with only `safety_alert_type` replaced by the
   * classification.
   */
  function GetLatestStatus(machineIdStr: string, machines: seq<Machine>, logs: seq<MachineLog>): (r: Reply<MachineLog>)
    ensures FindMachine'(machines, machineIdStr).None? <==> r == Err(500, Unhandled(SubscriptOfNone))
    ensures r == Err(404, NoLogsFound) <==>
              FindMachine'(machines, machineIdStr).Some?
              && forall l :: l in logs ==> l.machineId != FindMachine'(machines, machineIdStr).value.id
    ensures r.Ok? <==>
              FindMachine'(machines, machineIdStr).Some?
              && exists l :: l in logs && l.machineId == FindMachine'(machines, machineIdStr).value.id
    ensures r.Ok? ==>
              (r.code == 200
               && exists l :: l in logs && l.machineId == FindMachine'(machines, machineIdStr).value.id
                    && r.body == l.(safetyAlertType := AlertName(Classify(l.seatbeltStatus, l.tiltAngle, l.visibilityPercent))))
  {
    match FindMachine'(machines, machineIdStr)
    case None => Err(500, Unhandled(SubscriptOfNone))
    case Some(m) =>
      var mine := Where(logs, (l: MachineLog) => l.machineId == m.id);
      match LatestBy(mine, (l: MachineLog) => [l.timestamp])
      case None => Err(404, NoLogsFound)
      case Some(l) => Ok(200, l.(safetyAlertType := AlertName(Classify(l.seatbeltStatus, l.tiltAngle, l.visibilityPercent))))
  }

  /** `SELECT id FROM machines WHERE machine_id_str = ?` */
  function FindMachine'(machines: seq<Machine>, machineIdStr: string): Option<Machine> {
    Find(machines, (m: Machine) => m.machineIdStr == machineIdStr)
  }

  /** The reported log is the machine's latest: no other log of that machine has a later timestamp. */
  lemma ReportedLogIsLatest(machineIdStr: string, machines: seq<Machine>, logs: seq<MachineLog>)
    requires GetLatestStatus(machineIdStr, machines, logs).Ok?
    ensures var m := FindMachine'(machines, machineIdStr).value;
            var body := GetLatestStatus(machineIdStr, machines, logs).body;
            forall l :: l in logs && l.machineId == m.id ==> !StrLt(body.timestamp, l.timestamp)
  {
    var m := FindMachine'(machines, machineIdStr).value;
    var mine := Where(logs, (l: MachineLog) => l.machineId == m.id);
    LatestByIsMaximal(mine, (l: MachineLog) => [l.timestamp]);
  }

  // ---------------------------------------------------------------------
  // Baseline duration estimate
  // ---------------------------------------------------------------------

  /** Minutes for `target` cycles at `rate` cycles per hour, rounded as Python rounds. */
  function BaselineMinutes(target: int, rate: real): (m: int)
    requires rate != 0.0
    ensures -0.5 <= m as real - target as real / rate * 60.0 <= 0.5
    ensures (m as real - target as real / rate * 60.0 == 0.5 || target as real / rate * 60.0 - m as real == 0.5) ==>
              m % 2 == 0
  {
    RoundHalfEven(target as real / rate * 60.0)
  }

  /** At a positive rate, more cycles never take fewer minutes. */
  lemma BaselineMonotone(target: int, target': int, rate: real)
    requires rate > 0.0 && target <= target'
    ensures BaselineMinutes(target, rate) <= BaselineMinutes(target', rate)
  {
    assert target as real / rate <= target' as real / rate;
    RoundHalfEvenMonotone(target as real / rate * 60.0, target' as real / rate * 60.0);
  }

  /** A task type's rate, looked up by the request's `predefined_task_id` (`WHERE id = ?`). */
  function RateOf(data: map<string, Value>, types: seq<TaskType>): Option<TaskType> {
    Find(types, (t: TaskType) => SqlTextEq(t.id, Get(data, "predefined_task_id")))
  }

  /** `data.get('target_cycles', 100)` */
  function TargetCycles(data: map<string, Value>): (v: Value)
    ensures "target_cycles" !in data ==> v == Int(100)
  {
    if "target_cycles" in data then data["target_cycles"] else Int(100)
  }

  /**
   * `predict_task_time`: the target is converted with `int()` first (a
   * failure is a 500); an unknown task type or a zero rate is a 400 and
   * nothing is divided; otherwise the baseline minutes.
   */
  function PredictTaskTime(data: map<string, Value>, types: seq<TaskType>): (r: Reply<int>)
    ensures PyInt(TargetCycles(data)).Raised? <==> r.Err? && r.code == 500
    ensures r == Err(400, CannotPredictTaskType) <==>
              PyInt(TargetCycles(data)).Done?
              && (RateOf(data, types).None? || RateOf(data, types).value.avgCyclesPerHour == 0.0)
    ensures r.Ok? <==>
              PyInt(TargetCycles(data)).Done? && RateOf(data, types).Some?
              && RateOf(data, types).value.avgCyclesPerHour != 0.0
    ensures r.Ok? ==>
              (r.code == 200 && RateOf(data, types).Some?
               && var rate := RateOf(data, types).value.avgCyclesPerHour;
                  rate != 0.0 && r.body == BaselineMinutes(PyInt(TargetCycles(data)).value, rate))
  {
    match PyInt(TargetCycles(data))
    case Raised(c) => Err(500, Unhandled(c))
    case Done(target) =>
      match RateOf(data, types)
      case None => Err(400, CannotPredictTaskType)
      case Some(t) =>
        if t.avgCyclesPerHour == 0.0 then Err(400, CannotPredictTaskType)
        else Ok(200, BaselineMinutes(target, t.avgCyclesPerHour))
  }

  /** Without a target the estimate is for 100 cycles. */
  lemma DefaultTargetIsHundred(data: map<string, Value>, types: seq<TaskType>)
    requires "target_cycles" !in data
    requires RateOf(data, types).Some? && RateOf(data, types).value.avgCyclesPerHour != 0.0
    ensures PredictTaskTime(data, types) == Ok(200, BaselineMinutes(100, RateOf(data, types).value.avgCyclesPerHour))
  {
  }

  // ---------------------------------------------------------------------
  // Scheduler queries
  // ---------------------------------------------------------------------

  /** `SELECT id, name FROM predefined_tasks WHERE category != 'Checklist'` */
  function PredefinedDropdown(types: seq<TaskType>): (r: seq<(string, string)>)
    ensures forall e :: e in r ==> exists t :: t in types && t.category != "Checklist" && e == (t.id, t.name)
    ensures forall t :: t in types && t.category != "Checklist" ==> (t.id, t.name) in r
    ensures |r| <= |types|
  {
    if types == [] then []
    else
      var rest := PredefinedDropdown(types[1..]);
      assert forall t :: t in types[1..] ==> t in types;
      if types[0].category != "Checklist" then [(types[0].id, types[0].name)] + rest else rest
  }

  /** A calendar entry: id, day, status and the task type's name. */
  datatype CalendarEntry = CalendarEntry(id: string, day: string, status: string, title: string)

  /** `request.args.get('month', default=<this month>)` */
  function MonthArgument(month: Option<string>, today: Date): string
    requires ValidDate(today)
  {
    match month
    case Some(m) => m
    case None => FormatDate(today)[..7]
  }

  /**
   * `get_tasks_for_month`: every task, whoever it belongs to, whose day
   * SQLite reads as a date of that month and whose task type exists.
   */
  function TasksForMonth(tasks: seq<ScheduledTask>, types: seq<TaskType>, month: string): (r: seq<CalendarEntry>)
    ensures forall e :: e in r ==>
              exists t :: t in tasks && SqliteYearMonth(t.day) == Some(month) && FindTaskType(types, t.predefinedTaskId).Some?
                          && e == CalendarEntry(t.id, t.day, t.status, FindTaskType(types, t.predefinedTaskId).value.name)
    ensures forall t :: t in tasks && SqliteYearMonth(t.day) == Some(month) && FindTaskType(types, t.predefinedTaskId).Some? ==>
              CalendarEntry(t.id, t.day, t.status, FindTaskType(types, t.predefinedTaskId).value.name) in r
    ensures |r| <= |tasks|
  {
    if tasks == [] then []
    else
      var t := tasks[0];
      var rest := TasksForMonth(tasks[1..], types, month);
      match FindTaskType(types, t.predefinedTaskId)
      case Some(p) =>
        if SqliteYearMonth(t.day) == Some(month) then [CalendarEntry(t.id, t.day, t.status, p.name)] + rest else rest
      case None => rest
  }

  function FindTaskType(types: seq<TaskType>, id: string): Option<TaskType> {
    Find(types, (p: TaskType) => p.id == id)
  }

  /** With no month given, the calendar shows the current month, which holds today's tasks. */
  lemma DefaultMonthHoldsToday(t: ScheduledTask, tasks: seq<ScheduledTask>, types: seq<TaskType>, today: Date)
    requires ValidDate(today) && t in tasks && t.day == FormatDate(today)
    requires FindTaskType(types, t.predefinedTaskId).Some?
    ensures CalendarEntry(t.id, t.day, t.status, FindTaskType(types, t.predefinedTaskId).value.name)
              in TasksForMonth(tasks, types, MonthArgument(None, today))
  {
    MonthKeyOfFormattedDate(today);
  }

  // ---------------------------------------------------------------------
  // Task creation
  // ---------------------------------------------------------------------

  /** `SELECT id FROM users WHERE operator_id_str = ?` */
  function FindOperator(users: seq<Operator>, operatorIdStr: Value): Option<Operator> {
    Find(users, (u: Operator) => SqlTextEq(u.operatorIdStr, operatorIdStr))
  }

  /** `SELECT id FROM machines WHERE machine_id_str = ?` */
  function FindMachineByTag(machines: seq<Machine>, machineIdStr: Value): Option<Machine> {
    Find(machines, (m: Machine) => SqlTextEq(m.machineIdStr, machineIdStr))
  }

  /** Everything `create_task` needs: both keys and tags found, and a text form for the task type and day. */
  predicate Schedulable(data: map<string, Value>, users: seq<Operator>, machines: seq<Machine>) {
    && "operator_id_str" in data && FindOperator(users, data["operator_id_str"]).Some?
    && "machine_id_str" in data && FindMachineByTag(machines, data["machine_id_str"]).Some?
    && "predefined_task_id" in data && "day" in data
    && TextAffinity(data["predefined_task_id"]).Some? && TextAffinity(data["day"]).Some?
  }

  /**
   * The row `create_task` inserts, or what it raises first: a missing
   * request key, an operator or machine tag that matches no row, or a NULL
   * task type or day. The TEXT columns keep the text form of what they are
   * given.
   */
  function NewScheduledTask(data: map<string, Value>, users: seq<Operator>, machines: seq<Machine>, id: string, now: string)
    : (r: Outcome<ScheduledTask>)
    ensures r.Done? <==> Schedulable(data, users, machines)
    ensures r.Done? ==> r.value.status == "Pending" && r.value.id == id && r.value.createdAt == now
    ensures r.Done? ==>
              ("operator_id_str" in data && "machine_id_str" in data
               && (exists u :: u in users && SqlTextEq(u.operatorIdStr, data["operator_id_str"]) && u.id == r.value.userId)
               && (exists m :: m in machines && SqlTextEq(m.machineIdStr, data["machine_id_str"]) && m.id == r.value.machineId))
    ensures r.Done? ==>
              ("predefined_task_id" in data && "day" in data
               && SqlTextEq(r.value.predefinedTaskId, data["predefined_task_id"]) && SqlTextEq(r.value.day, data["day"]))
    ensures "operator_id_str" !in data ==> r == Raised(MissingKey("operator_id_str"))
    ensures "operator_id_str" in data && FindOperator(users, data["operator_id_str"]).None? ==> r == Raised(SubscriptOfNone)
  {
    if "operator_id_str" !in data then Raised(MissingKey("operator_id_str"))
    else match FindOperator(users, data["operator_id_str"])
      case None => Raised(SubscriptOfNone)
      case Some(u) =>
        if "machine_id_str" !in data then Raised(MissingKey("machine_id_str"))
        else match FindMachineByTag(machines, data["machine_id_str"])
          case None => Raised(SubscriptOfNone)
          case Some(m) =>
            if "predefined_task_id" !in data then Raised(MissingKey("predefined_task_id"))
            else if "day" !in data then Raised(MissingKey("day"))
            else if data["predefined_task_id"].Null? then Raised(NotNullViolation("predefined_task_id"))
            else if data["day"].Null? then Raised(NotNullViolation("day"))
            else
              match (TextAffinity(data["predefined_task_id"]), TextAffinity(data["day"]))
              case (None, _) => Raised(NotText("predefined_task_id"))
              case (_, None) => Raised(NotText("day"))
              case (Some(taskType), Some(day)) => Done(ScheduledTask(id, taskType, "Pending", day, u.id, m.id, now))
  }

  /** The tasks table of this backend, changed in place by `create_task`. */
  class Schedule {
    var rows: seq<ScheduledTask>

    constructor (rows: seq<ScheduledTask>)
      ensures this.rows == rows
    {
      this.rows := rows;
    }

    /**
     * `create_task`: the new Pending row is appended and the reply is
     * success; anything raised is a 500 and leaves the table as it was.
     */
    method CreateTask(data: map<string, Value>, users: seq<Operator>, machines: seq<Machine>, id: string, now: string)
      returns (reply: Reply<bool>)
      modifies this
      ensures match NewScheduledTask(data, users, machines, id, now)
              case Done(t) => reply == Ok(200, true) && rows == old(rows) + [t]
              case Raised(c) => reply == Err(500, Unhandled(c)) && rows == old(rows)
    {
      match NewScheduledTask(data, users, machines, id, now) {
        case Done(t) =>
          rows := rows + [t];
          reply := Ok(200, true);
        case Raised(c) =>
          reply := Err(500, Unhandled(c));
      }
    }
  }
}
