/**
 * The session-scoped backend (finalfinal/app.py): login, the operator's
 * dashboard, the month calendar, the duration prediction with the
 * operator's own context, and task creation on the operator's usual machine.
 * The owner-scoped updates are the TaskTable methods of the store.
 */
module FinalfinalApp {
  import opened Runtime
  import opened Calendar
  import opened Order
  import opened Http
  import opened Store
  import opened Pipeline
  import opened Prediction

  // ---------------------------------------------------------------------
  // Login
  // ---------------------------------------------------------------------

  /** `SELECT * FROM users WHERE operator_id_str = ?` */
  function UserByTag(users: seq<User>, tag: Value): Option<User> {
    Find(users, (u: User) => SqlTextEq(u.operatorIdStr, tag))
  }

  /**
   * `login` (POST): the user whose operator tag is the request's, when the
   * request's password is theirs; 401 otherwise. On success the session
   * holds that user's id.
   */
  function Login(data: map<string, Value>, users: seq<User>): (r: Reply<User>)
    ensures r.Ok? ==> r.code == 200 && r.body in users
                      && SqlTextEq(r.body.operatorIdStr, Get(data, "operator_id_str"))
                      && Text(r.body.password) == Get(data, "password")
    ensures r.Err? ==> r == Err(401, InvalidCredentials)
  {
    match UserByTag(users, Get(data, "operator_id_str"))
    case Some(u) => if Text(u.password) == Get(data, "password") then Ok(200, u) else Err(401, InvalidCredentials)
    case None => Err(401, InvalidCredentials)
  }

  /** Operator tags are UNIQUE in the users table. */
  predicate UniqueTags(users: seq<User>) {
    forall i, j :: 0 <= i < j < |users| ==> users[i].operatorIdStr != users[j].operatorIdStr
  }

  /** With unique tags, login succeeds exactly when some user has both the tag and the password. */
  lemma LoginAcceptsExactlyMatchingCredentials(data: map<string, Value>, users: seq<User>)
    requires UniqueTags(users)
    ensures Login(data, users).Ok? <==>
              exists u :: u in users && SqlTextEq(u.operatorIdStr, Get(data, "operator_id_str"))
                          && Text(u.password) == Get(data, "password")
  {
    var found := UserByTag(users, Get(data, "operator_id_str"));
    if u :| u in users && SqlTextEq(u.operatorIdStr, Get(data, "operator_id_str")) && Text(u.password) == Get(data, "password") {
      var v := found.value;
      var i :| 0 <= i < |users| && users[i] == u;
      var j :| 0 <= j < |users| && users[j] == v;
      assert users[i].operatorIdStr == users[j].operatorIdStr;
      assert i == j;
    }
  }

  // ---------------------------------------------------------------------
  // Dashboard
  // ---------------------------------------------------------------------

  /**
   * The machine the dashboard shows: that of the first listed task when it
   * names one, else that of the user's latest-day task, else none.
   */
  function DashboardMachine(listed: seq<Task>, tasks: seq<Task>, machines: seq<Machine>, user: string): (m: Option<Machine>)
    requires forall t :: t in listed ==> t in tasks && t.userId == user
    ensures m.Some? ==> m.value in machines
                        && exists t :: t in tasks && t.userId == user && t.machineId == m.value.id
    ensures listed != [] && listed[0].machineId != "" ==> m == FindMachine(machines, listed[0].machineId)
    ensures listed == [] || listed[0].machineId == "" ==>
              m == match LatestDayTask(tasks, user)
                   case Some(t) => FindMachine(machines, t.machineId)
                   case None => None
    ensures (listed == [] || listed[0].machineId == "") && (forall t :: t in tasks ==> t.userId != user) ==> m.None?
  {
    if listed != [] && listed[0].machineId != "" then FindMachine(machines, listed[0].machineId)
    else match LatestDayTask(tasks, user)
      case Some(t) => FindMachine(machines, t.machineId)
      case None => None
  }

  datatype Dashboard = Dashboard(machine: Option<Machine>, tasksToday: seq<DashboardEntry>)

  /**
   * `get_dashboard_data`: today's tasks of the session user (`today` is the
   * server's clock) in dashboard order, and the machine to show.
   */
  function GetDashboardData(tasks: seq<Task>, predefined: seq<PredefinedTask>, machines: seq<Machine>,
                            user: string, today: Date): (r: Dashboard)
    requires ValidDate(today)
    ensures var listed := TodaysTasks(tasks, predefined, user, FormatDate(today));
            && (forall t :: t in listed ==> FindPredefined(predefined, t.predefinedTaskId).Some?)
            && r.tasksToday == DashboardLines(listed, predefined)
            && |r.tasksToday| == |listed|
            && (forall i :: 0 <= i < |listed| ==> r.tasksToday[i].id == listed[i].id && r.tasksToday[i].status == listed[i].status)
            && r.machine == DashboardMachine(listed, tasks, machines, user)
  {
    var listed := TodaysTasks(tasks, predefined, user, FormatDate(today));
    Dashboard(DashboardMachine(listed, tasks, machines, user), DashboardLines(listed, predefined))
  }

  // ---------------------------------------------------------------------
  // Month calendar
  // ---------------------------------------------------------------------

  /** A calendar entry: id, day, status, task volume, the task type's name and unit. */
  datatype MonthEntry = MonthEntry(id: string, day: string, status: Value, taskVolume: Value, title: string, taskUnit: string)

  predicate InMonth(t: Task, predefined: seq<PredefinedTask>, month: string, user: string) {
    SqliteYearMonth(t.day) == Some(month) && t.userId == user && FindPredefined(predefined, t.predefinedTaskId).Some?
  }

  function Entry(t: Task, p: PredefinedTask): MonthEntry {
    MonthEntry(t.id, t.day, t.status, t.taskVolume, p.name, p.taskUnit)
  }

  /**
   * `get_tasks_for_month`: the session user's tasks whose day SQLite reads
   * as a date of the month asked for. Without a month the comparison is
   * with NULL, which matches nothing.
   */
  function TasksForMonth(tasks: seq<Task>, predefined: seq<PredefinedTask>, month: Option<string>, user: string)
    : (r: seq<MonthEntry>)
    ensures month.None? ==> r == []
    ensures month.Some? ==> forall t :: t in tasks && InMonth(t, predefined, month.value, user) ==>
              Entry(t, FindPredefined(predefined, t.predefinedTaskId).value) in r
    ensures forall e :: e in r ==>
              month.Some?
              && exists t :: t in tasks && InMonth(t, predefined, month.value, user)
                   && e == Entry(t, FindPredefined(predefined, t.predefinedTaskId).value)
    ensures |r| <= |tasks|
  {
    if month.None? || tasks == [] then []
    else
      var t := tasks[0];
      var rest := TasksForMonth(tasks[1..], predefined, month, user);
      assert tasks == [t] + tasks[1..];
      if InMonth(t, predefined, month.value, user) then
        [Entry(t, FindPredefined(predefined, t.predefinedTaskId).value)] + rest
      else rest
  }

  /** A formatted date belongs to the month made of its first seven characters. */
  lemma TaskListedUnderItsMonth(t: Task, tasks: seq<Task>, predefined: seq<PredefinedTask>, d: Date, user: string)
    requires ValidDate(d) && t.day == FormatDate(d) && t in tasks && t.userId == user
    requires FindPredefined(predefined, t.predefinedTaskId).Some?
    ensures Entry(t, FindPredefined(predefined, t.predefinedTaskId).value) in TasksForMonth(tasks, predefined, Some(FormatDate(d)[..7]), user)
  {
    MonthKeyOfFormattedDate(d);
  }

  // ---------------------------------------------------------------------
  // Prediction
  // ---------------------------------------------------------------------

  /** `SELECT m.machine_id_str FROM tasks t JOIN machines m ... WHERE t.assigned_to_user_id = ? ORDER BY t.day DESC LIMIT 1` */
  function LastMachineTag(tasks: seq<Task>, machines: seq<Machine>, user: string): (r: Option<string>)
    ensures r.None? <==> forall t :: t in tasks && t.userId == user ==> FindMachine(machines, t.machineId).None?
    ensures r.Some? ==>
              exists t :: t in tasks && t.userId == user && FindMachine(machines, t.machineId).Some?
                && r.value == FindMachine(machines, t.machineId).value.machineIdStr
                && forall t' :: t' in tasks && t'.userId == user && FindMachine(machines, t'.machineId).Some? ==>
                     !StrLt(t.day, t'.day)
  {
    var joined := Where(tasks, (t: Task) => t.userId == user && FindMachine(machines, t.machineId).Some?);
    match LatestBy(joined, (t: Task) => [t.day])
    case None => None
    case Some(t) =>
      LatestByIsMaximal(joined, (t: Task) => [t.day]);
      Some(FindMachine(machines, t.machineId).value.machineIdStr)
  }

  /**
   * The operator context of a prediction: the session user's experience
   * level and tag ('Mid' and 'OP-UNKNOWN' when the user row is gone) and the
   * tag of the machine of their latest-day task ('EXC-UNKNOWN' without one).
   */
  function ContextFor(user: string, users: seq<User>, tasks: seq<Task>, machines: seq<Machine>): (ctx: Context)
    ensures FindUser(users, user).None? ==> ctx.experienceLevel == "Mid" && ctx.operatorIdStr == "OP-UNKNOWN"
    ensures FindUser(users, user).Some? ==>
              ctx.experienceLevel == FindUser(users, user).value.experienceLevel
              && ctx.operatorIdStr == FindUser(users, user).value.operatorIdStr
    ensures ctx.machineIdStr == match LastMachineTag(tasks, machines, user)
                                case Some(tag) => tag
                                case None => "EXC-UNKNOWN"
  {
    var u := FindUser(users, user);
    Context(if u.Some? then u.value.experienceLevel else "Mid",
            if u.Some? then u.value.operatorIdStr else "OP-UNKNOWN",
            match LastMachineTag(tasks, machines, user)
            case Some(tag) => tag
            case None => "EXC-UNKNOWN")
  }

  /** `predict_time`: the shared prediction reply with the session user's context. */
  function PredictTime(model: Option<Model>, data: map<string, Value>, user: string,
                       users: seq<User>, tasks: seq<Task>, machines: seq<Machine>): (r: Reply<int>)
    ensures model.None? <==> r == Err(503, ModelNotLoaded)
    ensures r.Err? && model.Some? ==> r.code == 400
    ensures var ctx := ContextFor(user, users, tasks, machines);
            r.Ok? <==> model.Some? && AssembleFrame(data, ctx).Done? && Predict(model.value, AssembleFrame(data, ctx).value).Done?
    ensures r == PredictReply(model, data, ContextFor(user, users, tasks, machines))
  {
    PredictReply(model, data, ContextFor(user, users, tasks, machines))
  }

  // ---------------------------------------------------------------------
  // Task creation
  // ---------------------------------------------------------------------

  /**
   * The machine of the user's latest task (by day, then creation time),
   * when that task names one.
   */
  function PreferredMachine(rows: seq<Task>, user: string): (m: Option<string>)
    ensures m.Some? ==>
              m.value != ""
              && exists t :: t in rows && t.userId == user && t.machineId == m.value
                   && forall t' :: t' in rows && t'.userId == user ==>
                        !KeyLt([t.day, t.createdAt], [t'.day, t'.createdAt])
    ensures (forall t :: t in rows ==> t.userId != user) ==> m.None?
    ensures (exists t :: t in rows && t.userId == user) && (forall t :: t in rows && t.userId == user ==> t.machineId != "") ==>
              m.Some?
    ensures (exists t :: t in rows && t.userId == user) && m.None? ==>
              exists t :: t in rows && t.userId == user && t.machineId == ""
                && forall t' :: t' in rows && t'.userId == user ==> !KeyLt([t.day, t.createdAt], [t'.day, t'.createdAt])
  {
    var mine := UserTasks(rows, user);
    match LatestBy(mine, (t: Task) => [t.day, t.createdAt])
    case None => None
    case Some(t) =>
      LatestByIsMaximal(mine, (t: Task) => [t.day, t.createdAt]);
      if t.machineId != "" then Some(t.machineId) else None
  }

  /**
   * `create_task`: the new Pending task belongs to the session user and
   * goes on their preferred machine, or on some machine of the table when
   * they have none (no machine at all is a 500 before the request is read).
   * A missing or null field is a 500 and changes nothing.
   */
  method CreateTask(table: TaskTable, machines: seq<Machine>, user: string, data: map<string, Value>, id: string, now: string)
    returns (reply: Reply<bool>)
    modifies table
    ensures PreferredMachine(old(table.rows), user).None? && machines == [] ==>
              reply == Err(500, NoMachinesAvailable)
    ensures reply.Ok? <==> (PreferredMachine(old(table.rows), user).Some? || machines != []) && Insertable(data)
    ensures reply.Err? ==> table.rows == old(table.rows) && reply.code == 500
    ensures reply.Ok? ==>
              reply == Ok(201, true)
              && exists t :: table.rows == old(table.rows) + [t] && NewTaskRow(data, id, user, t.machineId, now) == Done(t)
                   && match PreferredMachine(old(table.rows), user)
                      case Some(m) => t.machineId == m
                      case None => exists mm :: mm in machines && mm.id == t.machineId
  {
    var machine: string;
    match PreferredMachine(table.rows, user) {
      case Some(m) =>
        machine := m;
      case None =>
        if machines == [] {
          return Err(500, NoMachinesAvailable);
        }
        assert machines[0] in machines;
        var mm :| mm in machines;
        machine := mm.id;
    }
    match NewTaskRow(data, id, user, machine, now) {
      case Raised(c) =>
        reply := Err(500, Unhandled(c));
      case Done(t) =>
        table.Insert(t);
        reply := Ok(201, true);
    }
  }
}
