/**
 * The operator-assistant store (users, machines, predefined tasks, tasks) as
 * in-memory tables, the owner-scoped UPDATE and the INSERT statements the
 * task handlers run on the tasks table, and the dashboard query the two web
 * backends share.
 */
module Store {
  import opened Runtime
  import opened Order
  import opened Http

  datatype User = User(id: string, operatorIdStr: string, name: string, experienceLevel: string, password: string)

  datatype Machine = Machine(id: string, machineIdStr: string, model: string)

  datatype PredefinedTask = PredefinedTask(id: string, name: string, category: string, taskUnit: string)

  /** A row of the tasks table; nullable or dynamically typed columns hold a Value. */
  datatype Task = Task(
    id: string,
    predefinedTaskId: string,
    status: Value,
    day: string,
    taskVolume: Value,
    currentCycles: Value,
    userId: string,
    machineId: string,
    createdAt: string,
    startedAt: Option<string>,
    actualDurationMinutes: Value,
    weatherFactor: Value,
    materialDensityFactor: Value,
    safetyAlertsTriggered: Value,
    idlingTimeMin: Value)

  // ---------------------------------------------------------------------
  // Query primitives
  // ---------------------------------------------------------------------

  /** `SELECT ... WHERE p LIMIT 1`: the first row satisfying `p`. */
  function Find<T(!new)>(s: seq<T>, p: T -> bool): (r: Option<T>)
    ensures r.Some? ==> r.value in s && p(r.value)
    ensures r.None? <==> forall x :: x in s ==> !p(x)
  {
    if s == [] then None
    else if p(s[0]) then Some(s[0])
    else Find(s[1..], p)
  }

  /** `SELECT ... WHERE p`: the rows satisfying `p`, in table order. */
  function Where<T(!new)>(s: seq<T>, p: T -> bool): (r: seq<T>)
    ensures forall x :: x in r <==> x in s && p(x)
    ensures forall i :: 0 <= i < |r| ==> r[i] in s && p(r[i])
    ensures forall x :: multiset(r)[x] == if p(x) then multiset(s)[x] else 0
    ensures |r| <= |s|
  {
    if s == [] then []
    else
      assert s == [s[0]] + s[1..];
      if p(s[0]) then [s[0]] + Where(s[1..], p)
      else Where(s[1..], p)
  }

  function FindUser(users: seq<User>, id: string): Option<User> {
    Find(users, (u: User) => u.id == id)
  }

  function FindMachine(machines: seq<Machine>, id: string): Option<Machine> {
    Find(machines, (m: Machine) => m.id == id)
  }

  function FindPredefined(predefined: seq<PredefinedTask>, id: string): Option<PredefinedTask> {
    Find(predefined, (p: PredefinedTask) => p.id == id)
  }

  function UserTasks(tasks: seq<Task>, user: string): seq<Task> {
    Where(tasks, (t: Task) => t.userId == user)
  }

  /**
   * `SELECT ... FROM tasks WHERE assigned_to_user_id = ? ORDER BY day DESC
   * LIMIT 1`: one of the user's tasks on their latest day, if they have any.
   */
  function LatestDayTask(tasks: seq<Task>, user: string): (r: Option<Task>)
    ensures r.Some? ==> r.value in tasks && r.value.userId == user
    ensures r.None? <==> forall t :: t in tasks ==> t.userId != user
    ensures r.Some? ==> forall t :: t in tasks && t.userId == user ==> !StrLt(r.value.day, t.day)
  {
    var mine := UserTasks(tasks, user);
    var r := LatestBy(mine, (t: Task) => [t.day]);
    if r.Some? then
      LatestByIsMaximal(mine, (t: Task) => [t.day]);
      r
    else r
  }

  // ---------------------------------------------------------------------
  // The tasks table and the statements that change it
  // ---------------------------------------------------------------------

  /** `WHERE id = ? AND assigned_to_user_id = ?`, the id compared as SQLite compares a TEXT column with a parameter. */
  predicate Targets(t: Task, taskId: Value, user: string) {
    SqlTextEq(t.id, taskId) && t.userId == user
  }

  /** The tasks table, changed in place by the handlers. */
  class TaskTable {
    var rows: seq<Task>

    constructor (rows: seq<Task>)
      ensures this.rows == rows
    {
      this.rows := rows;
    }

    /**
     * `UPDATE tasks SET current_cycles = ? WHERE id = ? AND
     * assigned_to_user_id = ?` with the request's `current_cycles` and
     * `task_id`. Only the session user's row with that id changes, and it
     * takes the value as the REAL column stores it; a NULL written into a
     * row fails the NOT NULL constraint and changes nothing.
     * The reply is success whether or not a row matched.
     */
    method UpdateCycles(data: map<string, Value>, user: string) returns (reply: Reply<bool>)
      modifies this
      ensures var hit := exists i :: 0 <= i < |old(rows)| && Targets(old(rows)[i], Get(data, "task_id"), user);
              if hit && Get(data, "current_cycles").Null? then
                reply == Err(500, Unhandled(NotNullViolation("current_cycles"))) && rows == old(rows)
              else
                reply == Ok(200, true) && |rows| == |old(rows)|
                && forall i :: 0 <= i < |rows| ==>
                     rows[i] == if Targets(old(rows)[i], Get(data, "task_id"), user)
                                then old(rows)[i].(currentCycles := RealColumn(Get(data, "current_cycles")))
                                else old(rows)[i]
      ensures forall i :: 0 <= i < |old(rows)| && old(rows)[i].userId != user ==> rows[i] == old(rows)[i]
    {
      var taskId, cycles := Get(data, "task_id"), Get(data, "current_cycles");
      if cycles.Null? && exists i :: 0 <= i < |rows| && Targets(rows[i], taskId, user) {
        reply := Err(500, Unhandled(NotNullViolation("current_cycles")));
      } else {
        rows := seq(|rows|, i requires 0 <= i < |rows| reads this =>
                  if Targets(rows[i], taskId, user) then rows[i].(currentCycles := RealColumn(cycles)) else rows[i]);
        reply := Ok(200, true);
      }
    }

    /**
     * `UPDATE tasks SET status = ? WHERE id = ? AND assigned_to_user_id = ?`,
     * with the same scoping and the same NOT NULL failure as UpdateCycles;
     * the status is stored as the TEXT column keeps it.
     */
    method UpdateStatus(data: map<string, Value>, user: string) returns (reply: Reply<bool>)
      modifies this
      ensures var hit := exists i :: 0 <= i < |old(rows)| && Targets(old(rows)[i], Get(data, "task_id"), user);
              if hit && Get(data, "status").Null? then
                reply == Err(500, Unhandled(NotNullViolation("status"))) && rows == old(rows)
              else
                reply == Ok(200, true) && |rows| == |old(rows)|
                && forall i :: 0 <= i < |rows| ==>
                     rows[i] == if Targets(old(rows)[i], Get(data, "task_id"), user)
                                then old(rows)[i].(status := TextColumn(Get(data, "status")))
                                else old(rows)[i]
      ensures forall i :: 0 <= i < |old(rows)| && old(rows)[i].userId != user ==> rows[i] == old(rows)[i]
    {
      var taskId, status := Get(data, "task_id"), Get(data, "status");
      if status.Null? && exists i :: 0 <= i < |rows| && Targets(rows[i], taskId, user) {
        reply := Err(500, Unhandled(NotNullViolation("status")));
      } else {
        rows := seq(|rows|, i requires 0 <= i < |rows| reads this =>
                  if Targets(rows[i], taskId, user) then rows[i].(status := TextColumn(status)) else rows[i]);
        reply := Ok(200, true);
      }
    }

    /** `INSERT INTO tasks ...`: the row goes at the end; no other row changes. */
    method Insert(t: Task)
      modifies this
      ensures rows == old(rows) + [t]
    {
      rows := rows + [t];
    }
  }

  /** The request fields the create handlers copy into the new row, in the order they read them. */
  const CopiedFields: seq<string> := ["predefined_task_id", "day", "task_volume", "weather_factor", "material_density_factor"]

  /** The request carries every copied field, none of them null, and a text form for the two text columns. */
  predicate Insertable(data: map<string, Value>) {
    (forall f :: f in CopiedFields ==> f in data && !data[f].Null?)
    && TextAffinity(data["predefined_task_id"]).Some? && TextAffinity(data["day"]).Some?
  }

  /**
   * The row `INSERT INTO tasks (id, predefined_task_id,
   * assigned_to_user_id, assigned_to_machine_id, day, task_volume,
   * weather_factor, material_density_factor, status, created_at) VALUES (?,
   * ?, ?, ?, ?, ?, ?, ?, 'Pending', ?)` adds: the request's fields copied,
   * status 'Pending', the columns not listed at their defaults, each value
   * as its column's affinity stores it. A missing field raises KeyError and
   * a null one violates NOT NULL.
   */
  function NewTaskRow(data: map<string, Value>, id: string, user: string, machine: string, now: string): (r: Outcome<Task>)
    ensures r.Done? <==> Insertable(data)
    ensures (exists f :: f in CopiedFields && f !in data) ==> r.Raised? && r.cause.MissingKey?
    ensures (forall f :: f in CopiedFields ==> f in data) && (exists f :: f in CopiedFields && data[f].Null?) ==>
              r.Raised? && r.cause.NotNullViolation?
    ensures r.Done? ==> var t := r.value;
              && t.id == id && t.userId == user && t.machineId == machine && t.createdAt == now
              && t.status == Text("Pending")
              && SqlTextEq(t.predefinedTaskId, data["predefined_task_id"]) && SqlTextEq(t.day, data["day"])
              && t.taskVolume == RealColumn(data["task_volume"]) && t.weatherFactor == RealColumn(data["weather_factor"])
              && t.materialDensityFactor == RealColumn(data["material_density_factor"])
              && t.currentCycles == Real(0.0) && t.startedAt.None? && t.actualDurationMinutes.Null?
  {
    match FirstMissing(CopiedFields, data)
    case Some(f) => Raised(MissingKey(f))
    case None =>
      match FirstNull(CopiedFields, data)
      case Some(f) => Raised(NotNullViolation(f))
      case None =>
        assert "predefined_task_id" in CopiedFields && "day" in CopiedFields;
        match (TextAffinity(data["predefined_task_id"]), TextAffinity(data["day"]))
        case (None, _) => Raised(NotText("predefined_task_id"))
        case (_, None) => Raised(NotText("day"))
        case (Some(taskType), Some(day)) =>
          Done(Task(id, taskType, Text("Pending"), day, RealColumn(data["task_volume"]),
                    Real(0.0), user, machine, now, None, Null, RealColumn(data["weather_factor"]),
                    RealColumn(data["material_density_factor"]), Int(0), Real(0.0)))
  }

  // ---------------------------------------------------------------------
  // The dashboard query
  // ---------------------------------------------------------------------

  /** `CASE t.status WHEN 'In Progress' THEN 1 WHEN 'Pending' THEN 2 ELSE 3 END` */
  function StatusRank(status: Value): (rank: int)
    ensures 1 <= rank <= 3
    ensures rank == 1 <==> status == Text("In Progress")
    ensures rank == 2 <==> status == Text("Pending")
  {
    if status == Text("In Progress") then 1 else if status == Text("Pending") then 2 else 3
  }

  /** `ORDER BY <rank>, t.created_at`: `a` may be listed before `b`. */
  predicate ListedBefore(a: Task, b: Task) {
    StatusRank(a.status) < StatusRank(b.status)
    || (StatusRank(a.status) == StatusRank(b.status) && !StrLt(b.createdAt, a.createdAt))
  }

  lemma ListedBeforeTotal(a: Task, b: Task)
    ensures ListedBefore(a, b) || ListedBefore(b, a)
  {
    if StrLt(a.createdAt, b.createdAt) && StrLt(b.createdAt, a.createdAt) {
      StrLtTransitive(a.createdAt, b.createdAt, a.createdAt);
      StrLtIrreflexive(a.createdAt);
    }
  }

  lemma ListedBeforeTransitive(a: Task, b: Task, c: Task)
    requires ListedBefore(a, b) && ListedBefore(b, c)
    ensures ListedBefore(a, c)
  {
    if StatusRank(a.status) == StatusRank(b.status) == StatusRank(c.status) && StrLt(c.createdAt, a.createdAt) {
      // a.created <= b.created <= c.created < a.created is impossible
      if a.createdAt != b.createdAt {
        StrLtTotal(a.createdAt, b.createdAt);
        StrLtTransitive(c.createdAt, a.createdAt, b.createdAt);
        if b.createdAt != c.createdAt {
          StrLtTotal(b.createdAt, c.createdAt);
          StrLtTransitive(b.createdAt, c.createdAt, b.createdAt);
          StrLtIrreflexive(b.createdAt);
        }
      } else if b.createdAt != c.createdAt {
        StrLtTotal(b.createdAt, c.createdAt);
        StrLtTransitive(b.createdAt, c.createdAt, a.createdAt);
        StrLtIrreflexive(a.createdAt);
      }
    }
  }

  predicate SortedForDashboard(s: seq<Task>) {
    forall i, j :: 0 <= i < j < |s| ==> ListedBefore(s[i], s[j])
  }

  function InsertInOrder(x: Task, s: seq<Task>): (r: seq<Task>)
    requires SortedForDashboard(s)
    ensures SortedForDashboard(r)
    ensures multiset(r) == multiset(s) + multiset{x}
  {
    if s == [] then [x]
    else if ListedBefore(x, s[0]) then
      BeforeSorted(x, s);
      [x] + s
    else
      ListedBeforeTotal(x, s[0]);
      var rest := InsertInOrder(x, s[1..]);
      assert s == [s[0]] + s[1..];
      HeadBeforeRest(s, x, rest);
      [s[0]] + rest
  }

  /** A task listed before the head of a sorted list is listed before all of it. */
  lemma BeforeSorted(x: Task, s: seq<Task>)
    requires SortedForDashboard(s) && s != [] && ListedBefore(x, s[0])
    ensures SortedForDashboard([x] + s)
  {
    forall j | 0 <= j < |s| ensures ListedBefore(x, s[j]) {
      if j > 0 { ListedBeforeTransitive(x, s[0], s[j]); }
    }
    forall i, j | 0 <= i < j < |[x] + s| ensures ListedBefore(([x] + s)[i], ([x] + s)[j]) {
      if i > 0 { assert ([x] + s)[i] == s[i - 1] && ([x] + s)[j] == s[j - 1]; }
    }
  }

  /** The head of a sorted list stays in front of the rest with `x` inserted after it. */
  lemma HeadBeforeRest(s: seq<Task>, x: Task, rest: seq<Task>)
    requires SortedForDashboard(s) && s != [] && ListedBefore(s[0], x)
    requires SortedForDashboard(rest) && multiset(rest) == multiset(s[1..]) + multiset{x}
    ensures SortedForDashboard([s[0]] + rest)
  {
    forall y | y in rest ensures ListedBefore(s[0], y) {
      assert y in multiset(rest);
      if y != x {
        assert y in multiset(s[1..]);
        var k :| 0 <= k < |s[1..]| && s[1..][k] == y;
        assert s[k + 1] == y;
      }
    }
    var r := [s[0]] + rest;
    forall i, j | 0 <= i < j < |r| ensures ListedBefore(r[i], r[j]) {
      assert r[j] == rest[j - 1];
      assert rest[j - 1] in rest;
      if i > 0 { assert r[i] == rest[i - 1]; }
    }
  }

  /** The rows in dashboard order: a sorted rearrangement of its input. */
  function SortForDashboard(s: seq<Task>): (r: seq<Task>)
    ensures SortedForDashboard(r)
    ensures multiset(r) == multiset(s)
  {
    if s == [] then []
    else
      assert s == [s[0]] + s[1..];
      InsertInOrder(s[0], SortForDashboard(s[1..]))
  }

  /** The WHERE and JOIN of the dashboard query: the user's tasks of that day whose predefined task exists. */
  predicate OnDashboard(t: Task, predefined: seq<PredefinedTask>, user: string, today: string) {
    t.userId == user && t.day == today && FindPredefined(predefined, t.predefinedTaskId).Some?
  }

  /**
   * The tasks `get_dashboard_data` lists: exactly the session user's tasks
   * for today that join a predefined task, each as often as in the table,
   * In Progress before Pending before the rest and then by created_at.
   */
  function TodaysTasks(tasks: seq<Task>, predefined: seq<PredefinedTask>, user: string, today: string): (r: seq<Task>)
    ensures SortedForDashboard(r)
    ensures forall t :: t in r <==> t in tasks && OnDashboard(t, predefined, user, today)
    ensures multiset(r) == multiset(Where(tasks, (t: Task) => OnDashboard(t, predefined, user, today)))
  {
    var selected := Where(tasks, (t: Task) => OnDashboard(t, predefined, user, today));
    var r := SortForDashboard(selected);
    assert forall t :: t in r <==> t in selected by {
      forall t ensures t in r <==> t in selected {
        assert t in r <==> t in multiset(r);
        assert t in selected <==> t in multiset(selected);
      }
    }
    r
  }

  /** A line of `tasks_today`: id, status, task_volume as target_cycles, current_cycles, title, machine. */
  datatype DashboardEntry = DashboardEntry(id: string, status: Value, targetCycles: Value, currentCycles: Value,
                                           title: string, assignedToMachineId: string)

  function DashboardLines(today: seq<Task>, predefined: seq<PredefinedTask>): (r: seq<DashboardEntry>)
    requires forall t :: t in today ==> FindPredefined(predefined, t.predefinedTaskId).Some?
    ensures |r| == |today|
    ensures forall i :: 0 <= i < |r| ==>
              && r[i].id == today[i].id && r[i].status == today[i].status
              && r[i].targetCycles == today[i].taskVolume && r[i].currentCycles == today[i].currentCycles
              && r[i].title == FindPredefined(predefined, today[i].predefinedTaskId).value.name
              && r[i].assignedToMachineId == today[i].machineId
  {
    seq(|today|, i requires 0 <= i < |today| =>
      DashboardEntry(today[i].id, today[i].status, today[i].taskVolume, today[i].currentCycles,
                     FindPredefined(predefined, today[i].predefinedTaskId).value.name, today[i].machineId))
  }
}
