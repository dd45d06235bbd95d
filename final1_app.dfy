/**
 * The earlier session backend (final1/app.py). It shares the store, the
 * login gate and the owner-scoped updates with the later one, but its
 * dashboard takes the first listed task's machine as it is, its month
 * calendar is not scoped to the user, its predictions use a fixed operator
 * context, and new tasks go to an arbitrary operator and machine.
 */
module Final1App {
  import opened Runtime
  import opened Calendar
  import opened Order
  import opened Http
  import opened Store
  import opened Pipeline
  import opened Prediction

  /**
   * The dashboard machine: that of the first listed task whenever there is
   * one, else that of the user's latest-day task, else none.
   */
  function DashboardMachine(listed: seq<Task>, tasks: seq<Task>, machines: seq<Machine>, user: string): (m: Option<Machine>)
    requires forall t :: t in listed ==> t in tasks && t.userId == user
    ensures m.Some? ==> m.value in machines
                        && exists t :: t in tasks && t.userId == user && t.machineId == m.value.id
    ensures listed != [] ==> m == FindMachine(machines, listed[0].machineId)
    ensures listed == [] ==> m == match LatestDayTask(tasks, user)
                                  case Some(t) => FindMachine(machines, t.machineId)
                                  case None => None
  {
    if listed != [] then FindMachine(machines, listed[0].machineId)
    else match LatestDayTask(tasks, user)
      case Some(t) => FindMachine(machines, t.machineId)
      case None => None
  }

  /** A calendar entry of this backend: day, status and the task type's name. */
  datatype MonthEntry = MonthEntry(day: string, status: Value, title: string)

  predicate InMonth(t: Task, predefined: seq<PredefinedTask>, month: string) {
    SqliteYearMonth(t.day) == Some(month) && FindPredefined(predefined, t.predefinedTaskId).Some?
  }

  function Entry(t: Task, p: PredefinedTask): MonthEntry {
    MonthEntry(t.day, t.status, p.name)
  }

  /**
   * `get_tasks_for_month`: every task of the month, whoever it is assigned
   * to; no month matches nothing.
   */
  function TasksForMonth(tasks: seq<Task>, predefined: seq<PredefinedTask>, month: Option<string>): (r: seq<MonthEntry>)
    ensures month.None? ==> r == []
    ensures month.Some? ==> forall t :: t in tasks && InMonth(t, predefined, month.value) ==>
              Entry(t, FindPredefined(predefined, t.predefinedTaskId).value) in r
    ensures forall e :: e in r ==>
              month.Some?
              && exists t :: t in tasks && InMonth(t, predefined, month.value)
                   && e == Entry(t, FindPredefined(predefined, t.predefinedTaskId).value)
    ensures |r| <= |tasks|
  {
    if month.None? || tasks == [] then []
    else
      var t := tasks[0];
      var rest := TasksForMonth(tasks[1..], predefined, month);
      assert tasks == [t] + tasks[1..];
      if InMonth(t, predefined, month.value) then [Entry(t, FindPredefined(predefined, t.predefinedTaskId).value)] + rest
      else rest
  }

  /** The listing does not depend on who asks: another user's task of the month is listed too. */
  lemma OtherUsersTasksListed(t: Task, tasks: seq<Task>, predefined: seq<PredefinedTask>, d: Date)
    requires ValidDate(d) && t in tasks && t.day == FormatDate(d)
    requires FindPredefined(predefined, t.predefinedTaskId).Some?
    ensures Entry(t, FindPredefined(predefined, t.predefinedTaskId).value) in TasksForMonth(tasks, predefined, Some(FormatDate(d)[..7]))
  {
    MonthKeyOfFormattedDate(d);
  }

  /** The operator context this backend always predicts with. */
  const FixedContext: Context := Context("Mid", "OP1002", "EXC002")

  /**
   * `predict_time`: 503 without a model; otherwise the frame carries alerts
   * 0, idling 0, hour 8, 'Mid', 'OP1002' and 'EXC002' whoever asks, and the
   * answer is the model's prediction rounded.
   */
  function PredictTime(model: Option<Model>, data: map<string, Value>): (r: Reply<int>)
    ensures model.None? <==> r == Err(503, ModelNotLoaded)
    ensures r.Err? && model.Some? ==> r.code == 400
    ensures r.Ok? <==>
              model.Some? && AssembleFrame(data, FixedContext).Done?
              && Predict(model.value, AssembleFrame(data, FixedContext).value).Done?
    ensures r.Ok? ==>
              exists frame :: AssembleFrame(data, FixedContext) == Done(frame)
                && frame["operator_experience_level"] == Text("Mid")
                && frame["operator_id_str"] == Text("OP1002") && frame["machine_id_str"] == Text("EXC002")
                && frame["safety_alerts_triggered"] == Int(0) && frame["idling_time_min"] == Int(0)
                && frame["hour_of_day"] == Int(8)
                && Transform(model.value.encoder, frame).Done?
                && r.body == RoundHalfEven(model.value.forest(Transform(model.value.encoder, frame).value))
  {
    var r := PredictReply(model, data, FixedContext);
    if r.Ok? then
      AssignedValues(ServedWeekday(data["day"]).value, FixedContext);
      r
    else r
  }

  /**
   * `create_task`: with no user or no machine in the store, a 500 before the
   * request is read; otherwise the new Pending task goes to some user and
   * some machine of the store. A missing or null field is a 500 and changes
   * nothing.
   */
  method CreateTask(table: TaskTable, users: seq<User>, machines: seq<Machine>, data: map<string, Value>, id: string, now: string)
    returns (reply: Reply<bool>)
    modifies table
    ensures users == [] || machines == [] ==> reply == Err(500, NoOperatorsOrMachines)
    ensures reply.Ok? <==> users != [] && machines != [] && Insertable(data)
    ensures reply.Err? ==> table.rows == old(table.rows) && reply.code == 500
    ensures reply.Ok? ==>
              reply == Ok(201, true)
              && exists t :: table.rows == old(table.rows) + [t]
                   && (exists u :: u in users && t.userId == u.id)
                   && (exists m :: m in machines && t.machineId == m.id)
                   && NewTaskRow(data, id, t.userId, t.machineId, now) == Done(t)
  {
    if users == [] || machines == [] {
      return Err(500, NoOperatorsOrMachines);
    }
    assert users[0] in users && machines[0] in machines;
    var u :| u in users;
    var m :| m in machines;
    match NewTaskRow(data, id, u.id, m.id, now) {
      case Raised(c) =>
        reply := Err(500, Unhandled(c));
      case Done(t) =>
        table.Insert(t);
        reply := Ok(201, true);
    }
  }
}
