/**
 * The training side of the duration predictor: the query that gathers the
 * completed tasks with their features, the integer casts of the date parts,
 * the size gate before fitting, and the artifact written only after a fit.
 */
module Training {
  import opened Runtime
  import opened Calendar
  import opened Store
  import opened Pipeline

  /** The four tables the training query joins; None stands for a missing database file. */
  datatype Database = Database(tasks: seq<Task>, predefined: seq<PredefinedTask>, users: seq<User>, machines: seq<Machine>)

  /** Fewer rows than this and no model is trained. */
  const MinTrainingRows: nat := 50

  /** `WHERE t.status = 'Completed' AND t.actual_duration_minutes IS NOT NULL` */
  predicate Qualifies(t: Task) {
    t.status == Text("Completed") && !t.actualDurationMinutes.Null?
  }

  /** The three inner joins find a predefined task, a user and a machine for `t`. */
  predicate Joins(db: Database, t: Task) {
    FindPredefined(db.predefined, t.predefinedTaskId).Some?
    && FindUser(db.users, t.userId).Some?
    && FindMachine(db.machines, t.machineId).Some?
  }

  predicate Selected(db: Database, t: Task) {
    Qualifies(t) && Joins(db, t)
  }

  /** A date part of `started_at`; a task never started has NULL there. */
  function DatePart(part: string -> Value, startedAt: Option<string>): Value {
    match startedAt
    case None => Null
    case Some(s) => part(s)
  }

  /** The columns of a query row: the eleven features and the label. */
  function QueryColumns(): seq<string> {
    Features() + [Label]
  }

  /** What SQLite's '%w' leaves in a cell: NULL or one digit below 7. */
  predicate WeekdayCell(v: Value) {
    v.Null? || (v.Text? && |v.s| == 1 && AllDigits(v.s) && Number(v.s) < 7)
  }

  /** What SQLite's '%H' leaves in a cell: NULL or two digits up to 23. */
  predicate HourCell(v: Value) {
    v.Null? || (v.Text? && |v.s| == 2 && AllDigits(v.s) && Number(v.s) <= 23)
  }

  /** A row as the training query returns it. */
  ghost predicate QueryRow(row: Row) {
    (forall c :: c in row <==> c in QueryColumns())
    && Label in row && !row[Label].Null?
    && "day_of_week" in row && WeekdayCell(row["day_of_week"])
    && "hour_of_day" in row && HourCell(row["hour_of_day"])
  }

  /** The twelve columns the query selects for one task. */
  function JoinedRow(db: Database, t: Task): (row: Row)
    requires Selected(db, t)
    ensures QueryRow(row)
    ensures row[Label] == t.actualDurationMinutes
  {
    var p := FindPredefined(db.predefined, t.predefinedTaskId).value;
    var u := FindUser(db.users, t.userId).value;
    var m := FindMachine(db.machines, t.machineId).value;
    map[
      "task_volume" := t.taskVolume,
      "weather_factor" := t.weatherFactor,
      "material_density_factor" := t.materialDensityFactor,
      "safety_alerts_triggered" := t.safetyAlertsTriggered,
      "idling_time_min" := t.idlingTimeMin,
      "task_type" := Text(p.name),
      "operator_experience_level" := Text(u.experienceLevel),
      "machine_id_str" := Text(m.machineIdStr),
      "operator_id_str" := Text(u.operatorIdStr),
      "day_of_week" := DatePart(SqliteWeekday, t.startedAt),
      "hour_of_day" := DatePart(SqliteHour, t.startedAt),
      Label := t.actualDurationMinutes]
  }

  /** The query over the tasks `tasks`, in table order. */
  function QueryRows(db: Database, tasks: seq<Task>): (rows: seq<Row>)
    ensures forall i :: 0 <= i < |rows| ==> QueryRow(rows[i])
    ensures |rows| <= |tasks|
  {
    if tasks == [] then []
    else if Selected(db, tasks[0]) then [JoinedRow(db, tasks[0])] + QueryRows(db, tasks[1..])
    else QueryRows(db, tasks[1..])
  }

  /** The query has a row for every selected task. */
  lemma {:induction false} QueryRowsComplete(db: Database, tasks: seq<Task>)
    ensures forall t :: t in tasks && Selected(db, t) ==> JoinedRow(db, t) in QueryRows(db, tasks)
  {
    if tasks != [] {
      QueryRowsComplete(db, tasks[1..]);
      forall t | t in tasks && Selected(db, t) && t != tasks[0]
        ensures JoinedRow(db, t) in QueryRows(db, tasks[1..])
      {
        assert t in tasks[1..];
      }
    }
  }

  /** Every row of the query is the joined row of a selected task. */
  lemma {:induction false} QueryRowsSound(db: Database, tasks: seq<Task>)
    ensures forall row :: row in QueryRows(db, tasks) ==>
              exists t :: t in tasks && Selected(db, t) && row == JoinedRow(db, t)
  {
    if tasks != [] {
      QueryRowsSound(db, tasks[1..]);
      forall row | row in QueryRows(db, tasks[1..])
        ensures exists t :: t in tasks && Selected(db, t) && row == JoinedRow(db, t)
      {
        var t :| t in tasks[1..] && Selected(db, t) && row == JoinedRow(db, t);
        assert t in tasks;
      }
    }
  }

  /**
   * The query keeps one row per selected task: two tasks with the same
   * features and duration give two rows, which the size gate counts.
   */
  lemma {:induction false} QueryRowsCount(db: Database, tasks: seq<Task>)
    ensures |QueryRows(db, tasks)| == |Where(tasks, (t: Task) => Selected(db, t))|
  {
    if tasks != [] {
      QueryRowsCount(db, tasks[1..]);
    }
  }

  /**
   * The training query: one row per completed task with a recorded duration
   * whose predefined task, user and machine exist, and no other rows.
   */
  function TrainingQuery(db: Database): seq<Row> {
    QueryRows(db, db.tasks)
  }

  /**
   * `df[column].astype(int)` over the whole column: every cell converted the
   * way `int()` converts it, or the column's first failure raised.
   */
  function CastColumn(rows: seq<Row>, column: string): (r: Outcome<seq<Row>>)
    requires forall i :: 0 <= i < |rows| ==> column in rows[i]
    ensures r.Done? <==> forall i :: 0 <= i < |rows| ==> PyInt(rows[i][column]).Done?
    ensures r.Raised? ==> r.cause == CastOfNull(column)
    ensures r.Done? ==> |r.value| == |rows|
    ensures r.Done? ==> forall i :: 0 <= i < |rows| ==>
              r.value[i] == rows[i][column := Int(PyInt(rows[i][column]).value)]
  {
    if rows == [] then Done([])
    else match (PyInt(rows[0][column]), CastColumn(rows[1..], column))
      case (Done(n), Done(rest)) => Done([rows[0][column := Int(n)]] + rest)
      case _ => Raised(CastOfNull(column))
  }

  /** What `get_training_data` hands back. */
  datatype TrainingData = NoDatabase | Frame(rows: seq<Row>) | CastFailed(cause: Cause)

  /** A query cell of a date part casts to an integer exactly when it is not NULL. */
  lemma DatePartCasts(v: Value)
    requires WeekdayCell(v) || HourCell(v)
    ensures PyInt(v).Done? <==> !v.Null?
  {
  }

  /** Both casts over query rows succeed exactly when every row has both date parts. */
  lemma {:induction false} CastsSucceedIffStarted(rows: seq<Row>)
    requires forall i :: 0 <= i < |rows| ==> QueryRow(rows[i])
    ensures forall i :: 0 <= i < |rows| ==> "day_of_week" in rows[i] && "hour_of_day" in rows[i]
    ensures CastColumn(rows, "day_of_week").Done? <==> forall i :: 0 <= i < |rows| ==> !rows[i]["day_of_week"].Null?
    ensures CastColumn(rows, "day_of_week").Done? ==>
              var withDay := CastColumn(rows, "day_of_week").value;
              (forall i :: 0 <= i < |withDay| ==> "hour_of_day" in withDay[i])
              && (CastColumn(withDay, "hour_of_day").Done? <==> forall i :: 0 <= i < |rows| ==> !rows[i]["hour_of_day"].Null?)
  {
    forall i | 0 <= i < |rows|
      ensures PyInt(rows[i]["day_of_week"]).Done? <==> !rows[i]["day_of_week"].Null?
      ensures PyInt(rows[i]["hour_of_day"]).Done? <==> !rows[i]["hour_of_day"].Null?
    {
      assert QueryRow(rows[i]);
      DatePartCasts(rows[i]["day_of_week"]);
      DatePartCasts(rows[i]["hour_of_day"]);
    }
    if CastColumn(rows, "day_of_week").Done? {
      var withDay := CastColumn(rows, "day_of_week").value;
      forall i | 0 <= i < |withDay|
        ensures "hour_of_day" in withDay[i] && withDay[i]["hour_of_day"] == rows[i]["hour_of_day"]
      {
        assert QueryRow(rows[i]);
      }
    }
  }

  /**
   * `get_training_data`: nothing without a database; the query result as it
   * is when empty; otherwise the weekday and then the hour column cast to
   * integers, a task never started making the cast fail.
   */
  function GetTrainingData(db: Option<Database>): (r: TrainingData)
    ensures r.NoDatabase? <==> db.None?
    ensures db.Some? && TrainingQuery(db.value) == [] ==> r == Frame([])
    ensures r.Frame? <==> db.Some? && forall i :: 0 <= i < |TrainingQuery(db.value)| ==>
              !TrainingQuery(db.value)[i]["day_of_week"].Null? && !TrainingQuery(db.value)[i]["hour_of_day"].Null?
    ensures r.Frame? ==> |r.rows| == |TrainingQuery(db.value)|
    ensures r.CastFailed? ==> r.cause in {CastOfNull("day_of_week"), CastOfNull("hour_of_day")}
  {
    match db
    case None => NoDatabase
    case Some(d) =>
      var rows := TrainingQuery(d);
      if rows == [] then Frame([])
      else
        CastsSucceedIffStarted(rows);
        match CastColumn(rows, "day_of_week")
        case Raised(c) => CastFailed(c)
        case Done(withDay) =>
          match CastColumn(withDay, "hour_of_day")
          case Raised(c) => CastFailed(c)
          case Done(withHour) => Frame(withHour)
  }

  /** A query row after the casts: the same columns, the date parts integers in their ranges. */
  ghost predicate CastOf(cast: Row, row: Row) {
    (forall c :: c in cast <==> c in row)
    && (forall c :: c in row && c != "day_of_week" && c != "hour_of_day" ==> cast[c] == row[c])
    && "day_of_week" in cast && cast["day_of_week"].Int? && 0 <= cast["day_of_week"].i < 7
    && "hour_of_day" in cast && cast["hour_of_day"].Int? && 0 <= cast["hour_of_day"].i <= 23
  }

  lemma CastCell(v: Value, width: nat)
    requires v.Text? && |v.s| == width && 1 <= width <= 2 && AllDigits(v.s)
    ensures PyInt(v) == Done(Number(v.s))
  {
  }

  /** One query row after both casts. */
  lemma CastRow(row: Row, withDay: Row, cast: Row)
    requires QueryRow(row)
    requires PyInt(row["day_of_week"]).Done?
    requires withDay == row["day_of_week" := Int(PyInt(row["day_of_week"]).value)]
    requires PyInt(withDay["hour_of_day"]).Done?
    requires cast == withDay["hour_of_day" := Int(PyInt(withDay["hour_of_day"]).value)]
    ensures CastOf(cast, row)
  {
    var day, hour := row["day_of_week"], row["hour_of_day"];
    CastCell(day, 1);
    CastCell(hour, 2);
  }

  /**
   * Every row of a loaded frame is its query row with the weekday cast to an
   * integer from 0 (Sunday) to 6 and the hour to one from 0 to 23.
   */
  lemma {:induction false} LoadedRowsAreCastQueryRows(db: Database)
    requires GetTrainingData(Some(db)).Frame?
    ensures var rows := GetTrainingData(Some(db)).rows;
            forall i :: 0 <= i < |rows| ==> CastOf(rows[i], TrainingQuery(db)[i])
  {
    var query := TrainingQuery(db);
    if query != [] {
      var withDay := CastColumn(query, "day_of_week").value;
      var rows: seq<Row> := CastColumn(withDay, "hour_of_day").value;
      forall i | 0 <= i < |rows|
        ensures CastOf(rows[i], query[i])
      {
        assert QueryRow(query[i]);
        CastRow(query[i], withDay[i], rows[i]);
      }
    }
  }

  /** A completed task that was never started makes the load fail instead of yielding a frame. */
  lemma UnstartedTaskFailsTheLoad(db: Database, i: int)
    requires 0 <= i < |TrainingQuery(db)| && TrainingQuery(db)[i]["day_of_week"].Null?
    ensures GetTrainingData(Some(db)) == CastFailed(CastOfNull("day_of_week"))
  {
    assert QueryRow(TrainingQuery(db)[i]);
  }

  /** `X = df.drop(label)`, `y = df[label]`: features and target, row by row. */
  function SplitLabel(rows: seq<Row>): (r: (seq<Row>, seq<Value>))
    requires forall i :: 0 <= i < |rows| ==> Label in rows[i]
    ensures |r.0| == |rows| && |r.1| == |rows|
    ensures forall i :: 0 <= i < |rows| ==> Label !in r.0[i] && r.1[i] == rows[i][Label]
    ensures forall i :: 0 <= i < |rows| ==> r.0[i][Label := r.1[i]] == rows[i]
  {
    var x := seq(|rows|, i requires 0 <= i < |rows| => rows[i] - {Label});
    var y := seq(|rows|, i requires 0 <= i < |rows| => rows[i][Label]);
    assert forall i :: 0 <= i < |rows| ==> x[i][Label := y[i]] == rows[i];
    (x, y)
  }

  /** In a loaded frame every feature row holds exactly the eleven features, and every target is non-null. */
  lemma FeatureRowsHoldExactlyTheFeatures(db: Database)
    requires GetTrainingData(Some(db)).Frame?
    ensures var rows := GetTrainingData(Some(db)).rows;
            (forall i :: 0 <= i < |rows| ==> Label in rows[i])
            && var xy := SplitLabel(rows);
               (forall i :: 0 <= i < |rows| ==> (forall c :: c in xy.0[i] <==> c in Features()))
               && (forall i :: 0 <= i < |rows| ==> !xy.1[i].Null?)
  {
    LoadedRowsAreCastQueryRows(db);
    var query := TrainingQuery(db);
    var rows: seq<Row> := GetTrainingData(Some(db)).rows;
    forall i | 0 <= i < |rows|
      ensures Label in rows[i] && rows[i][Label] == query[i][Label]
      ensures forall c :: c in rows[i] <==> c in QueryColumns()
    {
      assert QueryRow(query[i]);
      assert CastOf(rows[i], query[i]);
    }
    FeaturePartition();
  }

  /** The saved model file: its content, if one was ever written. */
  class Registry {
    var artifact: Option<Model>

    constructor (artifact: Option<Model>)
      ensures this.artifact == artifact
    {
      this.artifact := artifact;
    }
  }

  /** How `train_model` ends. */
  datatype TrainOutcome = Skipped | Crashed(cause: Cause) | Trained(model: Model)

  /**
   * `train_model`: with no database or fewer than 50 rows nothing is trained
   * and nothing is written; a failure while loading or fitting propagates,
   * again writing nothing; otherwise the fitted model is saved and returned.
   * `fit` stands for the split, the fit and the evaluation of the pipeline.
   */
  method TrainModel(registry: Registry, db: Option<Database>, fit: (seq<Row>, seq<Value>) -> Outcome<Model>)
    returns (r: TrainOutcome)
    modifies registry
    ensures var data := GetTrainingData(db);
            if data.NoDatabase? || (data.Frame? && |data.rows| < MinTrainingRows) then r.Skipped?
            else if data.CastFailed? then r == Crashed(data.cause)
            else match fit(SplitLabel(data.rows).0, SplitLabel(data.rows).1)
                 case Raised(c) => r == Crashed(c)
                 case Done(m) => r == Trained(m)
    ensures r.Trained? ==> registry.artifact == Some(r.model)
    ensures !r.Trained? ==> registry.artifact == old(registry.artifact)
  {
    var data := GetTrainingData(db);
    if data.NoDatabase? || (data.Frame? && |data.rows| < MinTrainingRows) {
      return Skipped;
    }
    if data.CastFailed? {
      return Crashed(data.cause);
    }
    FeatureRowsHoldExactlyTheFeatures(db.value);
    var (x, y) := SplitLabel(data.rows);
    var fitted := fit(x, y);
    match fitted {
      case Raised(c) =>
        r := Crashed(c);
      case Done(m) =>
        registry.artifact := Some(m);
        r := Trained(m);
    }
  }
}
