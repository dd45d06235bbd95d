/**
 * The prediction request both web backends serve: the one-row frame built
 * from the request body by successive column assignments, and the reply
 * around `model.predict`.
 */
module Prediction {
  import opened Runtime
  import opened Calendar
  import opened Http
  import opened Pipeline

  /**
   * `datetime.strptime(day, '%Y-%m-%d').strftime('%w')`: the weekday of
   * the date as one digit, Sunday being 0. A non-text day is a TypeError,
   * text that is no such date a ValueError.
   */
  function ServedWeekday(day: Value): (r: Outcome<string>)
    ensures r.Done? <==> day.Text? && ParsePyDate(day.s).Some?
    ensures !day.Text? ==> r == Raised(NotADateString)
    ensures r.Done? ==> |r.value| == 1 && IsDigit(r.value[0])
                        && DigitValue(r.value[0]) == Weekday(ParsePyDate(day.s).value)
  {
    if !day.Text? then Raised(NotADateString)
    else match ParsePyDate(day.s)
      case None => Raised(MalformedDate(day.s))
      case Some(d) => Done([DigitChar(Weekday(d))])
  }

  /** A date written as YYYY-MM-DD is read back, and its weekday is the one the calendar gives. */
  lemma ServedWeekdayOfFormattedDate(d: Date)
    requires ValidDate(d)
    ensures ServedWeekday(Text(FormatDate(d))) == Done([DigitChar(Weekday(d))])
  {
    ParseFormatRoundTrip(d);
  }

  /** The served weekday agrees with the one SQLite's '%w' gives for the same date. */
  lemma ServedWeekdayMatchesSqlite(d: Date)
    requires ValidDate(d)
    ensures ServedWeekday(Text(FormatDate(d))).Done?
    ensures SqliteWeekday(FormatDate(d)) == Text(ServedWeekday(Text(FormatDate(d))).value)
  {
    ParseFormatRoundTrip(d);
    MonthKeyOfFormattedDate(d);
  }

  /** The columns the handlers assign over whatever the request carried. */
  const StampedColumns: seq<string> :=
    ["safety_alerts_triggered", "idling_time_min", "day_of_week", "hour_of_day",
     "operator_experience_level", "operator_id_str", "machine_id_str"]

  /** The operator and machine context the handler fills in. */
  datatype Context = Context(experienceLevel: string, operatorIdStr: string, machineIdStr: string)

  /** The columns the handlers assign, with the values they assign. */
  function Assigned(weekday: string, ctx: Context): (m: map<string, Value>)
    ensures forall c :: c in m <==> c in StampedColumns
  {
    map["safety_alerts_triggered" := Int(0), "idling_time_min" := Int(0),
        "day_of_week" := Text(weekday), "hour_of_day" := Int(8),
        "operator_experience_level" := Text(ctx.experienceLevel),
        "operator_id_str" := Text(ctx.operatorIdStr),
        "machine_id_str" := Text(ctx.machineIdStr)]
  }

  /** The values the handlers assign: alerts 0, idling 0, the weekday, hour 8 and the context. */
  lemma AssignedValues(weekday: string, ctx: Context)
    ensures Assigned(weekday, ctx)["safety_alerts_triggered"] == Int(0)
    ensures Assigned(weekday, ctx)["idling_time_min"] == Int(0)
    ensures Assigned(weekday, ctx)["day_of_week"] == Text(weekday)
    ensures Assigned(weekday, ctx)["hour_of_day"] == Int(8)
    ensures Assigned(weekday, ctx)["operator_experience_level"] == Text(ctx.experienceLevel)
    ensures Assigned(weekday, ctx)["operator_id_str"] == Text(ctx.operatorIdStr)
    ensures Assigned(weekday, ctx)["machine_id_str"] == Text(ctx.machineIdStr)
  {
  }

  /**
   * The successive column assignments over the request's own columns: each
   * assigned column takes its assigned value, every other column keeps the
   * request's.
   */
  function Stamp(data: map<string, Value>, weekday: string, ctx: Context): (frame: Row)
    ensures forall c :: c in frame <==> c in data || c in StampedColumns
    ensures forall c :: c in StampedColumns ==> frame[c] == Assigned(weekday, ctx)[c]
    ensures forall c :: c in data && c !in StampedColumns ==> frame[c] == data[c]
  {
    data + Assigned(weekday, ctx)
  }

  /**
   * `pd.DataFrame([data])` followed by the column assignments: alerts 0,
   * idling 0, the weekday of `day`, hour 8, then the context. Only reading
   * `day` can fail.
   */
  function AssembleFrame(data: map<string, Value>, ctx: Context): (r: Outcome<Row>)
    ensures "day" !in data ==> r == Raised(MissingKey("day"))
    ensures r.Done? <==> "day" in data && ServedWeekday(data["day"]).Done?
    ensures r.Raised? && "day" in data ==> r == Raised(ServedWeekday(data["day"]).cause)
    ensures r.Done? ==> r.value == Stamp(data, ServedWeekday(data["day"]).value, ctx)
  {
    if "day" !in data then Raised(MissingKey("day"))
    else match ServedWeekday(data["day"])
      case Raised(c) => Raised(c)
      case Done(w) => Done(Stamp(data, w, ctx))
  }

  /** The request fields that still reach the model: every feature the handlers do not assign. */
  const RequestFeatures: seq<string> := ["task_volume", "weather_factor", "material_density_factor", "task_type"]

  /** Two requests with the same day and the same request features. */
  predicate SameInputs(a: map<string, Value>, b: map<string, Value>) {
    ("day" in a <==> "day" in b) && ("day" in a ==> a["day"] == b["day"])
    && forall c :: c in RequestFeatures ==> (c in a <==> c in b) && (c in a ==> a[c] == b[c])
  }

  /**
   * `predict_time`: without a model 503 before anything else; a failure
   * while building the frame or predicting is a 400 carrying the exception;
   * otherwise the prediction rounded as Python rounds.
   */
  function PredictReply(model: Option<Model>, data: map<string, Value>, ctx: Context): (r: Reply<int>)
    ensures model.None? <==> r == Err(503, ModelNotLoaded)
    ensures r.Err? && model.Some? ==> r.code == 400 && r.reason.PredictionError?
    ensures r.Ok? <==>
              model.Some? && AssembleFrame(data, ctx).Done?
              && Predict(model.value, AssembleFrame(data, ctx).value).Done?
    ensures r.Ok? ==>
              r == Ok(200, RoundHalfEven(Predict(model.value, AssembleFrame(data, ctx).value).value))
    ensures model.Some? && "day" in data && data["day"].Text? && ParsePyDate(data["day"].s).None? ==>
              r == Err(400, PredictionError(MalformedDate(data["day"].s)))
  {
    match model
    case None => Err(503, ModelNotLoaded)
    case Some(m) =>
      match AssembleFrame(data, ctx)
      case Raised(c) => Err(400, PredictionError(c))
      case Done(frame) =>
        match Predict(m, frame)
        case Raised(c) => Err(400, PredictionError(c))
        case Done(x) => Ok(200, RoundHalfEven(x))
  }

  /**
   * Whatever the request says about alerts, idling, weekday, hour, operator
   * or machine is overwritten: two requests with the same day and the same
   * request features get the same answer.
   */
  lemma {:induction false} AssignedColumnsOverrideRequest(model: Option<Model>, a: map<string, Value>, b: map<string, Value>, ctx: Context)
    requires SameInputs(a, b)
    ensures PredictReply(model, a, ctx) == PredictReply(model, b, ctx)
  {
    if model.Some? && AssembleFrame(a, ctx).Done? {
      var fa, fb := AssembleFrame(a, ctx).value, AssembleFrame(b, ctx).value;
      forall c | c in Features()
        ensures (c in fa <==> c in fb) && (c in fa ==> fa[c] == fb[c])
      {
        if c !in StampedColumns {
          assert c in RequestFeatures;
        }
      }
      TransformIgnoresOtherColumns(model.value.encoder, fa, fb);
    }
  }

  /** The weekday column of a built frame holds the served weekday as text. */
  lemma FrameWeekday(data: map<string, Value>, ctx: Context)
    requires AssembleFrame(data, ctx).Done?
    ensures "day_of_week" in AssembleFrame(data, ctx).value
    ensures AssembleFrame(data, ctx).value["day_of_week"] == Text(ServedWeekday(data["day"]).value)
  {
    assert "day_of_week" in StampedColumns;
    AssignedValues(ServedWeekday(data["day"]).value, ctx);
  }

  /**
   * Training casts the weekday to an integer while serving assigns it as
   * text: in every served record the day_of_week block of a model trained
   * on integer weekdays is all zeros, whatever the day.
   */
  lemma ServedWeekdayIsIgnored(m: Model, data: map<string, Value>, ctx: Context)
    requires forall i :: 0 <= i < |m.encoder.vocabularies[4]| ==> m.encoder.vocabularies[4][i].Int?
    requires AssembleFrame(data, ctx).Done? && Transform(m.encoder, AssembleFrame(data, ctx).value).Done?
    ensures var x := Transform(m.encoder, AssembleFrame(data, ctx).value).value;
            var start := |NumericFeatures| + Width(m.encoder.vocabularies[..4]);
            && start + |m.encoder.vocabularies[4]| <= |x|
            && forall i :: start <= i < start + |m.encoder.vocabularies[4]| ==> x[i] == 0.0
  {
    var frame := AssembleFrame(data, ctx).value;
    FrameWeekday(data, ctx);
    assert CategoricalFeatures[4] == "day_of_week";
    TextWeekdayNeverMatches(m.encoder.vocabularies[4], ServedWeekday(data["day"]).value);
    ZeroBlock(m.encoder, frame, 4);
  }
}
