# Operator assistant: the rules around the store and the predictor

The operator assistant helps heavy-equipment operators and their supervisors.
It schedules tasks on machines and shows each operator's dashboard. It
classifies machine logs into safety alerts and predicts how long a task will
take. The system comes as several Flask backends over one SQLite database, a
scikit-learn training script and a Dash login front end. This project models
the deterministic rules those pieces apply. Tables are in-memory sequences of
records. The session user, the clock and the generated ids are parameters. The
fitted regressor is an uninterpreted function from the encoded feature vector
to minutes.

Modules:

- `Runtime` (runtime.dfy) holds the values a JSON body, an SQLite cell or a
  pandas cell can hold. It also holds Python equality between them, `round`
  (ties to even), `int()`, `float()` of a decimal text and `dict.get`, and
  how SQLite's TEXT and REAL columns store a bound value.
- `Calendar` (calendar.dfy) covers the proleptic Gregorian calendar, Python's
  `strptime('%Y-%m-%d')`, the `YYYY-MM-DD` formatting and weekday numbering
  with Sunday as 0. It also covers how SQLite's `strftime('%Y-%m' | '%w' |
  '%H', …)` reads a date text.
- `Order` (order.dfy) is SQLite's BINARY text order and `ORDER BY … DESC LIMIT 1`.
- `Http` (http.dfy) holds the JSON replies and the `login_required` decorator.
- `Store` (store.dfy) holds the users, machines, predefined-task and task tables. Its `TaskTable`
  class carries the owner-scoped updates and the insert. It also holds the
  dashboard query with its status-rank order.
- `Pipeline` (pipeline.dfy) is the feature schema and the fitted preprocessor:
  standard scaling, `OneHotEncoder(handle_unknown='ignore')`, other columns
  dropped.
- `Training` (training.dfy) is `get_training_data` and `train_model`, with the
  artifact held by a `Registry` object.
- `Prediction` (prediction.dfy) is the one-row frame both session backends
  build for `predict_time`, and the reply around `model.predict`.
- `CheckApp` (check_app.dfy) is the first backend: alert classification,
  the baseline estimate, the dropdown, the calendar and task creation.
- `FinalfinalApp` (finalfinal_app.dfy) is the session-scoped backend: login,
  the dashboard, the user-scoped calendar, prediction with the user's
  own context, and creation on the user's usual machine.
- `Final1App` (final1_app.dfy) is the earlier session backend. It has an
  unscoped calendar, a fixed prediction context and random assignment.
- `LoginPages` (login_pages.dfy) is the Dash front end: the login decision,
  page routing and logout.

## Model

| member | source | states |
|---|---|---|
| Runtime.RoundHalfEven | finalfinal/app.py:239 | the result is within 0.5 of the input, and on an exact tie it is even (Python `round`) |
| Runtime.RoundHalfEvenMonotone | check/app.py:88 | rounding never reverses the order of two numbers |
| Runtime.PyEqIsEquivalence | lastfinal/ml_predictor.py:83 | Python equality on cells is reflexive, symmetric and transitive, so category matching is well defined |
| Runtime.TruncateTowardZero | check/app.py:76 | `int()` of a float drops the fraction toward zero: the result is at most 1 away and on the input's side of zero |
| Runtime.PyInt | check/app.py:76 | `int()` keeps an integer, maps a bool to 0 or 1, refuses None, truncates a float toward zero (within 1 of it), and reads a text as an optionally signed run of digits |
| Runtime.Get | finalfinal/app.py:127-128 | `data.get(key)` is the key's value when present and None otherwise |
| Runtime.FirstMissing | finalfinal/app.py:276-277 | the first absent field is reported, and none exactly when all are present |
| Runtime.FirstNull | finalfinal/db.py:58-72 | the first NULL field is reported, and none exactly when none is NULL |
| Runtime.IntTextRoundTrip | finalfinal/db.py:60 | `int()` of the text an integer is stored as in a TEXT column gives the integer back |
| Runtime.TextAffinity | finalfinal/db.py:60-62 | a TEXT column keeps a text, stores an integer or a bool as text `int()` reads back to it, and has no text form for NULL or a float |
| Runtime.TextColumn | finalfinal/app.py:138-139 | a value written to a TEXT column becomes its text form where it has one and is otherwise kept; it is NULL exactly when the value is |
| Runtime.IntegerTextIsDecimal | lastfinal/ml_predictor.py:82 | a text `int()` reads is read by `float()` as the same number |
| Runtime.FractionRead | lastfinal/ml_predictor.py:82 | "2.5", "-.5" and "7." read as 2.5, -0.5 and 7.0 |
| Runtime.NonNumeralsRefused | lastfinal/ml_predictor.py:82 | ".", "1.2.3" and "abc" are not numbers |
| Runtime.RealColumn | finalfinal/db.py:63-64 | a value written to a REAL column becomes a float when it is a number or a numeric text, and is otherwise kept; it is NULL exactly when the value is |
| Runtime.RealColumnIdempotent | finalfinal/db.py:63-64 | what a REAL column holds is stored unchanged when written again |
| Calendar.DaysInMonth | finalfinal/app.py:223 | every month has 28 to 31 days, and December has 31 |
| Calendar.Weekday | finalfinal/app.py:223 | the `%w` weekday is a number from 0 to 6 |
| Calendar.NextDay | finalfinal/app.py:223 | the next day of a calendar date is again a calendar date |
| Calendar.NextDayAdvancesWeekday | finalfinal/app.py:223 | the day after has the next ordinal and the next weekday modulo 7 |
| Calendar.NextDayIsNextOrdinal | finalfinal/app.py:223 | consecutive dates have consecutive day counts, across month and year ends |
| Calendar.EpochIsThursday | finalfinal/app.py:223 | 1970-01-01 gets weekday 4 (Thursday, with Sunday 0), anchoring the numbering |
| Calendar.ParsePyDate | finalfinal/app.py:223 | whatever `strptime('%Y-%m-%d')` accepts is an existing date |
| Calendar.ParseFormatRoundTrip | final1/app.py:222 | formatting a date as `YYYY-MM-DD` and parsing it back gives the date |
| Calendar.UnpaddedFieldsAccepted | final1/app.py:222 | `strptime` also accepts unpadded month and day fields |
| Calendar.NonexistentDatesRefused | final1/app.py:222 | a nonexistent date (29 February 2023) and trailing digits are refused |
| Calendar.FormatDate | finalfinal/app.py:96 | `strftime('%Y-%m-%d')` of a date is ten characters |
| Calendar.SqliteParse | finalfinal/app.py:198 | SQLite reads only a date whose year is 0 to 9999 and whose month is 1 to 12 |
| Calendar.Normalize | finalfinal/app.py:198 | day overflow rolls into later months of the same year and keeps the day count |
| Calendar.SqliteWeekday | lastfinal/ml_predictor.py:35 | `strftime('%w', …)` is one digit below 7, or NULL |
| Calendar.SqliteHour | lastfinal/ml_predictor.py:36 | `strftime('%H', …)` is two digits up to 23, or NULL |
| Calendar.SqliteReadsFormattedDate | finalfinal/app.py:198 | SQLite reads a `YYYY-MM-DD` text as that date at midnight |
| Calendar.MonthKeyOfFormattedDate | finalfinal/app.py:198 | `strftime('%Y-%m', day)` of a formatted day is its first seven characters, and `%w` is its calendar weekday |
| Order.StrLtIrreflexive | finalfinal/app.py:112 | SQLite's text order is irreflexive |
| Order.StrLtTransitive | finalfinal/app.py:112 | SQLite's text order is transitive |
| Order.StrLtTotal | finalfinal/app.py:112 | any two different texts are ordered one way or the other |
| Order.KeyLtIrreflexive | finalfinal/app.py:259 | the lexicographic order on sort keys is irreflexive |
| Order.KeyLtTransitive | finalfinal/app.py:259 | the lexicographic order on sort keys is transitive |
| Order.KeyLtTotal | finalfinal/app.py:259 | two different sort keys are ordered one way or the other |
| Order.KeyNotLtTransitive | finalfinal/app.py:259 | "not after" is transitive on sort keys |
| Order.LatestBy | finalfinal/app.py:258-261 | `ORDER BY … DESC LIMIT 1` gives a row of the table, and nothing exactly when the table is empty |
| Order.LatestByIsMaximal | finalfinal/app.py:258-261 | no row of the table sorts after the one returned |
| Http.LoginRequired | finalfinal/app.py:42-50 | a request proceeds exactly when the session has a user; without one, a path under `/api/` gets 401 "Authentication required" and any other path is redirected (final1/app.py:44-52 is the same decorator) |
| Store.Find | finalfinal/app.py:110 | a lookup returns a row satisfying the condition, and nothing exactly when no row does |
| Store.Where | finalfinal/app.py:194-199 | a filter keeps exactly the rows satisfying the condition |
| Store.LatestDayTask | finalfinal/app.py:112 | the latest-day task is one of the user's tasks, with no later day among them, and exists exactly when the user has a task |
| Store.TaskTable.UpdateCycles | finalfinal/app.py:122-131 | only the rows whose id matches the request's `task_id` as SQLite compares a TEXT column with a parameter, and whose owner is the session user, take the new cycle count as the REAL column stores it; others are unchanged; a NULL count on a hit row is a NOT NULL failure that changes nothing (final1/app.py:125-134 is the same) |
| Store.TaskTable.UpdateStatus | finalfinal/app.py:133-142 | only the requested task of the session user takes the new status as the TEXT column stores it; all other rows are unchanged; a NULL status on a hit row changes nothing (final1/app.py:136-145 is the same) |
| Store.TaskTable.Insert | finalfinal/app.py:272-280 | the new row is appended and the old rows are kept |
| Store.NewTaskRow | finalfinal/app.py:272-279 | a row is built exactly when every copied field is present, non-null, and the task type and day have a text form; a missing field is a KeyError and a null one a NOT NULL failure; the row is 'Pending', belongs to the given user and machine, holds the TEXT forms of task type and day and the REAL forms of volume, weather and density, and the schema defaults elsewhere |
| Store.StatusRank | finalfinal/app.py:103 | 'In Progress' ranks 1, 'Pending' ranks 2, and every other status ranks 3 |
| Store.ListedBeforeTotal | finalfinal/app.py:103 | the dashboard order (status rank, then `created_at`) compares any two tasks |
| Store.ListedBeforeTransitive | finalfinal/app.py:103 | the dashboard order is transitive |
| Store.InsertInOrder | finalfinal/app.py:103 | inserting into a sorted list keeps it sorted and adds exactly the one task |
| Store.SortForDashboard | finalfinal/app.py:103 | the result is sorted by status rank then `created_at`, and is a permutation of the input |
| Store.TodaysTasks | finalfinal/app.py:98-104 | the dashboard lists exactly the user's tasks for today that have a task type, each as often as it occurs in the table, in dashboard order (final1/app.py:99-105 is the same query) |
| Store.DashboardLines | finalfinal/app.py:99-101 | one line per listed task, in order: its id, status, volume as target cycles, current cycles, its task type's name as title, and its machine |
| Pipeline.Features | lastfinal/ml_predictor.py:70-77 | there are 11 feature columns, exactly the numeric and categorical ones |
| Pipeline.FeaturePartition | lastfinal/ml_predictor.py:70-77 | the numeric and categorical lists are disjoint and neither holds the label |
| Pipeline.Divisor | lastfinal/ml_predictor.py:82 | the scaler never divides by zero, and it divides by the fitted scale whenever that is non-zero |
| Pipeline.OneHot | lastfinal/ml_predictor.py:83 | a block has one position per category, each 0 or 1 |
| Pipeline.SumOfSingleOne | lastfinal/ml_predictor.py:83 | a block with a single 1 and zeros elsewhere sums to 1 |
| Pipeline.OneHotSeen | lastfinal/ml_predictor.py:83 | a category seen in training sets exactly its own position to 1 |
| Pipeline.OneHotUnseen | lastfinal/ml_predictor.py:83 | an unseen category gives an all-zero block and no error |
| Pipeline.TextWeekdayNeverMatches | finalfinal/app.py:223 | the served weekday is text, and against integer weekday categories its block is all zero |
| Pipeline.FloatOf | lastfinal/ml_predictor.py:82 | `float()` of a cell: a number as itself, a text as its decimal value, NULL refused |
| Pipeline.IntegerTextScalesAsTheInteger | lastfinal/ml_predictor.py:82 | a numeric feature given as integer text ("100") is read as that integer |
| Pipeline.BlockAt | lastfinal/ml_predictor.py:83 | the k-th block of the side-by-side one-hot blocks starts after the widths of the blocks before it and is the k-th cell's encoding |
| Pipeline.FirstNonNumeric | lastfinal/ml_predictor.py:82 | the first numeric feature whose cell `float()` refuses is reported, and none exactly when `float()` reads every one |
| Pipeline.Transform | lastfinal/ml_predictor.py:80-86 | the encoding succeeds exactly when every feature is present and `float()` reads every numeric one; a missing column raises MissingColumn; the result is then the standardised numeric cells followed by the one-hot blocks |
| Pipeline.Encoded | lastfinal/ml_predictor.py:80-86 | the encoded record has 6 plus the vocabulary sizes positions; position k of the numeric part is (value - mean) / scale of the k-th numeric feature; the rest is the one-hot blocks |
| Pipeline.EncodedBlock | lastfinal/ml_predictor.py:83 | in an encoded record, the block of the k-th categorical feature is the one-hot encoding of its cell |
| Pipeline.ZeroBlock | lastfinal/ml_predictor.py:83 | a cell whose one-hot encoding is all zeros leaves its whole block of the encoded record zero |
| Pipeline.TransformIgnoresOtherColumns | lastfinal/ml_predictor.py:85 | `remainder='drop'`: records that agree on the 11 features are encoded alike |
| Pipeline.LabelIsNotAnInput | lastfinal/ml_predictor.py:66-67 | removing the label never changes the encoding |
| Pipeline.Predict | lastfinal/ml_predictor.py:89-92 | the prediction is the regressor applied to the encoded record, and fails exactly when the encoding fails |
| Training.JoinedRow | lastfinal/ml_predictor.py:24-43 | each joined row has the query's twelve columns, a `%w` weekday and `%H` hour, and the task's duration as label |
| Training.QueryRows | lastfinal/ml_predictor.py:38-43 | every row the query returns has the query's columns, and there are no more rows than tasks |
| Training.QueryRowsComplete | lastfinal/ml_predictor.py:38-42 | every completed task with a duration whose type, user and machine exist has its joined row in the result |
| Training.QueryRowsSound | lastfinal/ml_predictor.py:38-42 | every row of the result is the joined row of such a task |
| Training.QueryRowsCount | lastfinal/ml_predictor.py:38-44 | the result has exactly one row per selected task, duplicates included |
| Training.CastColumn | lastfinal/ml_predictor.py:51-52 | `astype(int)` succeeds exactly when no cell of the column is NULL, and then holds each cell's integer |
| Training.DatePartCasts | lastfinal/ml_predictor.py:51-52 | a `%w` or `%H` cell casts to an integer exactly when it is not NULL |
| Training.CastsSucceedIffStarted | lastfinal/ml_predictor.py:51-52 | over query rows, the weekday cast succeeds exactly when no weekday is NULL, and the hour cast after it exactly when no hour is NULL |
| Training.GetTrainingData | lastfinal/ml_predictor.py:16-56 | a missing database gives None; an empty result is returned before casting; a frame is loaded exactly when no query row has a NULL weekday or hour, and then has one row per query row; otherwise the weekday or hour cast fails |
| Training.LoadedRowsAreCastQueryRows | lastfinal/ml_predictor.py:47-52 | a loaded frame holds each query row with the weekday (0 to 6) and hour (0 to 23) cast to integers and every other column as queried |
| Training.UnstartedTaskFailsTheLoad | lastfinal/ml_predictor.py:51 | a selected task with no `started_at` makes the weekday cast fail |
| Training.SplitLabel | lastfinal/ml_predictor.py:66-67 | the label is removed from every feature row and is the sole target, and putting it back gives the row |
| Training.FeatureRowsHoldExactlyTheFeatures | lastfinal/ml_predictor.py:66-77 | after the split, each row's columns are exactly the 11 features |
| Training.TrainModel | lastfinal/ml_predictor.py:58-109 | no database or fewer than 50 rows means no training and no artifact; the artifact is replaced only when fitting succeeds |
| CheckApp.AlertName | check/app.py:110-117 | the four alert names are distinct |
| CheckApp.Classify | check/app.py:110-117 | an unfastened seatbelt gives 'Seatbelt' whatever else holds; otherwise tilt above 15.0 gives 'Tilt'; otherwise visibility below 50 gives 'Visibility'; otherwise 'None' |
| CheckApp.BoundariesAreSafe | check/app.py:112-115 | tilt exactly 15.0 with visibility exactly 50 is no alert |
| CheckApp.WorseReadingNeverClearsAlert | check/app.py:110-117 | a steeper tilt or lower visibility never clears an alert |
| CheckApp.GetLatestStatus | check/app.py:97-119 | an unknown machine is a 500 error; a machine with no logs gives 404; a reply is 200 exactly when the machine has a log, and then it is one of its logs with only the alert field set |
| CheckApp.ReportedLogIsLatest | check/app.py:102 | the reported log belongs to the machine, and no log of that machine is later |
| CheckApp.BaselineMinutes | check/app.py:86-88 | the minutes are within 0.5 of target over rate times 60, and an exact tie goes to the even number (Python `round`) |
| CheckApp.BaselineMonotone | check/app.py:86-88 | for a positive rate, more cycles never take fewer minutes |
| CheckApp.TargetCycles | check/app.py:76 | an absent target defaults to 100 |
| CheckApp.PredictTaskTime | check/app.py:67-93 | a target `int()` cannot read is a 500 error; an unknown task type or a zero rate is a 400 error; the reply is 200 exactly when the target reads and the type has a non-zero rate, and it is then the rounded baseline |
| CheckApp.DefaultTargetIsHundred | check/app.py:76-88 | with no target given, the estimate is that of 100 cycles |
| CheckApp.PredefinedDropdown | check/app.py:20-26 | the dropdown lists exactly the task types whose category is not 'Checklist' |
| CheckApp.TasksForMonth | check/app.py:28-40 | each entry is the id, day, status and type name of a task of the month with a known type, and every such task, whoever it belongs to, has its entry |
| CheckApp.DefaultMonthHoldsToday | check/app.py:31 | with no month given, the current month is used, and a task for today is listed |
| CheckApp.NewScheduledTask | check/app.py:42-60 | a row is built exactly when both tags match a row and the task type and day have a text form; the new task is 'Pending', its user and machine are the rows with the requested tags, its type and day are their TEXT forms; a missing key or an unknown operator is an error |
| CheckApp.Schedule.CreateTask | check/app.py:42-63 | on success, exactly that row is appended; on an error the table is unchanged |
| Prediction.ServedWeekday | finalfinal/app.py:223 | the weekday succeeds exactly for a text that parses as a date, and is that date's weekday as one digit |
| Prediction.ServedWeekdayOfFormattedDate | final1/app.py:222 | a formatted date gives its calendar weekday |
| Prediction.ServedWeekdayMatchesSqlite | finalfinal/app.py:223 | the served weekday is the same text SQLite's `%w` gives for the date |
| Prediction.Assigned | finalfinal/app.py:221-236 | the handler assigns exactly the seven context columns |
| Prediction.AssignedValues | finalfinal/app.py:221-236 | alerts 0, idling 0, the weekday, hour 8 and the operator and machine context |
| Prediction.Stamp | finalfinal/app.py:219-236 | the frame holds the request's columns plus the assigned ones, the assigned values win, and other columns are kept |
| Prediction.AssembleFrame | finalfinal/app.py:219-223 | no `day` is a KeyError; the frame is built exactly when the day parses; it is then the stamped request |
| Prediction.PredictReply | finalfinal/app.py:213-242 | no model gives 503 before any other work; any failure is a 400 prediction error (a malformed day among them); the reply is 200 exactly when the frame is built and the model predicts, and it is then the rounded prediction |
| Prediction.AssignedColumnsOverrideRequest | finalfinal/app.py:219-224 | requests that differ only in overwritten columns get the same answer |
| Prediction.FrameWeekday | finalfinal/app.py:223 | a built frame's `day_of_week` is the served weekday as text |
| Prediction.ServedWeekdayIsIgnored | finalfinal/app.py:223 | against a model whose weekday categories are integers, as training casts them (lastfinal/ml_predictor.py:51), the served record's weekday block is all zeros whatever the day |
| FinalfinalApp.Login | finalfinal/app.py:53-67 | a login succeeds only with the user whose tag equals the given one as SQLite compares it and whose password equals the given one; otherwise 401 "Invalid credentials" |
| FinalfinalApp.LoginAcceptsExactlyMatchingCredentials | finalfinal/app.py:60-62 | with unique tags, login succeeds exactly when some user has both the tag and the password |
| FinalfinalApp.DashboardMachine | finalfinal/app.py:106-114 | the first listed task's machine when it names one; otherwise exactly the machine of the user's latest-day task, and none when the user has no task |
| FinalfinalApp.GetDashboardData | finalfinal/app.py:92-120 | the dashboard's lines are exactly the lines of today's listed tasks in dashboard order, and its machine is the one the rule picks |
| FinalfinalApp.TasksForMonth | finalfinal/app.py:185-201 | only the session user's tasks of the requested month are listed, all of them; no month lists nothing |
| FinalfinalApp.TaskListedUnderItsMonth | finalfinal/app.py:198 | a user's task with a formatted day is listed under its own month |
| FinalfinalApp.LastMachineTag | finalfinal/app.py:231 | the tag of the machine on the user's latest-day joined task, and none exactly when no task of the user has a machine |
| FinalfinalApp.ContextFor | finalfinal/app.py:228-236 | the user's experience and tag, or 'Mid' and 'OP-UNKNOWN' when the user row is missing; the last machine's tag, or 'EXC-UNKNOWN' |
| FinalfinalApp.PredictTime | finalfinal/app.py:211-242 | the prediction reply with the session user's context: no model gives 503, a failure 400, and 200 exactly when the frame is built and the model predicts |
| FinalfinalApp.PreferredMachine | finalfinal/app.py:258-264 | a returned machine is non-empty and comes from a latest task of the user by day then `created_at`; a user with no task has none; a user whose tasks all name a machine gets one; none for a user with tasks means a latest one names no machine |
| FinalfinalApp.CreateTask | finalfinal/app.py:244-284 | no preferred machine and no machines gives 500; otherwise a 'Pending' task of the session user on the preferred or some existing machine is appended; otherwise nothing changes |
| Final1App.DashboardMachine | final1/app.py:107-115 | the first listed task's machine when there are tasks today, else the latest-day task's |
| Final1App.TasksForMonth | final1/app.py:188-200 | every task of the month is listed whoever owns it; no month lists nothing |
| Final1App.OtherUsersTasksListed | final1/app.py:193-198 | another user's task is listed under its month too |
| Final1App.PredictTime | final1/app.py:210-231 | no model gives 503; otherwise the frame uses 'Mid', 'OP1002' and 'EXC002' whatever the session; the reply is 200 exactly when the frame is built and the model predicts, and it is then the rounded prediction |
| Final1App.CreateTask | final1/app.py:233-261 | an empty users or machines table gives 500; otherwise a 'Pending' task on some existing user and machine is appended with the request's fields |
| LoginPages.DisplayPage | main.py:57-63 | "/supervisor" shows the supervisor page, "/employee" the employee page, anything else the login page |
| LoginPages.ValidateLogin | main.py:75-89 | no click, no update; an empty field asks to fill all fields; navigation happens exactly when the account exists and password and role match, to the role's home with no message; anything else is "Invalid credentials or role mismatch." |
| LoginPages.LoginLeadsToRolePage | main.py:57-63 | a successful login lands on the layout of the account's role |
| LoginPages.KnownAccounts | main.py:7-10 | admin enters as Supervisor and employee1 as Employee; admin as Employee is refused |
| LoginPages.Logout | main.py:97-98 | logging out returns to a path that shows the login page, from the supervisor page and likewise from the employee page (main.py:106-107) |

## Left out

- Flask, SQLite and joblib I/O: connections, commits, templates, CORS, sessions and model files. Tables are sequences. The session user, the model and the database are parameters or fields.
- The page routes (`/`, `/dashboard`, `/scheduler`, `/login` GET, `/logout`) only render or redirect.
- `report_issue` (finalfinal/app.py:144-157, final1/app.py:147-159) writes to an issue table that no modelled operation reads.
- `get_machine_status` and `get_training_materials` in the session backends are plain lookups with no rule beyond a 404.
- `get_predefined_tasks` in the session backends returns the table `ORDER BY name`; the model has no ordering for it.
- Floating point: all arithmetic is on exact reals. The division and rounding in check/app.py:86-88, the standard scaling at lastfinal/ml_predictor.py:82 and the forest are IEEE doubles in the source, so a result within one rounding error of a .5 tie can round differently.
- Training.TrainModel: the StandardScaler fit, the forest fit, `train_test_split` and the MAE are floating-point library work. They are one `fit` parameter that returns a model or raises.
- Training.QueryRows: the rows' order is not stated, only their count and which joined rows occur. The order matters only to `train_test_split`, which is not modelled.
- Pipeline.Transform: NaN is not modelled. pandas would carry a NULL numeric cell as NaN; here `float()` refuses it and the encoding raises.
- Pipeline.FloatOf: `float()` of a text reads only an optional sign, digits and at most one point. Exponents, surrounding whitespace, underscores, `inf` and `nan` are not modelled. The same holds for the REAL column conversion (Runtime.RealColumn).
- Runtime.PyInt: `int()` of text accepts only plain ASCII digits with an optional sign. Whitespace and underscores are not modelled.
- Store.NewTaskRow: a float bound to the TEXT columns `predefined_task_id` or `day` is refused (NotText). SQLite would store its text rendering, which this model does not compute.
- CheckApp.NewScheduledTask: a float given as `predefined_task_id` or `day` is refused in the same way.
- Store.TaskTable.UpdateStatus: a float status is kept as a float instead of its text rendering.
- Calendar.ParsePyDate: only ASCII digits are read. `strptime` also takes other Unicode decimal digits.
- Calendar.SqliteParse: only the date, time and `T` forms the stored values use are modelled. Time-zone suffixes and Julian-day numbers are not. Hour 24, which SQLite accepts, is refused; `isoformat()` never writes it.
- Store.Find: a lookup returns the first matching row in table order. The model does not require the PRIMARY KEY and UNIQUE columns of the schema (finalfinal/db.py:35-59) to hold distinct values. FinalfinalApp.LoginAcceptsExactlyMatchingCredentials assumes unique tags explicitly.
- Order.LatestBy: ties under `ORDER BY … DESC` return the first maximal row. SQLite leaves the tie order unspecified.
- FinalfinalApp.PreferredMachine: when several of the user's tasks tie for latest by day and `created_at`, the contract does not say which of them decides. It says that a user whose tasks all name a machine gets the machine of a latest task, and that getting none means some latest task names no machine.
- `uuid.uuid4()`, `datetime.now()` and `datetime.today()` are parameters. `random.choice` is a nondeterministic choice of some existing row.
- The Dash layouts (main.py:17-50) and all logging are left out.
