/**
 * The duration predictor's feature schema and what its preprocessing does to
 * a record: a ColumnTransformer that standardises six numeric columns, one-hot
 * encodes five categorical ones with unknown categories ignored, and drops
 * every other column. The fitted regressor is an uninterpreted function from
 * the encoded vector to a number of minutes.
 */
module Pipeline {
  import opened Runtime

  /** A record as pandas sees it: column name to cell. */
  type Row = map<string, Value>

  const Label: string := "actual_duration_minutes"

  const NumericFeatures: seq<string> :=
    ["task_volume", "weather_factor", "material_density_factor",
     "safety_alerts_triggered", "idling_time_min", "hour_of_day"]

  const CategoricalFeatures: seq<string> :=
    ["task_type", "operator_experience_level", "machine_id_str", "operator_id_str", "day_of_week"]

  /** Every column the preprocessor reads, numeric ones first. */
  function Features(): (f: seq<string>)
    ensures |f| == 11
    ensures forall c :: c in f <==> c in NumericFeatures || c in CategoricalFeatures
  {
    NumericFeatures + CategoricalFeatures
  }

  /** The two feature lists are disjoint, and neither contains the label. */
  lemma FeaturePartition()
    ensures forall c :: c in NumericFeatures ==> c !in CategoricalFeatures
    ensures Label !in Features()
  {
  }

  /** A fitted StandardScaler for one column. */
  datatype Scaler = Scaler(mean: real, scale: real)

  /** StandardScaler never divides by a zero scale: a constant column keeps scale 1. */
  function Divisor(s: Scaler): (d: real)
    ensures d != 0.0
    ensures s.scale != 0.0 ==> d == s.scale
  {
    if s.scale == 0.0 then 1.0 else s.scale
  }

  /** The fitted preprocessor: a scaler per numeric feature, the categories seen per categorical feature. */
  datatype Encoder = Encoder(scalers: seq<Scaler>, vocabularies: seq<seq<Value>>)

  predicate Shaped(e: Encoder) {
    |e.scalers| == |NumericFeatures| && |e.vocabularies| == |CategoricalFeatures|
  }

  /** A fitted pipeline: the preprocessor and the regressor's prediction function. */
  datatype Bundle = Bundle(encoder: Encoder, forest: seq<real> -> real)

  type Model = b: Bundle | Shaped(b.encoder)
    witness Bundle(Encoder(seq(6, i => Scaler(0.0, 1.0)), seq(5, i => [])), (x: seq<real>) => 0.0)

  /** The categories of a fitted encoder are distinct under Python equality. */
  predicate Distinct(vocab: seq<Value>) {
    forall i, j :: 0 <= i < j < |vocab| ==> !PyEq(vocab[i], vocab[j])
  }

  /** OneHotEncoder(handle_unknown='ignore') on one cell: 1 where the category equals it, else 0. */
  function OneHot(vocab: seq<Value>, v: Value): (r: seq<real>)
    ensures |r| == |vocab|
    ensures forall i :: 0 <= i < |r| ==> r[i] == 1.0 || r[i] == 0.0
  {
    seq(|vocab|, i requires 0 <= i < |vocab| => if PyEq(vocab[i], v) then 1.0 else 0.0)
  }

  function Sum(s: seq<real>): real {
    if s == [] then 0.0 else s[0] + Sum(s[1..])
  }

  lemma {:induction false} SumOfZeros(s: seq<real>)
    requires forall i :: 0 <= i < |s| ==> s[i] == 0.0
    ensures Sum(s) == 0.0
  {
    if s != [] {
      SumOfZeros(s[1..]);
    }
  }

  lemma {:induction false} SumOfSingleOne(s: seq<real>, k: int)
    requires 0 <= k < |s| && s[k] == 1.0
    requires forall i :: 0 <= i < |s| && i != k ==> s[i] == 0.0
    ensures Sum(s) == 1.0
  {
    if k == 0 {
      SumOfZeros(s[1..]);
    } else {
      SumOfSingleOne(s[1..], k - 1);
    }
  }

  /** A category seen in training lights exactly one position of its block. */
  lemma OneHotSeen(vocab: seq<Value>, v: Value, k: int)
    requires Distinct(vocab)
    requires 0 <= k < |vocab| && PyEq(vocab[k], v)
    ensures OneHot(vocab, v)[k] == 1.0
    ensures forall i :: 0 <= i < |vocab| && i != k ==> OneHot(vocab, v)[i] == 0.0
    ensures Sum(OneHot(vocab, v)) == 1.0
  {
    var r := OneHot(vocab, v);
    forall i | 0 <= i < |vocab| && i != k
      ensures r[i] == 0.0
    {
      PyEqIsEquivalence(vocab[i], v, vocab[k]);
      PyEqIsEquivalence(vocab[k], v, vocab[i]);
      PyEqIsEquivalence(v, vocab[k], vocab[i]);
    }
    SumOfSingleOne(r, k);
  }

  /** An unseen category is ignored: its block is all zeros, and nothing is raised. */
  lemma OneHotUnseen(vocab: seq<Value>, v: Value)
    requires forall i :: 0 <= i < |vocab| ==> !PyEq(vocab[i], v)
    ensures forall i :: 0 <= i < |vocab| ==> OneHot(vocab, v)[i] == 0.0
    ensures Sum(OneHot(vocab, v)) == 0.0
  {
    SumOfZeros(OneHot(vocab, v));
  }

  /**
   * The serving handlers put the weekday in as text ('%w' gives '0'..'6'),
   * while training casts it to an integer. Python never finds a text equal to
   * a number, so against integer categories the weekday block is always zero.
   */
  lemma TextWeekdayNeverMatches(vocab: seq<Value>, weekday: string)
    requires forall i :: 0 <= i < |vocab| ==> vocab[i].Int?
    ensures forall i :: 0 <= i < |vocab| ==> OneHot(vocab, Text(weekday))[i] == 0.0
    ensures Sum(OneHot(vocab, Text(weekday))) == 0.0
  {
    OneHotUnseen(vocab, Text(weekday));
  }

  /**
   * The float the scaler's input validation makes of a cell: a number as it
   * is, a text through `float()`, and nothing for a missing value.
   */
  function FloatOf(v: Value): (r: Option<real>)
    ensures IsNumber(v) ==> r == Some(AsReal(v))
    ensures v.Text? ==> r == DecimalValue(v.s)
    ensures v.Null? ==> r.None?
  {
    match v
    case Null => None
    case Text(s) => DecimalValue(s)
    case _ => Some(AsReal(v))
  }

  /** A text holding an integer is scaled as that integer. */
  lemma IntegerTextScalesAsTheInteger(s: string)
    requires IntOfText(s).Done?
    ensures FloatOf(Text(s)) == FloatOf(Int(IntOfText(s).value))
  {
    IntegerTextIsDecimal(s);
  }

  /** The total width of the one-hot blocks. */
  function Width(vocabs: seq<seq<Value>>): nat {
    if vocabs == [] then 0 else |vocabs[0]| + Width(vocabs[1..])
  }

  /** The one-hot blocks of the categorical cells, side by side. */
  function Blocks(vocabs: seq<seq<Value>>, cells: seq<Value>): (r: seq<real>)
    requires |vocabs| == |cells|
    ensures |r| == Width(vocabs)
  {
    if vocabs == [] then [] else OneHot(vocabs[0], cells[0]) + Blocks(vocabs[1..], cells[1..])
  }

  lemma SliceAfter(a: seq<real>, b: seq<real>, i: int, j: int)
    requires 0 <= i <= j <= |b|
    ensures (a + b)[|a| + i..|a| + j] == b[i..j]
  {
  }

  lemma WidthOfPrefix(vocabs: seq<seq<Value>>, k: int)
    requires 0 < k <= |vocabs|
    ensures Width(vocabs[..k]) == |vocabs[0]| + Width(vocabs[1..][..k - 1])
  {
    assert vocabs[..k][1..] == vocabs[1..][..k - 1];
  }

  /** The `k`-th block starts where the blocks before it end, and encodes the `k`-th cell. */
  lemma {:induction false} BlockAt(vocabs: seq<seq<Value>>, cells: seq<Value>, k: int)
    requires |vocabs| == |cells| && 0 <= k < |vocabs|
    ensures Width(vocabs[..k]) + |vocabs[k]| <= Width(vocabs)
    ensures Blocks(vocabs, cells)[Width(vocabs[..k])..Width(vocabs[..k]) + |vocabs[k]|] == OneHot(vocabs[k], cells[k])
  {
    var head := OneHot(vocabs[0], cells[0]);
    var rest := Blocks(vocabs[1..], cells[1..]);
    assert Blocks(vocabs, cells) == head + rest;
    if k == 0 {
      assert vocabs[..0] == [];
      SliceAfter([], head + rest, 0, |head|);
    } else {
      BlockAt(vocabs[1..], cells[1..], k - 1);
      WidthOfPrefix(vocabs, k);
      var off := Width(vocabs[1..][..k - 1]);
      SliceAfter(head, rest, off, off + |vocabs[k]|);
    }
  }

  /** The first of `columns` whose cell has no float value, if any. */
  function FirstNonNumeric(columns: seq<string>, row: Row): (r: Option<string>)
    requires forall c :: c in columns ==> c in row
    ensures r.None? <==> forall c :: c in columns ==> FloatOf(row[c]).Some?
    ensures r.Some? ==> r.value in columns && FloatOf(row[r.value]).None?
  {
    if columns == [] then None
    else if FloatOf(row[columns[0]]).None? then Some(columns[0])
    else FirstNonNumeric(columns[1..], row)
  }

  /** The standardised numeric cells. */
  function Scaled(e: Encoder, row: Row): (r: seq<real>)
    requires Shaped(e)
    requires forall c :: c in NumericFeatures ==> c in row && FloatOf(row[c]).Some?
    ensures |r| == |NumericFeatures|
  {
    seq(|NumericFeatures|, k requires 0 <= k < |NumericFeatures| =>
      (FloatOf(row[NumericFeatures[k]]).value - e.scalers[k].mean) / Divisor(e.scalers[k]))
  }

  /** The categorical cells, in feature order. */
  function Cells(row: Row): (r: seq<Value>)
    requires forall c :: c in CategoricalFeatures ==> c in row
    ensures |r| == |CategoricalFeatures|
  {
    seq(|CategoricalFeatures|, k requires 0 <= k < |CategoricalFeatures| => row[CategoricalFeatures[k]])
  }

  lemma AfterPrefix(a: seq<real>, b: seq<real>)
    ensures (a + b)[|a|..] == b
  {
  }

  /** A record holding every feature holds each numeric and each categorical feature. */
  lemma FeaturesPresent(row: Row)
    requires forall c :: c in Features() ==> c in row
    ensures forall c :: c in NumericFeatures ==> c in row
    ensures forall c :: c in CategoricalFeatures ==> c in row
  {
  }

  /** The standardised numeric cells followed by the one-hot blocks, for a record that has every feature. */
  function Encoded(e: Encoder, row: Row): (x: seq<real>)
    requires Shaped(e)
    requires forall c :: c in NumericFeatures ==> c in row && FloatOf(row[c]).Some?
    requires forall c :: c in CategoricalFeatures ==> c in row
    ensures |x| == |NumericFeatures| + Width(e.vocabularies)
    ensures forall k :: 0 <= k < |NumericFeatures| ==>
              x[k] == (FloatOf(row[NumericFeatures[k]]).value - e.scalers[k].mean) / Divisor(e.scalers[k])
    ensures x[|NumericFeatures|..] == Blocks(e.vocabularies, Cells(row))
  {
    var scaled, blocks := Scaled(e, row), Blocks(e.vocabularies, Cells(row));
    AfterPrefix(scaled, blocks);
    scaled + blocks
  }

  /**
   * The preprocessor's output for one record: the standardised numeric
   * cells followed by the one-hot blocks. A feature column the record lacks,
   * or a numeric feature whose cell `float()` refuses, raises.
   */
  function Transform(e: Encoder, row: Row): (r: Outcome<seq<real>>)
    requires Shaped(e)
    ensures r.Done? <==> (forall c :: c in Features() ==> c in row)
                         && (forall c :: c in NumericFeatures ==> c in row && FloatOf(row[c]).Some?)
    ensures r.Raised? && (exists c :: c in Features() && c !in row) ==> r.cause.MissingColumn?
    ensures r.Done? ==> (forall c :: c in CategoricalFeatures ==> c in row) && r.value == Encoded(e, row)
  {
    match FirstMissing(Features(), row)
    case Some(c) => Raised(MissingColumn(c))
    case None =>
      FeaturesPresent(row);
      match FirstNonNumeric(NumericFeatures, row)
      case Some(c) => Raised(NotNumeric(c))
      case None => Done(Encoded(e, row))
  }

  /**
   * The block of the `k`-th categorical feature in an encoded record: the
   * one-hot encoding of that feature's cell, placed after the numeric cells
   * and the blocks before it.
   */
  lemma EncodedBlock(e: Encoder, row: Row, k: int)
    requires Shaped(e) && Transform(e, row).Done?
    requires 0 <= k < |CategoricalFeatures|
    ensures var start := |NumericFeatures| + Width(e.vocabularies[..k]);
            && start + |e.vocabularies[k]| <= |Transform(e, row).value|
            && Transform(e, row).value[start..start + |e.vocabularies[k]|]
               == OneHot(e.vocabularies[k], row[CategoricalFeatures[k]])
  {
    var x, cells := Transform(e, row).value, Cells(row);
    var n, start, w := |NumericFeatures|, Width(e.vocabularies[..k]), |e.vocabularies[k]|;
    assert x[n..] == Blocks(e.vocabularies, cells);
    assert cells[k] == row[CategoricalFeatures[k]];
    BlockAt(e.vocabularies, cells, k);
    SliceOfTail(x, n, start, start + w);
  }

  lemma SliceOfTail(x: seq<real>, n: int, i: int, j: int)
    requires 0 <= n && 0 <= i <= j && n + j <= |x|
    ensures x[n + i..n + j] == x[n..][i..j]
  {
  }

  /** A cell whose one-hot encoding is all zeros leaves its whole block of the encoded record zero. */
  lemma ZeroBlock(e: Encoder, row: Row, k: int)
    requires Shaped(e) && Transform(e, row).Done?
    requires 0 <= k < |CategoricalFeatures|
    requires forall i :: 0 <= i < |e.vocabularies[k]| ==> OneHot(e.vocabularies[k], row[CategoricalFeatures[k]])[i] == 0.0
    ensures var start := |NumericFeatures| + Width(e.vocabularies[..k]);
            && start + |e.vocabularies[k]| <= |Transform(e, row).value|
            && forall i :: start <= i < start + |e.vocabularies[k]| ==> Transform(e, row).value[i] == 0.0
  {
    EncodedBlock(e, row, k);
    ZeroSlice(Transform(e, row).value, |NumericFeatures| + Width(e.vocabularies[..k]),
              OneHot(e.vocabularies[k], row[CategoricalFeatures[k]]));
  }

  lemma ZeroSlice(x: seq<real>, start: nat, z: seq<real>)
    requires start + |z| <= |x| && x[start..start + |z|] == z
    requires forall i :: 0 <= i < |z| ==> z[i] == 0.0
    ensures forall i :: start <= i < start + |z| ==> x[i] == 0.0
  {
    forall i | start <= i < start + |z| ensures x[i] == 0.0 {
      assert x[i] == z[i - start];
    }
  }

  /** Two records that agree on every feature column are transformed alike: other columns are dropped. */
  predicate AgreeOnFeatures(a: Row, b: Row) {
    forall c :: c in Features() ==> (c in a <==> c in b) && (c in a ==> a[c] == b[c])
  }

  lemma {:induction false} FirstMissingAgrees(columns: seq<string>, a: Row, b: Row)
    requires forall c :: c in columns ==> (c in a <==> c in b)
    ensures FirstMissing(columns, a) == FirstMissing(columns, b)
  {
    if columns != [] {
      FirstMissingAgrees(columns[1..], a, b);
    }
  }

  lemma {:induction false} FirstNonNumericAgrees(columns: seq<string>, a: Row, b: Row)
    requires forall c :: c in columns ==> c in a && c in b && a[c] == b[c]
    ensures FirstNonNumeric(columns, a) == FirstNonNumeric(columns, b)
  {
    if columns != [] {
      FirstNonNumericAgrees(columns[1..], a, b);
    }
  }

  lemma AgreeOnParts(a: Row, b: Row)
    requires AgreeOnFeatures(a, b)
    ensures forall c :: c in NumericFeatures ==> (c in a <==> c in b) && (c in a ==> a[c] == b[c])
    ensures forall c :: c in CategoricalFeatures ==> (c in a <==> c in b) && (c in a ==> a[c] == b[c])
  {
    forall c | c in NumericFeatures || c in CategoricalFeatures
      ensures (c in a <==> c in b) && (c in a ==> a[c] == b[c])
    {
      assert c in Features();
    }
  }

  lemma ScaledAgrees(e: Encoder, a: Row, b: Row)
    requires Shaped(e)
    requires forall c :: c in NumericFeatures ==> c in a && c in b && a[c] == b[c] && FloatOf(a[c]).Some?
    ensures Scaled(e, a) == Scaled(e, b)
  {
    var sa, sb := Scaled(e, a), Scaled(e, b);
    forall k | 0 <= k < |NumericFeatures| ensures sa[k] == sb[k] {
      var c := NumericFeatures[k];
      assert c in NumericFeatures;
      assert a[c] == b[c];
    }
  }

  lemma CellsAgree(a: Row, b: Row)
    requires forall c :: c in CategoricalFeatures ==> c in a && c in b && a[c] == b[c]
    ensures Cells(a) == Cells(b)
  {
    forall k | 0 <= k < |CategoricalFeatures| ensures Cells(a)[k] == Cells(b)[k] {
      assert CategoricalFeatures[k] in CategoricalFeatures;
    }
  }

  lemma EncodedAgrees(e: Encoder, a: Row, b: Row)
    requires Shaped(e)
    requires forall c :: c in NumericFeatures ==> c in a && c in b && a[c] == b[c] && FloatOf(a[c]).Some?
    requires forall c :: c in CategoricalFeatures ==> c in a && c in b && a[c] == b[c]
    ensures Encoded(e, a) == Encoded(e, b)
  {
    ScaledAgrees(e, a, b);
    CellsAgree(a, b);
  }

  lemma TransformIgnoresOtherColumns(e: Encoder, a: Row, b: Row)
    requires Shaped(e)
    requires AgreeOnFeatures(a, b)
    ensures Transform(e, a) == Transform(e, b)
  {
    FirstMissingAgrees(Features(), a, b);
    if FirstMissing(Features(), a).None? {
      FeaturesPresent(a);
      AgreeOnParts(a, b);
      FirstNonNumericAgrees(NumericFeatures, a, b);
      if FirstNonNumeric(NumericFeatures, a).None? {
        EncodedAgrees(e, a, b);
      }
    }
  }

  /** The label column is never an input: replacing or removing it changes no prediction. */
  lemma LabelIsNotAnInput(e: Encoder, row: Row)
    requires Shaped(e)
    ensures Transform(e, row - {Label}) == Transform(e, row)
  {
    TransformIgnoresOtherColumns(e, row - {Label}, row);
  }

  /** `model.predict` on a one-row frame: the regressor applied to the encoded record. */
  function Predict(m: Model, row: Row): (r: Outcome<real>)
    ensures r.Done? <==> Transform(m.encoder, row).Done?
    ensures r.Done? ==> r.value == m.forest(Transform(m.encoder, row).value)
    ensures r.Raised? ==> r == Raised(Transform(m.encoder, row).cause)
  {
    match Transform(m.encoder, row)
    case Raised(c) => Raised(c)
    case Done(x) => Done(m.forest(x))
  }
}
