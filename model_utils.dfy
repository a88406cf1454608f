/** Feature preprocessing of the scoring service: one transaction record
    becomes one row of model features, with derived balance columns, the
    payment type one-hot encoded, and the columns aligned to the feature list
    the model was trained on.  A one-row DataFrame is a map from column label
    to cell value; the aligned output is the sequence of its columns in
    order. */
module ModelUtils {

  /** A cell of the one-row frame. */
  datatype Value = Int(i: int) | Real(r: real) | Bool(b: bool) | Str(s: string)

  /** A one-row frame: column label to cell. */
  type Row = map<string, Value>

  /** A column of the aligned output. */
  datatype Column = Column(name: string, value: Value)

  /** The columns preprocessing adds to the record. */
  const DerivedColumns: set<string> :=
    {"log_amount", "deltaOrig", "deltaDest", "isOrigDrained", "isDestUntouched", "isMoneyMoved"}

  /** What preprocessing reads from the record: a textual type and the five
      amounts and balances as numbers. */
  predicate WellTyped(data: Row) {
    && "type" in data && data["type"].Str?
    && "amount" in data && data["amount"].Real?
    && "oldbalanceOrg" in data && data["oldbalanceOrg"].Real?
    && "newbalanceOrig" in data && data["newbalanceOrig"].Real?
    && "oldbalanceDest" in data && data["oldbalanceDest"].Real?
    && "newbalanceDest" in data && data["newbalanceDest"].Real?
  }

  /** The label of the indicator column get_dummies makes for a type value. */
  function TypeColumn(t: string): string {
    "type_" + t
  }

  /** The record with the six derived columns added; log1p stands for the
      floating-point log(1 + x). */
  function WithDerived(data: Row, log1p: real -> real): (df: Row)
    requires WellTyped(data)
    ensures df.Keys == data.Keys + DerivedColumns
    ensures forall k :: k in data && k !in DerivedColumns ==> df[k] == data[k]
  {
    var amount := data["amount"].r;
    var oldOrg := data["oldbalanceOrg"].r;
    var newOrig := data["newbalanceOrig"].r;
    var oldDest := data["oldbalanceDest"].r;
    var newDest := data["newbalanceDest"].r;
    data["log_amount" := Real(log1p(amount))]
        ["deltaOrig" := Real(oldOrg - newOrig)]
        ["deltaDest" := Real(newDest - oldDest)]
        ["isOrigDrained" := Bool(oldOrg > 0.0 && newOrig == 0.0)]
        ["isDestUntouched" := Bool(oldDest == 0.0 && newDest == 0.0)]
        ["isMoneyMoved" := Bool(amount > 0.0)]
  }

  /** get_dummies on the type column of a one-row frame: the column goes,
      one indicator column for the row's own type value comes, set. */
  function OneHotType(df: Row): (enc: Row)
    requires "type" in df && df["type"].Str?
    ensures "type" !in enc
    ensures TypeColumn(df["type"].s) in enc && enc[TypeColumn(df["type"].s)] == Bool(true)
    ensures enc.Keys == (df.Keys - {"type"}) + {TypeColumn(df["type"].s)}
    ensures forall k :: k in df && k != "type" && k != TypeColumn(df["type"].s) ==> enc[k] == df[k]
  {
    (df - {"type"})[TypeColumn(df["type"].s) := Bool(true)]
  }

  /** The frame just before alignment. */
  function Encoded(data: Row, log1p: real -> real): Row
    requires WellTyped(data)
  {
    OneHotType(WithDerived(data, log1p))
  }

  /** The derived columns: two balance differences, three flags and the log amount. */
  lemma EncodedDerivedColumns(data: Row, log1p: real -> real)
    requires WellTyped(data)
    ensures var enc := Encoded(data, log1p);
      var amount := data["amount"].r;
      var oldOrg := data["oldbalanceOrg"].r;
      var newOrig := data["newbalanceOrig"].r;
      var oldDest := data["oldbalanceDest"].r;
      var newDest := data["newbalanceDest"].r;
      && DerivedColumns <= enc.Keys
      && enc["log_amount"] == Real(log1p(amount))
      && enc["deltaOrig"] == Real(oldOrg - newOrig)
      && enc["deltaDest"] == Real(newDest - oldDest)
      && (enc["isOrigDrained"] == Bool(true) <==> oldOrg > 0.0 && newOrig == 0.0)
      && (enc["isDestUntouched"] == Bool(true) <==> oldDest == 0.0 && newDest == 0.0)
      && (enc["isMoneyMoved"] == Bool(true) <==> amount > 0.0)
      && enc["isOrigDrained"].Bool? && enc["isDestUntouched"].Bool? && enc["isMoneyMoved"].Bool?
  {
    var t := data["type"].s;
    var wd := WithDerived(data, log1p);
    forall d | d in DerivedColumns ensures d in Encoded(data, log1p) && Encoded(data, log1p)[d] == wd[d] {
      assert TypeColumn(t)[0] == 't';
      assert d != TypeColumn(t) && d != "type";
    }
  }

  /** One-hot encoding: the type column is gone, the indicator of the row's
      type is set, and every other column of the record is carried over. */
  lemma EncodedTypeColumns(data: Row, log1p: real -> real)
    requires WellTyped(data)
    ensures var enc := Encoded(data, log1p);
      var t := data["type"].s;
      && "type" !in enc
      && TypeColumn(t) in enc && enc[TypeColumn(t)] == Bool(true)
      && enc.Keys == (data.Keys - {"type"}) + DerivedColumns + {TypeColumn(t)}
      && forall k :: k in data && k != "type" && k !in DerivedColumns && k != TypeColumn(t) ==> enc[k] == data[k]
  {
    var t := data["type"].s;
    assert |TypeColumn(t)| >= 5;
  }

  /** preprocess_input: build the one-row frame, add the derived columns,
      one-hot encode the type, add each missing feature column as 0, and
      select the feature columns in their order. */
  method PreprocessInput(data: Row, featureColumns: seq<string>, log1p: real -> real) returns (x: seq<Column>)
    requires WellTyped(data)
    ensures |x| == |featureColumns|
    ensures forall i :: 0 <= i < |x| ==> x[i].name == featureColumns[i]
    ensures forall i :: 0 <= i < |x| && featureColumns[i] in Encoded(data, log1p) ==>
      x[i].value == Encoded(data, log1p)[featureColumns[i]]
    ensures forall i :: 0 <= i < |x| && featureColumns[i] !in Encoded(data, log1p) ==> x[i].value == Int(0)
  {
    var df := data;
    df := df["log_amount" := Real(log1p(df["amount"].r))];
    df := df["deltaOrig" := Real(df["oldbalanceOrg"].r - df["newbalanceOrig"].r)];
    df := df["deltaDest" := Real(df["newbalanceDest"].r - df["oldbalanceDest"].r)];
    df := df["isOrigDrained" := Bool(df["oldbalanceOrg"].r > 0.0 && df["newbalanceOrig"].r == 0.0)];
    df := df["isDestUntouched" := Bool(df["oldbalanceDest"].r == 0.0 && df["newbalanceDest"].r == 0.0)];
    df := df["isMoneyMoved" := Bool(df["amount"].r > 0.0)];
    assert df == WithDerived(data, log1p) by {
      assert df.Keys == WithDerived(data, log1p).Keys;
    }

    df := OneHotType(df);

    x := AlignColumns(df, featureColumns);
  }

  /** The alignment step of preprocess_input: add each feature column the
      frame lacks as 0, then select the feature columns in their order. */
  method AlignColumns(frame: Row, featureColumns: seq<string>) returns (x: seq<Column>)
    ensures |x| == |featureColumns|
    ensures forall i :: 0 <= i < |x| ==> x[i].name == featureColumns[i]
    ensures forall i :: 0 <= i < |x| && featureColumns[i] in frame ==> x[i].value == frame[featureColumns[i]]
    ensures forall i :: 0 <= i < |x| && featureColumns[i] !in frame ==> x[i].value == Int(0)
  {
    var df := frame;
    var i := 0;
    while i < |featureColumns|
      invariant 0 <= i <= |featureColumns|
      invariant df.Keys == frame.Keys + set j | 0 <= j < i :: featureColumns[j]
      invariant forall k :: k in df ==> df[k] == if k in frame then frame[k] else Int(0)
    {
      var col := featureColumns[i];
      if col !in df {
        df := df[col := Int(0)];
      }
      i := i + 1;
    }

    x := seq(|featureColumns|, j requires 0 <= j < |featureColumns| => Column(featureColumns[j], df[featureColumns[j]]));
  }
}
