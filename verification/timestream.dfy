/** The Timestream result renderer (MoistureSensorApi/TimestreamFunctions.cs):
    a query result is a list of rows, each a list of datums typed by column
    infos; each row becomes one line of text. Two of the .NET exceptions the
    renderer can raise become failures: `Aggregate` over an empty sequence and
    a datum without a column info. Null lists, row values and column types are
    not representable here. */
module Timestream {
  import opened Wrappers
  import opened Text

  /** A column's name (possibly null) and type. */
  datatype ColumnInfo = ColumnInfo(name: Option<string>, columnType: ColumnType)

  /** The non-scalar parts of a column type; a scalar column has all three absent. */
  datatype ColumnType = ColumnType(
    timeSeriesMeasure: Option<ColumnInfo>,
    arrayElement: Option<ColumnInfo>,
    rowColumns: Option<seq<ColumnInfo>>)

  /** A datum; absent lists and an absent row value are empty, and an absent scalar is None. */
  datatype Datum = Datum(
    nullValue: bool,
    scalarValue: Option<string>,
    timeSeriesValue: seq<TimeSeriesPoint>,
    arrayValue: seq<Datum>,
    rowValue: seq<Datum>)

  datatype TimeSeriesPoint = TimeSeriesPoint(time: string, value: Datum)

  /** `Aggregate` over an empty sequence. */
  const NoElements := "Sequence contains no elements"
  /** `columnInfo[j]` past the end of the list. */
  const IndexOutOfRange := "Index was out of range"

  /** The only failures of the renderer: an empty aggregate and a missing column info. */
  predicate IsRenderError(e: string) {
    e == NoElements || e == IndexOutOfRange
  }

  /** A possibly null string as string interpolation renders it. */
  function Interpolated(s: Option<string>): string {
    match s case Some(v) => v case None => ""
  }

  /** `string.Join(",", parts)`. */
  function CommaJoin(parts: seq<string>): string {
    if |parts| == 0 then "" else Join(parts, ',')
  }

  /** `ParseColumnName`: "name=" or nothing for a null name. */
  function ParseColumnName(info: ColumnInfo): (r: string)
    ensures info.name.None? ==> r == ""
    ensures info.name.Some? ==> |r| == |info.name.value| + 1 && r[..|r| - 1] == info.name.value && r[|r| - 1] == '='
  {
    match info.name case None => "" case Some(n) => n + "="
  }

  /** `ParseScalarType`: the column prefix and the scalar text. */
  function ParseScalarType(info: ColumnInfo, d: Datum): (r: string)
    ensures info.name.None? ==> r == Interpolated(d.scalarValue)
    ensures info.name.Some? ==> r == info.name.value + "=" + Interpolated(d.scalarValue)
  {
    ParseColumnName(info) + Interpolated(d.scalarValue)
  }

  predicate IsRowType(t: ColumnType) {
    t.rowColumns.Some? && |t.rowColumns.value| > 0
  }

  /** `ParseDatum`: null first, then time series, array, non-empty row type, and
      scalar; `ParseDatumBranches` states the order. */
  function ParseDatum(info: ColumnInfo, d: Datum): (r: Result<string>)
    ensures r.Failure? ==> IsRenderError(r.error)
    ensures d.nullValue ==> r == Success(Interpolated(info.name) + "=NULL")
    decreases d, 2
  {
    if d.nullValue then Success(Interpolated(info.name) + "=NULL")
    else if info.columnType.timeSeriesMeasure.Some? then ParseTimeSeries(info, d)
    else if info.columnType.arrayElement.Some? then
      var rendered :- ParseArray(info.columnType.arrayElement.value, d.arrayValue);
      Success(Interpolated(info.name) + "=" + rendered)
    else if IsRowType(info.columnType) then ParseRow(info.columnType.rowColumns.value, d.rowValue)
    else Success(ParseScalarType(info, d))
  }

  /** The branch `ParseDatum` takes for a non-null datum, in priority order:
      time series, array, row with a non-empty column list, scalar. */
  lemma ParseDatumBranches(info: ColumnInfo, d: Datum)
    requires !d.nullValue
    ensures info.columnType.timeSeriesMeasure.Some? ==>
      (ParseDatum(info, d).Success? <==> |d.timeSeriesValue| > 0 && RenderPoints(info.columnType.timeSeriesMeasure.value, d.timeSeriesValue).Success?) &&
      (ParseDatum(info, d).Success? ==> ParseDatum(info, d).value == "[" + CommaJoin(RenderPoints(info.columnType.timeSeriesMeasure.value, d.timeSeriesValue).value) + "]")
    ensures info.columnType.timeSeriesMeasure.None? && info.columnType.arrayElement.Some? ==>
      (ParseDatum(info, d).Success? <==> |d.arrayValue| > 0 && RenderElements(info.columnType.arrayElement.value, d.arrayValue).Success?) &&
      (ParseDatum(info, d).Success? ==> ParseDatum(info, d).value == Interpolated(info.name) + "=[" + CommaJoin(RenderElements(info.columnType.arrayElement.value, d.arrayValue).value) + "]")
    ensures (info.columnType.timeSeriesMeasure.None? && info.columnType.arrayElement.None? &&
      IsRowType(info.columnType)) ==> ParseDatum(info, d) == ParseRow(info.columnType.rowColumns.value, d.rowValue)
    ensures (info.columnType.timeSeriesMeasure.None? && info.columnType.arrayElement.None? &&
      !IsRowType(info.columnType)) ==> ParseDatum(info, d) == Success(ParseScalarType(info, d))
  {
  }

  /** `ParseRow`: datum j rendered with column info j, joined by commas, in braces. */
  function ParseRow(infos: seq<ColumnInfo>, data: seq<Datum>): (r: Result<string>)
    ensures r.Failure? ==> IsRenderError(r.error)
    ensures r.Success? <==> RenderColumns(infos, data).Success?
    ensures r.Success? ==> r.value == "{" + CommaJoin(RenderColumns(infos, data).value) + "}"
    decreases data, 2
  {
    var parts :- RenderColumns(infos, data);
    Success("{" + CommaJoin(parts) + "}")
  }

  /** The loop of `ParseRow`: one rendering per datum; a datum without a column
      info is an index error. */
  function RenderColumns(infos: seq<ColumnInfo>, data: seq<Datum>): (r: Result<seq<string>>)
    ensures r.Failure? ==> IsRenderError(r.error)
    ensures r.Success? ==> |r.value| == |data|
    ensures |infos| < |data| ==> r.Failure?
    decreases data, 1
  {
    if |data| == 0 then Success([])
    else if |infos| == 0 then Failure(IndexOutOfRange)
    else
      var first :- ParseDatum(infos[0], data[0]);
      var rest :- RenderColumns(infos[1..], data[1..]);
      Success([first] + rest)
  }

  /** `ParseTimeSeries`: `{time=T, value=V}` per point, V rendered with the
      measure column, joined by commas, in brackets; no name prefix. */
  function ParseTimeSeries(info: ColumnInfo, d: Datum): (r: Result<string>)
    requires info.columnType.timeSeriesMeasure.Some?
    ensures r.Failure? ==> IsRenderError(r.error)
    ensures |d.timeSeriesValue| == 0 ==> r == Failure(NoElements)
    ensures r.Success? ==> |r.value| >= 2 && r.value[0] == '[' && r.value[|r.value| - 1] == ']'
    decreases d, 1
  {
    if |d.timeSeriesValue| == 0 then Failure(NoElements)
    else
      var points :- RenderPoints(info.columnType.timeSeriesMeasure.value, d.timeSeriesValue);
      Success("[" + CommaJoin(points) + "]")
  }

  function RenderPoints(measure: ColumnInfo, points: seq<TimeSeriesPoint>): (r: Result<seq<string>>)
    ensures r.Failure? ==> IsRenderError(r.error)
    ensures r.Success? ==> |r.value| == |points|
    decreases points, 0
  {
    if |points| == 0 then Success([])
    else
      var value :- ParseDatum(measure, points[0].value);
      var rest :- RenderPoints(measure, points[1..]);
      Success(["{time=" + points[0].time + ", value=" + value + "}"] + rest)
  }

  /** `ParseArray`: the elements rendered with the element column, joined by
      commas, in brackets; an empty array is an error. */
  function ParseArray(element: ColumnInfo, values: seq<Datum>): (r: Result<string>)
    ensures r.Failure? ==> IsRenderError(r.error)
    ensures |values| == 0 ==> r == Failure(NoElements)
    ensures r.Success? ==> |r.value| >= 2 && r.value[0] == '[' && r.value[|r.value| - 1] == ']'
    decreases values, 1
  {
    if |values| == 0 then Failure(NoElements)
    else
      var parts :- RenderElements(element, values);
      Success("[" + CommaJoin(parts) + "]")
  }

  function RenderElements(element: ColumnInfo, values: seq<Datum>): (r: Result<seq<string>>)
    ensures r.Failure? ==> IsRenderError(r.error)
    ensures r.Success? ==> |r.value| == |values|
    decreases values, 0
  {
    if |values| == 0 then Success([])
    else
      var first :- ParseDatum(element, values[0]);
      var rest :- RenderElements(element, values[1..]);
      Success([first] + rest)
  }

  /** `RenderColumns` succeeds exactly when every datum has a column info and
      renders with it, and then item j is datum j rendered with column info j. */
  lemma {:induction false} RenderColumnsPointwise(infos: seq<ColumnInfo>, data: seq<Datum>)
    ensures RenderColumns(infos, data).Success? <==>
      |data| <= |infos| && forall j :: 0 <= j < |data| ==> ParseDatum(infos[j], data[j]).Success?
    ensures RenderColumns(infos, data).Success? ==>
      forall j :: 0 <= j < |data| ==> RenderColumns(infos, data).value[j] == ParseDatum(infos[j], data[j]).value
    decreases |data|
  {
    if |data| > 0 && |infos| > 0 {
      RenderColumnsPointwise(infos[1..], data[1..]);
      assert forall j :: 1 <= j < |data| && j < |infos| ==> infos[1..][j - 1] == infos[j] && data[1..][j - 1] == data[j];
    }
  }

  /** `RenderPoints` succeeds exactly when every point's value renders with the
      measure column, and then item k is `{time=T, value=V}` for point k. */
  lemma {:induction false} RenderPointsPointwise(measure: ColumnInfo, points: seq<TimeSeriesPoint>)
    ensures RenderPoints(measure, points).Success? <==>
      forall k :: 0 <= k < |points| ==> ParseDatum(measure, points[k].value).Success?
    ensures RenderPoints(measure, points).Success? ==>
      forall k :: 0 <= k < |points| ==>
        RenderPoints(measure, points).value[k] ==
          "{time=" + points[k].time + ", value=" + ParseDatum(measure, points[k].value).value + "}"
    decreases |points|
  {
    if |points| > 0 {
      RenderPointsPointwise(measure, points[1..]);
      assert forall k :: 1 <= k < |points| ==> points[1..][k - 1] == points[k];
    }
  }

  /** `RenderElements` succeeds exactly when every element renders with the
      element column, and then item i is element i rendered. */
  lemma {:induction false} RenderElementsPointwise(element: ColumnInfo, values: seq<Datum>)
    ensures RenderElements(element, values).Success? <==>
      forall i :: 0 <= i < |values| ==> ParseDatum(element, values[i]).Success?
    ensures RenderElements(element, values).Success? ==>
      forall i :: 0 <= i < |values| ==> RenderElements(element, values).value[i] == ParseDatum(element, values[i]).value
    decreases |values|
  {
    if |values| > 0 {
      RenderElementsPointwise(element, values[1..]);
      assert forall i :: 1 <= i < |values| ==> values[1..][i - 1] == values[i];
    }
  }

  /** `ParseQueryResult`: one line per row, in row order; the first row that
      fails to render fails the whole result. */
  function ParseQueryResult(infos: seq<ColumnInfo>, rows: seq<seq<Datum>>): (r: Result<seq<string>>)
    ensures r.Failure? ==> IsRenderError(r.error)
    ensures r.Success? <==> forall i :: 0 <= i < |rows| ==> ParseRow(infos, rows[i]).Success?
    ensures r.Success? ==> |r.value| == |rows|
    ensures r.Success? ==> forall i :: 0 <= i < |rows| ==> r.value[i] == ParseRow(infos, rows[i]).value
    ensures r.Failure? ==>
      exists i :: 0 <= i < |rows| && ParseRow(infos, rows[i]) == Failure(r.error) &&
        forall j :: 0 <= j < i ==> ParseRow(infos, rows[j]).Success?
  {
    if |rows| == 0 then Success([])
    else
      var first := ParseRow(infos, rows[0]);
      if first.Failure? then first.PropagateFailure()
      else
        var rest := ParseQueryResult(infos, rows[1..]);
        assert forall i :: 1 <= i < |rows| ==> rows[i] == rows[1..][i - 1];
        if rest.Failure? then
          var k :| 0 <= k < |rows[1..]| && ParseRow(infos, rows[1..][k]) == Failure(rest.error) &&
            forall j :: 0 <= j < k ==> ParseRow(infos, rows[1..][j]).Success?;
          assert forall j :: 0 <= j < k + 1 ==> ParseRow(infos, rows[j]).Success?;
          rest
        else
          Success([first.value] + rest.value)
  }

  /** A row of one scalar column renders as `{name=value}`, and an empty row as `{}`. */
  lemma ScalarRowRendering(info: ColumnInfo, d: Datum)
    requires !d.nullValue && info.name.Some?
    requires info.columnType == ColumnType(None, None, None)
    ensures ParseRow([info], [d]) == Success("{" + info.name.value + "=" + Interpolated(d.scalarValue) + "}")
    ensures ParseRow([info], []) == Success("{}")
  {
    var scalar := ParseScalarType(info, d);
    assert ParseDatum(info, d) == Success(scalar);
    assert [info][1..] == [] && [d][1..] == [];
    assert RenderColumns([info][1..], [d][1..]) == Success([]);
    assert [scalar] + [] == [scalar];
    assert RenderColumns([info], [d]) == Success([scalar]);
    assert CommaJoin([scalar]) == scalar;
    assert ParseRow([info], [d]) == Success("{" + scalar + "}");
    assert scalar == info.name.value + "=" + Interpolated(d.scalarValue);
    assert "{" + scalar + "}" == "{" + info.name.value + "=" + Interpolated(d.scalarValue) + "}";
    assert RenderColumns([info], []) == Success([]);
    assert "{" + CommaJoin([]) + "}" == "{}";
  }
}
