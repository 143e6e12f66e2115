/**
 * The coerce-and-drop row filter that both the worker's `generate_plot` and
 * `jobs.extract_fields` run: for each row, `float(row.get(x_field, 'nan'))`
 * and `float(row.get(y_field, 'nan'))`; a row whose conversion raises (or
 * whose `get` raises) is skipped, every other row contributes one point.
 */
module Cleaning {
  import opened Wrappers
  import opened PyValue
  import opened FilterMaps

  datatype Point = Point(x: Num, y: Num)

  /** What `row.get(field, 'nan')` followed by `float(...)` yields; `None` when either raises. */
  function FieldNum(row: Row, field: Value): Option<Num> {
    match RowGet(row, field, Str("nan"))
    case None => None
    case Some(v) => ToFloat(v)
  }

  /**
   * The point one row contributes, or `None` when the row is skipped.  The
   * source's later test `x is None or y is None` never holds for two floats,
   * so it removes nothing.
   */
  function RowPoint(row: Row, xField: Value, yField: Value): Option<Point> {
    match FieldNum(row, xField)
    case None => None
    case Some(x) =>
      match FieldNum(row, yField)
      case None => None
      case Some(y) => Some(Point(x, y))
  }

  predicate Keeps(row: Row, xField: Value, yField: Value) {
    RowPoint(row, xField, yField).Some?
  }

  /** The conversion of one row, as a function value. */
  function Converter(xField: Value, yField: Value): Row -> Option<Point> {
    row => RowPoint(row, xField, yField)
  }

  /** The points the cleaning loop has collected after the rows `rows`, in row order. */
  function Kept(rows: seq<Row>, xField: Value, yField: Value): seq<Point> {
    FilterMap(rows, Converter(xField, yField))
  }

  function Xs(points: seq<Point>): (xs: seq<Num>)
    ensures |xs| == |points| && forall j :: 0 <= j < |points| ==> xs[j] == points[j].x
  {
    if points == [] then [] else Xs(points[..|points| - 1]) + [points[|points| - 1].x]
  }

  function Ys(points: seq<Point>): (ys: seq<Num>)
    ensures |ys| == |points| && forall j :: 0 <= j < |points| ==> ys[j] == points[j].y
  {
    if points == [] then [] else Ys(points[..|points| - 1]) + [points[|points| - 1].y]
  }

  lemma XsYsSnoc(points: seq<Point>, p: Point)
    ensures Xs(points + [p]) == Xs(points) + [p.x] && Ys(points + [p]) == Ys(points) + [p.y]
  {
    assert (points + [p])[..|points|] == points;
  }

  /** One step of the loop: processing row `i` appends its point, if it has one. */
  lemma KeptStep(rows: seq<Row>, i: nat, xField: Value, yField: Value)
    requires i < |rows|
    ensures Kept(rows[..i + 1], xField, yField)
         == Kept(rows[..i], xField, yField) + OptSeq(RowPoint(rows[i], xField, yField))
  {
    FilterMapStep(rows, i, Converter(xField, yField));
  }

  /**
   * The kept points are exactly the points of the rows that convert, in row
   * order: `KeptIndices` lists those rows' indices, strictly increasing, and
   * misses none of them.
   */
  function KeptIndices(rows: seq<Row>, xField: Value, yField: Value): (idx: seq<nat>)
    ensures |idx| == |Kept(rows, xField, yField)|
    ensures forall j :: 0 <= j < |idx| ==>
              idx[j] < |rows| && Keeps(rows[idx[j]], xField, yField)
              && Kept(rows, xField, yField)[j] == RowPoint(rows[idx[j]], xField, yField).value
    ensures forall j, j' :: 0 <= j < j' < |idx| ==> idx[j] < idx[j']
    ensures forall i :: 0 <= i < |rows| && Keeps(rows[i], xField, yField) ==> i in idx
  {
    Origins(rows, Converter(xField, yField))
  }

  lemma KeptBound(rows: seq<Row>, xField: Value, yField: Value)
    ensures |Kept(rows, xField, yField)| <= |rows|
  {
    FilterMapBound(rows, Converter(xField, yField));
  }

  /** No point is produced exactly when no row converts. */
  lemma KeptEmptyIff(rows: seq<Row>, xField: Value, yField: Value)
    ensures Kept(rows, xField, yField) == [] <==> forall i :: 0 <= i < |rows| ==> !Keeps(rows[i], xField, yField)
  {
    FilterMapEmptyIff(rows, Converter(xField, yField));
  }

  /** One point per row exactly when every row converts. */
  lemma KeptAllIff(rows: seq<Row>, xField: Value, yField: Value)
    ensures |Kept(rows, xField, yField)| == |rows| <==> forall i :: 0 <= i < |rows| ==> Keeps(rows[i], xField, yField)
  {
    FilterMapAllIff(rows, Converter(xField, yField));
  }

  /**
   * For records and string field names the filter is: both fields convert,
   * where an absent field reads as the string 'nan' and therefore converts.
   */
  lemma RecordKeepsIff(fields: map<string, Value>, xName: string, yName: string)
    ensures var xv := if xName in fields then fields[xName] else Str("nan");
            var yv := if yName in fields then fields[yName] else Str("nan");
            Keeps(Record(fields), Str(xName), Str(yName)) <==> ToFloat(xv).Some? && ToFloat(yv).Some?
  {
  }

  /** A record lacking the x field is kept when its y field converts (and symmetrically). */
  lemma AbsentFieldKept(fields: map<string, Value>, xName: string, yName: string)
    requires xName !in fields || yName !in fields
    ensures Keeps(Record(fields), Str(xName), Str(yName))
        <==> (xName in fields ==> ToFloat(fields[xName]).Some?) && (yName in fields ==> ToFloat(fields[yName]).Some?)
  {
    NanCoerces();
  }

  /** A row that is not a dict is always skipped, as is every row when a field name is a list or dict. */
  lemma UnusableRowsDropped(rows: seq<Row>, xField: Value, yField: Value)
    requires xField.List? || xField.Dict? || yField.List? || yField.Dict?
             || forall i :: 0 <= i < |rows| ==> rows[i].NonRecord?
    ensures Kept(rows, xField, yField) == []
  {
    KeptEmptyIff(rows, xField, yField);
  }

  /** The `try` block of one iteration: both conversions, or `None` for the exception either raises. */
  method ConvertRow(row: Row, xField: Value, yField: Value) returns (p: Option<Point>)
    ensures p == RowPoint(row, xField, yField)
  {
    var x := FieldNum(row, xField);
    if x.None? {
      return None;
    }
    var y := FieldNum(row, yField);
    if y.None? {
      return None;
    }
    return Some(Point(x.value, y.value));
  }

  /**
   * The cleaning loop, which `generate_plot` and `extract_fields` each contain
   * a copy of: one x and one y per row that converts, in row order.
   */
  method CleanRows(rows: seq<Row>, xField: Value, yField: Value) returns (xs: seq<Num>, ys: seq<Num>)
    ensures xs == Xs(Kept(rows, xField, yField)) && ys == Ys(Kept(rows, xField, yField))
    ensures |xs| == |ys| <= |rows|
  {
    xs, ys := [], [];
    for i := 0 to |rows|
      invariant xs == Xs(Kept(rows[..i], xField, yField))
      invariant ys == Ys(Kept(rows[..i], xField, yField))
    {
      KeptStep(rows, i, xField, yField);
      var p := ConvertRow(rows[i], xField, yField);
      if p.Some? {
        XsYsSnoc(Kept(rows[..i], xField, yField), p.value);
        xs := xs + [p.value.x];
        ys := ys + [p.value.y];
      }
    }
    assert rows[..|rows|] == rows;
    KeptBound(rows, xField, yField);
  }
}
