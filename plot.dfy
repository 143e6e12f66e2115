/**
 * Rendering, kept abstract.  Drawing the scatter plot with matplotlib and
 * base64-encoding the PNG is a call into code the model does not see: it is a
 * parameter of the operations that use it, and it may raise.
 */
module Plot {
  import opened Wrappers
  import opened PyValue

  /** Base64 text of a PNG image; never empty. */
  type Png = s: string | s != [] witness "="

  /** What the scatter plot is drawn from: the points, the axis labels (the field names) and the title. */
  datatype Chart = Chart(xs: seq<Num>, ys: seq<Num>, xLabel: Value, yLabel: Value, title: string)

  /** Draw a chart and encode it; `Err` stands for an exception raised while doing so. */
  type Renderer = Chart -> Result<Png>

  /** The scatter chart both callers draw: axes labelled by the field names, titled "<y> vs <x>". */
  function ScatterChart(xs: seq<Num>, ys: seq<Num>, xLabel: Value, yLabel: Value): (c: Chart)
    ensures c.xs == xs && c.ys == ys && c.xLabel == xLabel && c.yLabel == yLabel
    ensures c.title == ToStr(yLabel) + " vs " + ToStr(xLabel)
  {
    Chart(xs, ys, xLabel, yLabel, ToStr(yLabel) + " vs " + ToStr(xLabel))
  }

  /**
   * The title reads back as the y label's text, " vs ", then the x label's
   * text; the chart of the tests is titled "TumorSize vs BMI".
   */
  lemma ScatterTitleParts(xs: seq<Num>, ys: seq<Num>, xLabel: Value, yLabel: Value)
    ensures var t, y, x := ScatterChart(xs, ys, xLabel, yLabel).title, ToStr(yLabel), ToStr(xLabel);
            && |t| == |y| + 4 + |x|
            && t[..|y|] == y && t[|y|..|y| + 4] == " vs " && t[|y| + 4..] == x
    ensures ScatterChart(xs, ys, Str("BMI"), Str("TumorSize")).title == "TumorSize vs BMI"
  {
    var t, y, x := ScatterChart(xs, ys, xLabel, yLabel).title, ToStr(yLabel), ToStr(xLabel);
    assert t == y + " vs " + x;
    assert t[..|y|] == y;
    assert t[|y|..|y| + 4] == " vs ";
    assert t[|y| + 4..] == x;
  }
}
