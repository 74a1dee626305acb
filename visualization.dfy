/**
 * Chart selection: which kind of chart the dashboard draws for a question
 * type, and over which data. The chart library itself is not modelled; a
 * ChartSpec records only the kind and the data handed to it.
 */
module Visualization {
  import opened Wrappers
  import opened SurveyData
  import opened Classifier

  /** The data a pie chart counts: the raw cells, or their value labels. */
  datatype PieSource = Raw(values: seq<Cell>) | Labeled(names: seq<Option<string>>)

  /** A bar chart over a column (optionally with the values as bar text), a pie chart, or a histogram. */
  datatype ChartSpec =
    | Bar(x: seq<Cell>, withText: bool)
    | Pie(source: PieSource)
    | Histogram(x: seq<Cell>)

  /**
   * Replaces every cell by the label of its code, as pandas `Series.map` does
   * with a dictionary: a missing cell and a code without a label both become
   * missing.
   */
  function ApplyValueLabels(cells: seq<Cell>, codeLabels: CodeLabels): (names: seq<Option<string>>)
    ensures |names| == |cells|
    ensures forall i :: 0 <= i < |cells| ==> (names[i].Some? <==> cells[i].Some? && cells[i].value in codeLabels)
    ensures forall i :: 0 <= i < |cells| && names[i].Some? ==> names[i].value == codeLabels[cells[i].value]
  {
    if cells == [] then []
    else
      var head := match cells[0]
        case Some(v) => if v in codeLabels then Some(codeLabels[v]) else None
        case None => None;
      [head] + ApplyValueLabels(cells[1..], codeLabels)
  }

  /**
   * When every present code has a label, substitution loses no answer: the
   * labelled column is missing exactly where the raw column is.
   */
  lemma FullyLabelledKeepsAnswers(cells: seq<Cell>, codeLabels: CodeLabels)
    requires Present(cells) <= codeLabels.Keys
    ensures forall i :: 0 <= i < |cells| ==> (ApplyValueLabels(cells, codeLabels)[i].None? <==> cells[i].None?)
  {
  }

  /** The chart dispatch of the dashboard. */
  function GenerateVisualization(col: Column, qt: QuestionType, valueLabels: ValueLabels): (chart: ChartSpec)
    ensures chart.Bar? && chart.withText <==> qt == Rating
    ensures chart.Bar? && !chart.withText <==> qt == Ranking || qt == Other
    ensures chart.Histogram? <==> qt == Numerical
    ensures chart.Pie? <==> qt == Categorical
    ensures chart.Bar? || chart.Histogram? ==> chart.x == col.cells
    ensures chart.Pie? ==> (chart.source.Labeled? <==> col.name in valueLabels)
    ensures chart.Pie? && chart.source.Raw? ==> chart.source.values == col.cells
    ensures chart.Pie? && chart.source.Labeled? ==>
      chart.source.names == ApplyValueLabels(col.cells, valueLabels[col.name])
  {
    match qt
    case Rating => Bar(col.cells, true)
    case Ranking => Bar(col.cells, false)
    case Categorical =>
      if col.name in valueLabels then Pie(Labeled(ApplyValueLabels(col.cells, valueLabels[col.name])))
      else Pie(Raw(col.cells))
    case Numerical => Histogram(col.cells)
    case Other => Bar(col.cells, false)
  }
}
