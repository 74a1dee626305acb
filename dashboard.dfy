/**
 * What the dashboard shows for the selected question: its detected type, the
 * chart chosen for that type, and the basic statistics below the chart.
 */
module Dashboard {
  import opened Wrappers
  import opened SurveyData
  import opened Classifier
  import opened Visualization

  /**
   * The basic statistics: pandas `describe` for a numeric column (whose
   * figures are not modelled), the frequency table otherwise.
   */
  datatype Summary = DescriptiveStatistics | FrequencyTable(counts: map<Value, nat>)

  /** The statistics shown below the chart, chosen by the column's dtype. */
  function BasicStatistics(col: Column): (summary: Summary)
    ensures summary.DescriptiveStatistics? <==> col.isNumeric
    ensures summary.FrequencyTable? ==> summary.counts.Keys == Present(col.cells)
    ensures summary.FrequencyTable? ==>
      forall v :: v in summary.counts ==> summary.counts[v] == multiset(col.cells)[Some(v)]
  {
    if col.isNumeric then DescriptiveStatistics else FrequencyTable(ValueCounts(col.cells))
  }

  /** Everything the dashboard derives from one selected column. */
  datatype View = View(questionType: QuestionType, chart: ChartSpec, summary: Summary)

  /**
   * Detect the question type, draw its chart, show its statistics. The
   * ranking branch of the dispatch is dead here, since the classifier never
   * yields Ranking: a bar chart without text only comes from the catch-all
   * type Other. The statistics use the classifier's dtype test, so
   * descriptive statistics appear exactly for ratings and numerical questions.
   */
  function ShowQuestion(col: Column, valueLabels: ValueLabels): (view: View)
    ensures view.questionType != Ranking
    ensures view.chart.Bar? && !view.chart.withText ==> view.questionType == Other
    ensures view.summary.DescriptiveStatistics? <==> view.questionType in {Rating, Numerical}
  {
    var qt := DetectQuestionType(col, valueLabels);
    View(qt, GenerateVisualization(col, qt, valueLabels), BasicStatistics(col))
  }

  /**
   * The whole dashboard as a table over its inputs: each of the four reachable
   * outcomes, with its chart and statistics, and the condition that selects it.
   */
  lemma ShowQuestionTable(col: Column, valueLabels: ValueLabels)
    ensures var view := ShowQuestion(col, valueLabels);
      && (col.isNumeric && NUnique(col.cells) <= RatingMaxDistinct <==>
            view.questionType == Rating && view.chart == Bar(col.cells, true))
      && (col.isNumeric && NUnique(col.cells) > RatingMaxDistinct <==>
            view.questionType == Numerical && view.chart == Histogram(col.cells))
      && (!col.isNumeric && (NUnique(col.cells) <= CategoricalMaxDistinct || col.name in valueLabels) <==>
            view.questionType == Categorical && view.chart.Pie?)
      && (!col.isNumeric && NUnique(col.cells) > CategoricalMaxDistinct && col.name !in valueLabels <==>
            view.questionType == Other && view.chart == Bar(col.cells, false))
      && (col.isNumeric <==> view.summary == DescriptiveStatistics)
      && (!col.isNumeric ==> view.summary.FrequencyTable? && view.summary.counts.Keys == Present(col.cells))
  {
  }

  /**
   * Value labels reach the chart only for non-numeric columns: a numeric
   * column is never drawn as a pie, so its codes are shown raw even when the
   * file labels them.
   */
  lemma NumericColumnsShowRawCodes(col: Column, valueLabels: ValueLabels)
    requires col.isNumeric
    ensures ShowQuestion(col, valueLabels).chart.Bar? || ShowQuestion(col, valueLabels).chart.Histogram?
    ensures ShowQuestion(col, valueLabels).chart.x == col.cells
  {
  }

  /**
   * The pie of a categorical column uses the labelled cells exactly when the
   * column's name is a key of the value labels, the raw cells otherwise.
   */
  lemma CategoricalPieSource(col: Column, valueLabels: ValueLabels)
    requires ShowQuestion(col, valueLabels).questionType == Categorical
    ensures ShowQuestion(col, valueLabels).chart ==
      if col.name in valueLabels then Pie(Labeled(ApplyValueLabels(col.cells, valueLabels[col.name])))
      else Pie(Raw(col.cells))
  {
  }

  /**
   * The label test is key membership only: a text column whose name is a key
   * with an empty label dictionary is still categorical, and its pie is drawn
   * over cells that are all missing.
   */
  lemma EmptyLabelDictionaryBlanksPie(col: Column, valueLabels: ValueLabels)
    requires !col.isNumeric && col.name in valueLabels && valueLabels[col.name] == map[]
    ensures ShowQuestion(col, valueLabels).questionType == Categorical
    ensures ShowQuestion(col, valueLabels).chart.Pie?
    ensures ShowQuestion(col, valueLabels).chart.source.Labeled?
    ensures forall i :: 0 <= i < |col.cells| ==> ShowQuestion(col, valueLabels).chart.source.names[i].None?
  {
  }
}
