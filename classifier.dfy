/**
 * The question-type classifier: decides from a column's dtype, its number of
 * distinct non-missing values and whether its name is a key of the value
 * labels what kind of survey question the column holds.
 */
module Classifier {
  import opened Wrappers
  import opened SurveyData

  /**
   * The kinds of question the dashboard knows. Ranking has a chart of its own
   * in the dispatch but the classifier never produces it.
   */
  datatype QuestionType = Rating | Ranking | Numerical | Categorical | Other

  /** A numeric column with at most this many distinct values is taken as a Likert rating. */
  const RatingMaxDistinct: nat := 5

  /** A non-numeric column with at most this many distinct values is categorical. */
  const CategoricalMaxDistinct: nat := 10

  /** The classifier of the dashboard. */
  function DetectQuestionType(col: Column, valueLabels: ValueLabels): (qt: QuestionType)
    ensures qt != Ranking
    ensures col.isNumeric <==> qt in {Rating, Numerical}
  {
    if col.isNumeric then
      if NUnique(col.cells) <= RatingMaxDistinct then Rating else Numerical
    else if NUnique(col.cells) <= CategoricalMaxDistinct || col.name in valueLabels then Categorical
    else Other
  }

  /** For a numeric column: rating exactly when it has at most five distinct values, numerical otherwise. */
  lemma NumericClassification(col: Column, valueLabels: ValueLabels)
    requires col.isNumeric
    ensures DetectQuestionType(col, valueLabels) == Rating <==> NUnique(col.cells) <= 5
    ensures DetectQuestionType(col, valueLabels) == Numerical <==> NUnique(col.cells) > 5
  {
  }

  /**
   * For a numeric column the value labels are never consulted: a labelled
   * numeric column with more than five distinct values is still numerical.
   */
  lemma NumericIgnoresValueLabels(col: Column, labels1: ValueLabels, labels2: ValueLabels)
    requires col.isNumeric
    ensures DetectQuestionType(col, labels1) == DetectQuestionType(col, labels2)
    ensures col.name in labels1 && NUnique(col.cells) > 5 ==> DetectQuestionType(col, labels1) == Numerical
  {
  }

  /**
   * For a non-numeric column: categorical exactly when it has at most ten
   * distinct values or its name is a key of the value labels, other otherwise.
   */
  lemma NonNumericClassification(col: Column, valueLabels: ValueLabels)
    requires !col.isNumeric
    ensures DetectQuestionType(col, valueLabels) == Categorical <==> NUnique(col.cells) <= 10 || col.name in valueLabels
    ensures DetectQuestionType(col, valueLabels) == Other <==> NUnique(col.cells) > 10 && col.name !in valueLabels
  {
  }

  /**
   * The classification sees the value labels only through whether the
   * column's name is one of their keys.
   */
  lemma ValueLabelsMatterOnlyByName(col: Column, labels1: ValueLabels, labels2: ValueLabels)
    requires col.name in labels1 <==> col.name in labels2
    ensures DetectQuestionType(col, labels1) == DetectQuestionType(col, labels2)
  {
  }

  /**
   * Two columns of the same name and dtype whose cells hold the same present
   * values are classified alike, whatever the order, repetition and missing
   * cells.
   */
  lemma SamePresentValuesSameType(col1: Column, col2: Column, valueLabels: ValueLabels)
    requires col1.name == col2.name && col1.isNumeric == col2.isNumeric
    requires forall v :: Some(v) in col1.cells <==> Some(v) in col2.cells
    ensures DetectQuestionType(col1, valueLabels) == DetectQuestionType(col2, valueLabels)
  {
    assert Present(col1.cells) == Present(col2.cells) by {
      forall v | v in Present(col1.cells) ensures v in Present(col2.cells) {
        var c :| c in col1.cells && c.Some? && c.value == v;
        assert Some(v) in col2.cells;
      }
      forall v | v in Present(col2.cells) ensures v in Present(col1.cells) {
        var c :| c in col2.cells && c.Some? && c.value == v;
        assert Some(v) in col1.cells;
      }
    }
  }

  /** Reordering the rows of a column does not change its question type. */
  lemma ReorderingKeepsType(col: Column, cells: seq<Cell>, valueLabels: ValueLabels)
    requires multiset(cells) == multiset(col.cells)
    ensures DetectQuestionType(col.(cells := cells), valueLabels) == DetectQuestionType(col, valueLabels)
  {
    forall v ensures Some(v) in cells <==> Some(v) in col.cells {
      assert Some(v) in cells <==> Some(v) in multiset(cells);
    }
    SamePresentValuesSameType(col.(cells := cells), col, valueLabels);
  }

  /**
   * Inserting at any position a copy of a cell the column already has, or a
   * missing cell, does not change its question type.
   */
  lemma DuplicatingOrMissingKeepsType(col: Column, at: nat, cell: Cell, valueLabels: ValueLabels)
    requires at <= |col.cells|
    requires cell in col.cells || cell.None?
    ensures DetectQuestionType(col.(cells := col.cells[..at] + [cell] + col.cells[at..]), valueLabels)
         == DetectQuestionType(col, valueLabels)
  {
    var cells := col.cells[..at] + [cell] + col.cells[at..];
    assert col.cells == col.cells[..at] + col.cells[at..];
    forall v ensures Some(v) in cells <==> Some(v) in col.cells {
      if Some(v) in cells && Some(v) != cell {
        assert Some(v) in col.cells[..at] || Some(v) in col.cells[at..];
      }
    }
    SamePresentValuesSameType(col.(cells := cells), col, valueLabels);
  }

  /**
   * Short columns: a numeric column of at most five rows is always a rating,
   * a non-numeric column of at most ten rows always categorical.
   */
  lemma ShortColumnType(col: Column, valueLabels: ValueLabels)
    ensures col.isNumeric && |col.cells| <= 5 ==> DetectQuestionType(col, valueLabels) == Rating
    ensures !col.isNumeric && |col.cells| <= 10 ==> DetectQuestionType(col, valueLabels) == Categorical
  {
  }

  /**
   * A column whose rows are all present and pairwise different is numerical
   * when numeric with more than five rows, and other when non-numeric with
   * more than ten rows and no value labels.
   */
  lemma AllDistinctColumnType(col: Column, valueLabels: ValueLabels)
    requires forall i :: 0 <= i < |col.cells| ==> col.cells[i].Some?
    requires forall i, j :: 0 <= i < j < |col.cells| ==> col.cells[i] != col.cells[j]
    ensures col.isNumeric && |col.cells| > 5 ==> DetectQuestionType(col, valueLabels) == Numerical
    ensures !col.isNumeric && |col.cells| > 10 && col.name !in valueLabels ==> DetectQuestionType(col, valueLabels) == Other
  {
    NUniqueOfDistinctRows(col.cells);
  }

  /** A numeric Likert column holding 1, 2, 3, 4, 5, 5, 1, 3 is a rating. */
  lemma LikertScaleIsRating(valueLabels: ValueLabels)
    ensures DetectQuestionType(Column("Q1r1", true, [Some(Number(1.0)), Some(Number(2.0)), Some(Number(3.0)),
      Some(Number(4.0)), Some(Number(5.0)), Some(Number(5.0)), Some(Number(1.0)), Some(Number(3.0))]), valueLabels) == Rating
  {
    var cells := [Some(Number(1.0)), Some(Number(2.0)), Some(Number(3.0)),
      Some(Number(4.0)), Some(Number(5.0)), Some(Number(5.0)), Some(Number(1.0)), Some(Number(3.0))];
    assert cells[0].value == Number(1.0) && cells[1].value == Number(2.0) && cells[2].value == Number(3.0);
    assert cells[3].value == Number(4.0) && cells[4].value == Number(5.0);
    assert Present(cells) == {Number(1.0), Number(2.0), Number(3.0), Number(4.0), Number(5.0)};
  }

  /** A text column with three distinct answers and no value labels is categorical. */
  lemma ThreeAnswersAreCategorical()
    ensures DetectQuestionType(Column("brand", false, [Some(Text("A")), Some(Text("B")), None,
      Some(Text("C")), Some(Text("A")), Some(Text("B")), Some(Text("C")), Some(Text("A")), Some(Text("B")),
      Some(Text("C")), Some(Text("A")), Some(Text("B"))]), map[]) == Categorical
  {
    var cells := [Some(Text("A")), Some(Text("B")), None,
      Some(Text("C")), Some(Text("A")), Some(Text("B")), Some(Text("C")), Some(Text("A")), Some(Text("B")),
      Some(Text("C")), Some(Text("A")), Some(Text("B"))];
    assert cells[0].value == Text("A") && cells[1].value == Text("B") && cells[3].value == Text("C");
    assert Present(cells) == {Text("A"), Text("B"), Text("C")};
  }
}
