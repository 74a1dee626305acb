# Survey dashboard: question-type classifier and chart dispatch

A Dafny model of the decision logic of a Streamlit survey dashboard
(`DB_App.py`). The dashboard reads an SPSS file and lets the user pick a
column (a survey question). Then it:

1. classifies the column as a `rating`, `numerical`, `categorical` or `other`
   question. The classifier looks at the column's dtype, its number of distinct
   non-missing values (thresholds 5 and 10) and whether the column's name is a
   key of the value labels;
2. picks a chart for that type: a bar chart with text for ratings, a plain bar
   chart for rankings and anything else, a histogram for numerical questions,
   and a pie for categorical ones. A categorical column's pie shows its cells
   mapped through the column's value labels when its name is a key of the
   value labels;
3. shows basic statistics: descriptive statistics for a numeric column, a
   frequency table otherwise.

Files:

- `wrappers.dfy`: `Option`.
- `survey_data.dfy` (module `SurveyData`): cells, columns and value labels, the
  distinct-value count (`NUnique`) and the frequency table (`ValueCounts`).
- `classifier.dfy` (module `Classifier`): `QuestionType`, its thresholds as named
  constants, `DetectQuestionType` and the lemmas about it.
- `visualization.dfy` (module `Visualization`): `ChartSpec`, value-label
  substitution and the chart dispatch.
- `dashboard.dfy` (module `Dashboard`): the statistics choice and the whole
  per-selection pipeline (`ShowQuestion`), with lemmas about the composition.

Modelling choices:

- A column is a name, a column-level `isNumeric` flag and a sequence of
  `Option<Value>` cells. pandas dtypes belong to the column, not to each cell.
  A missing cell (NaN or system-missing) is `None`.
- The distinct count is the size of the set of present values, as `nunique`
  drops missing values by default.
- The source passes question types around as strings. The model uses the
  enumeration `QuestionType`. It keeps `Ranking` because the dispatch has a
  branch for it, even though the classifier never returns it.
- The chart library is not modelled. A `ChartSpec` records the chart kind and
  the data given to it. Label substitution follows pandas `Series.map` with a
  dictionary: a code with no label becomes missing.
- The classifier tests the column's dtype (`is_numeric_dtype`, DB_App.py:8),
  not each cell. The thresholds 5 and 10 are literals in DB_App.py:9 and 13;
  the model names them `RatingMaxDistinct` and `CategoricalMaxDistinct`.

## Model

| member | source | states |
|---|---|---|
| `Classifier.DetectQuestionType` | DB_App.py:7-16 | The classifier is total and never returns `Ranking`. It returns `Rating` or `Numerical` exactly when the column has a numeric dtype. |
| `Classifier.NumericClassification` | DB_App.py:8-12 | A numeric column is `Rating` iff it has at most 5 distinct non-missing values, and `Numerical` iff it has more than 5. |
| `Classifier.NumericIgnoresValueLabels` | DB_App.py:8-13 | For a numeric column the value labels are never consulted. A labelled numeric column with more than 5 distinct values is still `Numerical`. |
| `Classifier.NonNumericClassification` | DB_App.py:13-16 | A non-numeric column is `Categorical` iff it has at most 10 distinct values or its name is a key of the value labels, and `Other` iff neither holds. |
| `Classifier.ValueLabelsMatterOnlyByName` | DB_App.py:13 | The classifier uses the value labels only through whether the column's name is one of their keys. |
| `Classifier.SamePresentValuesSameType` | DB_App.py:9-13 | Two columns with the same name and dtype and the same set of present values get the same type. |
| `Classifier.ReorderingKeepsType` | DB_App.py:9-13 | Permuting a column's rows does not change its type. |
| `Classifier.DuplicatingOrMissingKeepsType` | DB_App.py:9-13 | Inserting a copy of an existing cell or a missing cell anywhere does not change the type. |
| `Classifier.ShortColumnType` | DB_App.py:8-14 | A numeric column of at most 5 rows is always `Rating`; a non-numeric column of at most 10 rows is always `Categorical`. |
| `Classifier.AllDistinctColumnType` | DB_App.py:8-16 | A column of pairwise-distinct present cells is `Numerical` if it is numeric with more than 5 rows. It is `Other` if it is non-numeric, has more than 10 rows and has no value labels. |
| `Classifier.LikertScaleIsRating` | DB_App.py:9-10 | A numeric column holding 1,2,3,4,5,5,1,3 is `Rating`. |
| `Classifier.ThreeAnswersAreCategorical` | DB_App.py:13-14 | An unlabelled text column with 3 distinct answers (and a missing cell) is `Categorical`. |
| `SurveyData.Present` | DB_App.py:9 | The distinct present values: a value is in the set exactly when some cell holds it, so missing cells are dropped as `nunique` drops them. |
| `SurveyData.NUnique` | DB_App.py:9 | The distinct non-missing count (`nunique`). It never exceeds the number of rows, and it is 0 exactly when every cell is missing. |
| `SurveyData.PresentEmptyIffAllMissing` | DB_App.py:9 | A column has no present value exactly when every cell is missing. |
| `SurveyData.PresentAtMostRows` | DB_App.py:9 | A column never has more distinct present values than rows. |
| `SurveyData.NUniqueOfDistinctRows` | DB_App.py:9 | A column with no missing cells and no repeated cells has as many distinct values as rows. |
| `SurveyData.ValueCounts` | DB_App.py:75 | The frequency table's keys are exactly the present values. Each count is positive and equals the number of rows holding that value. |
| `Visualization.ApplyValueLabels` | DB_App.py:27 | Label substitution keeps length and position. Element i is the label of cell i's code when the cell is present and its code is labelled, and missing otherwise. |
| `Visualization.FullyLabelledKeepsAnswers` | DB_App.py:27 | If every present code has a label, the labelled column is missing exactly where the raw column is. |
| `Visualization.GenerateVisualization` | DB_App.py:19-35 | `Rating` gives a bar chart with text. `Ranking` and every other type give a bar chart without text. `Numerical` gives a histogram. `Categorical` gives a pie, which uses the labelled cells exactly when the column's name is a key of the value labels and the raw cells otherwise. Bars and histograms are drawn over the column's cells. |
| `Dashboard.BasicStatistics` | DB_App.py:72-75 | Descriptive statistics are chosen exactly for numeric columns. Otherwise the result is the frequency table: one entry per present value, with the number of rows holding it. |
| `Dashboard.ShowQuestionTable` | DB_App.py:61-75 | For the selected column, the pipeline gives one of four outcomes, and each holds exactly when its condition on the inputs holds. Numeric with ≤5 distinct values: `Rating` with a bar chart with text. Numeric with more: `Numerical` with a histogram. Non-numeric with ≤10 distinct values or a name that is a key of the value labels: `Categorical` with a pie. Otherwise: `Other` with a plain bar chart. Descriptive statistics appear exactly for numeric columns. Every other column gets the frequency table, whose keys are its present values. |
| `Dashboard.ShowQuestion` | DB_App.py:61-75 | The selected column's type, chart and statistics. The type is never `Ranking`, so the dispatch's ranking branch is dead, and a bar chart without text only comes from `Other`. Descriptive statistics appear exactly when the type is `Rating` or `Numerical`, because both use the same dtype test. |
| `Dashboard.NumericColumnsShowRawCodes` | DB_App.py:8-32 | A numeric column is never drawn as a pie. Its chart is always over its raw codes, even when the file labels them. |
| `Dashboard.EmptyLabelDictionaryBlanksPie` | DB_App.py:13-28 | A text column whose name is a key with an empty label dictionary is still `Categorical`. Its pie is over labelled cells that are all missing. |
| `Dashboard.CategoricalPieSource` | DB_App.py:24-30 | A column classified `Categorical` gets a pie over its labelled cells when its name is a key of the value labels, and over its raw cells otherwise. |

## Left out

- Streamlit UI calls (title, file uploader, select box, writes, chart display; DB_App.py:38-68): presentation only. The selected question is a parameter.
- `pyreadstat.read_sav` (DB_App.py:45): a binary-format parser outside the repository. The column and value labels it produces are inputs.
- `survey_data[question]` (DB_App.py:27, 61, 72-75): the model receives the selected column directly, because the select box offers only existing column names.
- Plotly figure construction (`px.bar`, `px.pie`, `px.histogram`): foreign rendering. Only the chart kind and its data are modelled.
- `describe()` figures (DB_App.py:73): mean, standard deviation and quartiles are floating-point numerics. Only the choice of this branch is modelled.
- The order of the `value_counts` output (descending by count) is not modelled, because the frequency table is a map.
- `question_type.capitalize()` (DB_App.py:64): display text only.
- Floating point: numeric cells are `real` and NaN is represented as a missing cell, so NaN's inequality with itself is not modelled.
