/** An employee's own result: per-category self and others scores merged into chart
    rows, and the colour band of a percentile. Three views exist: a D3 view, an MUI
    view that adds an overall-average row, and a Recharts view that merges the
    categories once when the result arrives. */
module SurveyResults {

  import opened Remote

  /** One `category: score` property of a score record, in key order. Category
      names are words, so `Object.keys` yields them in insertion order. */
  datatype CategoryScore = CategoryScore(category: string, score: real)

  datatype ResultData = ResultData(
    employeeName: string, selfEvaluationScore: real, othersEvaluationScore: real,
    overallPercentile: real, sameRankPercentile: real,
    selfScoresByCategory: seq<CategoryScore>, othersScoresByCategory: seq<CategoryScore>,
    textFeedback: seq<string>)

  datatype CategoryRow = CategoryRow(category: string, self: real, others: real)

  ghost predicate Distinct<T>(xs: seq<T>)
  {
    forall i, j :: 0 <= i < j < |xs| ==> xs[i] != xs[j]
  }

  function Keys(table: seq<CategoryScore>): (keys: seq<string>)
    ensures |keys| == |table| && forall i :: 0 <= i < |table| ==> keys[i] == table[i].category
  {
    seq(|table|, i requires 0 <= i < |table| => table[i].category)
  }

  /** `record[category]`: the score under that key, absent when there is none. */
  function Lookup(table: seq<CategoryScore>, category: string): (score: Option<real>)
    ensures score.Some? <==> category in Keys(table)
  {
    if table == [] then None
    else if table[0].category == category then Some(table[0].score)
    else
      assert Keys(table)[1..] == Keys(table[1..]);
      Lookup(table[1..], category)
  }

  /** `[...new Set(xs)]`: each value once, where it first occurs. */
  function Dedup(xs: seq<string>): (r: seq<string>)
    ensures Distinct(r)
    ensures forall x :: x in r <==> x in xs
    ensures |r| <= |xs|
  {
    if xs == [] then []
    else
      var front := Dedup(xs[..|xs| - 1]);
      var last := xs[|xs| - 1];
      assert xs == xs[..|xs| - 1] + [last];
      if last in front then front else front + [last]
  }

  /** A list without repeats is its own de-duplication. */
  lemma {:induction false} DedupDistinct(xs: seq<string>)
    requires Distinct(xs)
    ensures Dedup(xs) == xs
  {
    if xs != [] {
      var front := xs[..|xs| - 1];
      DedupDistinct(front);
      assert xs[|xs| - 1] !in front;
    }
  }

  /** De-duplicating a longer list keeps the de-duplication of its front as prefix. */
  lemma {:induction false} DedupPrefix(front: seq<string>, back: seq<string>)
    ensures |Dedup(front)| <= |Dedup(front + back)|
    ensures Dedup(front + back)[..|Dedup(front)|] == Dedup(front)
    decreases |back|
  {
    if back == [] {
      assert front + back == front;
    } else {
      var shorter := back[..|back| - 1];
      DedupPrefix(front, shorter);
      assert (front + back)[..|front + back| - 1] == front + shorter;
    }
  }

  /** Values without repeats are as many as the set they form. */
  lemma {:induction false} DistinctCount(xs: seq<string>)
    requires Distinct(xs)
    ensures |set x | x in xs| == |xs|
  {
    if xs != [] {
      var front := xs[..|xs| - 1];
      DistinctCount(front);
      assert xs == front + [xs[|xs| - 1]];
      assert (set x | x in xs) == (set x | x in front) + {xs[|xs| - 1]};
    }
  }

  /** The category list: every category of either record exactly once, the self
      record's categories first and in their order, then the others record's new ones. */
  function MergedCategories(data: ResultData): (categories: seq<string>)
    ensures Distinct(categories)
    ensures forall c :: c in categories <==> c in Keys(data.selfScoresByCategory) || c in Keys(data.othersScoresByCategory)
    ensures Distinct(Keys(data.selfScoresByCategory)) ==>
      |Keys(data.selfScoresByCategory)| <= |categories|
      && categories[..|Keys(data.selfScoresByCategory)|] == Keys(data.selfScoresByCategory)
  {
    var selfKeys := Keys(data.selfScoresByCategory);
    var othersKeys := Keys(data.othersScoresByCategory);
    MergeKeepsFront(selfKeys, othersKeys);
    Dedup(selfKeys + othersKeys)
  }

  lemma MergeKeepsFront(front: seq<string>, back: seq<string>)
    ensures Distinct(front) ==> |front| <= |Dedup(front + back)| && Dedup(front + back)[..|front|] == front
  {
    DedupPrefix(front, back);
    if Distinct(front) {
      DedupDistinct(front);
    }
  }

  /** `record[category] || 0`. */
  function ScoreOrZero(table: seq<CategoryScore>, category: string): real
  {
    var s := Lookup(table, category);
    if s.Some? then s.value else 0.0
  }

  /** `prepareCategoryData` of the D3 view and the rows the Recharts view stores:
      nothing before a result has arrived; then one row per merged category, in that
      order, each score taken from its record or 0 when the record lacks the category. */
  function CategoryRows(result: Option<ResultData>): (rows: seq<CategoryRow>)
    ensures result.None? ==> rows == []
    ensures result.Some? ==> |rows| == |MergedCategories(result.value)|
    ensures result.Some? ==> forall i :: 0 <= i < |rows| ==>
      rows[i].category == MergedCategories(result.value)[i]
      && rows[i].self == ScoreOrZero(result.value.selfScoresByCategory, rows[i].category)
      && rows[i].others == ScoreOrZero(result.value.othersScoresByCategory, rows[i].category)
  {
    if result.None? then []
    else
      var data := result.value;
      var categories := MergedCategories(data);
      seq(|categories|, i requires 0 <= i < |categories| =>
        CategoryRow(categories[i], ScoreOrZero(data.selfScoresByCategory, categories[i]),
                    ScoreOrZero(data.othersScoresByCategory, categories[i])))
  }

  /** There are as many rows as distinct categories in the two records together. */
  lemma RowCountIsCategoryCount(data: ResultData)
    ensures |CategoryRows(Some(data))| ==
      |(set c | c in Keys(data.selfScoresByCategory)) + (set c | c in Keys(data.othersScoresByCategory))|
  {
    var categories := MergedCategories(data);
    DistinctCount(categories);
    assert (set c | c in categories) ==
      (set c | c in Keys(data.selfScoresByCategory)) + (set c | c in Keys(data.othersScoresByCategory));
  }

  /** A row's score is its record's value for the category when there is one and 0
      otherwise; so it is 0 exactly where its record lacks the category or records 0. */
  lemma MissingScoreIsZero(data: ResultData, i: nat)
    requires i < |CategoryRows(Some(data))|
    ensures var row := CategoryRows(Some(data))[i];
      && (row.category !in Keys(data.selfScoresByCategory) ==> row.self == 0.0)
      && (row.category !in Keys(data.othersScoresByCategory) ==> row.others == 0.0)
      && (row.category in Keys(data.selfScoresByCategory) ==> row.self == Lookup(data.selfScoresByCategory, row.category).value)
      && (row.category in Keys(data.othersScoresByCategory) ==> row.others == Lookup(data.othersScoresByCategory, row.category).value)
    ensures var row := CategoryRows(Some(data))[i];
      && (row.self == 0.0 <==> row.category !in Keys(data.selfScoresByCategory)
                               || Lookup(data.selfScoresByCategory, row.category).value == 0.0)
      && (row.others == 0.0 <==> row.category !in Keys(data.othersScoresByCategory)
                                 || Lookup(data.othersScoresByCategory, row.category).value == 0.0)
  {
  }

  function Sum(values: seq<real>): real
  {
    if values == [] then 0.0 else values[0] + Sum(values[1..])
  }

  /** A sum of values between `low` and `high` lies between `n * low` and `n * high`. */
  lemma {:induction false} SumBounds(values: seq<real>, low: real, high: real)
    requires forall i :: 0 <= i < |values| ==> low <= values[i] <= high
    ensures |values| as real * low <= Sum(values) <= |values| as real * high
  {
    if values != [] {
      SumBounds(values[1..], low, high);
    }
  }

  function SelfScores(rows: seq<CategoryRow>): (values: seq<real>)
    ensures |values| == |rows| && forall i :: 0 <= i < |rows| ==> values[i] == rows[i].self
  {
    seq(|rows|, i requires 0 <= i < |rows| => rows[i].self)
  }

  function OthersScores(rows: seq<CategoryRow>): (values: seq<real>)
    ensures |values| == |rows| && forall i :: 0 <= i < |rows| ==> values[i] == rows[i].others
  {
    seq(|rows|, i requires 0 <= i < |rows| => rows[i].others)
  }

  const OverallAverage: string := "전체 평균"

  /** A number that may be `NaN`. */
  datatype Number = Finite(value: real) | NaN

  /** One row of the MUI table. */
  datatype ChartRow = ChartRow(category: string, self: Number, others: Number)

  /** `sum / categoryData.length` as written: with no categories this is `0 / 0`. */
  function MeanAsWritten(values: seq<real>): (m: Number)
    ensures m == NaN <==> |values| == 0
  {
    if |values| == 0 then NaN else Finite(Sum(values) / |values| as real)
  }

  /** `sum / (length || 1)`, the guard the statistics page uses: 0 with no values. */
  function Mean(values: seq<real>): (m: real)
    ensures |values| == 0 ==> m == 0.0
    ensures |values| > 0 ==> Finite(m) == MeanAsWritten(values)
  {
    if |values| == 0 then 0.0 else Sum(values) / |values| as real
  }

  /** The mean of scores between `low` and `high` is between them too. */
  lemma MeanBounds(values: seq<real>, low: real, high: real)
    requires |values| > 0
    requires forall i :: 0 <= i < |values| ==> low <= values[i] <= high
    ensures low <= Mean(values) <= high
  {
    SumBounds(values, low, high);
    var n := |values| as real;
    assert low * n <= Sum(values) <= high * n;
    assert low <= Sum(values) / n by {
      assert low == (low * n) / n;
    }
    assert Sum(values) / n <= high by {
      assert high == (high * n) / n;
    }
  }

  function Finished(row: CategoryRow): ChartRow
  {
    ChartRow(row.category, Finite(row.self), Finite(row.others))
  }

  /** The MUI view's `prepareCategoryData` as written: nothing before a result has
      arrived; then the category rows and one `'전체 평균'` row, last, whose scores
      are `NaN` when there are no categories. */
  function MuiRowsAsWritten(result: Option<ResultData>): (rows: seq<ChartRow>)
    ensures result.None? ==> rows == []
    ensures result.Some? ==> |rows| == |CategoryRows(result)| + 1
    ensures result.Some? ==> forall i :: 0 <= i < |rows| - 1 ==> rows[i] == Finished(CategoryRows(result)[i])
    ensures result.Some? ==> (rows[|rows| - 1] ==
      ChartRow(OverallAverage, MeanAsWritten(SelfScores(CategoryRows(result))), MeanAsWritten(OthersScores(CategoryRows(result)))))
  {
    if result.None? then []
    else
      var categoryRows := CategoryRows(result);
      seq(|categoryRows|, i requires 0 <= i < |categoryRows| => Finished(categoryRows[i]))
      + [ChartRow(OverallAverage, MeanAsWritten(SelfScores(categoryRows)), MeanAsWritten(OthersScores(categoryRows)))]
  }

  /** A result with no category scores at all gets an average row of `NaN`. */
  lemma EmptyResultAverageIsNaN(data: ResultData)
    requires data.selfScoresByCategory == [] && data.othersScoresByCategory == []
    ensures MuiRowsAsWritten(Some(data)) == [ChartRow(OverallAverage, NaN, NaN)]
  {
    assert MergedCategories(data) == [];
  }

  /** The MUI view's rows with the guarded mean: the same rows, and an average row
      whose scores are numbers in every case. */
  function MuiRows(result: Option<ResultData>): (rows: seq<ChartRow>)
    ensures result.None? ==> rows == []
    ensures result.Some? ==> |rows| == |CategoryRows(result)| + 1
    ensures result.Some? ==> forall i :: 0 <= i < |rows| - 1 ==> rows[i] == Finished(CategoryRows(result)[i])
    ensures result.Some? ==> (rows[|rows| - 1] ==
      ChartRow(OverallAverage, Finite(Mean(SelfScores(CategoryRows(result)))), Finite(Mean(OthersScores(CategoryRows(result))))))
  {
    if result.None? then []
    else
      var categoryRows := CategoryRows(result);
      seq(|categoryRows|, i requires 0 <= i < |categoryRows| => Finished(categoryRows[i]))
      + [ChartRow(OverallAverage, Finite(Mean(SelfScores(categoryRows))), Finite(Mean(OthersScores(categoryRows))))]
  }

  /** The guarded rows agree with the rows as written whenever there is a category;
      the guarded table has one row per distinct category plus the average; each
      side of the average lies between the smallest and largest category score of
      that side, and both sides are 0 when there is no category. */
  lemma MuiRowsProperties(data: ResultData, lowSelf: real, highSelf: real, lowOthers: real, highOthers: real)
    requires forall i :: 0 <= i < |CategoryRows(Some(data))| ==>
      lowSelf <= CategoryRows(Some(data))[i].self <= highSelf
    requires forall i :: 0 <= i < |CategoryRows(Some(data))| ==>
      lowOthers <= CategoryRows(Some(data))[i].others <= highOthers
    ensures |CategoryRows(Some(data))| > 0 ==> MuiRows(Some(data)) == MuiRowsAsWritten(Some(data))
    ensures |MuiRows(Some(data))| ==
      |(set c | c in Keys(data.selfScoresByCategory)) + (set c | c in Keys(data.othersScoresByCategory))| + 1
    ensures |CategoryRows(Some(data))| > 0 ==>
      var average := MuiRows(Some(data))[|MuiRows(Some(data))| - 1];
      lowSelf <= average.self.value <= highSelf && lowOthers <= average.others.value <= highOthers
    ensures |CategoryRows(Some(data))| == 0 ==>
      MuiRows(Some(data)) == [ChartRow(OverallAverage, Finite(0.0), Finite(0.0))]
  {
    RowCountIsCategoryCount(data);
    var categoryRows := CategoryRows(Some(data));
    if |categoryRows| > 0 {
      MeanBounds(SelfScores(categoryRows), lowSelf, highSelf);
      MeanBounds(OthersScores(categoryRows), lowOthers, highOthers);
      assert MuiRows(Some(data)) == MuiRowsAsWritten(Some(data));
    }
  }

  /** The colour band of a percentile (lower is better). */
  datatype Status = Safe | Warning | Danger

  /** `getStatusColor` of the D3 view: the bounds 10 and 30 belong to the better band. */
  function StatusInclusive(percentile: real): (s: Status)
    ensures s == Safe <==> percentile <= 10.0
    ensures s == Warning <==> 10.0 < percentile <= 30.0
    ensures s == Danger <==> 30.0 < percentile
  {
    if percentile <= 10.0 then Safe
    else if percentile <= 30.0 then Warning
    else Danger
  }

  /** `getStatusColor` of the MUI and Recharts views (the MUI view returns the
      theme's success, warning and error colours): the bounds belong to the worse band. */
  function StatusExclusive(percentile: real): (s: Status)
    ensures s == Safe <==> percentile < 10.0
    ensures s == Warning <==> 10.0 <= percentile < 30.0
    ensures s == Danger <==> 30.0 <= percentile
  {
    if percentile < 10.0 then Safe
    else if percentile < 30.0 then Warning
    else Danger
  }

  function Rank(s: Status): nat
  {
    match s
    case Safe => 0
    case Warning => 1
    case Danger => 2
  }

  /** The views disagree at exactly the two bounds, where the D3 view shows the
      better band. */
  lemma ViewsDisagreeOnlyAtBounds(percentile: real)
    ensures StatusInclusive(percentile) != StatusExclusive(percentile) <==> percentile == 10.0 || percentile == 30.0
    ensures Rank(StatusInclusive(percentile)) <= Rank(StatusExclusive(percentile))
  {
  }

  /** A better (lower) percentile never gets a worse band, in either view. */
  lemma StatusMonotone(better: real, worse: real)
    requires better <= worse
    ensures Rank(StatusInclusive(better)) <= Rank(StatusInclusive(worse))
    ensures Rank(StatusExclusive(better)) <= Rank(StatusExclusive(worse))
  {
  }

  /** The Recharts view's state. */
  class RechartsResult {
    var resultData: Option<ResultData>
    var loading: bool
    var error: Option<string>
    var categoryData: seq<CategoryRow>

    constructor ()
      ensures resultData == None && loading && error == None && categoryData == []
    {
      resultData := None;
      loading := true;
      error := None;
      categoryData := [];
    }

    /** `fetchSurveyResult`: on success store the result and its category rows; on
        failure store the error and keep the rows; loading ends either way. */
    method FetchSurveyResult(reply: Response<ResultData>)
      modifies this
      ensures resultData == if reply.Ok? then Some(reply.value) else old(resultData)
      ensures categoryData == if reply.Ok? then CategoryRows(Some(reply.value)) else old(categoryData)
      ensures error == if reply.Failed? then Some(reply.message) else old(error)
      ensures !loading
    {
      loading := true;
      if reply.Ok? {
        resultData := Some(reply.value);
        categoryData := CategoryRows(Some(reply.value));
      } else {
        error := Some(reply.message);
      }
      loading := false;
    }
  }

  /** What the D3 and MUI result views draw, chosen by their three guards in order. */
  datatype Screen = LoadingScreen | ErrorScreen(message: string) | NoDataScreen | ResultScreen(data: ResultData)

  /** The state of the D3 view and of the MUI view, which keep the same three pieces
      and load them the same way; each derives its table from `resultData` when it
      draws (`CategoryRows` and `MuiRows`). */
  class ResultView {
    var resultData: Option<ResultData>
    var loading: bool
    var error: Option<string>

    constructor ()
      ensures resultData == None && loading && error == None
    {
      resultData := None;
      loading := true;
      error := None;
    }

    /** `fetchSurveyResult`: on success the parsed body becomes the result, which is
        `None` when the body is JSON `null`; on failure the message is stored; loading
        ends either way. */
    method FetchSurveyResult(reply: Response<Option<ResultData>>)
      modifies this
      ensures resultData == if reply.Ok? then reply.value else old(resultData)
      ensures error == if reply.Failed? then Some(reply.message) else old(error)
      ensures !loading
    {
      loading := true;
      if reply.Ok? {
        resultData := reply.value;
      } else {
        error := Some(reply.message);
      }
      loading := false;
    }

    /** The render guards: loading first, then a truthy error, then a missing result.
        An empty error message is falsy, so it falls through to the later guards. */
    function Shown(): (screen: Screen)
      reads this
      ensures screen == LoadingScreen <==> loading
      ensures screen.ErrorScreen? <==> !loading && error.Some? && |error.value| > 0
      ensures screen.ErrorScreen? ==> screen.message == error.value
      ensures screen == NoDataScreen <==> !loading && (error.None? || |error.value| == 0) && resultData.None?
      ensures screen.ResultScreen? ==> resultData == Some(screen.data)
    {
      if loading then LoadingScreen
      else if error.Some? && |error.value| > 0 then ErrorScreen(error.value)
      else if resultData.None? then NoDataScreen
      else ResultScreen(resultData.value)
    }
  }

  /** A view shows the loading text until its request settles; then a result is
      drawn, a failure shows its message, and a successful reply whose body is
      `null` shows "no data". */
  method ResultViewWalkThrough(data: ResultData, message: string)
    returns (before: Screen, loaded: Screen, failed: Screen, empty: Screen)
    requires |message| > 0
    ensures before == LoadingScreen && loaded == ResultScreen(data)
    ensures failed == ErrorScreen(message) && empty == NoDataScreen
  {
    var view := new ResultView();
    before := view.Shown();
    view.FetchSurveyResult(Ok(Some(data)));
    loaded := view.Shown();
    var other := new ResultView();
    other.FetchSurveyResult(Failed(message));
    failed := other.Shown();
    var blank := new ResultView();
    blank.FetchSurveyResult(Ok(None));
    empty := blank.Shown();
  }

  /** A failed first load leaves the chart empty and reports the error. */
  method FailedLoadWalkThrough(message: string) returns (rows: seq<CategoryRow>, shownError: Option<string>)
    ensures rows == [] && shownError == Some(message)
  {
    var view := new RechartsResult();
    view.FetchSurveyResult(Failed(message));
    rows := view.categoryData;
    shownError := view.error;
  }
}
