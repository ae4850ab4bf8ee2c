/** The statistics page: the filter record that selects a population, the buttons
    it enables, and the shaping of the returned statistics into chart rows. */
module Statistics {

  import opened Remote
  import Collections

  /** The six filter fields, all strings. */
  datatype FilterParams = FilterParams(
    year: string, evaluationName: string, organizationCode: string,
    personType: string, grade: string, sex: string)

  /** The `name` attribute of the select that changed. */
  datatype Field = Year | EvaluationName | OrganizationCode | PersonType | Grade | Sex

  function Get(p: FilterParams, f: Field): string
  {
    match f
    case Year => p.year
    case EvaluationName => p.evaluationName
    case OrganizationCode => p.organizationCode
    case PersonType => p.personType
    case Grade => p.grade
    case Sex => p.sex
  }

  /** `{ ...prev, [name]: value }`: the named field takes the value, every other
      field keeps its own. */
  function WithField(p: FilterParams, f: Field, value: string): (r: FilterParams)
    ensures Get(r, f) == value
    ensures forall g :: g != f ==> Get(r, g) == Get(p, g)
  {
    match f
    case Year => p.(year := value)
    case EvaluationName => p.(evaluationName := value)
    case OrganizationCode => p.(organizationCode := value)
    case PersonType => p.(personType := value)
    case Grade => p.(grade := value)
    case Sex => p.(sex := value)
  }

  /** The organization code that means every organization. */
  const AllOrganizations: string := "all"

  /** The filter the page starts with: every organization, every other field empty. */
  function InitialFilter(): (p: FilterParams)
    ensures Get(p, OrganizationCode) == AllOrganizations
    ensures forall f :: f != OrganizationCode ==> Get(p, f) == ""
  {
    FilterParams("", "", AllOrganizations, "", "", "")
  }

  datatype EvaluationPeriod = EvaluationPeriod(id: int, standardYear: string, evaluationName: string, isDeleted: bool)

  /** A score pair as the server sends it; either score may be missing. */
  datatype Scores = Scores(self: Option<real>, others: Option<real>)

  /** One `[key, scores]` pair of `Object.entries` on a grouped section. */
  datatype Entry = Entry(key: string, scores: Scores)

  datatype StatisticsData = StatisticsData(
    averageSelfScore: real, averageOthersScore: real,
    selfCompletionRate: real, othersCompletionRate: real,
    gradeStatistics: Option<seq<Entry>>,
    personTypeStatistics: Option<seq<Entry>>,
    sexStatistics: Option<seq<Entry>>,
    organizationStatistics: Option<seq<Entry>>,
    questionStatistics: Option<map<nat, Scores>>)

  const AverageKey: string := "평균"
  const DefaultStatisticsError: string := "통계 데이터를 불러오는 중 오류가 발생했습니다."

  /** How a grouped chart names its rows: the key itself, or the sex label. */
  datatype Labeling = Plain | SexLabels

  /** The sex label, used both in the sex filter options and the sex chart. */
  function SexLabel(key: string): (shown: string)
    ensures shown == "남성" <==> key == "M"
    ensures shown != "남성" ==> shown == "여성"
  {
    if key == "M" then "남성" else "여성"
  }

  function RowName(labeling: Labeling, key: string): string
  {
    match labeling
    case Plain => key
    case SexLabels => SexLabel(key)
  }

  datatype Row = Row(name: string, selfScore: Option<real>, othersScore: Option<real>)

  /** `.filter(([key]) => key !== '평균')`. */
  function WithoutAverage(entries: seq<Entry>): (kept: seq<Entry>)
    ensures forall e :: e in kept <==> e in entries && e.key != AverageKey
    ensures |kept| <= |entries|
  {
    if entries == [] then []
    else if entries[0].key == AverageKey then WithoutAverage(entries[1..])
    else [entries[0]] + WithoutAverage(entries[1..])
  }

  function DataRows(kept: seq<Entry>, labeling: Labeling): (rows: seq<Row>)
    ensures |rows| == |kept|
    ensures forall i :: 0 <= i < |kept| ==>
      rows[i] == Row(RowName(labeling, kept[i].key), kept[i].scores.self, kept[i].scores.others)
  {
    seq(|kept|, i requires 0 <= i < |kept| =>
      Row(RowName(labeling, kept[i].key), kept[i].scores.self, kept[i].scores.others))
  }

  /** `reduce((sum, x) => sum + x, 0)`: any missing score makes the sum `NaN`,
      modelled as absent. */
  function Total(values: seq<Option<real>>): (t: Option<real>)
    ensures t.Some? <==> forall i :: 0 <= i < |values| ==> values[i].Some?
  {
    if values == [] then Some(0.0)
    else
      var rest := Total(values[1..]);
      if values[0].Some? && rest.Some? then Some(values[0].value + rest.value)
      else None
  }

  /** `sum / (data.length || 1)`, before rounding: 0 for no rows. */
  function Average(values: seq<Option<real>>): Option<real>
  {
    var t := Total(values);
    if t.None? then None
    else if |values| == 0 then Some(0.0)
    else Some(t.value / |values| as real)
  }

  /** A total of values that all lie between `low` and `high` lies between
      `|values| * low` and `|values| * high`. */
  lemma {:induction false} TotalBounds(values: seq<Option<real>>, low: real, high: real)
    requires forall i :: 0 <= i < |values| ==> values[i].Some? && low <= values[i].value <= high
    ensures Total(values).Some?
    ensures |values| as real * low <= Total(values).value <= |values| as real * high
  {
    if values != [] {
      TotalBounds(values[1..], low, high);
    }
  }

  /** The average row lies within the range of the rows it averages. */
  lemma AverageBounds(values: seq<Option<real>>, low: real, high: real)
    requires |values| > 0
    requires forall i :: 0 <= i < |values| ==> values[i].Some? && low <= values[i].value <= high
    ensures Average(values).Some?
    ensures low <= Average(values).value <= high
  {
    TotalBounds(values, low, high);
    var n := |values| as real;
    var t := Total(values).value;
    assert n * low <= t <= n * high;
    DivisionBounds(t, n, low, high);
  }

  lemma DivisionBounds(t: real, n: real, low: real, high: real)
    requires n > 0.0 && n * low <= t <= n * high
    ensures low <= t / n <= high
  {
  }

  function SelfColumn(rows: seq<Row>): (values: seq<Option<real>>)
    ensures |values| == |rows| && forall i :: 0 <= i < |rows| ==> values[i] == rows[i].selfScore
  {
    seq(|rows|, i requires 0 <= i < |rows| => rows[i].selfScore)
  }

  function OthersColumn(rows: seq<Row>): (values: seq<Option<real>>)
    ensures |values| == |rows| && forall i :: 0 <= i < |rows| ==> values[i] == rows[i].othersScore
  {
    seq(|rows|, i requires 0 <= i < |rows| => rows[i].othersScore)
  }

  /** A grouped bar chart (grade, person type, sex or organization): nothing
      without that section; otherwise one row per entry whose key is not `'평균'`,
      in entry order, followed by exactly one `'평균'` row holding the averages of
      the rows before it. Rounding to two decimals is not modelled. */
  function GroupedChart(section: Option<seq<Entry>>, labeling: Labeling): (rows: seq<Row>)
    ensures section.None? ==> rows == []
    ensures section.Some? ==> |rows| == |WithoutAverage(section.value)| + 1
    ensures section.Some? ==> forall i :: 0 <= i < |rows| - 1 ==>
      rows[i] == Row(RowName(labeling, WithoutAverage(section.value)[i].key),
                     WithoutAverage(section.value)[i].scores.self,
                     WithoutAverage(section.value)[i].scores.others)
    ensures section.Some? ==> rows[|rows| - 1].name == AverageKey
    ensures section.Some? ==> forall i :: 0 <= i < |rows| - 1 ==> rows[i].name != AverageKey
  {
    if section.None? then []
    else
      var kept := WithoutAverage(section.value);
      var data := DataRows(kept, labeling);
      assert forall i :: 0 <= i < |kept| ==> kept[i] in kept;
      data + [Row(AverageKey, Average(SelfColumn(data)), Average(OthersColumn(data)))]
  }

  /** The `평균` row of a grouped chart lies, on each side, between the smallest and
      largest score of the rows it averages. */
  lemma GroupedAverageBounds(section: seq<Entry>, labeling: Labeling,
                             lowSelf: real, highSelf: real, lowOthers: real, highOthers: real)
    requires |WithoutAverage(section)| > 0
    requires forall e :: e in WithoutAverage(section) ==>
      e.scores.self.Some? && lowSelf <= e.scores.self.value <= highSelf
    requires forall e :: e in WithoutAverage(section) ==>
      e.scores.others.Some? && lowOthers <= e.scores.others.value <= highOthers
    ensures var rows := GroupedChart(Some(section), labeling);
      && rows[|rows| - 1].selfScore.Some? && lowSelf <= rows[|rows| - 1].selfScore.value <= highSelf
      && rows[|rows| - 1].othersScore.Some? && lowOthers <= rows[|rows| - 1].othersScore.value <= highOthers
  {
    var kept := WithoutAverage(section);
    var data := DataRows(kept, labeling);
    var rows := GroupedChart(Some(section), labeling);
    assert rows[|rows| - 1] == Row(AverageKey, Average(SelfColumn(data)), Average(OthersColumn(data)));
    assert forall i :: 0 <= i < |kept| ==> kept[i] in kept;
    AverageBounds(SelfColumn(data), lowSelf, highSelf);
    AverageBounds(OthersColumn(data), lowOthers, highOthers);
  }

  /** The question chart's row labels: `문항 {n}번` for the n-th pair, then `'평균'`. */
  datatype RowLabel = Ordinal(n: nat) | AverageLabel

  datatype PairRow = PairRow(rowLabel: RowLabel, selfId: Option<nat>, othersId: Option<nat>, selfScore: Option<real>, othersScore: Option<real>)

  /** Which score of a pair a list of question ids is built from. */
  datatype Kind = SelfKind | OthersKind

  function Pick(scores: Scores, kind: Kind): Option<real>
  {
    match kind
    case SelfKind => scores.self
    case OthersKind => scores.others
  }

  /** The questions that have a score of the given kind, with that score. */
  function Scored(stats: map<nat, Scores>, kind: Kind): (scores: map<nat, real>)
    ensures forall k :: k in scores <==> k in stats && Pick(stats[k], kind).Some?
    ensures forall k :: k in scores ==> scores[k] == Pick(stats[k], kind).value
  {
    map k | k in stats && Pick(stats[k], kind).Some? :: Pick(stats[k], kind).value
  }

  /** The record the `forEach` has filled after visiting the questions `ids`. */
  function Filed(stats: map<nat, Scores>, ids: seq<nat>, kind: Kind): map<nat, real>
    requires forall k :: k in ids ==> k in stats
  {
    if ids == [] then map[]
    else
      var id := ids[|ids| - 1];
      var before := Filed(stats, ids[..|ids| - 1], kind);
      if Pick(stats[id], kind).Some? then before[id := Pick(stats[id], kind).value] else before
  }

  /** Visiting every question files exactly the questions that have a score of
      that kind, each with its score. */
  lemma {:induction false} FiledIsScored(stats: map<nat, Scores>, ids: seq<nat>, kind: Kind)
    requires forall k :: k in ids ==> k in stats
    ensures forall k :: k in Filed(stats, ids, kind) <==> k in ids && Pick(stats[k], kind).Some?
    ensures forall k :: k in Filed(stats, ids, kind) ==> Filed(stats, ids, kind)[k] == Pick(stats[k], kind).value
  {
    if ids != [] {
      var front := ids[..|ids| - 1];
      FiledIsScored(stats, front, kind);
      assert ids == front + [ids[|ids| - 1]];
    }
  }

  /** Visiting one more question files its score, if it has one of that kind. */
  lemma FiledStep(stats: map<nat, Scores>, ids: seq<nat>, i: nat, kind: Kind)
    requires i < |ids| && forall k :: k in ids ==> k in stats
    ensures var id := ids[i];
      Filed(stats, ids[..i + 1], kind) ==
        if Pick(stats[id], kind).Some? then Filed(stats, ids[..i], kind)[id := Pick(stats[id], kind).value]
        else Filed(stats, ids[..i], kind)
  {
    assert ids[..i + 1][..i] == ids[..i];
  }

  /** The `i`-th id of a sorted list, `null` past its end. */
  function At(ids: seq<nat>, i: nat): Option<nat>
  {
    if i < |ids| then Some(ids[i]) else None
  }

  function ScoreOf(scores: map<nat, real>, id: Option<nat>): Option<real>
  {
    if id.Some? && id.value in scores then Some(scores[id.value]) else None
  }

  function SumOver(ids: seq<nat>, scores: map<nat, real>): real
    requires forall k :: k in ids ==> k in scores
  {
    if ids == [] then 0.0 else scores[ids[0]] + SumOver(ids[1..], scores)
  }

  /** The exact mean of the listed scores, 0 when there are none. */
  function MeanOver(ids: seq<nat>, scores: map<nat, real>): real
    requires forall k :: k in ids ==> k in scores
  {
    if |ids| > 0 then SumOver(ids, scores) / |ids| as real else 0.0
  }

  function Max(a: nat, b: nat): nat
  {
    if a < b then b else a
  }

  /** The question chart. The questions with a self score and those with an others
      score are each sorted by numeric id on their own; row `i` pairs the `i`-th of
      each list, with `null` where a list has run out, so a self and an others score
      on the same row may belong to different questions. The rows end with one
      `'평균'` row holding each list's mean. */
  method QuestionChart(stats: Option<map<nat, Scores>>) returns (rows: seq<PairRow>)
    ensures stats.None? ==> rows == []
    ensures stats.Some? ==>
      var selfScores := Scored(stats.value, SelfKind);
      var othersScores := Scored(stats.value, OthersKind);
      var selfIds := Collections.SortedNats(selfScores.Keys);
      var othersIds := Collections.SortedNats(othersScores.Keys);
      |rows| == Max(|selfIds|, |othersIds|) + 1
      && (forall i :: 0 <= i < |rows| - 1 ==>
            rows[i] == PairRow(Ordinal(i + 1), At(selfIds, i), At(othersIds, i),
                               ScoreOf(selfScores, At(selfIds, i)), ScoreOf(othersScores, At(othersIds, i))))
      && rows[|rows| - 1] == PairRow(AverageLabel, None, None,
                                     Some(MeanOver(selfIds, selfScores)), Some(MeanOver(othersIds, othersScores)))
  {
    if stats.None? {
      return [];
    }
    var selfQuestions, othersQuestions := SplitByType(stats.value);
    var selfIds := Collections.SortedNats(selfQuestions.Keys);
    var othersIds := Collections.SortedNats(othersQuestions.Keys);
    rows := PairByRank(selfIds, othersIds, selfQuestions, othersQuestions);
    rows := rows + [PairRow(AverageLabel, None, None, Some(MeanOver(selfIds, selfQuestions)), Some(MeanOver(othersIds, othersQuestions)))];
  }

  lemma FiledAll(stats: map<nat, Scores>, ids: seq<nat>, kind: Kind)
    requires forall k :: k in ids <==> k in stats
    ensures Filed(stats, ids, kind) == Scored(stats, kind)
  {
    FiledIsScored(stats, ids, kind);
  }

  /** The `forEach` that files each question's self score and others score apart. */
  method SplitByType(all: map<nat, Scores>) returns (selfQuestions: map<nat, real>, othersQuestions: map<nat, real>)
    ensures selfQuestions == Scored(all, SelfKind) && othersQuestions == Scored(all, OthersKind)
  {
    var keys := Collections.SortedNats(all.Keys);
    selfQuestions := map[];
    othersQuestions := map[];
    for i := 0 to |keys|
      invariant selfQuestions == Filed(all, keys[..i], SelfKind)
      invariant othersQuestions == Filed(all, keys[..i], OthersKind)
    {
      var id := keys[i];
      FiledStep(all, keys, i, SelfKind);
      FiledStep(all, keys, i, OthersKind);
      if all[id].self.Some? {
        selfQuestions := selfQuestions[id := all[id].self.value];
      }
      if all[id].others.Some? {
        othersQuestions := othersQuestions[id := all[id].others.value];
      }
    }
    assert keys[..|keys|] == keys;
    FiledAll(all, keys, SelfKind);
    FiledAll(all, keys, OthersKind);
  }

  /** The `for` loop that pairs the two sorted lists rank by rank. */
  method PairByRank(selfIds: seq<nat>, othersIds: seq<nat>, selfQuestions: map<nat, real>, othersQuestions: map<nat, real>)
    returns (rows: seq<PairRow>)
    ensures |rows| == Max(|selfIds|, |othersIds|)
    ensures forall i :: 0 <= i < |rows| ==>
      rows[i] == PairRow(Ordinal(i + 1), At(selfIds, i), At(othersIds, i),
                         ScoreOf(selfQuestions, At(selfIds, i)), ScoreOf(othersQuestions, At(othersIds, i)))
  {
    rows := [];
    for i := 0 to Max(|selfIds|, |othersIds|)
      invariant |rows| == i
      invariant forall j :: 0 <= j < i ==>
        rows[j] == PairRow(Ordinal(j + 1), At(selfIds, j), At(othersIds, j),
                           ScoreOf(selfQuestions, At(selfIds, j)), ScoreOf(othersQuestions, At(othersIds, j)))
    {
      var selfId := At(selfIds, i);
      var othersId := At(othersIds, i);
      rows := rows + [PairRow(Ordinal(i + 1), selfId, othersId, ScoreOf(selfQuestions, selfId), ScoreOf(othersQuestions, othersId))];
    }
  }

  /** One row of the question table: `scores.self || 0` and `scores.others || 0`. */
  datatype QuestionRow = QuestionRow(questionId: nat, selfScore: real, othersScore: real)

  function OrZero(score: Option<real>): real
  {
    if score.Some? then score.value else 0.0
  }

  /** `prepareQuestionData`: nothing without question statistics; otherwise one row
      per question in ascending numeric id, each score defaulting to 0. */
  function QuestionData(stats: Option<map<nat, Scores>>): (rows: seq<QuestionRow>)
    ensures stats.None? ==> rows == []
    ensures stats.Some? ==> |rows| == |stats.value|
    ensures stats.Some? ==> forall i, j :: 0 <= i < j < |rows| ==> rows[i].questionId < rows[j].questionId
    ensures stats.Some? ==> forall k :: k in stats.value <==> k in QuestionRowIds(rows)
    ensures stats.Some? ==> forall i :: 0 <= i < |rows| ==> (rows[i].questionId in stats.value
      && rows[i].selfScore == OrZero(stats.value[rows[i].questionId].self)
      && rows[i].othersScore == OrZero(stats.value[rows[i].questionId].others))
  {
    if stats.None? then []
    else
      var all := stats.value;
      var ids := Collections.SortedNats(all.Keys);
      var rows := seq(|ids|, i requires 0 <= i < |ids| =>
        QuestionRow(ids[i], OrZero(all[ids[i]].self), OrZero(all[ids[i]].others)));
      assert QuestionRowIds(rows) == ids;
      rows
  }

  /** The question ids of the per-question statistics rows, in row order. */
  function QuestionRowIds(rows: seq<QuestionRow>): (ids: seq<nat>)
    ensures |ids| == |rows| && forall i :: 0 <= i < |rows| ==> ids[i] == rows[i].questionId
  {
    seq(|rows|, i requires 0 <= i < |rows| => rows[i].questionId)
  }

  /** The page state the filter handlers and loaders change. */
  class StatisticsPage {
    var years: seq<string>
    var evaluations: seq<EvaluationPeriod>
    var filter: FilterParams
    var isExcelView: bool
    var loading: bool
    var statistics: Option<StatisticsData>
    var error: Option<string>

    constructor ()
      ensures years == [] && evaluations == [] && filter == InitialFilter()
      ensures !isExcelView && !loading && statistics == None && error == None
    {
      years := [];
      evaluations := [];
      filter := InitialFilter();
      isExcelView := false;
      loading := false;
      statistics := None;
      error := None;
    }

    /** `handleChange`: a select changes its own field and no other. */
    method HandleChange(field: Field, value: string)
      modifies this`filter
      ensures filter == WithField(old(filter), field, value)
    {
      filter := WithField(filter, field, value);
    }

    /** Loading the years: store them and select the first one, if any. A failure
        is only logged. */
    method LoadYears(reply: Response<seq<string>>)
      modifies this`years, this`filter
      ensures years == if reply.Ok? then reply.value else old(years)
      ensures filter == if reply.Ok? && |reply.value| > 0 then WithField(old(filter), Year, reply.value[0]) else old(filter)
    {
      if reply.Ok? {
        years := reply.value;
        if |reply.value| > 0 {
          filter := WithField(filter, Year, reply.value[0]);
        }
      }
    }

    /** Loading the evaluations of the selected year: nothing is requested without a
        year; on success the first evaluation's name is selected, or none when the
        list is empty. A failure is only logged. */
    method LoadEvaluations(reply: Response<seq<EvaluationPeriod>>) returns (requested: bool)
      modifies this`evaluations, this`filter
      ensures requested <==> old(filter).year != ""
      ensures evaluations == if requested && reply.Ok? then reply.value else old(evaluations)
      ensures filter == if requested && reply.Ok? then
          WithField(old(filter), EvaluationName, if |reply.value| > 0 then reply.value[0].evaluationName else "")
        else old(filter)
    {
      requested := filter.year != "";
      if !requested {
        return;
      }
      if reply.Ok? {
        evaluations := reply.value;
        var name := if |reply.value| > 0 then reply.value[0].evaluationName else "";
        filter := WithField(filter, EvaluationName, name);
      }
    }

    method ToggleExcelView()
      modifies this`isExcelView
      ensures isExcelView == !old(isExcelView)
    {
      isExcelView := !isExcelView;
    }

    /** The query button is enabled: a year and an evaluation are chosen and no
        request is running. */
    predicate QueryEnabled()
      reads this
    {
      filter.year != "" && filter.evaluationName != "" && !loading
    }

    /** The download button exists only in the spreadsheet view and is enabled
        under the same condition as the query button. */
    predicate DownloadEnabled()
      reads this
    {
      isExcelView && QueryEnabled()
    }

    /** `fetchStatistics`: post the filter; store the statistics on success; on
        failure report the server's message, or the default one when it has none,
        and keep the previous statistics. Loading ends either way. */
    method FetchStatistics(reply: Response<StatisticsData>) returns (body: FilterParams)
      modifies this`statistics, this`error, this`loading
      ensures body == filter
      ensures statistics == if reply.Ok? then Some(reply.value) else old(statistics)
      ensures error == if reply.Ok? then None
                       else Some(if reply.message != "" then reply.message else DefaultStatisticsError)
      ensures !loading
    {
      body := filter;
      loading := true;
      error := None;
      if reply.Ok? {
        statistics := Some(reply.value);
      } else {
        error := Some(if reply.message != "" then reply.message else DefaultStatisticsError);
      }
      loading := false;
    }
  }

  /** Once the years and evaluations are loaded, querying is possible exactly when a
      year and an evaluation exist, whatever the user chose before. */
  method DefaultsEnableQuery(yearList: seq<string>, evaluationList: seq<EvaluationPeriod>) returns (enabled: bool)
    ensures enabled <==> |yearList| > 0 && yearList[0] != "" && |evaluationList| > 0 && evaluationList[0].evaluationName != ""
  {
    var page := new StatisticsPage();
    page.LoadYears(Ok(yearList));
    var _ := page.LoadEvaluations(Ok(evaluationList));
    enabled := page.QueryEnabled();
  }
}
