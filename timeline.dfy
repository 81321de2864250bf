/**
 * The weekly mood timeline of main.py (`print_mood_timeline`): group the
 * compound scores of analysed commits by week, sort the week keys, keep the
 * last eight, and turn each week's mean score into a 40-cell bar with a
 * colour. The console output is modelled as the returned list of rows.
 *
 * The week key (`strftime('%Y-W%U')`, Sunday-start week numbers) is the
 * parameter `weekOf`, an arbitrary function of the commit date.
 */
module Timeline {
  import opened Text
  import opened Sentiment

  const MaxWeeks: nat := 8
  const BarWidth: nat := 40
  const FullCell: char := '█'
  const EmptyCell: char := '░'

  datatype Colour = Green | Red | Yellow

  /** One printed line: week key, mean score, filled length, the bar itself, its colour. */
  datatype Row = Row(week: string, avg: real, barLength: int, bar: string, colour: Colour)

  function WeekOfCommit(x: AnalyzedCommit, weekOf: DateTime -> string): string
  {
    weekOf(x.commit.date)
  }

  /** The `weekly_moods` dictionary after appending the scores of `xs` in order. */
  function WeekBuckets(xs: seq<AnalyzedCommit>, weekOf: DateTime -> string): map<string, seq<real>>
  {
    if xs == [] then map[]
    else
      var m := WeekBuckets(xs[..|xs| - 1], weekOf);
      var w := WeekOfCommit(xs[|xs| - 1], weekOf);
      m[w := (if w in m then m[w] else []) + [xs[|xs| - 1].sentiment.compound]]
  }

  /** The dictionary's keys in insertion (first appearance) order. */
  function WeekOrder(xs: seq<AnalyzedCommit>, weekOf: DateTime -> string): seq<string>
  {
    if xs == [] then []
    else
      var ks := WeekOrder(xs[..|xs| - 1], weekOf);
      var w := WeekOfCommit(xs[|xs| - 1], weekOf);
      if w in ks then ks else ks + [w]
  }

  /** Independent reference: the compound scores of the commits of week `w`, in commit order. */
  function ScoresOfWeek(xs: seq<AnalyzedCommit>, weekOf: DateTime -> string, w: string): seq<real>
  {
    if xs == [] then []
    else
      ScoresOfWeek(xs[..|xs| - 1], weekOf, w) +
      (if WeekOfCommit(xs[|xs| - 1], weekOf) == w then [xs[|xs| - 1].sentiment.compound] else [])
  }

  /** The dictionary's keys and its key order hold the same weeks, each listed once. */
  lemma {:induction false} OrderMatchesBuckets(xs: seq<AnalyzedCommit>, weekOf: DateTime -> string)
    ensures forall w :: w in WeekBuckets(xs, weekOf) <==> w in WeekOrder(xs, weekOf)
    ensures Distinct(WeekOrder(xs, weekOf))
  {
    if xs != [] {
      OrderMatchesBuckets(xs[..|xs| - 1], weekOf);
    }
  }

  /** Each bucket holds exactly its week's scores in commit order, so none is
      empty, and a week with no bucket has no scores. */
  lemma {:induction false} BucketsHoldScores(xs: seq<AnalyzedCommit>, weekOf: DateTime -> string)
    ensures forall w :: w in WeekBuckets(xs, weekOf) ==>
      WeekBuckets(xs, weekOf)[w] == ScoresOfWeek(xs, weekOf, w) && |WeekBuckets(xs, weekOf)[w]| > 0
    ensures forall w :: w !in WeekBuckets(xs, weekOf) ==> ScoresOfWeek(xs, weekOf, w) == []
  {
    if xs != [] {
      BucketsHoldScores(xs[..|xs| - 1], weekOf);
    }
  }

  /** The buckets are exactly the weeks in which some commit falls. */
  lemma {:induction false} BucketsAreWeeks(xs: seq<AnalyzedCommit>, weekOf: DateTime -> string)
    ensures forall w :: w in WeekBuckets(xs, weekOf) <==>
      exists i :: 0 <= i < |xs| && WeekOfCommit(xs[i], weekOf) == w
  {
    if xs != [] {
      var pre := xs[..|xs| - 1];
      BucketsAreWeeks(pre, weekOf);
      forall v ensures v in WeekBuckets(xs, weekOf) <==>
        exists i :: 0 <= i < |xs| && WeekOfCommit(xs[i], weekOf) == v
      {
        if v in WeekBuckets(pre, weekOf) {
          var i :| 0 <= i < |pre| && WeekOfCommit(pre[i], weekOf) == v;
          assert xs[i] == pre[i];
        }
        if exists i :: 0 <= i < |xs| && WeekOfCommit(xs[i], weekOf) == v {
          var i :| 0 <= i < |xs| && WeekOfCommit(xs[i], weekOf) == v;
          if i < |pre| {
            assert pre[i] == xs[i];
          }
        }
      }
    }
  }

  /** Sum of the bucket sizes over a list of keys. */
  function SizeSum(m: map<string, seq<real>>, ks: seq<string>): nat
  {
    if ks == [] then 0
    else SizeSum(m, ks[..|ks| - 1]) + (if ks[|ks| - 1] in m then |m[ks[|ks| - 1]]| else 0)
  }

  lemma {:induction false} SizeSumOther(m: map<string, seq<real>>, ks: seq<string>, w: string, b: seq<real>)
    requires w !in ks
    ensures SizeSum(m[w := b], ks) == SizeSum(m, ks)
  {
    if ks != [] {
      SizeSumOther(m, ks[..|ks| - 1], w, b);
    }
  }

  lemma {:induction false} SizeSumGrow(m: map<string, seq<real>>, ks: seq<string>, w: string, c: real)
    requires Distinct(ks) && w in ks && w in m
    ensures SizeSum(m[w := m[w] + [c]], ks) == SizeSum(m, ks) + 1
  {
    var pre := ks[..|ks| - 1];
    if ks[|ks| - 1] == w {
      assert w !in pre;
      SizeSumOther(m, pre, w, m[w] + [c]);
    } else {
      SizeSumGrow(m, pre, w, c);
    }
  }

  /** Every commit lands in exactly one bucket: the bucket sizes add up to the number of commits. */
  lemma {:induction false} BucketSizesSum(xs: seq<AnalyzedCommit>, weekOf: DateTime -> string)
    ensures SizeSum(WeekBuckets(xs, weekOf), WeekOrder(xs, weekOf)) == |xs|
  {
    if xs != [] {
      var pre := xs[..|xs| - 1];
      BucketSizesSum(pre, weekOf);
      OrderMatchesBuckets(pre, weekOf);
      var m, ks := WeekBuckets(pre, weekOf), WeekOrder(pre, weekOf);
      var w := WeekOfCommit(xs[|xs| - 1], weekOf);
      var c := xs[|xs| - 1].sentiment.compound;
      if w in ks {
        assert WeekBuckets(xs, weekOf) == m[w := m[w] + [c]];
        assert WeekOrder(xs, weekOf) == ks;
        SizeSumGrow(m, ks, w, c);
      } else {
        assert w !in m && [] + [c] == [c];
        assert WeekBuckets(xs, weekOf) == m[w := [c]];
        assert WeekOrder(xs, weekOf) == ks + [w];
        SizeSumOther(m, ks, w, [c]);
        assert (ks + [w])[..|ks + [w]| - 1] == ks;
      }
    }
  }

  /** `weeks[-8:]`: the last eight keys, or all of them when there are fewer. */
  function LastWeeks(weeks: seq<string>): (r: seq<string>)
    ensures |r| == if |weeks| < MaxWeeks then |weeks| else MaxWeeks
    ensures r == weeks[|weeks| - |r|..]
  {
    if |weeks| <= MaxWeeks then weeks else weeks[|weeks| - MaxWeeks..]
  }

  function Sum(b: seq<real>): real
  {
    if b == [] then 0.0 else Sum(b[..|b| - 1]) + b[|b| - 1]
  }

  /** `sum(b) / len(b)`, defined because no bucket is empty. */
  function Mean(b: seq<real>): real
    requires |b| > 0
  {
    Sum(b) / |b| as real
  }

  lemma {:induction false} SumBounds(b: seq<real>)
    requires forall i :: 0 <= i < |b| ==> -1.0 <= b[i] <= 1.0
    ensures -(|b| as real) <= Sum(b) <= |b| as real
  {
    if b != [] {
      SumBounds(b[..|b| - 1]);
    }
  }

  /** The mean of scores in [-1, 1] is in [-1, 1]. */
  lemma MeanBounds(b: seq<real>)
    requires |b| > 0
    requires forall i :: 0 <= i < |b| ==> -1.0 <= b[i] <= 1.0
    ensures -1.0 <= Mean(b) <= 1.0
  {
    SumBounds(b);
    var n := |b| as real;
    assert Mean(b) * n == Sum(b);
  }

  /** Python's `int(x)` on a float: truncation toward zero. */
  function Trunc(x: real): (r: int)
    ensures 0.0 <= x ==> r as real <= x < r as real + 1.0
    ensures x < 0.0 ==> r as real - 1.0 < x <= r as real
  {
    if x >= 0.0 then x.Floor else -((-x).Floor)
  }

  function BarLength(avg: real): int
  {
    Trunc((avg + 1.0) * 20.0)
  }

  /** For a mean in [-1, 1] the filled length is floor((avg+1)*20), between 0 and 40. */
  lemma BarLengthRange(avg: real)
    requires -1.0 <= avg <= 1.0
    ensures BarLength(avg) == ((avg + 1.0) * 20.0).Floor
    ensures 0 <= BarLength(avg) <= BarWidth as int
  {
    var n := BarLength(avg);
    assert n as real <= 40.0;
  }

  /** `"█" * n + "░" * (40 - n)`. */
  function Bar(n: int): string
  {
    Repeat(FullCell, n) + Repeat(EmptyCell, BarWidth as int - n)
  }

  /** A length in [0, 40] gives n filled cells followed by 40 - n empty ones. */
  lemma BarShape(n: int)
    requires 0 <= n <= BarWidth as int
    ensures |Bar(n)| == BarWidth as int
    ensures forall i :: 0 <= i < n ==> Bar(n)[i] == FullCell
    ensures forall i :: n <= i < BarWidth as int ==> Bar(n)[i] == EmptyCell
  {
  }

  function ColourOf(avg: real): (c: Colour)
    ensures c == Green <==> avg > 0.0
    ensures c == Red <==> avg < 0.0
    ensures c == Yellow <==> avg == 0.0
  {
    if avg > 0.0 then Green else if avg < 0.0 then Red else Yellow
  }

  /** The row printed for week `week` whose bucket is `scores`. */
  function MakeRow(week: string, scores: seq<real>): Row
    requires |scores| > 0
  {
    var avg := Mean(scores);
    var n := BarLength(avg);
    Row(week, avg, n, Bar(n), ColourOf(avg))
  }

  /** The weeks shown: the last eight of the sorted keys. */
  function ShownWeeks(xs: seq<AnalyzedCommit>, weekOf: DateTime -> string): seq<string>
  {
    LastWeeks(SortStrings(WeekOrder(xs, weekOf)))
  }

  /** The first loop of `print_mood_timeline`: append every commit's compound
      score to the list of its week, creating the list on first use. */
  method GroupByWeek(analyzed: seq<AnalyzedCommit>, weekOf: DateTime -> string)
    returns (weeklyMoods: map<string, seq<real>>, keyOrder: seq<string>)
    ensures weeklyMoods == WeekBuckets(analyzed, weekOf)
    ensures keyOrder == WeekOrder(analyzed, weekOf)
  {
    weeklyMoods, keyOrder := map[], [];
    for i := 0 to |analyzed|
      invariant weeklyMoods == WeekBuckets(analyzed[..i], weekOf)
      invariant keyOrder == WeekOrder(analyzed[..i], weekOf)
    {
      ghost var seen := analyzed[..i + 1];
      assert seen[..i] == analyzed[..i] && seen[i] == analyzed[i];
      OrderMatchesBuckets(analyzed[..i], weekOf);
      var week := weekOf(analyzed[i].commit.date);
      if week !in weeklyMoods {
        // defaultdict(list): the first access inserts an empty list
        weeklyMoods := weeklyMoods[week := []];
        keyOrder := keyOrder + [week];
      }
      weeklyMoods := weeklyMoods[week := weeklyMoods[week] + [analyzed[i].sentiment.compound]];
    }
    assert analyzed[..|analyzed|] == analyzed;
  }

  /** The second loop of `print_mood_timeline`: one row per shown week, from its bucket. */
  method EmitRows(shown: seq<string>, weeklyMoods: map<string, seq<real>>) returns (rows: seq<Row>)
    requires forall k :: 0 <= k < |shown| ==> shown[k] in weeklyMoods && |weeklyMoods[shown[k]]| > 0
    ensures |rows| == |shown|
    ensures forall k :: 0 <= k < |shown| ==> rows[k] == MakeRow(shown[k], weeklyMoods[shown[k]])
  {
    rows := [];
    for j := 0 to |shown|
      invariant |rows| == j
      invariant forall k :: 0 <= k < j ==> rows[k] == MakeRow(shown[k], weeklyMoods[shown[k]])
    {
      var week := shown[j];
      var scores := weeklyMoods[week];
      var avgMood := Mean(scores);
      var barLength := Trunc((avgMood + 1.0) * 20.0);
      var bar := Repeat(FullCell, barLength) + Repeat(EmptyCell, BarWidth as int - barLength);
      var color := if avgMood > 0.0 then Green else if avgMood < 0.0 then Red else Yellow;
      var row := Row(week, avgMood, barLength, bar, color);
      assert row == MakeRow(week, scores);
      rows := rows + [row];
    }
  }

  /** `print_mood_timeline`, returning the rows it prints: one per shown week,
      in ascending key order, each built from the mean of that week's scores. */
  method PrintMoodTimeline(analyzed: seq<AnalyzedCommit>, weekOf: DateTime -> string) returns (rows: seq<Row>)
    ensures |rows| == |ShownWeeks(analyzed, weekOf)| <= MaxWeeks
    ensures forall k :: 0 <= k < |rows| ==>
      rows[k].week == ShownWeeks(analyzed, weekOf)[k] &&
      |ScoresOfWeek(analyzed, weekOf, rows[k].week)| > 0 &&
      rows[k] == MakeRow(rows[k].week, ScoresOfWeek(analyzed, weekOf, rows[k].week))
  {
    var weeklyMoods, keyOrder := GroupByWeek(analyzed, weekOf);
    var weeks := SortStrings(keyOrder);
    var shown := LastWeeks(weeks);
    ShownHaveBuckets(analyzed, weekOf);
    assert forall k :: 0 <= k < |shown| ==> shown[k] in weeklyMoods && |weeklyMoods[shown[k]]| > 0;
    rows := EmitRows(shown, weeklyMoods);
  }

  /** Every shown week has a bucket, and that bucket is the week's non-empty list of scores. */
  lemma ShownHaveBuckets(xs: seq<AnalyzedCommit>, weekOf: DateTime -> string)
    ensures forall w :: w in ShownWeeks(xs, weekOf) ==>
      w in WeekBuckets(xs, weekOf) &&
      WeekBuckets(xs, weekOf)[w] == ScoresOfWeek(xs, weekOf, w) &&
      |ScoresOfWeek(xs, weekOf, w)| > 0
  {
    OrderMatchesBuckets(xs, weekOf);
    BucketsHoldScores(xs, weekOf);
    var ks := WeekOrder(xs, weekOf);
    var weeks := SortStrings(ks);
    forall w | w in ShownWeeks(xs, weekOf) ensures w in ks {
      assert w in weeks;
      assert w in multiset(weeks);
    }
  }

  /** The shown weeks are strictly ascending, all occur in the history, and every
      week that occurs but is not shown is earlier than every shown week. */
  lemma ShownWeeksAreLatest(xs: seq<AnalyzedCommit>, weekOf: DateTime -> string)
    ensures forall i, j :: 0 <= i < j < |ShownWeeks(xs, weekOf)| ==>
      LexLe(ShownWeeks(xs, weekOf)[i], ShownWeeks(xs, weekOf)[j]) &&
      ShownWeeks(xs, weekOf)[i] != ShownWeeks(xs, weekOf)[j]
    ensures forall w :: w in ShownWeeks(xs, weekOf) ==> w in WeekBuckets(xs, weekOf)
    ensures forall w, v :: (w in WeekBuckets(xs, weekOf) && w !in ShownWeeks(xs, weekOf) &&
      v in ShownWeeks(xs, weekOf)) ==> LexLe(w, v)
  {
    OrderMatchesBuckets(xs, weekOf);
    var ks := WeekOrder(xs, weekOf);
    var weeks := SortStrings(ks);
    SortedDistinctStrict(ks);
    var shown := ShownWeeks(xs, weekOf);
    SuffixStrict(weeks, shown);
    forall w, v | w in WeekBuckets(xs, weekOf) && w !in shown && v in shown ensures LexLe(w, v) {
      assert w in ks;
      SuffixDominates(weeks, shown, w, v);
    }
  }

  /** A suffix of a sorted list without duplicates is strictly ascending. */
  lemma SuffixStrict(weeks: seq<string>, shown: seq<string>)
    requires Sorted(weeks) && Distinct(weeks)
    requires |shown| <= |weeks| && shown == weeks[|weeks| - |shown|..]
    ensures forall i, j :: 0 <= i < j < |shown| ==> LexLe(shown[i], shown[j]) && shown[i] != shown[j]
  {
    var start := |weeks| - |shown|;
    forall i, j | 0 <= i < j < |shown| ensures LexLe(shown[i], shown[j]) && shown[i] != shown[j] {
      assert shown[i] == weeks[start + i] && shown[j] == weeks[start + j];
    }
  }

  /** Everything a sorted list holds outside its suffix sorts before the suffix. */
  lemma SuffixDominates(weeks: seq<string>, shown: seq<string>, w: string, v: string)
    requires Sorted(weeks)
    requires |shown| <= |weeks| && shown == weeks[|weeks| - |shown|..]
    requires w in weeks && w !in shown && v in shown
    ensures LexLe(w, v)
  {
    var start := |weeks| - |shown|;
    var a :| 0 <= a < |weeks| && weeks[a] == w;
    var b :| 0 <= b < |shown| && shown[b] == v;
    assert weeks[start + b] == v;
    assert forall k :: start <= k < |weeks| ==> weeks[k] == shown[k - start];
    assert a < start;
  }

  /** A week's scores come from the batch, so they inherit its range. */
  lemma {:induction false} ScoresOfWeekInRange(xs: seq<AnalyzedCommit>, weekOf: DateTime -> string, w: string)
    requires CompoundsInRange(xs)
    ensures forall i :: 0 <= i < |ScoresOfWeek(xs, weekOf, w)| ==> -1.0 <= ScoresOfWeek(xs, weekOf, w)[i] <= 1.0
  {
    if xs != [] {
      ScoresOfWeekInRange(xs[..|xs| - 1], weekOf, w);
    }
  }

  /** For scores in [-1, 1] a row's mean is in [-1, 1], its filled length is
      floor((avg+1)*20) in [0, 40], its bar has 40 cells of which exactly the
      first barLength are filled, and its colour follows the sign of the mean. */
  lemma RowWellFormed(week: string, scores: seq<real>)
    requires |scores| > 0
    requires forall i :: 0 <= i < |scores| ==> -1.0 <= scores[i] <= 1.0
    ensures -1.0 <= MakeRow(week, scores).avg <= 1.0
    ensures MakeRow(week, scores).barLength == ((MakeRow(week, scores).avg + 1.0) * 20.0).Floor
    ensures 0 <= MakeRow(week, scores).barLength <= BarWidth as int
    ensures |MakeRow(week, scores).bar| == BarWidth as int
    ensures forall i :: 0 <= i < |MakeRow(week, scores).bar| ==>
      (MakeRow(week, scores).bar[i] == FullCell <==> i < MakeRow(week, scores).barLength)
    ensures MakeRow(week, scores).colour == Green <==> MakeRow(week, scores).avg > 0.0
    ensures MakeRow(week, scores).colour == Red <==> MakeRow(week, scores).avg < 0.0
  {
    MeanBounds(scores);
    BarLengthRange(Mean(scores));
    BarShape(BarLength(Mean(scores)));
  }
}
