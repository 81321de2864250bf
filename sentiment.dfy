/**
 * The commit sentiment analyzer (sentiment.py): classify one commit message
 * by the compound score of the lexicon scorer, annotate a list of commits in
 * order, and count the labels into a mood summary.
 *
 * The lexicon scorer itself (VADER's `polarity_scores`) is not part of this
 * model: it is the parameter `score`, a total function from text to four
 * reals.
 */
module Sentiment {

  datatype Emotion = Positive | Negative | Neutral

  /** What `polarity_scores` returns for one text. */
  datatype Scores = Scores(pos: real, neg: real, neu: real, compound: real)

  /** The range the scorer guarantees: three proportions and a compound in [-1, 1]. */
  predicate ValidScores(s: Scores)
  {
    0.0 <= s.pos <= 1.0 && 0.0 <= s.neg <= 1.0 && 0.0 <= s.neu <= 1.0 &&
    -1.0 <= s.compound <= 1.0
  }

  ghost predicate ValidScorer(score: string -> Scores)
  {
    forall m :: ValidScores(score(m))
  }

  /** A commit's timestamp as the commit reader produces it. */
  datatype DateTime = DateTime(year: int, month: int, day: int, hour: int, minute: int, second: int)

  /** One record from the commit reader. */
  datatype Commit = Commit(message: string, author: string, date: DateTime, hash: string)

  /** The fields `analyze_commit` returns. */
  datatype SentimentResult = SentimentResult(
    emotion: Emotion, compound: real, positive: real, negative: real, neutral: real)

  /** A commit record merged with its sentiment fields (the two key sets are disjoint). */
  datatype AnalyzedCommit = AnalyzedCommit(commit: Commit, sentiment: SentimentResult)

  const PositiveThreshold: real := 0.05
  const NegativeThreshold: real := -0.05

  /** The label rule of `analyze_commit`; both thresholds belong to the outer labels. */
  function Classify(compound: real): (e: Emotion)
    ensures e == Positive <==> compound >= 0.05
    ensures e == Negative <==> compound <= -0.05
    ensures e == Neutral <==> -0.05 < compound < 0.05
  {
    if compound >= PositiveThreshold then Positive
    else if compound <= NegativeThreshold then Negative
    else Neutral
  }

  /** `analyze_commit`: score the message once, keep the four scores, add the label. */
  function AnalyzeCommit(score: string -> Scores, message: string): (r: SentimentResult)
    ensures r.compound == score(message).compound
    ensures r.positive == score(message).pos
    ensures r.negative == score(message).neg
    ensures r.neutral == score(message).neu
    ensures r.emotion == Classify(score(message).compound)
  {
    var scores := score(message);
    SentimentResult(Classify(scores.compound), scores.compound, scores.pos, scores.neg, scores.neu)
  }

  /** The label sees nothing of the message but its compound score. */
  lemma LabelOnlyFromCompound(score: string -> Scores, m1: string, m2: string)
    requires score(m1).compound == score(m2).compound
    ensures AnalyzeCommit(score, m1).emotion == AnalyzeCommit(score, m2).emotion
  {
  }

  /** With a well-behaved scorer every annotated score stays in its range. */
  lemma AnalyzeCommitInRange(score: string -> Scores, message: string)
    requires ValidScorer(score)
    ensures -1.0 <= AnalyzeCommit(score, message).compound <= 1.0
    ensures 0.0 <= AnalyzeCommit(score, message).positive <= 1.0
    ensures 0.0 <= AnalyzeCommit(score, message).negative <= 1.0
    ensures 0.0 <= AnalyzeCommit(score, message).neutral <= 1.0
  {
    assert ValidScores(score(message));
  }

  /** The annotated list `analyze_commits` produces, as a value. */
  function AnnotateAll(score: string -> Scores, commits: seq<Commit>): (r: seq<AnalyzedCommit>)
    ensures |r| == |commits|
    ensures forall i :: 0 <= i < |commits| ==>
      r[i].commit == commits[i] && r[i].sentiment == AnalyzeCommit(score, commits[i].message)
  {
    seq(|commits|, i requires 0 <= i < |commits| => AnalyzedCommit(commits[i], AnalyzeCommit(score, commits[i].message)))
  }

  /** `analyze_commits`: one annotated record per commit, in input order. */
  method AnalyzeCommits(score: string -> Scores, commits: seq<Commit>) returns (results: seq<AnalyzedCommit>)
    ensures |results| == |commits|
    ensures forall i :: 0 <= i < |commits| ==>
      results[i].commit == commits[i] &&
      results[i].sentiment == AnalyzeCommit(score, commits[i].message)
    ensures results == AnnotateAll(score, commits)
  {
    results := [];
    for i := 0 to |commits|
      invariant |results| == i
      invariant forall k :: 0 <= k < i ==>
        results[k].commit == commits[k] &&
        results[k].sentiment == AnalyzeCommit(score, commits[k].message)
    {
      var sentiment := AnalyzeCommit(score, commits[i].message);
      results := results + [AnalyzedCommit(commits[i], sentiment)];
    }
  }

  /** Compound scores of a batch annotated with a well-behaved scorer lie in [-1, 1]. */
  predicate CompoundsInRange(xs: seq<AnalyzedCommit>)
  {
    forall i :: 0 <= i < |xs| ==> -1.0 <= xs[i].sentiment.compound <= 1.0
  }

  lemma AnalyzedInRange(score: string -> Scores, commits: seq<Commit>, results: seq<AnalyzedCommit>)
    requires ValidScorer(score)
    requires |results| == |commits|
    requires forall i :: 0 <= i < |commits| ==> results[i].sentiment == AnalyzeCommit(score, commits[i].message)
    ensures CompoundsInRange(results)
  {
    forall i | 0 <= i < |results| ensures -1.0 <= results[i].sentiment.compound <= 1.0 {
      AnalyzeCommitInRange(score, commits[i].message);
    }
  }

  /** Number of records carrying label `e`. */
  function Count(xs: seq<AnalyzedCommit>, e: Emotion): nat
  {
    if xs == [] then 0
    else Count(xs[..|xs| - 1], e) + (if xs[|xs| - 1].sentiment.emotion == e then 1 else 0)
  }

  /** Every record has exactly one of the three labels. */
  lemma {:induction false} CountsPartition(xs: seq<AnalyzedCommit>)
    ensures Count(xs, Positive) + Count(xs, Negative) + Count(xs, Neutral) == |xs|
  {
    if xs != [] {
      CountsPartition(xs[..|xs| - 1]);
    }
  }

  /** `round(x, 1)` on a real: to the nearest tenth, halves upward. */
  function RoundTenth(x: real): (r: real)
    ensures x - 0.05 < r <= x + 0.05
    ensures (r * 10.0).Floor as real == r * 10.0
    ensures 0.0 <= x ==> 0.0 <= r
    ensures x <= 100.0 ==> r <= 100.0
  {
    var k := (x * 10.0 + 0.5).Floor;
    assert x <= 100.0 ==> k <= 1000;
    k as real / 10.0
  }

  /** A percentage as `get_mood_summary` computes it, 0 for an empty batch. */
  function Percent(count: nat, total: nat): (p: real)
    ensures total == 0 ==> p == 0.0
    ensures count <= total ==> 0.0 <= p <= 100.0
    ensures total > 0 ==> count as real / total as real * 100.0 - 0.05 < p
    ensures total > 0 ==> p <= count as real / total as real * 100.0 + 0.05
    ensures (p * 10.0).Floor as real == p * 10.0
  {
    if total == 0 then 0.0
    else
      assert count <= total ==> count as real / total as real <= 1.0;
      RoundTenth(count as real / total as real * 100.0)
  }

  datatype MoodSummary = MoodSummary(
    totalCommits: nat, positive: nat, negative: nat, neutral: nat,
    positivePct: real, negativePct: real)

  /** The summary of a batch: label counts and two rounded percentages. */
  function SummaryOf(xs: seq<AnalyzedCommit>): (s: MoodSummary)
    ensures s.totalCommits == |xs|
    ensures s.positive == Count(xs, Positive) && s.negative == Count(xs, Negative)
    ensures s.neutral == Count(xs, Neutral)
    ensures s.positive + s.negative + s.neutral == s.totalCommits
    ensures s.positivePct == Percent(s.positive, s.totalCommits)
    ensures s.negativePct == Percent(s.negative, s.totalCommits)
    ensures 0.0 <= s.positivePct <= 100.0 && 0.0 <= s.negativePct <= 100.0
    ensures xs == [] ==> s == MoodSummary(0, 0, 0, 0, 0.0, 0.0)
  {
    CountsPartition(xs);
    var total := |xs|;
    var pos, neg := Count(xs, Positive), Count(xs, Negative);
    MoodSummary(total, pos, neg, Count(xs, Neutral), Percent(pos, total), Percent(neg, total))
  }

  /** The defaultdict(int) lookup: a missing label counts 0. */
  function CountOf(counts: map<Emotion, nat>, e: Emotion): nat
  {
    if e in counts then counts[e] else 0
  }

  /** `get_mood_summary`: count labels into a dictionary, then build the summary. */
  method GetMoodSummary(analyzed: seq<AnalyzedCommit>) returns (summary: MoodSummary)
    ensures summary == SummaryOf(analyzed)
    ensures summary.positive == Count(analyzed, Positive)
    ensures summary.negative == Count(analyzed, Negative)
    ensures summary.neutral == Count(analyzed, Neutral)
  {
    var moodCounts: map<Emotion, nat> := map[];
    for i := 0 to |analyzed|
      invariant forall e :: CountOf(moodCounts, e) == Count(analyzed[..i], e)
    {
      assert analyzed[..i + 1][..i] == analyzed[..i];
      var emotion := analyzed[i].sentiment.emotion;
      moodCounts := moodCounts[emotion := CountOf(moodCounts, emotion) + 1];
    }
    assert analyzed[..|analyzed|] == analyzed;
    var total := |analyzed|;
    var positive, negative := CountOf(moodCounts, Positive), CountOf(moodCounts, Negative);
    summary := MoodSummary(total, positive, negative, CountOf(moodCounts, Neutral),
                           if total != 0 then RoundTenth(positive as real / total as real * 100.0) else 0.0,
                           if total != 0 then RoundTenth(negative as real / total as real * 100.0) else 0.0);
  }

  /** The worked example: 3 positive commits out of 7 give 42.9 percent. */
  lemma ThreeOfSeven()
    ensures Percent(3, 7) == 42.9
  {
    assert 3.0 / 7.0 * 100.0 * 10.0 + 0.5 == 30000.0 / 70.0 + 0.5;
    assert (3.0 / 7.0 * 100.0 * 10.0 + 0.5).Floor == 429;
  }
}
