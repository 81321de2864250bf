/**
 * The two commands of main.py. `analyze` annotates the commits, summarises
 * them and builds the weekly timeline; `playlist` picks the dominant mood of
 * the summary and asks the playlist client for tracks and a playlist. Both
 * stop before any analysis when the commit reader returns nothing.
 *
 * The commit reader, the clock (`datetime.now()`), the environment and the
 * terminal are not part of this model: the commit list, the month text of
 * the playlist name, the client id and the float formatting of the
 * description are parameters, and what the commands print is returned.
 */
module Cli {
  import opened Text
  import opened Sentiment
  import opened Timeline
  import opened SpotifyApi

  /** The dominant-mood rule of `playlist`: asymmetric thresholds, positive checked first. */
  function DominantMood(summary: MoodSummary): (e: Emotion)
    ensures e == Positive <==> summary.positivePct > 50.0
    ensures e == Negative <==> summary.positivePct <= 50.0 && summary.negativePct > 30.0
    ensures e == Neutral <==> summary.positivePct <= 50.0 && summary.negativePct <= 30.0
  {
    if summary.positivePct > 50.0 then Positive
    else if summary.negativePct > 30.0 then Negative
    else Neutral
  }

  /** The label text the playlist client receives. */
  function EmotionName(e: Emotion): (s: string)
    ensures s == "positive" || s == "negative" || s == "neutral"
    ensures e == Positive <==> s == "positive"
    ensures e == Negative <==> s == "negative"
  {
    match e
    case Positive => "positive"
    case Negative => "negative"
    case Neutral => "neutral"
  }

  /** The three names select the three different mock lists. */
  lemma EmotionNameSelectsList(e: Emotion)
    ensures MockStem(EmotionName(e)) == match e
      case Positive => "happy_"
      case Negative => "sad_"
      case Neutral => "neutral_"
  {
  }

  datatype AnalyzeReport =
    | NoCommitsFound
    | Report(summary: MoodSummary, analyzed: seq<AnalyzedCommit>, timeline: seq<Row>)

  /** `analyze`: nothing when there are no commits; otherwise the annotated
      commits, their summary and the weekly timeline rows. */
  method Analyze(commits: seq<Commit>, score: string -> Scores, weekOf: DateTime -> string)
    returns (report: AnalyzeReport)
    ensures report.NoCommitsFound? <==> commits == []
    ensures report.Report? ==>
      report.analyzed == AnnotateAll(score, commits) &&
      report.summary == SummaryOf(report.analyzed) &&
      report.summary.totalCommits == |commits| &&
      |report.timeline| == |ShownWeeks(report.analyzed, weekOf)| <= MaxWeeks &&
      forall k :: 0 <= k < |report.timeline| ==>
        report.timeline[k].week == ShownWeeks(report.analyzed, weekOf)[k] &&
        |ScoresOfWeek(report.analyzed, weekOf, report.timeline[k].week)| > 0 &&
        report.timeline[k] ==
          MakeRow(report.timeline[k].week, ScoresOfWeek(report.analyzed, weekOf, report.timeline[k].week))
  {
    if commits == [] {
      return AnalyzeReport.NoCommitsFound;
    }
    var analyzed := AnalyzeCommits(score, commits);
    var summary := GetMoodSummary(analyzed);
    var timeline := PrintMoodTimeline(analyzed, weekOf);
    report := Report(summary, analyzed, timeline);
  }

  const TrackCount: int := 20

  /** `f"CodeMood - {datetime.now().strftime('%b %Y')}"`, the month text given. */
  function PlaylistName(monthYear: string): string
  {
    "CodeMood - " + monthYear
  }

  /** `f"Generated from {total} commits ({pct}% positive)"`; `showPct` is the float's text. */
  function PlaylistDescription(summary: MoodSummary, showPct: real -> string): (d: string)
    ensures |d| >= |"Generated from "| + |DecimalString(summary.totalCommits)| + |" commits ("| + |"% positive)"|
    ensures d[..|"Generated from "|] == "Generated from "
    ensures d[|"Generated from "|..|"Generated from "| + |DecimalString(summary.totalCommits)|] ==
      DecimalString(summary.totalCommits)
    ensures d[|"Generated from "| + |DecimalString(summary.totalCommits)|..
              |"Generated from "| + |DecimalString(summary.totalCommits)| + |" commits ("|] == " commits ("
    ensures d[|d| - |"% positive)"|..] == "% positive)"
  {
    "Generated from " + DecimalString(summary.totalCommits) + " commits (" +
    showPct(summary.positivePct) + "% positive)"
  }

  datatype PlaylistReport =
    | NoCommitsFound
    | Created(dominant: Emotion, tracks: seq<string>, url: string)

  /** `playlist`: nothing when there are no commits; otherwise the dominant mood of
      the summary, its tracks and the playlist URL. The client is built with its
      default `mock_mode=True`, so this path is always in mock mode whatever the
      environment holds: 20 mock tracks of the dominant mood and the mock URL. */
  method Playlist(commits: seq<Commit>, score: string -> Scores, clientId: Option<string>,
                  search: (string, int) -> seq<string>, publish: (string, string, seq<string>) -> string,
                  monthYear: string, showPct: real -> string)
    returns (report: PlaylistReport)
    ensures report.NoCommitsFound? <==> commits == []
    ensures report.Created? ==>
      report.dominant == DominantMood(SummaryOf(AnnotateAll(score, commits))) &&
      report.tracks == MockTracks(EmotionName(report.dominant), TrackCount) &&
      |report.tracks| == TrackCount &&
      report.url == MockPlaylistUrl(PlaylistName(monthYear))
  {
    if commits == [] {
      return PlaylistReport.NoCommitsFound;
    }
    var analyzed := AnalyzeCommits(score, commits);
    var summary := GetMoodSummary(analyzed);
    assert DominantMood(summary) == DominantMood(SummaryOf(AnnotateAll(score, commits)));
    var dominantMood: Emotion;
    if summary.positivePct > 50.0 {
      dominantMood := Positive;
    } else if summary.negativePct > 30.0 {
      dominantMood := Negative;
    } else {
      dominantMood := Neutral;
    }
    var sp := new SpotifyMoodPlaylist(true, clientId, search, publish);
    var tracks := sp.GetMoodTracks(EmotionName(dominantMood), TrackCount);
    var name := PlaylistName(monthYear);
    var description := PlaylistDescription(summary, showPct);
    var url := sp.CreateMoodPlaylist(name, description, tracks);
    assert dominantMood == DominantMood(summary);
    report := Created(dominantMood, tracks, url);
  }
}
