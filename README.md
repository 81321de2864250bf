# CodeMood mood pipeline, modelled in Dafny

CodeMood reads the recent commits of a git repository, scores each commit message with the
VADER lexicon scorer, and labels it `positive`, `negative` or `neutral`. It then summarises the
labels, draws a weekly mood timeline, and picks a dominant mood for a Spotify playlist. Without
credentials the playlist is a mock one.

This project models the part between the commit reader and the terminal or Spotify:

- `sentiment.dfy` (module `Sentiment`, from `sentiment.py`) covers the label rule with thresholds
  0.05 and -0.05, the in-order annotation loop, and the summary. The summary counts the labels in
  a dictionary and gives two percentages rounded to one decimal, both 0 for an empty batch.
- `timeline.dfy` (module `Timeline`, from `print_mood_timeline` in `main.py`) covers the timeline.
  Compound scores are grouped by week key in a dictionary that keeps insertion order. The keys are
  sorted and the last eight kept. Each week's mean becomes a 40-cell bar whose filled length is
  `int((avg+1)*20)` (truncation) and a green, red or yellow colour. The printed lines are
  returned as a list of rows.
- `cli.dfy` (module `Cli`, from `main.py`) covers the two commands. Both return before any
  analysis when there are no commits. It also holds the asymmetric dominant-mood rule: above 50 %
  positive wins, otherwise above 30 % negative, otherwise neutral. `playlist` always builds its
  client with the default `mock_mode=True`. So on this path the client is in mock mode whatever
  the environment holds, and `Cli.Playlist` states that its tracks and URL are the mock ones.
- `spotify.dfy` (module `SpotifyApi`, from `spotify_api.py`) covers the client class. The
  constructor works out `mock_mode`. In mock mode it returns `count` track URIs
  `spotify:track:mock_<happy|sad|neutral>_<i>`, and an unknown emotion gets the neutral list. The
  mock playlist URL has every space of the name replaced by `_`. The live branch of
  `get_mood_tracks` collects two genre searches and caps the result with `tracks[:count]`.
- `text.dfy` (module `Text`) holds the Python string behaviour the core relies on. This is the
  code-point order of `str`, `sorted()` (an insertion sort, proved to agree with any correct sort),
  `str(i)` with its inverse, one-character `str.replace`, and `c * n`.

The lexicon scorer is the parameter `score: string -> Scores`. `ValidScorer` states its
documented range (compound in [-1, 1]); only the lemmas that need that range assume it. The week
key `strftime('%Y-W%U')` is the parameter `weekOf`. The commit list, the client id, the month text
of the playlist name and the float text in the description are parameters too. The live spotipy
client is two functions given to the constructor: `search` and `publish`.

The week key is Sunday-start `%U` (main.py:103), not ISO week numbering; the bar length
truncates with `int(...)` (main.py:113) and does not round.

## Model

| member | source | states |
|---|---|---|
| `Sentiment.Classify` | sentiment.py:13-19 | positive iff compound >= 0.05, negative iff compound <= -0.05, neutral iff strictly between; the boundaries belong to the outer labels |
| `Sentiment.AnalyzeCommit` | sentiment.py:8-27 | the scorer's compound, pos, neg and neu are passed through unchanged and the label is the rule applied to the compound |
| `Sentiment.LabelOnlyFromCompound` | sentiment.py:13-19 | two messages whose compound scores are equal get the same label, whatever their other scores or text |
| `Sentiment.AnalyzeCommitInRange` | sentiment.py:10-27 | with a scorer in its documented range, every annotated score is in range (compound in [-1, 1], the others in [0, 1]) |
| `Sentiment.AnnotateAll` | sentiment.py:29-38 | one record per commit; record i keeps commit i whole and carries the sentiment of commit i's message |
| `Sentiment.AnalyzeCommits` | sentiment.py:29-38 | the loop returns a list as long as the input whose i-th record is commit i with its sentiment fields added, in input order |
| `Sentiment.AnalyzedInRange` | sentiment.py:31-38 | every compound score of a batch annotated by a well-behaved scorer lies in [-1, 1] |
| `Sentiment.CountsPartition` | sentiment.py:42-52 | positive + negative + neutral counts equal the number of records |
| `Sentiment.RoundTenth` | sentiment.py:53-54 | the rounded value is a whole number of tenths within 0.05 of the input, and rounding keeps [0, 100] |
| `Sentiment.Percent` | sentiment.py:53-54 | 0 when the total is 0 (no division); otherwise the whole number of tenths within 0.05 of count/total*100, which fixes it uniquely, inside [0, 100] |
| `Sentiment.SummaryOf` | sentiment.py:40-55 | total equals the number of records; each count is the number of records with that label, and the three add up to the total; each percentage is Percent(count, total), so it lies in [0, 100]; an empty batch gives all zeros |
| `Sentiment.GetMoodSummary` | sentiment.py:40-55 | the dictionary-counting loop yields exactly the per-label counts and the summary of the batch |
| `Sentiment.ThreeOfSeven` | sentiment.py:53 | 3 positive commits out of 7 give a positive percentage of 42.9 |
| `Cli.DominantMood` | main.py:76-81 | positive iff positive_pct > 50 (whatever negative_pct is); negative iff not that and negative_pct > 30; neutral otherwise |
| `Cli.EmotionName` | main.py:83-87 | the mood reaches the playlist client as one of the three label strings, one per mood |
| `Cli.EmotionNameSelectsList` | spotify_api.py:26-31 | the three mood names select the happy, sad and neutral mock lists respectively |
| `Cli.PlaylistDescription` | main.py:90 | the text reads "Generated from ", then `str` of the commit total, then " commits (", and ends with "% positive)" |
| `Cli.Analyze` | main.py:19-56 | no commits gives the early return; otherwise the annotated commits, their summary (total = number of commits) and the timeline rows of those commits |
| `Cli.Playlist` | main.py:61-95 | no commits gives the early return before any analysis or playlist; otherwise the dominant mood of the summary, exactly 20 mock tracks of that mood and the mock URL of "CodeMood - <month>" |
| `Timeline.OrderMatchesBuckets` | main.py:100-107 | the dictionary's keys and its insertion order hold the same weeks, each listed once |
| `Timeline.BucketsHoldScores` | main.py:102-104 | each bucket is exactly the compound scores of that week's commits in commit order, hence non-empty |
| `Timeline.BucketsAreWeeks` | main.py:102-104 | a week has a bucket iff some commit falls in it |
| `Timeline.BucketSizesSum` | main.py:102-104 | every commit contributes to exactly one bucket: the bucket sizes sum to the number of commits |
| `Timeline.GroupByWeek` | main.py:100-104 | the grouping loop builds exactly the week buckets and their key order |
| `Timeline.LastWeeks` | main.py:111 | `weeks[-8:]` keeps min(8, n) keys and they are the final ones |
| `Timeline.MeanBounds` | main.py:112 | the mean of scores in [-1, 1] is in [-1, 1] |
| `Timeline.Trunc` | main.py:113 | `int()` truncates toward zero: floor for non-negative values, ceiling for negative ones |
| `Timeline.BarLengthRange` | main.py:113 | for an average in [-1, 1] the filled length is floor((avg+1)*20) and lies in [0, 40] |
| `Timeline.BarShape` | main.py:114 | a filled length n in [0, 40] gives a 40-cell bar: n full cells then 40 - n empty ones |
| `Timeline.ColourOf` | main.py:115 | green iff avg > 0, red iff avg < 0, yellow iff avg == 0 |
| `Timeline.EmitRows` | main.py:111-116 | one row per shown week, in order, built from that week's bucket |
| `Timeline.PrintMoodTimeline` | main.py:97-116 | at most 8 rows, the k-th for the k-th shown week, each built from the mean of that week's non-empty score list |
| `Timeline.ShownHaveBuckets` | main.py:107-112 | every shown week has a bucket, so the mean's division is safe |
| `Timeline.ShownWeeksAreLatest` | main.py:107-111 | shown weeks are strictly ascending, all occur in the history, and every week not shown sorts before every shown one |
| `Timeline.ScoresOfWeekInRange` | main.py:102-104 | a week's scores inherit the batch's [-1, 1] range |
| `Timeline.RowWellFormed` | main.py:112-115 | for scores in [-1, 1] a row's mean is in [-1, 1], its bar has 40 cells of which exactly the first floor((avg+1)*20) are full, and it is green iff the mean is positive, red iff negative |
| `Text.SortStrings` | main.py:107 | `sorted()` returns a permutation of the keys in ascending code-point order |
| `Text.SortedUnique` | main.py:107 | two sorted arrangements of the same keys are equal, so insertion sort gives the list the runtime's sort gives |
| `Text.SortedDistinctStrict` | main.py:107 | sorting distinct keys keeps them distinct and keeps the same set and count |
| `Text.DecimalString` | spotify_api.py:27-29 | `str(i)` is a non-empty string of decimal digits with no leading zero |
| `Text.DecimalRoundTrip` | spotify_api.py:27-29 | reading `str(i)` back as a decimal gives i |
| `Text.ReplaceChar` | spotify_api.py:53 | `replace(' ', '_')` keeps the length and changes exactly the spaces |
| `Text.Repeat` | main.py:114 | `c * k` has max(k, 0) copies of c |
| `SpotifyApi.SpotifyMoodPlaylist.constructor` | spotify_api.py:7-8 | mock mode iff the argument asks for it or no non-empty client id is configured |
| `SpotifyApi.MockList` | spotify_api.py:27-29 | `count` URIs (none for a negative count), the i-th being the prefix, the mood stem and `str(i)` |
| `SpotifyApi.UnknownEmotionIsNeutral` | spotify_api.py:31 | an emotion other than positive or negative gets the neutral list |
| `SpotifyApi.MockTracksDistinct` | spotify_api.py:27-29 | the mock URIs of one list are pairwise different |
| `SpotifyApi.MockPlaylistUrlShape` | spotify_api.py:53 | the mock URL is the fixed prefix followed by the name with spaces turned to `_`: same length, no space left |
| `SpotifyApi.PrefixSlice` | spotify_api.py:48 | `s[:n]` is a prefix of s of length min(n, len) for n >= 0, and a negative n drops from the end |
| `SpotifyApi.SpotifyMoodPlaylist.GetMoodTracks` | spotify_api.py:22-48 | mock mode: exactly the emotion's mock list of `count` URIs; live mode: the pop then rock search results cut to `count`; never more than `count` |
| `SpotifyApi.SpotifyMoodPlaylist.CreateMoodPlaylist` | spotify_api.py:50-67 | mock mode: the mock URL of the name; live mode: the URL the service reports for the created playlist |

## Left out

- git_parser.py is not part of this model. The commits are a given list of records, and its
  error swallowing, author filter and date window are outside the core.
- The VADER scorer is a parameter. Its range is an assumption (`ValidScorer`), and scorer
  exceptions are not modelled because the scorer is total.
- `strftime('%Y-W%U')` is the parameter `weekOf`. The model sorts whatever keys it returns and
  does not prove that they are fixed-width `YYYY-Www` strings.
- `datetime.now()` is replaced by the month text of the playlist name, a parameter.
- `load_dotenv` and `os.getenv` are replaced by the client id, an `Option<string>` parameter.
- spotipy (OAuth, `search`, `current_user`, `user_playlist_create`, `playlist_add_items`) is the
  `search` and `publish` functions. `mood_params` is computed but never used, so it is not modelled.
- All console output is left out or returned. This covers rich markup and the `{avg_mood:.2f}`
  text. It also covers the recent-commits table (first 10 commits, messages cut to 50 characters)
  and the mock-mode messages printed by the client.
- click wiring and the option defaults (`--days 30`, `--repo .`) are left out.
- Floats are modelled as exact reals, so the rounding error of `sum` and of the divisions is not
  modelled.
- RoundTenth: rounds exact halves upward. Python's `round(x, 1)` works on the binary float and
  rounds ties to even, so the two can differ in the last tenth on exact ties.
- PlaylistDescription: does not fix the text between " commits (" and "% positive)", because the float text of `positive_pct` (Python float repr) is the parameter `showPct`.
