/**
 * The playlist client of spotify_api.py. In mock mode it synthesises track
 * URIs and a playlist URL from strings alone. In live mode it talks to the
 * music service through the spotipy client; that client is not part of this
 * model and appears as two functions fixed at construction: `search` (the
 * track URIs a genre query returns) and `publish` (create the playlist for
 * the current user, add the tracks, give back its URL).
 */
module SpotifyApi {
  import opened Text

  datatype Option<T> = None | Some(value: T)

  /** `os.getenv('SPOTIFY_CLIENT_ID')` is truthy: set and not empty. */
  predicate HasClientId(clientId: Option<string>)
  {
    clientId.Some? && clientId.value != ""
  }

  const MockTrackPrefix: string := "spotify:track:mock_"
  const MockPlaylistPrefix: string := "https://open.spotify.com/playlist/mock_"

  /** Python's `range(count)` has no elements when count is negative. */
  function RangeLength(count: int): nat
  {
    if count < 0 then 0 else count
  }

  /** `['spotify:track:mock_' + stem + str(i) for i in range(count)]`. */
  function MockList(stem: string, count: int): (r: seq<string>)
    ensures |r| == RangeLength(count)
    ensures forall i :: 0 <= i < |r| ==> r[i] == MockTrackPrefix + stem + DecimalString(i)
  {
    seq(RangeLength(count), i requires 0 <= i => MockTrackPrefix + stem + DecimalString(i))
  }

  /** The mock list an emotion gets: happy, sad, or the neutral list for anything else. */
  function MockStem(emotion: string): string
  {
    if emotion == "positive" then "happy_"
    else if emotion == "negative" then "sad_"
    else "neutral_"
  }

  function MockTracks(emotion: string, count: int): seq<string>
  {
    MockList(MockStem(emotion), count)
  }

  /** An emotion outside the three labels gets exactly the neutral list. */
  lemma UnknownEmotionIsNeutral(emotion: string, count: int)
    requires emotion != "positive" && emotion != "negative"
    ensures MockTracks(emotion, count) == MockTracks("neutral", count)
  {
  }

  /** The mock URIs of one list are pairwise different. */
  lemma MockTracksDistinct(emotion: string, count: int)
    ensures forall i, j :: 0 <= i < j < |MockTracks(emotion, count)| ==>
      MockTracks(emotion, count)[i] != MockTracks(emotion, count)[j]
  {
    var r := MockTracks(emotion, count);
    var p := MockTrackPrefix + MockStem(emotion);
    forall i, j | 0 <= i < j < |r| ensures r[i] != r[j] {
      if r[i] == r[j] {
        assert r[i] == p + DecimalString(i) && r[j] == p + DecimalString(j);
        assert (p + DecimalString(i))[|p|..] == DecimalString(i);
        assert (p + DecimalString(j))[|p|..] == DecimalString(j);
        DecimalInjective(i, j);
      }
    }
  }

  /** `f"https://open.spotify.com/playlist/mock_{name.replace(' ', '_')}"`. */
  function MockPlaylistUrl(name: string): string
  {
    MockPlaylistPrefix + ReplaceChar(name, ' ', '_')
  }

  /** The URL is the fixed prefix followed by the name, letter for letter, with
      every space turned into an underscore; the suffix holds no space. */
  lemma MockPlaylistUrlShape(name: string)
    ensures |MockPlaylistUrl(name)| == |MockPlaylistPrefix| + |name|
    ensures MockPlaylistUrl(name)[..|MockPlaylistPrefix|] == MockPlaylistPrefix
    ensures forall i :: 0 <= i < |name| ==>
      MockPlaylistUrl(name)[|MockPlaylistPrefix| + i] == if name[i] == ' ' then '_' else name[i]
    ensures ' ' !in MockPlaylistUrl(name)[|MockPlaylistPrefix|..]
  {
    var url := MockPlaylistUrl(name);
    var suffix := ReplaceChar(name, ' ', '_');
    assert url[|MockPlaylistPrefix|..] == suffix;
    forall i | 0 <= i < |name|
      ensures url[|MockPlaylistPrefix| + i] == if name[i] == ' ' then '_' else name[i]
    {
      assert url[|MockPlaylistPrefix| + i] == suffix[i];
    }
  }

  /** Python's `s[:n]`: a negative `n` counts from the end. */
  function PrefixSlice(s: seq<string>, n: int): (r: seq<string>)
    ensures |r| <= |s| && r == s[..|r|]
    ensures 0 <= n ==> |r| == if n < |s| then n else |s|
    ensures n < 0 ==> |r| == if |s| + n < 0 then 0 else |s| + n
  {
    if 0 <= n then (if n < |s| then s[..n] else s)
    else if |s| + n < 0 then [] else s[..|s| + n]
  }

  const Genres: seq<string> := ["pop", "rock", "electronic", "indie"]

  class SpotifyMoodPlaylist {
    const mockMode: bool
    const search: (string, int) -> seq<string>
    const publish: (string, string, seq<string>) -> string

    /** `__init__`: mock mode when asked for, or when no client id is configured. */
    constructor (mockModeArg: bool, clientId: Option<string>,
                 search: (string, int) -> seq<string>, publish: (string, string, seq<string>) -> string)
      ensures mockMode <==> mockModeArg || !HasClientId(clientId)
      ensures this.search == search && this.publish == publish
    {
      this.mockMode := mockModeArg || !HasClientId(clientId);
      this.search := search;
      this.publish := publish;
    }

    /** The URIs the live branch collects: one search per genre, in order. */
    function GenreResults(genres: seq<string>, limit: int): seq<string>
    {
      if genres == [] then []
      else GenreResults(genres[..|genres| - 1], limit) + search("genre:" + genres[|genres| - 1], limit)
    }

    /** `get_mood_tracks`. Mock mode: the emotion's `count` mock URIs. Live mode:
        the pop and rock search results, cut to `count`; never more than `count`. */
    method GetMoodTracks(emotion: string, count: int) returns (tracks: seq<string>)
      ensures mockMode ==> tracks == MockTracks(emotion, count) && |tracks| == RangeLength(count)
      ensures !mockMode ==> tracks == PrefixSlice(GenreResults(Genres[..2], count / 2), count)
      ensures 0 <= count ==> |tracks| <= count
    {
      if mockMode {
        var happy := MockList("happy_", count);
        var sad := MockList("sad_", count);
        var neutral := MockList("neutral_", count);
        tracks := if emotion == "positive" then happy else if emotion == "negative" then sad else neutral;
        return;
      }
      // count // 2: Dafny's division by a positive divisor floors, as Python's does
      var limit := count / 2;
      var found: seq<string> := [];
      for g := 0 to 2
        invariant found == GenreResults(Genres[..g], limit)
      {
        assert Genres[..g + 1][..g] == Genres[..g];
        found := found + search("genre:" + Genres[g], limit);
      }
      tracks := PrefixSlice(found, count);
    }

    /** `create_mood_playlist`. Mock mode: the URL built from the name. Live mode:
        whatever the service reports for the created playlist. */
    method CreateMoodPlaylist(name: string, description: string, tracks: seq<string>) returns (url: string)
      ensures mockMode ==> url == MockPlaylistUrl(name)
      ensures mockMode ==> |url| == |MockPlaylistPrefix| + |name|
      ensures !mockMode ==> url == publish(name, description, tracks)
    {
      if mockMode {
        url := MockPlaylistPrefix + ReplaceChar(name, ' ', '_');
        return;
      }
      url := publish(name, description, tracks);
    }
  }
}
