/**
 * The Spotify client: the recently-played URL, and the mapping of the recently-played,
 * tracks, audio-features and current-user responses into records.  Each response is the
 * decoded JSON body the client receives.
 */
module Spotify {
  import opened Wrappers
  import opened Json
  import Text

  const BaseUrl: string := "https://api.spotify.com"
  const RecentlyPlayedPath: string := "/v1/me/player/recently-played"
  const NoTracksMessage: string := "IDs corresponding to no tracks"

  /** `f"{x}"` for an `Optional[int]`. */
  function ShowOptInt(x: Option<int>): string
  {
    if x.None? then "None" else Text.Decimal(x.value)
  }

  /** The characters of `str(n)` are digits and at most a leading '-'. */
  lemma DecimalChars(n: int)
    ensures forall i :: 0 <= i < |Text.Decimal(n)| ==>
      Text.IsDigit(Text.Decimal(n)[i]) || Text.Decimal(n)[i] == '-'
  {
    if n < 0 {
      assert Text.Decimal(n) == "-" + Text.NatDigits(-n);
    }
  }

  /// Recently played

  /** The URL `get_recently_played` requests: a non-empty `url` unchanged, else the endpoint with its query. */
  function RecentlyPlayedUrl(url: Option<string>, after: Option<int>, limit: Option<int>): string
  {
    if url.Some? && url.value != "" then url.value
    else if after.Some? && after.value != 0 then
      BaseUrl + RecentlyPlayedPath + "?" + LimitKey + ShowOptInt(limit) + "&" + AfterKey + Text.Decimal(after.value)
    else
      BaseUrl + RecentlyPlayedPath + "?" + LimitKey + ShowOptInt(limit)
  }

  const LimitKey: string := "limit="
  const AfterKey: string := "after="

  /** The query parameters the built URL carries, in order. */
  function QueryParams(after: Option<int>, limit: Option<int>): seq<string>
  {
    [LimitKey + ShowOptInt(limit)] + if after.Some? && after.value != 0 then [AfterKey + Text.Decimal(after.value)] else []
  }

  /** No query parameter holds the '&' that separates them. */
  lemma QueryParamsNoAmpersand(after: Option<int>, limit: Option<int>)
    ensures forall p, k :: p in QueryParams(after, limit) && 0 <= k < |p| ==> p[k] != '&'
  {
    if limit.Some? { DecimalChars(limit.value); }
    if after.Some? { DecimalChars(after.value); }
  }

  /** The built URL is the endpoint, '?', and the parameters joined with '&'. */
  lemma BuiltUrlJoinsParams(after: Option<int>, limit: Option<int>)
    ensures RecentlyPlayedUrl(None, after, limit) ==
      BaseUrl + RecentlyPlayedPath + "?" + Text.Join(QueryParams(after, limit), "&")
  {
    var e := BaseUrl + RecentlyPlayedPath + "?";
    var l := LimitKey + ShowOptInt(limit);
    if after.Some? && after.value != 0 {
      var a := AfterKey + Text.Decimal(after.value);
      assert QueryParams(after, limit) == [l, a];
      assert Text.Join([l, a], "&") == l + "&" + a;
      Regroup(e, LimitKey, ShowOptInt(limit), "&", AfterKey, Text.Decimal(after.value));
    } else {
      assert QueryParams(after, limit) == [l];
      assert e + LimitKey + ShowOptInt(limit) == e + l;
    }
  }

  lemma Regroup(e: string, k1: string, v1: string, sep: string, k2: string, v2: string)
    ensures e + k1 + v1 + sep + k2 + v2 == e + (k1 + v1 + sep + (k2 + v2))
  {
  }

  /**
   * Without a url, the request goes to the recently-played endpoint; its query splits at '&'
   * into `limit=…` and, exactly when `after` is truthy (not None and not 0), `after=…`, from
   * which both numbers read back.  A non-empty url is used unchanged.
   */
  lemma RecentlyPlayedQuery(url: Option<string>, after: Option<int>, limit: Option<int>)
    ensures url.Some? && url.value != "" ==> RecentlyPlayedUrl(url, after, limit) == url.value
    ensures url.None? || url.value == "" ==>
      var u := RecentlyPlayedUrl(url, after, limit);
      var prefix := BaseUrl + RecentlyPlayedPath + "?";
      var params := Text.Split(u[|prefix|..], '&');
      |prefix| <= |u| && u[..|prefix|] == prefix &&
      params == QueryParams(after, limit) &&
      params[0][..6] == LimitKey &&
      (limit.Some? ==> Text.ParseInt(params[0][6..]) == Some(limit.value)) &&
      (|params| == 2 <==> after.Some? && after.value != 0) &&
      (|params| == 2 ==> params[1][..6] == AfterKey && Text.ParseInt(params[1][6..]) == Some(after.value))
  {
    if url.None? || url.value == "" {
      var u := RecentlyPlayedUrl(url, after, limit);
      assert u == RecentlyPlayedUrl(None, after, limit);
      var prefix := BaseUrl + RecentlyPlayedPath + "?";
      var ps := QueryParams(after, limit);
      BuiltUrlJoinsParams(after, limit);
      assert u[|prefix|..] == Text.Join(ps, "&");
      QueryParamsNoAmpersand(after, limit);
      Text.SplitJoin(ps, '&');
      QueryParamsRead(after, limit);
    }
  }

  /** `limit=` comes first and `after=` second, exactly when `after` is truthy; both numbers read back. */
  lemma QueryParamsRead(after: Option<int>, limit: Option<int>)
    ensures var ps := QueryParams(after, limit);
      1 <= |ps| <= 2 && |ps[0]| >= 6 && ps[0][..6] == LimitKey &&
      (limit.Some? ==> Text.ParseInt(ps[0][6..]) == Some(limit.value)) &&
      (|ps| == 2 <==> after.Some? && after.value != 0) &&
      (|ps| == 2 ==> |ps[1]| >= 6 && ps[1][..6] == AfterKey && Text.ParseInt(ps[1][6..]) == Some(after.value))
  {
    var ps := QueryParams(after, limit);
    if limit.Some? {
      Text.DecimalRoundTrip(limit.value);
      assert ps[0][6..] == Text.Decimal(limit.value);
    }
    if after.Some? && after.value != 0 {
      Text.DecimalRoundTrip(after.value);
      assert ps[1][6..] == Text.Decimal(after.value);
    }
  }

  /** One entry of `recently_played`. */
  datatype PlayedTrack = PlayedTrack(listenedAt: string, trackId: Json)

  /** `get_recently_played`'s dict: the message alone, or `next_url` and `recently_played`. */
  datatype RecentlyPlayed = NoTracks(message: string) | Played(nextUrl: Json, recentlyPlayed: seq<PlayedTrack>)

  /**
   * `datetime.fromisoformat(x[:-1])`: the text without its final "Z", kept as text.  Slicing
   * None raises TypeError, and so does `fromisoformat` on anything that is not a string;
   * `isIso` says which texts `fromisoformat` accepts, and any other raises ValueError.
   */
  function PlayedAt(x: Json, isIso: string -> bool): Result<string>
  {
    if !x.JStr? then Raised(TypeError)
    else if isIso(Text.DropLast(x.s)) then Ok(Text.DropLast(x.s))
    else Raised(ValueError)
  }

  /** The entry for one played item: `played_at` first, then `track.id`, as the dict literal evaluates them. */
  function ListenOf(track: Json, isIso: string -> bool): Result<PlayedTrack>
  {
    var p := Get(track, "played_at");
    if p.Raised? then Raised(p.exc)
    else
      var at := PlayedAt(p.value, isIso);
      if at.Raised? then Raised(at.exc)
      else
        var id := GetR(Get(track, "track"), "id");
        if id.Raised? then Raised(id.exc) else Ok(PlayedTrack(at.value, id.value))
  }

  /** The loop body as a step of `for track in items`. */
  function ListenStep(isIso: string -> bool): Json -> Result<PlayedTrack>
  {
    t => ListenOf(t, isIso)
  }

  /** What `get_recently_played` returns for a response. */
  function RecentlyPlayedOf(response: Json, after: Option<int>, isIso: string -> bool): Result<RecentlyPlayed>
  {
    var items := Get(response, "items");
    if items.Raised? then Raised(items.exc)
    else if !Truthy(items.value) then Ok(NoTracks("no tracks played after " + ShowOptInt(after)))
    else
      var played := ForEachGet(items.value, ListenStep(isIso));
      if played.Raised? then Raised(played.exc)
      else Ok(Played(Get(response, "next").value, played.value))
  }

  method GetRecentlyPlayed(response: Json, after: Option<int>, isIso: string -> bool) returns (r: Result<RecentlyPlayed>)
    ensures r == RecentlyPlayedOf(response, after, isIso)
  {
    var items := Get(response, "items");
    if items.Raised? { return Raised(items.exc); }
    if !Truthy(items.value) {
      return Ok(NoTracks("no tracks played after " + ShowOptInt(after)));
    }
    var next := Get(response, "next").value;
    var played := Collect(items.value, ListenStep(isIso));
    if played.Raised? { return Raised(played.exc); }
    r := Ok(Played(next, played.value));
  }

  /** Empty or missing `items` gives the message alone, and nothing else does. */
  lemma RecentlyPlayedMessage(response: Json, after: Option<int>, isIso: string -> bool)
    ensures var r := RecentlyPlayedOf(response, after, isIso);
      r.Ok? && r.value.NoTracks? <==> response.JObj? && !Truthy(Get(response, "items").value)
  {
  }

  /**
   * Otherwise there is one entry per item in item order, `listened_at` being `played_at`
   * without its last character, a text that `fromisoformat` accepts, and `track_id` the
   * nested track's id.
   */
  lemma RecentlyPlayedEntries(response: Json, after: Option<int>, isIso: string -> bool)
    ensures var r := RecentlyPlayedOf(response, after, isIso);
      (r.Ok? && r.value.Played?) ==>
      var items := Get(response, "items").value;
      var rp := r.value.recentlyPlayed;
      items.JArr? && |rp| == |items.items| &&
      forall i :: 0 <= i < |rp| ==>
        Get(items.items[i], "played_at").Ok? &&
        Get(items.items[i], "played_at").value.JStr? &&
        rp[i].listenedAt == Text.DropLast(Get(items.items[i], "played_at").value.s) &&
        isIso(rp[i].listenedAt) &&
        GetR(Get(items.items[i], "track"), "id") == Ok(rp[i].trackId)
  {
    var r := RecentlyPlayedOf(response, after, isIso);
    if r.Ok? && r.value.Played? {
      var items := Get(response, "items").value.items;
      var rp := r.value.recentlyPlayed;
      MapAllMeaning(items, ListenStep(isIso));
      forall i | 0 <= i < |rp|
        ensures Get(items[i], "played_at").Ok? && Get(items[i], "played_at").value.JStr? &&
          rp[i].listenedAt == Text.DropLast(Get(items[i], "played_at").value.s) &&
          isIso(rp[i].listenedAt) && GetR(Get(items[i], "track"), "id") == Ok(rp[i].trackId)
      {
        assert ListenStep(isIso)(items[i]) == Ok(rp[i]);
        ListenOfOk(items[i], isIso, rp[i]);
      }
    }
  }

  /** What a successful entry holds. */
  lemma ListenOfOk(t: Json, isIso: string -> bool, p: PlayedTrack)
    requires ListenOf(t, isIso) == Ok(p)
    ensures Get(t, "played_at").Ok? && Get(t, "played_at").value.JStr?
    ensures p.listenedAt == Text.DropLast(Get(t, "played_at").value.s) && isIso(p.listenedAt)
    ensures GetR(Get(t, "track"), "id") == Ok(p.trackId)
  {
  }

  /**
   * Items that all carry a string `played_at` that parses once its last character is dropped,
   * and a dict `track`, never raise.
   */
  lemma RecentlyPlayedNoRaise(response: Json, after: Option<int>, isIso: string -> bool)
    requires response.JObj? && Get(response, "items").value.JArr?
    requires forall i :: 0 <= i < |Get(response, "items").value.items| ==>
      WellFormedListen(Get(response, "items").value.items[i], isIso)
    ensures RecentlyPlayedOf(response, after, isIso).Ok?
  {
    var items := Get(response, "items").value.items;
    forall i | 0 <= i < |items|
      ensures ListenStep(isIso)(items[i]).Ok?
    {
      ListenOfWellFormed(items[i], isIso);
    }
    MapAllMeaning(items, ListenStep(isIso));
  }

  /** A dict with a parsable string `played_at` and a dict `track`. */
  predicate WellFormedListen(t: Json, isIso: string -> bool)
  {
    t.JObj? && "played_at" in t.fields && t.fields["played_at"].JStr? &&
    isIso(Text.DropLast(t.fields["played_at"].s)) &&
    "track" in t.fields && t.fields["track"].JObj?
  }

  lemma ListenOfWellFormed(t: Json, isIso: string -> bool)
    requires WellFormedListen(t, isIso)
    ensures ListenOf(t, isIso).Ok?
  {
  }

  /** A `played_at` that `fromisoformat` rejects, such as "" or "abcZ", raises ValueError. */
  lemma PlayedAtRejects(x: Json, isIso: string -> bool)
    requires x.JStr? && !isIso(Text.DropLast(x.s))
    ensures ListenOf(JObj(map["played_at" := x]), isIso) == Raised(ValueError)
  {
  }

  /// Tracks and audio features

  /** The `ids` parameter: the track ids joined with ",". */
  function TracksIdsParam(trackIds: seq<string>): string
  {
    Text.Join(trackIds, ",")
  }

  /** The parameter lists exactly the requested ids, in order, when no id holds a ','. */
  lemma TracksIdsParamSplits(trackIds: seq<string>)
    requires |trackIds| > 0
    requires forall id, k :: id in trackIds && 0 <= k < |id| ==> id[k] != ','
    ensures Text.Split(TracksIdsParam(trackIds), ',') == trackIds
  {
    Text.SplitJoin(trackIds, ',');
  }

  /** A message when the response has no records, else the records. */
  datatype Records<T> = NoRecords(message: string) | Records(records: seq<T>)

  datatype TrackInfo = TrackInfo(spotifyId: Json, name: Json, durationMs: Json, popularity: Json, albumId: Json)

  /** One `tracks_info` entry; only the nested `album.id` can raise once the track is a dict. */
  function TrackInfoOf(track: Json): Result<TrackInfo>
  {
    var id := Get(track, "id");
    if id.Raised? then Raised(id.exc)
    else
      var albumId := GetR(Get(track, "album"), "id");
      if albumId.Raised? then Raised(albumId.exc)
      else Ok(TrackInfo(id.value, Get(track, "name").value, Get(track, "duration_ms").value,
                        Get(track, "popularity").value, albumId.value))
  }

  /** The records `get_tracks_info` or `get_tracks_attributes` makes from the list under `key`. */
  function RecordsOf<T>(response: Json, key: string, f: Json -> Result<T>): Result<Records<T>>
  {
    var xs := Get(response, key);
    if xs.Raised? then Raised(xs.exc)
    else if !Truthy(xs.value) then Ok(NoRecords(NoTracksMessage))
    else
      var recs := ForEachGet(xs.value, f);
      if recs.Raised? then Raised(recs.exc) else Ok(Records(recs.value))
  }

  method CollectRecords<T>(response: Json, key: string, f: Json -> Result<T>) returns (r: Result<Records<T>>)
    ensures r == RecordsOf(response, key, f)
  {
    var xs := Get(response, key);
    if xs.Raised? { return Raised(xs.exc); }
    if !Truthy(xs.value) { return Ok(NoRecords(NoTracksMessage)); }
    var recs := Collect(xs.value, f);
    if recs.Raised? { return Raised(recs.exc); }
    r := Ok(Records(recs.value));
  }

  method GetTracksInfo(response: Json) returns (r: Result<Records<TrackInfo>>)
    ensures r == RecordsOf(response, "tracks", TrackInfoOf)
  {
    r := CollectRecords(response, "tracks", TrackInfoOf);
  }

  /**
   * One record per returned track, in order, copying the track's id, name, duration and
   * popularity and its nested album's id; a falsy `tracks` gives the message.
   */
  lemma TracksInfoRecords(response: Json)
    ensures (RecordsOf(response, "tracks", TrackInfoOf).Ok? && RecordsOf(response, "tracks", TrackInfoOf).value.Records?) ==>
      var tracks := Get(response, "tracks").value;
      var recs := RecordsOf(response, "tracks", TrackInfoOf).value.records;
      tracks.JArr? && |recs| == |tracks.items| &&
      forall i :: 0 <= i < |recs| ==> TrackInfoCopied(tracks.items[i], recs[i])
    ensures response.JObj? && !Truthy(Get(response, "tracks").value) ==>
      RecordsOf(response, "tracks", TrackInfoOf) == Ok(NoRecords(NoTracksMessage))
  {
    var xs := Get(response, "tracks");
    if xs.Ok? && xs.value.JArr? {
      MapAllMeaning(xs.value.items, TrackInfoOf);
      forall i | 0 <= i < |xs.value.items| && TrackInfoOf(xs.value.items[i]).Ok?
        ensures TrackInfoCopied(xs.value.items[i], TrackInfoOf(xs.value.items[i]).value)
      {
        TrackInfoEntry(xs.value.items[i]);
      }
    }
  }

  /** The record copies the five fields, the last from the nested album. */
  predicate TrackInfoCopied(track: Json, t: TrackInfo)
  {
    Get(track, "id") == Ok(t.spotifyId) && Get(track, "name") == Ok(t.name) &&
    Get(track, "duration_ms") == Ok(t.durationMs) && Get(track, "popularity") == Ok(t.popularity) &&
    GetR(Get(track, "album"), "id") == Ok(t.albumId)
  }

  lemma TrackInfoEntry(track: Json)
    requires TrackInfoOf(track).Ok?
    ensures TrackInfoCopied(track, TrackInfoOf(track).value)
  {
  }

  /** A dict track whose `album` is a dict. */
  predicate WellFormedTrack(track: Json)
  {
    track.JObj? && Get(track, "album").value.JObj?
  }

  /** A list of dict tracks whose albums are dicts never raises. */
  lemma TracksInfoNoRaise(response: Json)
    requires response.JObj? && Get(response, "tracks").value.JArr?
    requires forall i :: 0 <= i < |Get(response, "tracks").value.items| ==>
      WellFormedTrack(Get(response, "tracks").value.items[i])
    ensures RecordsOf(response, "tracks", TrackInfoOf).Ok?
  {
    var items := Get(response, "tracks").value.items;
    MapAllMeaning(items, TrackInfoOf);
  }

  /**
   * In a list of dict tracks, one whose `album` is missing or no dict makes the loop raise
   * AttributeError, from `.get` on that value.
   */
  lemma TracksInfoAlbumRaises(response: Json, j: nat)
    requires response.JObj? && Get(response, "tracks").value.JArr?
    requires forall i :: 0 <= i < |Get(response, "tracks").value.items| ==>
      Get(response, "tracks").value.items[i].JObj?
    requires j < |Get(response, "tracks").value.items| &&
      !Get(Get(response, "tracks").value.items[j], "album").value.JObj?
    ensures RecordsOf(response, "tracks", TrackInfoOf) == Raised(AttributeError)
  {
    var items := Get(response, "tracks").value.items;
    TrackInfoBadAlbum(items[j]);
    MapAllMeaning(items, TrackInfoOf);
    var m := MapAll(items, TrackInfoOf);
    assert m.Raised?;
    var k :| 0 <= k < |items| && TrackInfoOf(items[k]) == Raised(m.exc);
    TrackInfoDictRaises(items[k]);
    assert ForEachGet(Get(response, "tracks").value, TrackInfoOf) == m;
  }

  lemma TrackInfoBadAlbum(track: Json)
    requires track.JObj? && !Get(track, "album").value.JObj?
    ensures TrackInfoOf(track).Raised?
  {
  }

  /** A dict track can only raise AttributeError. */
  lemma TrackInfoDictRaises(track: Json)
    requires track.JObj? && TrackInfoOf(track).Raised?
    ensures TrackInfoOf(track).exc == AttributeError
  {
  }

  datatype AudioFeatures = AudioFeatures(
    spotifyId: Json, danceability: Json, energy: Json, key: Json, loudness: Json, mode: Json,
    speechiness: Json, acousticness: Json, instrumentalness: Json, liveness: Json,
    valence: Json, tempo: Json)

  /** The eleven audio features every `audio_features` entry copies, in record order. */
  const FeatureNames: seq<string> := ["danceability", "energy", "key", "loudness", "mode",
    "speechiness", "acousticness", "instrumentalness", "liveness", "valence", "tempo"]

  function Features(a: AudioFeatures): seq<Json>
  {
    [a.danceability, a.energy, a.key, a.loudness, a.mode, a.speechiness, a.acousticness,
     a.instrumentalness, a.liveness, a.valence, a.tempo]
  }

  /** One `audio_features` entry; nothing can raise once the entry is a dict. */
  function AudioFeaturesOf(track: Json): Result<AudioFeatures>
  {
    if !track.JObj? then Raised(AttributeError)
    else Ok(AudioFeatures(
      Get(track, "id").value, Get(track, "danceability").value, Get(track, "energy").value,
      Get(track, "key").value, Get(track, "loudness").value, Get(track, "mode").value,
      Get(track, "speechiness").value, Get(track, "acousticness").value,
      Get(track, "instrumentalness").value, Get(track, "liveness").value,
      Get(track, "valence").value, Get(track, "tempo").value))
  }

  method GetTracksAttributes(response: Json) returns (r: Result<Records<AudioFeatures>>)
    ensures r == RecordsOf(response, "audio_features", AudioFeaturesOf)
  {
    r := CollectRecords(response, "audio_features", AudioFeaturesOf);
  }

  /**
   * A list of dict entries never raises; there is one record per entry, in order, copying the
   * entry's id and exactly the eleven named features (a missing one is None).
   */
  lemma AudioFeaturesRecords(response: Json)
    ensures (response.JObj? && Get(response, "audio_features").value.JArr? &&
      forall i :: 0 <= i < |Get(response, "audio_features").value.items| ==>
        Get(response, "audio_features").value.items[i].JObj?) ==>
      RecordsOf(response, "audio_features", AudioFeaturesOf).Ok?
    ensures (RecordsOf(response, "audio_features", AudioFeaturesOf).Ok? &&
      RecordsOf(response, "audio_features", AudioFeaturesOf).value.Records?) ==>
      var xs := Get(response, "audio_features").value;
      var recs := RecordsOf(response, "audio_features", AudioFeaturesOf).value.records;
      xs.JArr? && |recs| == |xs.items| &&
      forall i :: 0 <= i < |recs| ==> AudioFeaturesCopied(xs.items[i], recs[i])
  {
    var xs := Get(response, "audio_features");
    if xs.Ok? && xs.value.JArr? {
      MapAllMeaning(xs.value.items, AudioFeaturesOf);
      forall i | 0 <= i < |xs.value.items| && AudioFeaturesOf(xs.value.items[i]).Ok?
        ensures AudioFeaturesCopied(xs.value.items[i], AudioFeaturesOf(xs.value.items[i]).value)
      {
        AudioFeaturesEntry(xs.value.items[i]);
      }
    }
  }

  /** The record copies the entry's id and its eleven named features, in order. */
  predicate AudioFeaturesCopied(track: Json, a: AudioFeatures)
  {
    Get(track, "id") == Ok(a.spotifyId) &&
    |Features(a)| == |FeatureNames| &&
    forall k :: 0 <= k < |FeatureNames| ==> Get(track, FeatureNames[k]) == Ok(Features(a)[k])
  }

  lemma AudioFeaturesEntry(track: Json)
    requires AudioFeaturesOf(track).Ok?
    ensures AudioFeaturesCopied(track, AudioFeaturesOf(track).value)
  {
  }

  /// Current user

  datatype UserInfo = UserInfo(id: int, displayName: Json, email: Json, country: Json, imageUrl: Json)

  /** `get_user_info`: the fields in the order the code fills them; `id` goes through `int()`. */
  function UserInfoOf(response: Json): Result<UserInfo>
  {
    var id := Get(response, "id");
    if id.Raised? then Raised(id.exc)
    else
      var n := PyInt(id.value);
      if n.Raised? then Raised(n.exc)
      else
        var image := First(Get(response, "images").value);
        if image.Raised? then Raised(image.exc)
        else
          var url := Get(image.value, "url");
          if url.Raised? then Raised(url.exc)
          else Ok(UserInfo(n.value, Get(response, "display_name").value, Get(response, "email").value,
                           Get(response, "country").value, url.value))
  }

  /**
   * A decimal id comes back as its number and `image_url` is the first image's url; an id
   * that is not decimal text raises ValueError, and an empty `images` list IndexError.
   */
  lemma UserInfoFields(response: Json, n: int)
    requires response.JObj?
    ensures (Get(response, "id").value == JStr(Text.Decimal(n)) &&
      Get(response, "images").value.JArr? && |Get(response, "images").value.items| > 0 &&
      Get(response, "images").value.items[0].JObj?) ==>
      UserInfoOf(response) == Ok(UserInfo(n, Get(response, "display_name").value,
        Get(response, "email").value, Get(response, "country").value,
        Get(Get(response, "images").value.items[0], "url").value))
    ensures Get(response, "id").value.JStr? && Text.ParseInt(Get(response, "id").value.s).None? ==>
      UserInfoOf(response) == Raised(ValueError)
    ensures Get(response, "id").value.JInt? && Get(response, "images").value == JArr([]) ==>
      UserInfoOf(response) == Raised(IndexError)
  {
    Text.DecimalRoundTrip(n);
  }
}
