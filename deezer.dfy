/** The Deezer client: the album record mapping, the saved-albums URL and its skip-on-failure loop. */
module Deezer {
  import opened Wrappers
  import opened Json
  import Text

  const BaseUrl: string := "https://api.deezer.com"

  /** The record `get_album_info` returns. */
  datatype DeezerAlbum = DeezerAlbum(
    deezerId: Json, deezerArtistId: Json, artistName: Json, upcId: Json, recordLabel: Json,
    name: Json, releaseDate: Json, imageUrl: Json, totalTracks: Json)

  /** `get_album_info`'s dict over the album body: every field is a `[]` lookup, evaluated in dict order. */
  function AlbumInfoOf(data: Json): Result<DeezerAlbum>
  {
    var id := Index(data, "id");
    if id.Raised? then Raised(id.exc) else
    var artistId := IndexR(Index(data, "artist"), "id");
    if artistId.Raised? then Raised(artistId.exc) else
    var artistName := IndexR(Index(data, "artist"), "name");
    if artistName.Raised? then Raised(artistName.exc) else
    var upc := Index(data, "upc");
    if upc.Raised? then Raised(upc.exc) else
    var recordLabel := Index(data, "label");
    if recordLabel.Raised? then Raised(recordLabel.exc) else
    var title := Index(data, "title");
    if title.Raised? then Raised(title.exc) else
    var releaseDate := Index(data, "release_date");
    if releaseDate.Raised? then Raised(releaseDate.exc) else
    var cover := Index(data, "cover_big");
    if cover.Raised? then Raised(cover.exc) else
    var tracks := Index(data, "nb_tracks");
    if tracks.Raised? then Raised(tracks.exc) else
    Ok(DeezerAlbum(id.value, artistId.value, artistName.value, upc.value, recordLabel.value,
                   title.value, releaseDate.value, cover.value, tracks.value))
  }

  /** The keys `get_album_info` reads at the top level of the album body. */
  const AlbumKeys: set<string> := {"id", "artist", "upc", "label", "title", "release_date", "cover_big", "nb_tracks"}

  /**
   * The mapping succeeds exactly when the body is a dict with every top-level key and an
   * `artist` dict with `id` and `name`; then `id`, the artist's id and name, `title`,
   * `cover_big` and `nb_tracks` land in `deezer_id`, `deezer_artist_id`, `artist_name`,
   * `name`, `image_url` and `total_tracks`.
   */
  lemma AlbumInfoFields(data: Json)
    ensures AlbumInfoOf(data).Ok? <==>
      data.JObj? && AlbumKeys <= data.fields.Keys &&
      data.fields["artist"].JObj? && "id" in data.fields["artist"].fields && "name" in data.fields["artist"].fields
    ensures AlbumInfoOf(data).Ok? ==>
      var a := AlbumInfoOf(data).value;
      var m := data.fields;
      a.deezerId == m["id"] && a.deezerArtistId == m["artist"].fields["id"] &&
      a.artistName == m["artist"].fields["name"] && a.upcId == m["upc"] &&
      a.recordLabel == m["label"] && a.name == m["title"] && a.releaseDate == m["release_date"] &&
      a.imageUrl == m["cover_big"] && a.totalTracks == m["nb_tracks"]
  {
    if data.JObj? && !(AlbumKeys <= data.fields.Keys) {
      var k :| k in AlbumKeys && k !in data.fields;
      assert k in {"id", "artist", "upc", "label", "title", "release_date", "cover_big", "nb_tracks"};
    }
  }

  /** The saved-albums URL: the offset goes in `index`; `limit` takes no part. */
  function SavedAlbumsUrl(userId: int, offset: int, limit: int): (u: string)
    ensures var prefix := BaseUrl + "/user/" + Text.Decimal(userId) + "/albums?index=";
      |prefix| <= |u| && u[..|prefix|] == prefix && Text.ParseInt(u[|prefix|..]) == Some(offset)
  {
    Text.DecimalRoundTrip(offset);
    BaseUrl + "/user/" + Text.Decimal(userId) + "/albums?index=" + Text.Decimal(offset)
  }

  /** A kept album: the record plus `created_at` (the clock, a parameter) and the item's `time_add`. */
  datatype SavedAlbum = SavedAlbum(info: DeezerAlbum, createdAt: int, addedAt: Json)

  /** `get_user_saved_albums`' dict. */
  datatype SavedAlbums = SavedAlbums(albums: seq<SavedAlbum>, totalAlbums: Json)

  /** What one item of `data` does: skipped by the bare `except`, kept, or raising outside it. */
  datatype Step = Skip | Keep(album: SavedAlbum) | Fail(exc: Exception)

  /**
   * One item: `item["id"]`, the album fetch (`fetch` answers None when it raises) and the
   * mapping sit inside the `try`, so their failures skip the item; `item["time_add"]` and
   * `fromtimestamp` come after it and raise.  `fromtimestamp` takes numbers only (a bool is
   * one); `rangeError` is what the platform raises for a number outside its range
   * (OverflowError, ValueError or OSError), None for one it converts.
   */
  function StepOf(item: Json, fetch: Json -> Option<Json>, now: int, rangeError: Json -> Option<Exception>): Step
  {
    var id := Index(item, "id");
    if id.Raised? then Skip
    else
      var body := fetch(id.value);
      if body.None? then Skip
      else
        var info := AlbumInfoOf(body.value);
        if info.Raised? then Skip
        else
          var t := Index(item, "time_add");
          if t.Raised? then Fail(t.exc)
          else if !IsNumber(t.value) then Fail(TypeError)
          else if rangeError(t.value).Some? then Fail(rangeError(t.value).value)
          else Keep(SavedAlbum(info.value, now, t.value))
  }

  /** A value `fromtimestamp` accepts as a number: an int, a float or a bool. */
  predicate IsNumber(t: Json)
  {
    t.JInt? || t.JReal? || t.JBool?
  }

  /**
   * An item is skipped exactly when its id lookup, its fetch or its mapping fails; otherwise it
   * raises exactly when `time_add` is missing, is no number or is out of range, and a kept
   * album carries the mapping, the clock's `now` and the item's `time_add`.
   */
  lemma StepOfMeaning(item: Json, fetch: Json -> Option<Json>, now: int, rangeError: Json -> Option<Exception>)
    ensures var r := StepOf(item, fetch, now, rangeError);
      (r.Skip? <==>
        Index(item, "id").Raised? || fetch(Index(item, "id").value).None? ||
        AlbumInfoOf(fetch(Index(item, "id").value).value).Raised?) &&
      (!r.Skip? ==>
        (r.Fail? <==> var t := Index(item, "time_add");
          t.Raised? || !IsNumber(t.value) || rangeError(t.value).Some?)) &&
      (r.Keep? ==>
        AlbumInfoOf(fetch(Index(item, "id").value).value) == Ok(r.album.info) &&
        r.album.createdAt == now && Index(item, "time_add") == Ok(r.album.addedAt))
  {
  }

  /** The loop over a list of items, from the front: the kept albums, or the first failure. */
  function KeptAlbums(items: seq<Json>, fetch: Json -> Option<Json>, now: int, rangeError: Json -> Option<Exception>): Result<seq<SavedAlbum>>
  {
    if |items| == 0 then Ok([])
    else
      var init := KeptAlbums(items[..|items| - 1], fetch, now, rangeError);
      if init.Raised? then init
      else
        match StepOf(items[|items| - 1], fetch, now, rangeError)
        case Skip => init
        case Keep(a) => Ok(init.value + [a])
        case Fail(e) => Raised(e)
  }

  /**
   * `for item in data`: a list runs the steps; a string or a dict yields strings, whose
   * `item["id"]` raises TypeError inside the `try`, so nothing is kept; other values are not iterable.
   */
  function AlbumsOf(data: Json, fetch: Json -> Option<Json>, now: int, rangeError: Json -> Option<Exception>): Result<seq<SavedAlbum>>
  {
    if !Truthy(data) then Ok([])
    else
      match data
      case JArr(items) => KeptAlbums(items, fetch, now, rangeError)
      case JStr(_) => Ok([])
      case JObj(_) => Ok([])
      case _ => Raised(TypeError)
  }

  function SavedAlbumsOf(response: Json, fetch: Json -> Option<Json>, now: int, rangeError: Json -> Option<Exception>): Result<SavedAlbums>
  {
    var data := Get(response, "data");
    if data.Raised? then Raised(data.exc)
    else
      var albums := AlbumsOf(data.value, fetch, now, rangeError);
      if albums.Raised? then Raised(albums.exc)
      else Ok(SavedAlbums(albums.value, Get(response, "total").value))
  }

  lemma {:induction false} KeptRaisedPrefix(items: seq<Json>, fetch: Json -> Option<Json>, now: int, rangeError: Json -> Option<Exception>, k: nat)
    requires k <= |items|
    requires KeptAlbums(items[..k], fetch, now, rangeError).Raised?
    ensures KeptAlbums(items, fetch, now, rangeError) == KeptAlbums(items[..k], fetch, now, rangeError)
  {
    if k < |items| {
      var n := |items| - 1;
      var front := items[..n];
      assert front[..k] == items[..k];
      KeptRaisedPrefix(front, fetch, now, rangeError, k);
      assert KeptAlbums(items, fetch, now, rangeError) == KeptAlbums(front, fetch, now, rangeError);
    } else {
      assert items[..k] == items;
    }
  }

  /** `get_user_saved_albums` over the decoded saved-albums response. */
  method GetUserSavedAlbums(response: Json, fetch: Json -> Option<Json>, now: int, rangeError: Json -> Option<Exception>) returns (r: Result<SavedAlbums>)
    ensures r == SavedAlbumsOf(response, fetch, now, rangeError)
  {
    var data := Get(response, "data");
    if data.Raised? { return Raised(data.exc); }
    var total := Get(response, "total").value;
    var albums: seq<SavedAlbum> := [];
    if Truthy(data.value) {
      if !(data.value.JArr? || data.value.JStr? || data.value.JObj?) {
        return Raised(TypeError);
      }
      if data.value.JArr? {
        var kept := KeepItems(data.value.items, fetch, now, rangeError);
        if kept.Raised? { return Raised(kept.exc); }
        albums := kept.value;
      }
    }
    r := Ok(SavedAlbums(albums, total));
  }

  /** The `for item in data` loop over a list. */
  method KeepItems(items: seq<Json>, fetch: Json -> Option<Json>, now: int, rangeError: Json -> Option<Exception>)
    returns (r: Result<seq<SavedAlbum>>)
    ensures r == KeptAlbums(items, fetch, now, rangeError)
  {
    var albums: seq<SavedAlbum> := [];
    for i := 0 to |items|
      invariant KeptAlbums(items[..i], fetch, now, rangeError) == Ok(albums)
    {
      assert items[..i + 1][..i] == items[..i];
      var step := VisitItem(items[i], fetch, now, rangeError);
      match step
      case Skip =>
      case Keep(a) =>
        albums := albums + [a];
      case Fail(e) =>
        KeptRaisedPrefix(items, fetch, now, rangeError, i + 1);
        return Raised(e);
    }
    assert items[..|items|] == items;
    r := Ok(albums);
  }

  /** The body of the loop for one item: `continue` from the `except`, an append, or a raise. */
  method VisitItem(item: Json, fetch: Json -> Option<Json>, now: int, rangeError: Json -> Option<Exception>)
    returns (step: Step)
    ensures step == StepOf(item, fetch, now, rangeError)
  {
    var id := Index(item, "id");
    if id.Raised? { return Skip; }
    var body := fetch(id.value);
    if body.None? { return Skip; }
    var info := AlbumInfoOf(body.value);
    if info.Raised? { return Skip; }
    var t := Index(item, "time_add");
    if t.Raised? { return Fail(t.exc); }
    if !IsNumber(t.value) { return Fail(TypeError); }
    var e := rangeError(t.value);
    if e.Some? { return Fail(e.value); }
    step := Keep(SavedAlbum(info.value, now, t.value));
  }

  /**
   * The loop raises exactly when some item whose id, fetch and mapping succeed has a missing,
   * non-numeric or out-of-range `time_add`, and then it raises what the first such item raises.
   */
  lemma KeptAlbumsRaised(items: seq<Json>, fetch: Json -> Option<Json>, now: int, rangeError: Json -> Option<Exception>)
    ensures KeptAlbums(items, fetch, now, rangeError).Raised? <==> exists j :: 0 <= j < |items| && StepOf(items[j], fetch, now, rangeError).Fail?
    ensures KeptAlbums(items, fetch, now, rangeError).Raised? ==>
      exists j :: 0 <= j < |items| && StepOf(items[j], fetch, now, rangeError) == Fail(KeptAlbums(items, fetch, now, rangeError).exc) &&
        forall i :: 0 <= i < j ==> !StepOf(items[i], fetch, now, rangeError).Fail?
  {
    KeptRaisedFirst(items, fetch, now, rangeError);
    KeptRaisedWhenFail(items, fetch, now, rangeError);
  }

  /** A raising loop raises what its first failing item raises. */
  lemma {:induction false} KeptRaisedFirst(items: seq<Json>, fetch: Json -> Option<Json>, now: int, rangeError: Json -> Option<Exception>)
    ensures KeptAlbums(items, fetch, now, rangeError).Raised? ==>
      exists j :: 0 <= j < |items| && StepOf(items[j], fetch, now, rangeError) == Fail(KeptAlbums(items, fetch, now, rangeError).exc) &&
        forall i :: 0 <= i < j ==> !StepOf(items[i], fetch, now, rangeError).Fail?
  {
    if |items| > 0 {
      var n := |items| - 1;
      var front := items[..n];
      KeptRaisedFirst(front, fetch, now, rangeError);
      var init := KeptAlbums(front, fetch, now, rangeError);
      if init.Raised? {
        var j :| 0 <= j < n && StepOf(front[j], fetch, now, rangeError) == Fail(init.exc) &&
          forall i :: 0 <= i < j ==> !StepOf(front[i], fetch, now, rangeError).Fail?;
        assert forall i :: 0 <= i <= j ==> items[i] == front[i];
      } else if StepOf(items[n], fetch, now, rangeError).Fail? {
        KeptNoFail(front, fetch, now, rangeError);
        assert forall i :: 0 <= i < n ==> items[i] == front[i];
      }
    }
  }

  /** A loop that does not raise met no failing item. */
  lemma {:induction false} KeptNoFail(items: seq<Json>, fetch: Json -> Option<Json>, now: int, rangeError: Json -> Option<Exception>)
    requires KeptAlbums(items, fetch, now, rangeError).Ok?
    ensures forall i :: 0 <= i < |items| ==> !StepOf(items[i], fetch, now, rangeError).Fail?
  {
    if |items| > 0 {
      var n := |items| - 1;
      var front := items[..n];
      KeptNoFail(front, fetch, now, rangeError);
      assert forall i :: 0 <= i < n ==> items[i] == front[i];
    }
  }

  /** A failing item makes the loop raise. */
  lemma KeptRaisedWhenFail(items: seq<Json>, fetch: Json -> Option<Json>, now: int, rangeError: Json -> Option<Exception>)
    ensures (exists j :: 0 <= j < |items| && StepOf(items[j], fetch, now, rangeError).Fail?) ==> KeptAlbums(items, fetch, now, rangeError).Raised?
  {
    if KeptAlbums(items, fetch, now, rangeError).Ok? {
      KeptNoFail(items, fetch, now, rangeError);
    }
  }

  /**
   * When the loop does not raise, the kept albums are the items whose id, fetch and mapping
   * succeed, in item order, each stamped with `now` and its own item's `time_add`.
   */
  lemma KeptAlbumsInOrder(items: seq<Json>, fetch: Json -> Option<Json>, now: int, rangeError: Json -> Option<Exception>)
    returns (pos: seq<nat>)
    requires KeptAlbums(items, fetch, now, rangeError).Ok?
    ensures var kept := KeptAlbums(items, fetch, now, rangeError).value;
      |pos| == |kept| <= |items| &&
      (forall k :: 0 <= k < |pos| ==> pos[k] < |items|) &&
      (forall k, l :: 0 <= k < l < |pos| ==> pos[k] < pos[l]) &&
      (forall k :: 0 <= k < |pos| ==> StepOf(items[pos[k]], fetch, now, rangeError) == Keep(kept[k])) &&
      (forall i :: 0 <= i < |items| && StepOf(items[i], fetch, now, rangeError).Keep? ==> i in pos)
  {
    pos := KeptAt(items, fetch, now, rangeError);
    KeptAtShape(items, fetch, now, rangeError);
    KeptAtContent(items, fetch, now, rangeError);
    KeptAtComplete(items, fetch, now, rangeError);
  }

  /** The positions of the kept items, in item order. */
  function KeptAt(items: seq<Json>, fetch: Json -> Option<Json>, now: int, rangeError: Json -> Option<Exception>): seq<nat>
  {
    if |items| == 0 then []
    else
      var n := |items| - 1;
      KeptAt(items[..n], fetch, now, rangeError) + (if StepOf(items[n], fetch, now, rangeError).Keep? then [n] else [])
  }

  /** One position per kept album, increasing, each naming an item. */
  lemma {:induction false} KeptAtShape(items: seq<Json>, fetch: Json -> Option<Json>, now: int, rangeError: Json -> Option<Exception>)
    requires KeptAlbums(items, fetch, now, rangeError).Ok?
    ensures var pos := KeptAt(items, fetch, now, rangeError);
      |pos| == |KeptAlbums(items, fetch, now, rangeError).value| <= |items| &&
      (forall k :: 0 <= k < |pos| ==> pos[k] < |items|) &&
      (forall k, l :: 0 <= k < l < |pos| ==> pos[k] < pos[l])
  {
    if |items| > 0 {
      KeptAtShape(items[..|items| - 1], fetch, now, rangeError);
    }
  }

  /** The album kept k-th is the step of the item at position k. */
  lemma {:induction false} KeptAtContent(items: seq<Json>, fetch: Json -> Option<Json>, now: int, rangeError: Json -> Option<Exception>)
    requires KeptAlbums(items, fetch, now, rangeError).Ok?
    ensures var pos := KeptAt(items, fetch, now, rangeError);
      var kept := KeptAlbums(items, fetch, now, rangeError).value;
      |pos| == |kept| &&
      forall k :: 0 <= k < |pos| ==> pos[k] < |items| && StepOf(items[pos[k]], fetch, now, rangeError) == Keep(kept[k])
  {
    KeptAtShape(items, fetch, now, rangeError);
    if |items| > 0 {
      var n := |items| - 1;
      var front := items[..n];
      KeptAtContent(front, fetch, now, rangeError);
      KeptAtShape(front, fetch, now, rangeError);
      var p := KeptAt(front, fetch, now, rangeError);
      var init := KeptAlbums(front, fetch, now, rangeError).value;
      forall k | 0 <= k < |p| ensures StepOf(items[p[k]], fetch, now, rangeError) == Keep(init[k]) {
        assert items[p[k]] == front[p[k]];
      }
    }
  }

  /** Every kept item has its position listed. */
  lemma {:induction false} KeptAtComplete(items: seq<Json>, fetch: Json -> Option<Json>, now: int, rangeError: Json -> Option<Exception>)
    ensures forall i :: 0 <= i < |items| && StepOf(items[i], fetch, now, rangeError).Keep? ==> i in KeptAt(items, fetch, now, rangeError)
  {
    if |items| > 0 {
      var n := |items| - 1;
      var front := items[..n];
      KeptAtComplete(front, fetch, now, rangeError);
      forall i | 0 <= i < n && StepOf(items[i], fetch, now, rangeError).Keep? ensures i in KeptAt(items, fetch, now, rangeError) {
        assert items[i] == front[i];
      }
    }
  }

  /** Missing or empty `data` gives no albums; `total_albums` is always the response's `total`. */
  lemma SavedAlbumsTotal(response: Json, fetch: Json -> Option<Json>, now: int, rangeError: Json -> Option<Exception>)
    ensures response.JObj? && !Truthy(Get(response, "data").value) ==>
      SavedAlbumsOf(response, fetch, now, rangeError) == Ok(SavedAlbums([], Get(response, "total").value))
    ensures SavedAlbumsOf(response, fetch, now, rangeError).Ok? ==>
      response.JObj? && SavedAlbumsOf(response, fetch, now, rangeError).value.totalAlbums == Get(response, "total").value
    ensures !response.JObj? ==> SavedAlbumsOf(response, fetch, now, rangeError) == Raised(AttributeError)
  {
  }
}
