/**
 * The background import of a user's saved albums (`bg_tasks.fetch_albums_data`): page through
 * the saved albums 50 at a time and, for every album, store its artist, then the album, then
 * the user–album link, before enqueueing the genre and colour passes.
 *
 * The store methods it calls have no bodies in the repository, so the model records the calls
 * in order; `reply(i)` is the value the store returns for the i-th call of that log.  The page
 * at an offset is `page(offset)`.
 */
module BgTasks {
  import opened Wrappers
  import opened Json

  const Limit: nat := 50

  datatype Task = AlbumsGenres | AlbumsColor

  datatype Call =
    | GetTokens(userId: string)
    | InsertArtist(spotifyId: Json, name: Json)
    | InsertAlbum(spotifyId: Json, artistId: int, albumType: Json, upcId: Json, recordLabel: Json,
                  name: Json, releaseDate: Json, imageUrl: Json, genres: Json,
                  totalTracks: Json, popularity: Json)
    | InsertUserAlbum(userId: string, albumId: int, addedAt: Json)
    | Enqueue(task: Task)

  /** The calls logged so far, and the exception that stopped the page, if one did. */
  datatype Outcome = Outcome(calls: seq<Call>, exc: Option<Exception>)

  /** The calls logged by the whole run, how many pages it fetched, and how it ended. */
  datatype Trace = Trace(calls: seq<Call>, pages: nat, r: Result<()>)

  /** `alb.get(k)` on a dict. */
  function Field(alb: Json, k: string): Json
    requires alb.JObj?
  {
    if k in alb.fields then alb.fields[k] else JNull
  }

  /** `results.get("albums")`, JNull when the page has no `albums`. */
  function AlbumsOf(results: Json): Json
  {
    if results.JObj? && "albums" in results.fields then results.fields["albums"] else JNull
  }

  /** The page ends the loop: `.get` raises on it, or its `albums` is falsy. */
  predicate Stops(results: Json)
  {
    !results.JObj? || !Truthy(AlbumsOf(results))
  }

  /** `insert_artist(spotify_id=alb.get("artist_spotify_id"), name=alb.get("artist_name"))`. */
  function ArtistCall(alb: Json): Call
    requires alb.JObj?
  {
    InsertArtist(Field(alb, "artist_spotify_id"), Field(alb, "artist_name"))
  }

  /** `insert_album(...)` with the artist id returned for the album's artist. */
  function AlbumCall(alb: Json, artistId: int): Call
    requires alb.JObj?
  {
    InsertAlbum(Field(alb, "spotify_id"), artistId, Field(alb, "type"), Field(alb, "upc_id"),
                Field(alb, "label"), Field(alb, "name"), Field(alb, "release_date"),
                Field(alb, "image_url"), Field(alb, "genres"), Field(alb, "total_tracks"),
                Field(alb, "popularity"))
  }

  /** `insert_user_album(user_id, album_id, alb.get("added_at"))`. */
  function UserAlbumCall(userId: string, alb: Json, albumId: int): Call
    requires alb.JObj?
  {
    InsertUserAlbum(userId, albumId, Field(alb, "added_at"))
  }

  /** The three store calls for one album whose `insert_artist` call is the `at`-th of the log. */
  function AlbumCalls(userId: string, alb: Json, at: nat, reply: nat -> int): seq<Call>
    requires alb.JObj?
  {
    [ArtistCall(alb), AlbumCall(alb, reply(at)), UserAlbumCall(userId, alb, reply(at + 1))]
  }

  /** The inner loop over one page's albums, after the calls `calls0`. */
  function PageVisit(userId: string, albs: seq<Json>, reply: nat -> int, calls0: seq<Call>): Outcome
  {
    if |albs| == 0 then Outcome(calls0, None)
    else
      var o := PageVisit(userId, albs[..|albs| - 1], reply, calls0);
      var alb := albs[|albs| - 1];
      if o.exc.Some? then o
      else if !alb.JObj? then Outcome(o.calls, Some(AttributeError))
      else Outcome(o.calls + AlbumCalls(userId, alb, |o.calls|, reply), None)
  }

  /** Iterating a truthy `albums` that is not a list: its items are strings (no `.get`) or it is not iterable. */
  function NotAListError(albums: Json): Exception
  {
    if albums.JStr? || albums.JObj? then AttributeError else TypeError
  }

  const Enqueues: seq<Call> := [Enqueue(AlbumsGenres), Enqueue(AlbumsColor)]

  /**
   * The `while True` loop from the k-th page on, after the calls `calls`.  `bound` is a page
   * at which the service answers an empty page, so that the loop ends.
   */
  function Paging(userId: string, page: int -> Json, reply: nat -> int, calls: seq<Call>,
                  k: nat, bound: nat): Trace
    requires k <= bound && Stops(page(Limit * bound))
    decreases bound - k
  {
    var results := page(Limit * k);
    if !results.JObj? then Trace(calls, k + 1, Raised(AttributeError))
    else
      var albums := AlbumsOf(results);
      if !Truthy(albums) then Trace(calls + Enqueues, k + 1, Ok(()))
      else if !albums.JArr? then Trace(calls, k + 1, Raised(NotAListError(albums)))
      else
        var o := PageVisit(userId, albums.items, reply, calls);
        if o.exc.Some? then Trace(o.calls, k + 1, Raised(o.exc.value))
        else Paging(userId, page, reply, o.calls, k + 1, bound)
  }

  /** The `for alb in results.get("albums")` loop over one page's list. */
  method VisitPage(userId: string, items: seq<Json>, reply: nat -> int, before: seq<Call>)
    returns (calls: seq<Call>, exc: Option<Exception>)
    ensures PageVisit(userId, items, reply, before) == Outcome(calls, exc)
  {
    calls := before;
    for i := 0 to |items|
      invariant PageVisit(userId, items[..i], reply, before) == Outcome(calls, None)
    {
      var alb := items[i];
      assert items[..i + 1][..i] == items[..i];
      if !alb.JObj? {
        PageVisitRaised(userId, items, reply, before, i + 1);
        return calls, Some(AttributeError);
      }
      var artistId := reply(|calls|);
      calls := calls + [ArtistCall(alb)];
      var albumId := reply(|calls|);
      calls := calls + [AlbumCall(alb, artistId)];
      calls := calls + [UserAlbumCall(userId, alb, albumId)];
    }
    assert items[..|items|] == items;
    exc := None;
  }

  /**
   * `fetch_albums_data`: the calls it makes, the offsets of the pages it fetched, and whether
   * it ended normally.  `userId` is the already converted `str(user_id)`.
   */
  method FetchAlbumsData(userId: string, page: int -> Json, reply: nat -> int, ghost bound: nat)
    returns (r: Result<()>, calls: seq<Call>, offsets: seq<int>)
    requires Stops(page(Limit * bound))
    ensures Paging(userId, page, reply, [GetTokens(userId)], 0, bound) == Trace(calls, |offsets|, r)
    ensures forall i :: 0 <= i < |offsets| ==> offsets[i] == Limit * i
  {
    calls := [GetTokens(userId)];
    var limit := Limit;
    var offset := 0;
    offsets := [];
    while true
      invariant |offsets| <= bound
      invariant offset == Limit * |offsets|
      invariant forall i :: 0 <= i < |offsets| ==> offsets[i] == Limit * i
      invariant Paging(userId, page, reply, calls, |offsets|, bound) ==
                Paging(userId, page, reply, [GetTokens(userId)], 0, bound)
      decreases bound - |offsets|
    {
      var results := page(offset);
      offsets := offsets + [offset];
      if !results.JObj? {
        return Raised(AttributeError), calls, offsets;
      }
      var albums := AlbumsOf(results);
      if !Truthy(albums) {
        break;
      }
      if !albums.JArr? {
        return Raised(NotAListError(albums)), calls, offsets;
      }
      var exc;
      calls, exc := VisitPage(userId, albums.items, reply, calls);
      if exc.Some? {
        return Raised(exc.value), calls, offsets;
      }
      offset := offset + limit;
    }
    calls := calls + Enqueues;
    r := Ok(());
  }

  /** Once an album of the page raised, the later albums change nothing. */
  lemma {:induction false} PageVisitRaised(userId: string, albs: seq<Json>, reply: nat -> int,
                                           calls0: seq<Call>, n: nat)
    requires 0 < n <= |albs|
    requires PageVisit(userId, albs[..n], reply, calls0).exc.Some?
    ensures PageVisit(userId, albs, reply, calls0) == PageVisit(userId, albs[..n], reply, calls0)
    decreases |albs|
  {
    if n < |albs| {
      var front := albs[..|albs| - 1];
      assert front[..n] == albs[..n];
      PageVisitRaised(userId, front, reply, calls0, n);
    } else {
      assert albs[..n] == albs;
    }
  }

  /**
   * One page: the albums up to the first non-dict are all visited, each adding three calls and
   * no enqueue; a non-dict album raises AttributeError and stops the page; earlier calls are kept.
   */
  lemma {:induction false} PageVisitShape(userId: string, albs: seq<Json>, reply: nat -> int, calls0: seq<Call>)
    returns (visited: nat)
    ensures var o := PageVisit(userId, albs, reply, calls0);
      visited <= |albs| &&
      |o.calls| == |calls0| + 3 * visited && o.calls[..|calls0|] == calls0 &&
      (forall j :: 0 <= j < visited ==> albs[j].JObj?) &&
      (o.exc.None? <==> visited == |albs|) &&
      (o.exc.Some? ==> o.exc == Some(AttributeError) && !albs[visited].JObj?) &&
      (forall j :: |calls0| <= j < |o.calls| ==> !o.calls[j].Enqueue?)
    decreases |albs|
  {
    PageVisitNoEnqueue(userId, albs, reply, calls0);
    if |albs| == 0 {
      return 0;
    }
    var n := |albs| - 1;
    var front := albs[..n];
    var m := PageVisitShape(userId, front, reply, calls0);
    var o := PageVisit(userId, front, reply, calls0);
    assert forall j :: 0 <= j < n ==> front[j] == albs[j];
    if o.exc.Some? || !albs[n].JObj? {
      visited := m;
    } else {
      visited := m + 1;
    }
  }

  /**
   * Album j of a page whose visit did not raise gets, at positions 3j.. after the earlier calls,
   * `insert_artist`, then `insert_album` with the artist id the store returned, then
   * `insert_user_album` with the album id it returned.
   */
  lemma {:induction false} PageVisitCalls(userId: string, albs: seq<Json>, reply: nat -> int, calls0: seq<Call>)
    requires PageVisit(userId, albs, reply, calls0).exc.None?
    ensures var o := PageVisit(userId, albs, reply, calls0);
      |o.calls| == |calls0| + 3 * |albs| &&
      forall j :: 0 <= j < |albs| ==>
        albs[j].JObj? &&
        o.calls[|calls0| + 3 * j .. |calls0| + 3 * j + 3] == AlbumCalls(userId, albs[j], |calls0| + 3 * j, reply)
    decreases |albs|
  {
    PageVisitLength(userId, albs, reply, calls0);
    forall j | 0 <= j < |albs|
      ensures var o := PageVisit(userId, albs, reply, calls0);
        albs[j].JObj? &&
        o.calls[|calls0| + 3 * j .. |calls0| + 3 * j + 3] == AlbumCalls(userId, albs[j], |calls0| + 3 * j, reply)
    {
      PageVisitCallsAt(userId, albs, reply, calls0, j);
    }
  }

  /** A visit that did not raise adds three calls per album. */
  lemma {:induction false} PageVisitLength(userId: string, albs: seq<Json>, reply: nat -> int, calls0: seq<Call>)
    requires PageVisit(userId, albs, reply, calls0).exc.None?
    ensures |PageVisit(userId, albs, reply, calls0).calls| == |calls0| + 3 * |albs|
  {
    if |albs| > 0 {
      PageVisitLength(userId, albs[..|albs| - 1], reply, calls0);
    }
  }

  /** The three calls of album j. */
  lemma {:induction false} PageVisitCallsAt(userId: string, albs: seq<Json>, reply: nat -> int, calls0: seq<Call>, j: nat)
    requires j < |albs|
    requires PageVisit(userId, albs, reply, calls0).exc.None?
    ensures var o := PageVisit(userId, albs, reply, calls0);
      |calls0| + 3 * j + 3 <= |o.calls| && albs[j].JObj? &&
      o.calls[|calls0| + 3 * j .. |calls0| + 3 * j + 3] == AlbumCalls(userId, albs[j], |calls0| + 3 * j, reply)
  {
    var n := |albs| - 1;
    var front := albs[..n];
    var o := PageVisit(userId, front, reply, calls0);
    PageVisitLength(userId, front, reply, calls0);
    var c := o.calls + AlbumCalls(userId, albs[n], |o.calls|, reply);
    assert PageVisit(userId, albs, reply, calls0).calls == c;
    if j == n {
      assert c[|o.calls|..|o.calls| + 3] == AlbumCalls(userId, albs[n], |o.calls|, reply);
    } else {
      PageVisitCallsAt(userId, front, reply, calls0, j);
      assert front[j] == albs[j];
      assert c[|calls0| + 3 * j .. |calls0| + 3 * j + 3] == o.calls[|calls0| + 3 * j .. |calls0| + 3 * j + 3];
    }
  }

  /**
   * The whole run from page k: pages are fetched one after the other and all but the last are
   * dicts whose `albums` is a non-empty list of dicts, so their visits raised nothing; the run ends normally exactly when the last page
   * fetched is a dict whose `albums` is falsy, having appended the two enqueues.
   */
  lemma PagingShape(userId: string, page: int -> Json, reply: nat -> int,
                    calls: seq<Call>, k: nat, bound: nat)
    requires k <= bound && Stops(page(Limit * bound))
    ensures var t := Paging(userId, page, reply, calls, k, bound);
      k < t.pages <= bound + 1 && |calls| <= |t.calls| && t.calls[..|calls|] == calls &&
      (forall i :: k <= i < t.pages - 1 ==>
        !Stops(page(Limit * i)) && AlbumsOf(page(Limit * i)).JArr? && AllDicts(AlbumsOf(page(Limit * i)).items)) &&
      (t.r.Ok? <==> page(Limit * (t.pages - 1)).JObj? && !Truthy(AlbumsOf(page(Limit * (t.pages - 1)))))
  {
    PagingPrefix(userId, page, reply, calls, k, bound);
    PagingLists(userId, page, reply, calls, k, bound);
    PagingDicts(userId, page, reply, calls, k, bound);
    PagingEnd(userId, page, reply, calls, k, bound);
  }

  /** The run fetches at least page k and at most up to page `bound`, and keeps the earlier calls. */
  lemma {:induction false} PagingPrefix(userId: string, page: int -> Json, reply: nat -> int,
                                        calls: seq<Call>, k: nat, bound: nat)
    requires k <= bound && Stops(page(Limit * bound))
    ensures var t := Paging(userId, page, reply, calls, k, bound);
      k < t.pages <= bound + 1 && |calls| <= |t.calls| && t.calls[..|calls|] == calls
    decreases bound - k
  {
    var results := page(Limit * k);
    if results.JObj? && Truthy(AlbumsOf(results)) && AlbumsOf(results).JArr? {
      var o := PageVisit(userId, AlbumsOf(results).items, reply, calls);
      PageVisitPrefix(userId, AlbumsOf(results).items, reply, calls);
      if o.exc.None? {
        PagingPrefix(userId, page, reply, o.calls, k + 1, bound);
        var t := Paging(userId, page, reply, o.calls, k + 1, bound);
        assert t.calls[..|calls|] == t.calls[..|o.calls|][..|calls|];
      }
    }
  }

  /** Every page before the last is a non-empty list. */
  lemma {:induction false} PagingLists(userId: string, page: int -> Json, reply: nat -> int,
                                       calls: seq<Call>, k: nat, bound: nat)
    requires k <= bound && Stops(page(Limit * bound))
    ensures var t := Paging(userId, page, reply, calls, k, bound);
      forall i :: k <= i < t.pages - 1 ==> !Stops(page(Limit * i)) && AlbumsOf(page(Limit * i)).JArr?
    decreases bound - k
  {
    var results := page(Limit * k);
    if results.JObj? && Truthy(AlbumsOf(results)) && AlbumsOf(results).JArr? {
      var o := PageVisit(userId, AlbumsOf(results).items, reply, calls);
      if o.exc.None? {
        PagingLists(userId, page, reply, o.calls, k + 1, bound);
      }
    }
  }

  /** Every page before the last holds only dict albums. */
  lemma {:induction false} PagingDicts(userId: string, page: int -> Json, reply: nat -> int,
                                       calls: seq<Call>, k: nat, bound: nat)
    requires k <= bound && Stops(page(Limit * bound))
    ensures var t := Paging(userId, page, reply, calls, k, bound);
      forall i :: k <= i < t.pages - 1 ==> AlbumsOf(page(Limit * i)).JArr? ==> AllDicts(AlbumsOf(page(Limit * i)).items)
    decreases bound - k
  {
    var results := page(Limit * k);
    if results.JObj? && Truthy(AlbumsOf(results)) && AlbumsOf(results).JArr? {
      var o := PageVisit(userId, AlbumsOf(results).items, reply, calls);
      if o.exc.None? {
        PageVisitDicts(userId, AlbumsOf(results).items, reply, calls);
        assert Paging(userId, page, reply, calls, k, bound) == Paging(userId, page, reply, o.calls, k + 1, bound);
        PagingDicts(userId, page, reply, o.calls, k + 1, bound);
      }
    }
  }

  /** A visit that raised nothing met only dict albums. */
  lemma {:induction false} PageVisitDicts(userId: string, albs: seq<Json>, reply: nat -> int, calls0: seq<Call>)
    requires PageVisit(userId, albs, reply, calls0).exc.None?
    ensures AllDicts(albs)
  {
    if |albs| > 0 {
      var front := albs[..|albs| - 1];
      PageVisitDicts(userId, front, reply, calls0);
      assert forall j :: 0 <= j < |front| ==> albs[j] == front[j];
    }
  }

  /** Every album of the list is a dict, so its visit raises nothing. */
  predicate AllDicts(items: seq<Json>)
  {
    forall j :: 0 <= j < |items| ==> items[j].JObj?
  }

  /** The run ends normally exactly when its last page is a dict with a falsy `albums`. */
  lemma {:induction false} PagingEnd(userId: string, page: int -> Json, reply: nat -> int,
                                     calls: seq<Call>, k: nat, bound: nat)
    requires k <= bound && Stops(page(Limit * bound))
    ensures var t := Paging(userId, page, reply, calls, k, bound);
      k < t.pages &&
      (t.r.Ok? <==> page(Limit * (t.pages - 1)).JObj? && !Truthy(AlbumsOf(page(Limit * (t.pages - 1)))))
    decreases bound - k
  {
    var results := page(Limit * k);
    if results.JObj? && Truthy(AlbumsOf(results)) && AlbumsOf(results).JArr? {
      var o := PageVisit(userId, AlbumsOf(results).items, reply, calls);
      if o.exc.None? {
        PagingEnd(userId, page, reply, o.calls, k + 1, bound);
      }
    }
  }

  /** A page's visit keeps the earlier calls. */
  lemma PageVisitPrefix(userId: string, albs: seq<Json>, reply: nat -> int, calls0: seq<Call>)
    ensures var o := PageVisit(userId, albs, reply, calls0);
      |calls0| <= |o.calls| && o.calls[..|calls0|] == calls0
  {
    PageVisitNoEnqueue(userId, albs, reply, calls0);
  }

  /**
   * The genre and colour passes are enqueued once each, as the last two calls, when the run
   * ends normally, and never otherwise.
   */
  lemma {:induction false} PagingEnqueues(userId: string, page: int -> Json, reply: nat -> int,
                                          calls: seq<Call>, k: nat, bound: nat)
    requires k <= bound && Stops(page(Limit * bound))
    ensures var t := Paging(userId, page, reply, calls, k, bound);
      (t.r.Ok? ==> |calls| + 2 <= |t.calls| && t.calls[|t.calls| - 2..] == Enqueues) &&
      (forall j :: |calls| <= j < |t.calls| ==> (t.calls[j].Enqueue? <==> t.r.Ok? && j >= |t.calls| - 2))
    decreases bound - k
  {
    var results := page(Limit * k);
    var t := Paging(userId, page, reply, calls, k, bound);
    if results.JObj? && Truthy(AlbumsOf(results)) && AlbumsOf(results).JArr? {
      var o := PageVisit(userId, AlbumsOf(results).items, reply, calls);
      PageVisitNoEnqueue(userId, AlbumsOf(results).items, reply, calls);
      if o.exc.None? {
        assert t == Paging(userId, page, reply, o.calls, k + 1, bound);
        PagingEnqueues(userId, page, reply, o.calls, k + 1, bound);
        PagingPrefix(userId, page, reply, o.calls, k + 1, bound);
        NoEnqueueKept(calls, o.calls, t.calls);
      }
    } else if results.JObj? && !Truthy(AlbumsOf(results)) {
      assert t.calls == calls + Enqueues;
    }
  }

  /** A page's visit keeps the earlier calls and enqueues nothing. */
  lemma {:induction false} PageVisitNoEnqueue(userId: string, albs: seq<Json>, reply: nat -> int, calls0: seq<Call>)
    ensures var o := PageVisit(userId, albs, reply, calls0);
      |calls0| <= |o.calls| && o.calls[..|calls0|] == calls0 &&
      forall j :: |calls0| <= j < |o.calls| ==> !o.calls[j].Enqueue?
  {
    if |albs| > 0 {
      var front := albs[..|albs| - 1];
      PageVisitNoEnqueue(userId, front, reply, calls0);
      var o := PageVisit(userId, front, reply, calls0);
      var alb := albs[|albs| - 1];
      if o.exc.None? && alb.JObj? {
        var c := o.calls + AlbumCalls(userId, alb, |o.calls|, reply);
        assert c[..|o.calls|] == o.calls;
        assert c[..|calls0|] == o.calls[..|calls0|];
      }
    }
  }

  /** Calls free of enqueues stay so once later calls are appended after them. */
  lemma NoEnqueueKept(calls: seq<Call>, mid: seq<Call>, all: seq<Call>)
    requires |calls| <= |mid| <= |all| && all[..|mid|] == mid
    requires forall j :: |calls| <= j < |mid| ==> !mid[j].Enqueue?
    ensures forall j :: |calls| <= j < |mid| ==> !all[j].Enqueue?
  {
    forall j | |calls| <= j < |mid| ensures !all[j].Enqueue? {
      assert all[j] == all[..|mid|][j];
    }
  }
}
