/**
 * The enrichment worker: the SQL selections it runs (as filters over the tables), the
 * batching of ids and albums, and its passes: colours, genres and styles, untracked albums
 * and artists, and the user-album check-then-insert.  Every outside service is a parameter.
 */
module Worker {
  import opened Wrappers
  import opened DigsterDb
  import Discogs
  import Json
  import Spotify
  import ColorFinder

  // ---------------------------------------------------------------- generic list helpers

  /** `[xs[x : x + n] for x in range(0, len(xs), n)]`. */
  function Chunks<T>(xs: seq<T>, n: nat): seq<seq<T>>
    requires n > 0
    decreases |xs|
  {
    if |xs| == 0 then []
    else if |xs| <= n then [xs]
    else [xs[..n]] + Chunks(xs[n..], n)
  }

  function Flatten<T>(css: seq<seq<T>>): seq<T>
  {
    if |css| == 0 then [] else css[0] + Flatten(css[1..])
  }

  /** The chunks concatenate back to the list. */
  lemma {:induction false} ChunksFlatten<T>(xs: seq<T>, n: nat)
    requires n > 0
    ensures Flatten(Chunks(xs, n)) == xs
    decreases |xs|
  {
    if |xs| > n {
      ChunksFlatten(xs[n..], n);
      var cs := Chunks(xs, n);
      assert cs[0] == xs[..n] && cs[1..] == Chunks(xs[n..], n);
      assert xs[..n] + xs[n..] == xs;
    }
  }

  /** Each chunk holds between 1 and n items, every one but the last exactly n. */
  lemma {:induction false} ChunksSizes<T>(xs: seq<T>, n: nat)
    requires n > 0
    ensures |xs| > 0 ==> |Chunks(xs, n)| > 0
    ensures forall i :: 0 <= i < |Chunks(xs, n)| ==> 1 <= |Chunks(xs, n)[i]| <= n
    ensures forall i :: 0 <= i < |Chunks(xs, n)| - 1 ==> |Chunks(xs, n)[i]| == n
    decreases |xs|
  {
    if |xs| > n {
      ChunksSizes(xs[n..], n);
      var cs := Chunks(xs, n);
      assert cs[1..] == Chunks(xs[n..], n);
      assert forall i :: 1 <= i < |cs| ==> cs[i] == Chunks(xs[n..], n)[i - 1];
    }
  }

  /** Flattening distributes over concatenation. */
  lemma {:induction false} FlattenAppend<T>(a: seq<seq<T>>, b: seq<seq<T>>)
    ensures Flatten(a + b) == Flatten(a) + Flatten(b)
  {
    if |a| == 0 {
      assert a + b == b;
    } else {
      assert (a + b)[0] == a[0];
      assert (a + b)[1..] == a[1..] + b;
      FlattenAppend(a[1..], b);
    }
  }

  /** SQL DISTINCT, keeping each value at its first occurrence. */
  function Dedup<T(==)>(xs: seq<T>): seq<T>
  {
    if |xs| == 0 then []
    else
      var d := Dedup(xs[..|xs| - 1]);
      if xs[|xs| - 1] in d then d else d + [xs[|xs| - 1]]
  }

  predicate Distinct<T(==)>(xs: seq<T>)
  {
    forall i, j :: 0 <= i < j < |xs| ==> xs[i] != xs[j]
  }

  /** DISTINCT keeps exactly the values of the list, each once. */
  lemma {:induction false} DedupDistinct<T>(xs: seq<T>)
    ensures forall x :: x in Dedup(xs) <==> x in xs
    ensures Distinct(Dedup(xs))
  {
    if |xs| > 0 {
      var front := xs[..|xs| - 1];
      DedupDistinct(front);
      assert xs == front + [xs[|xs| - 1]];
    }
  }

  // ---------------------------------------------------------------- the selections

  /** `SELECT image_url, id FROM albums WHERE primary_color is null`, in table order. */
  function ColorCandidates(albums: seq<Album>): seq<Album>
  {
    if |albums| == 0 then []
    else
      var a := albums[|albums| - 1];
      ColorCandidates(albums[..|albums| - 1]) + if a.primaryColor.None? then [a] else []
  }

  /** The colour candidates are exactly the albums without a primary colour, in table order. */
  lemma {:induction false} ColorCandidatesExactly(albums: seq<Album>)
    ensures forall a :: a in ColorCandidates(albums) <==> a in albums && a.primaryColor.None?
    ensures |ColorCandidates(albums)| <= |albums|
  {
    if |albums| > 0 {
      var front := albums[..|albums| - 1];
      ColorCandidatesExactly(front);
      assert albums == front + [albums[|albums| - 1]];
    }
  }

  /** An album with no `album_styles` row and no `album_genres` row. */
  predicate Untagged(a: Album, albumGenres: seq<TagLink>, albumStyles: seq<TagLink>)
  {
    (forall l :: l in albumStyles ==> l.albumId != a.id) &&
    (forall l :: l in albumGenres ==> l.albumId != a.id)
  }

  /** The names of the artists whose `spotify_id` equals the album's `artist_id` (NULL matches nothing). */
  function MatchingNames(artists: seq<Artist>, artistId: Option<string>): (names: seq<Option<string>>)
    ensures forall n :: n in names <==> exists ar :: ar in artists && artistId.Some? && ar.data.spotifyId == artistId && ar.data.name == n
  {
    if |artists| == 0 || artistId.None? then []
    else
      var ar := artists[|artists| - 1];
      var front := artists[..|artists| - 1];
      assert artists == front + [ar];
      MatchingNames(front, artistId) + if ar.data.spotifyId == artistId then [ar.data.name] else []
  }

  /**
   * The rows one untagged album contributes to the LEFT JOIN on artists: one per matching
   * artist with that artist's name, or one with a NULL artist name when none matches.
   */
  function JoinRows(a: Album, artists: seq<Artist>): (rows: seq<Discogs.AlbumRef>)
    ensures |rows| > 0
    ensures forall r :: r in rows ==> r.id == a.id && r.albumName == a.data.name
    ensures forall r :: r in rows && r.artistName.Some? ==>
      exists ar :: ar in artists && a.data.artistId.Some? && ar.data.spotifyId == a.data.artistId && ar.data.name == r.artistName
    ensures (forall ar :: ar in artists ==> a.data.artistId.None? || ar.data.spotifyId != a.data.artistId) ==>
      rows == [Discogs.AlbumRef(a.id, None, a.data.name)]
  {
    var names := MatchingNames(artists, a.data.artistId);
    if |names| == 0 then [Discogs.AlbumRef(a.id, None, a.data.name)]
    else
      var rows := seq(|names|, k requires 0 <= k < |names| => Discogs.AlbumRef(a.id, names[k], a.data.name));
      assert names[0] in names;
      assert forall k :: 0 <= k < |names| ==> names[k] in names;
      assert forall r :: r in rows ==> exists k :: 0 <= k < |names| && r == rows[k];
      rows
  }

  /** The untagged-albums query: `id`, `artist_name` and `album_name` of albums with no style and no genre. */
  function TagCandidates(albums: seq<Album>, artists: seq<Artist>,
                         albumGenres: seq<TagLink>, albumStyles: seq<TagLink>): seq<Discogs.AlbumRef>
  {
    if |albums| == 0 then []
    else
      var a := albums[|albums| - 1];
      TagCandidates(albums[..|albums| - 1], artists, albumGenres, albumStyles) +
        if Untagged(a, albumGenres, albumStyles) then JoinRows(a, artists) else []
  }

  /**
   * Every row of the untagged-albums query belongs to an album with neither a style nor a
   * genre and carries that album's name, and every such album has at least one row.
   */
  lemma {:induction false} TagCandidatesExactly(albums: seq<Album>, artists: seq<Artist>,
                                                albumGenres: seq<TagLink>, albumStyles: seq<TagLink>)
    ensures forall r :: r in TagCandidates(albums, artists, albumGenres, albumStyles) ==>
      exists a :: a in albums && Untagged(a, albumGenres, albumStyles) && r.id == a.id && r.albumName == a.data.name
    ensures forall a :: a in albums && Untagged(a, albumGenres, albumStyles) ==>
      exists r :: r in TagCandidates(albums, artists, albumGenres, albumStyles) && r.id == a.id
  {
    if |albums| > 0 {
      var a := albums[|albums| - 1];
      var front := albums[..|albums| - 1];
      TagCandidatesExactly(front, artists, albumGenres, albumStyles);
      assert albums == front + [a];
      if Untagged(a, albumGenres, albumStyles) {
        var rows := JoinRows(a, artists);
        assert rows[0] in rows;
      }
    }
  }

  /** `album_spotify_id`s of user albums whose id is set and names no album, in table order. */
  function WantedAlbumIds(userAlbums: seq<UserAlbum>, albums: seq<Album>): seq<string>
  {
    if |userAlbums| == 0 then []
    else
      var u := userAlbums[|userAlbums| - 1];
      WantedAlbumIds(userAlbums[..|userAlbums| - 1], albums) +
        if u.albumSpotifyId.Some? && forall a :: a in albums ==> a.data.spotifyId != u.albumSpotifyId
        then [u.albumSpotifyId.value] else []
  }

  /** The untracked-albums query. */
  function UntrackedAlbumIds(userAlbums: seq<UserAlbum>, albums: seq<Album>): seq<string>
  {
    Dedup(WantedAlbumIds(userAlbums, albums))
  }

  /** The untracked album ids are exactly the non-null ids some user album names and no album has, each once. */
  lemma {:induction false} UntrackedAlbumIdsExactly(userAlbums: seq<UserAlbum>, albums: seq<Album>)
    ensures forall x :: x in UntrackedAlbumIds(userAlbums, albums) <==>
      (exists u :: u in userAlbums && u.albumSpotifyId == Some(x)) &&
      forall a :: a in albums ==> a.data.spotifyId != Some(x)
    ensures Distinct(UntrackedAlbumIds(userAlbums, albums))
  {
    WantedAlbumIdsExactly(userAlbums, albums);
    DedupDistinct(WantedAlbumIds(userAlbums, albums));
  }

  lemma {:induction false} WantedAlbumIdsExactly(userAlbums: seq<UserAlbum>, albums: seq<Album>)
    ensures forall x :: x in WantedAlbumIds(userAlbums, albums) <==>
      (exists u :: u in userAlbums && u.albumSpotifyId == Some(x)) &&
      forall a :: a in albums ==> a.data.spotifyId != Some(x)
  {
    if |userAlbums| > 0 {
      var front := userAlbums[..|userAlbums| - 1];
      WantedAlbumIdsExactly(front, albums);
      assert userAlbums == front + [userAlbums[|userAlbums| - 1]];
    }
  }

  /** `artist_id`s of albums whose artist id matches no artist; a NULL id never matches, so it is listed too. */
  function WantedArtistIds(albums: seq<Album>, artists: seq<Artist>): seq<Option<string>>
  {
    if |albums| == 0 then []
    else
      var a := albums[|albums| - 1];
      WantedArtistIds(albums[..|albums| - 1], artists) +
        if a.data.artistId.None? || forall ar :: ar in artists ==> ar.data.spotifyId != a.data.artistId
        then [a.data.artistId] else []
  }

  /** The untracked-artists query. */
  function UntrackedArtistIds(albums: seq<Album>, artists: seq<Artist>): seq<Option<string>>
  {
    Dedup(WantedArtistIds(albums, artists))
  }

  /**
   * The untracked artist ids are exactly the album artist ids no artist has, each once; NULL
   * is among them as soon as one album has no artist id.
   */
  lemma {:induction false} UntrackedArtistIdsExactly(albums: seq<Album>, artists: seq<Artist>)
    ensures forall x :: x in UntrackedArtistIds(albums, artists) <==>
      (exists a :: a in albums && a.data.artistId == x) &&
      (x.None? || forall ar :: ar in artists ==> ar.data.spotifyId != x)
    ensures Distinct(UntrackedArtistIds(albums, artists))
  {
    WantedArtistIdsExactly(albums, artists);
    DedupDistinct(WantedArtistIds(albums, artists));
  }

  lemma {:induction false} WantedArtistIdsExactly(albums: seq<Album>, artists: seq<Artist>)
    ensures forall x :: x in WantedArtistIds(albums, artists) <==>
      (exists a :: a in albums && a.data.artistId == x) &&
      (x.None? || forall ar :: ar in artists ==> ar.data.spotifyId != x)
  {
    if |albums| > 0 {
      var front := albums[..|albums| - 1];
      WantedArtistIdsExactly(front, artists);
      assert albums == front + [albums[|albums| - 1]];
    }
  }

  // ---------------------------------------------------------------- get_album_genres

  /** One iteration of the genres (or styles) loop: an album id and a tag text. */
  datatype TagUse = TagUse(albumId: int, text: string)

  /** A tag table (`genres` or `styles`) with its join table (`album_genres` or `album_styles`). */
  datatype Tagging = Tagging(rows: seq<TagRow>, links: seq<TagLink>)

  /** The texts a lookup's tag value iterates over: the "" fallback iterates over nothing. */
  function TagTexts(t: Discogs.Tags): seq<string>
  {
    if t.Blank? then [] else t.items
  }

  function Uses(albumId: int, texts: seq<string>): seq<TagUse>
  {
    seq(|texts|, i requires 0 <= i < |texts| => TagUse(albumId, texts[i]))
  }

  /** The genre iterations of a sequence of results, in loop order. */
  function GenreUses(results: seq<Discogs.AlbumTags>): seq<TagUse>
  {
    if |results| == 0 then []
    else
      var r := results[|results| - 1];
      GenreUses(results[..|results| - 1]) + Uses(r.albumId, TagTexts(r.genres))
  }

  /** The style iterations of a sequence of results, in loop order. */
  function StyleUses(results: seq<Discogs.AlbumTags>): seq<TagUse>
  {
    if |results| == 0 then []
    else
      var r := results[|results| - 1];
      StyleUses(results[..|results| - 1]) + Uses(r.albumId, TagTexts(r.styles))
  }

  /** Insert the text when no row has it; afterwards some row has it. */
  function GetOrCreate(rows: seq<TagRow>, text: string): (r: seq<TagRow>)
    ensures FirstTagId(r, text).Some?
  {
    if FirstTagId(rows, text).None? then
      var r := rows + [TagRow(NextTagId(rows), text)];
      assert r[|rows|].text == text;
      r
    else rows
  }

  /** One iteration: get or create the tag, then append a join row naming the first row with the text. */
  function Tag(t: Tagging, u: TagUse): Tagging
  {
    var rows := GetOrCreate(t.rows, u.text);
    Tagging(rows, t.links + [TagLink(u.albumId, FirstTagId(rows, u.text).value)])
  }

  /** The tables after a run of iterations. */
  function TagAll(t: Tagging, uses: seq<TagUse>): Tagging
  {
    if |uses| == 0 then t else Tag(TagAll(t, uses[..|uses| - 1]), uses[|uses| - 1])
  }

  lemma TagAllSnoc(t: Tagging, us: seq<TagUse>, u: TagUse)
    ensures TagAll(t, us + [u]) == Tag(TagAll(t, us), u)
  {
    assert (us + [u])[..|us|] == us;
  }

  lemma {:induction false} TagAllAppend(t: Tagging, a: seq<TagUse>, b: seq<TagUse>)
    ensures TagAll(t, a + b) == TagAll(TagAll(t, a), b)
  {
    if |b| == 0 {
      assert a + b == a;
    } else {
      assert (a + b)[..|a + b| - 1] == a + b[..|b| - 1];
      assert (a + b)[|a + b| - 1] == b[|b| - 1];
      TagAllAppend(t, a, b[..|b| - 1]);
    }
  }

  /** Appending rows does not change which row a present text finds first. */
  lemma {:induction false} FirstTagIdStable(rows: seq<TagRow>, more: seq<TagRow>, text: string)
    requires FirstTagId(rows, text).Some?
    ensures FirstTagId(rows + more, text) == FirstTagId(rows, text)
  {
    if rows[0].text != text {
      assert (rows + more)[1..] == rows[1..] + more;
      FirstTagIdStable(rows[1..], more, text);
    }
  }

  predicate UniqueTexts(rows: seq<TagRow>)
  {
    forall i, j :: 0 <= i < j < |rows| ==> rows[i].text != rows[j].text
  }

  predicate UniqueIds(rows: seq<TagRow>)
  {
    forall i, j :: 0 <= i < j < |rows| ==> rows[i].id != rows[j].id
  }

  /** A get-or-create either leaves the rows alone (the text is present) or appends one fresh row with it. */
  lemma GetOrCreateShape(p: seq<TagRow>, text: string)
    ensures var r := GetOrCreate(p, text);
      (FirstTagId(p, text).Some? && r == p) ||
      (FirstTagId(p, text).None? && r == p + [TagRow(NextTagId(p), text)])
  {
  }

  /** Appending a row whose text is new keeps texts unique; appending the next serial id keeps ids unique. */
  lemma AppendFreshRow(p: seq<TagRow>, text: string)
    requires FirstTagId(p, text).None?
    ensures UniqueTexts(p) ==> UniqueTexts(p + [TagRow(NextTagId(p), text)])
    ensures UniqueIds(p) ==> UniqueIds(p + [TagRow(NextTagId(p), text)])
  {
    var r := p + [TagRow(NextTagId(p), text)];
    assert forall i :: 0 <= i < |p| ==> r[i] == p[i];
  }

  /** The old rows stay as they are. */
  lemma {:induction false} TagAllKeepsRows(t: Tagging, uses: seq<TagUse>)
    ensures var r := TagAll(t, uses).rows;
      |t.rows| <= |r| && r[..|t.rows|] == t.rows
  {
    if |uses| > 0 {
      var n := |uses| - 1;
      var front := uses[..n];
      TagAllKeepsRows(t, front);
      var p := TagAll(t, front).rows;
      var u := uses[n];
      var r := TagAll(t, uses).rows;
      assert r == GetOrCreate(p, u.text);
      GetOrCreateShape(p, u.text);
      assert r[..|p|] == p;
    }
  }

  /** Every text of the run ends up in the table. */
  lemma {:induction false} TagAllHasTexts(t: Tagging, uses: seq<TagUse>)
    ensures forall i :: 0 <= i < |uses| ==> FirstTagId(TagAll(t, uses).rows, uses[i].text).Some?
  {
    if |uses| > 0 {
      var n := |uses| - 1;
      var front := uses[..n];
      TagAllHasTexts(t, front);
      var p := TagAll(t, front).rows;
      var u := uses[n];
      var r := TagAll(t, uses).rows;
      assert r == GetOrCreate(p, u.text);
      GetOrCreateShape(p, u.text);
      forall i | 0 <= i < n ensures FirstTagId(r, uses[i].text).Some? {
        assert uses[i] == front[i];
        FirstTagIdStable(p, r[|p|..], uses[i].text);
        assert p + r[|p|..] == r;
      }
    }
  }

  /** A row is added only for a text of the run that had none, so a text already present is not inserted again. */
  lemma {:induction false} TagAllNewRows(t: Tagging, uses: seq<TagUse>)
    ensures var r := TagAll(t, uses).rows;
      forall k :: |t.rows| <= k < |r| ==>
        FirstTagId(t.rows, r[k].text).None? && exists i :: 0 <= i < |uses| && uses[i].text == r[k].text
  {
    forall k | |t.rows| <= k < |TagAll(t, uses).rows|
      ensures var r := TagAll(t, uses).rows;
        FirstTagId(t.rows, r[k].text).None? && exists i :: 0 <= i < |uses| && uses[i].text == r[k].text
    {
      TagAllNewRowAt(t, uses, k);
    }
  }

  /** Row k, one of those the run added, has a text of the run that the initial table lacked. */
  lemma {:induction false} TagAllNewRowAt(t: Tagging, uses: seq<TagUse>, k: nat)
    requires |t.rows| <= k < |TagAll(t, uses).rows|
    ensures var r := TagAll(t, uses).rows;
      FirstTagId(t.rows, r[k].text).None? && exists i :: 0 <= i < |uses| && uses[i].text == r[k].text
  {
    var n := |uses| - 1;
    var front := uses[..n];
    var p := TagAll(t, front).rows;
    var u := uses[n];
    var r := TagAll(t, uses).rows;
    assert r == GetOrCreate(p, u.text);
    if FirstTagId(p, u.text).Some? {
      TagAllNewRowAt(t, front, k);
      var i :| 0 <= i < n && front[i].text == p[k].text;
      assert uses[i] == front[i];
    } else if k < |p| {
      TagAllNewRowAt(t, front, k);
      assert r[k] == p[k];
      var i :| 0 <= i < n && front[i].text == p[k].text;
      assert uses[i] == front[i];
    } else {
      assert r[k].text == u.text;
      TagAllKeepsRows(t, front);
      PrefixLacks(t.rows, p, u.text);
    }
  }

  /** A text no row of a table has is in no row of a prefix of it. */
  lemma PrefixLacks(q: seq<TagRow>, p: seq<TagRow>, text: string)
    requires |q| <= |p| && p[..|q|] == q
    requires FirstTagId(p, text).None?
    ensures FirstTagId(q, text).None?
  {
    assert forall j :: 0 <= j < |q| ==> q[j] == p[..|q|][j];
  }

  /** Texts and ids stay unique when they were. */
  lemma {:induction false} TagAllUnique(t: Tagging, uses: seq<TagUse>)
    ensures UniqueTexts(t.rows) ==> UniqueTexts(TagAll(t, uses).rows)
    ensures UniqueIds(t.rows) ==> UniqueIds(TagAll(t, uses).rows)
  {
    if |uses| > 0 {
      var n := |uses| - 1;
      var front := uses[..n];
      TagAllUnique(t, front);
      var p := TagAll(t, front).rows;
      var u := uses[n];
      assert TagAll(t, uses).rows == GetOrCreate(p, u.text);
      GetOrCreateShape(p, u.text);
      if FirstTagId(p, u.text).None? {
        AppendFreshRow(p, u.text);
      }
    }
  }

  /** Tagging only appends join rows, one per use. */
  lemma {:induction false} TagAllLinksGrow(t: Tagging, uses: seq<TagUse>)
    ensures var r := TagAll(t, uses);
      |r.links| == |t.links| + |uses| && r.links[..|t.links|] == t.links
  {
    if |uses| > 0 {
      var n := |uses| - 1;
      TagAllLinksGrow(t, uses[..n]);
      var p := TagAll(t, uses[..n]);
      var r := TagAll(t, uses);
      assert r.links[..|p.links|] == p.links;
      assert r.links[..|t.links|] == p.links[..|t.links|];
    }
  }

  /**
   * The join rows only accumulate: exactly one is appended per iteration, carrying that
   * iteration's album id and the tag id the table gives its text, which names a row with
   * that text (see FirstTagId).
   */
  lemma {:induction false} TagAllLinks(t: Tagging, uses: seq<TagUse>)
    ensures var r := TagAll(t, uses);
      |r.links| == |t.links| + |uses| && r.links[..|t.links|] == t.links &&
      forall i :: 0 <= i < |uses| ==>
        FirstTagId(r.rows, uses[i].text).Some? &&
        r.links[|t.links| + i] == TagLink(uses[i].albumId, FirstTagId(r.rows, uses[i].text).value)
  {
    TagAllLinksGrow(t, uses);
    forall i | 0 <= i < |uses|
      ensures FirstTagId(TagAll(t, uses).rows, uses[i].text).Some? &&
        TagAll(t, uses).links[|t.links| + i] == TagLink(uses[i].albumId, FirstTagId(TagAll(t, uses).rows, uses[i].text).value)
    {
      TagAllLinkAt(t, uses, i);
    }
  }

  /** The join row of iteration i, once all iterations ran. */
  lemma {:induction false} TagAllLinkAt(t: Tagging, uses: seq<TagUse>, i: nat)
    requires i < |uses|
    ensures var r := TagAll(t, uses);
      |t.links| + i < |r.links| && FirstTagId(r.rows, uses[i].text).Some? &&
      r.links[|t.links| + i] == TagLink(uses[i].albumId, FirstTagId(r.rows, uses[i].text).value)
  {
    var n := |uses| - 1;
    var front := uses[..n];
    TagAllLinksGrow(t, front);
    var p := TagAll(t, front);
    var r := TagAll(t, uses);
    assert r == Tag(p, uses[n]);
    if i == n {
      assert r.rows == GetOrCreate(p.rows, uses[n].text);
    } else {
      TagAllLinkAt(t, front, i);
      assert uses[i] == front[i];
      TagKeepsFound(p, uses[n], uses[i].text);
      assert r.links[|t.links| + i] == p.links[|t.links| + i];
    }
  }

  /** One iteration keeps the row a present text finds first. */
  lemma TagKeepsFound(p: Tagging, u: TagUse, text: string)
    requires FirstTagId(p.rows, text).Some?
    ensures FirstTagId(Tag(p, u).rows, text) == FirstTagId(p.rows, text)
  {
    var r := Tag(p, u).rows;
    GetOrCreateShape(p.rows, u.text);
    assert p.rows + r[|p.rows|..] == r;
    FirstTagIdStable(p.rows, r[|p.rows|..], text);
  }

  /** Exactly one row of the table has the text. */
  predicate OneRowWith(r: seq<TagRow>, text: string)
  {
    exists k :: 0 <= k < |r| && r[k].text == text &&
      forall k' :: 0 <= k' < |r| && r[k'].text == text ==> k' == k
  }

  /** In a table with unique texts, a present text has exactly one row. */
  lemma PresentTextOnce(r: seq<TagRow>, text: string)
    requires UniqueTexts(r)
    requires FirstTagId(r, text).Some?
    ensures OneRowWith(r, text)
  {
    var id := FirstTagId(r, text).value;
    assert TagRow(id, text) in r;
    var k :| 0 <= k < |r| && r[k] == TagRow(id, text);
    assert r[k].text == text;
  }

  /** With unique texts, each text of the run has exactly one row afterwards. */
  lemma TagTextsOnce(t: Tagging, uses: seq<TagUse>, i: nat)
    requires UniqueTexts(t.rows)
    requires i < |uses|
    ensures OneRowWith(TagAll(t, uses).rows, uses[i].text)
  {
    TagAllHasTexts(t, uses);
    TagAllUnique(t, uses);
    PresentTextOnce(TagAll(t, uses).rows, uses[i].text);
  }

  /** One more text of a result: one more iteration. */
  lemma UsesStep(t0: Tagging, albumId: int, texts: seq<string>, j: nat)
    requires j < |texts|
    ensures TagAll(t0, Uses(albumId, texts[..j + 1])) ==
      Tag(TagAll(t0, Uses(albumId, texts[..j])), TagUse(albumId, texts[j]))
  {
    assert Uses(albumId, texts[..j + 1]) == Uses(albumId, texts[..j]) + [TagUse(albumId, texts[j])];
    TagAllSnoc(t0, Uses(albumId, texts[..j]), TagUse(albumId, texts[j]));
  }

  /** The genres loop for one result. */
  method TagGenres(db: Database, albumId: int, texts: seq<string>)
    modifies db`genres, db`albumGenres
    ensures Tagging(db.genres, db.albumGenres) == TagAll(Tagging(old(db.genres), old(db.albumGenres)), Uses(albumId, texts))
  {
    ghost var t0 := Tagging(db.genres, db.albumGenres);
    for j := 0 to |texts|
      invariant Tagging(db.genres, db.albumGenres) == TagAll(t0, Uses(albumId, texts[..j]))
    {
      var genre := texts[j];
      ghost var before := Tagging(db.genres, db.albumGenres);
      if FirstTagId(db.genres, genre).None? {
        db.InsertGenre(genre);
      }
      assert db.genres == GetOrCreate(before.rows, genre);
      var genreId := FirstTagId(db.genres, genre).value;
      db.InsertAlbumGenre(TagLink(albumId, genreId));
      assert Tagging(db.genres, db.albumGenres) == Tag(before, TagUse(albumId, genre));
      UsesStep(t0, albumId, texts, j);
    }
    assert texts[..|texts|] == texts;
  }

  /** The styles loop for one result. */
  method TagStyles(db: Database, albumId: int, texts: seq<string>)
    modifies db`styles, db`albumStyles
    ensures Tagging(db.styles, db.albumStyles) == TagAll(Tagging(old(db.styles), old(db.albumStyles)), Uses(albumId, texts))
  {
    ghost var t0 := Tagging(db.styles, db.albumStyles);
    for j := 0 to |texts|
      invariant Tagging(db.styles, db.albumStyles) == TagAll(t0, Uses(albumId, texts[..j]))
    {
      var style := texts[j];
      ghost var before := Tagging(db.styles, db.albumStyles);
      if FirstTagId(db.styles, style).None? {
        db.InsertStyle(style);
      }
      assert db.styles == GetOrCreate(before.rows, style);
      var styleId := FirstTagId(db.styles, style).value;
      db.InsertAlbumStyle(TagLink(albumId, styleId));
      assert Tagging(db.styles, db.albumStyles) == Tag(before, TagUse(albumId, style));
      UsesStep(t0, albumId, texts, j);
    }
    assert texts[..|texts|] == texts;
  }

  lemma GenreUsesSnoc(rs: seq<Discogs.AlbumTags>, r: Discogs.AlbumTags)
    ensures GenreUses(rs + [r]) == GenreUses(rs) + Uses(r.albumId, TagTexts(r.genres))
    ensures StyleUses(rs + [r]) == StyleUses(rs) + Uses(r.albumId, TagTexts(r.styles))
  {
    assert (rs + [r])[..|rs|] == rs;
  }

  lemma {:induction false} GenreUsesAppend(a: seq<Discogs.AlbumTags>, b: seq<Discogs.AlbumTags>)
    ensures GenreUses(a + b) == GenreUses(a) + GenreUses(b)
  {
    if |b| == 0 {
      assert a + b == a;
    } else {
      var n := |b| - 1;
      var x := b[n];
      var front := b[..n];
      var u := Uses(x.albumId, TagTexts(x.genres));
      assert a + b == (a + front) + [x];
      assert b == front + [x];
      GenreUsesSnoc(a + front, x);
      GenreUsesSnoc(front, x);
      GenreUsesAppend(a, front);
      var p := GenreUses(a);
      var q := GenreUses(front);
      assert GenreUses(a + b) == (p + q) + u;
      assert GenreUses(b) == q + u;
      assert (p + q) + u == p + (q + u);
    }
  }


  lemma {:induction false} StyleUsesAppend(a: seq<Discogs.AlbumTags>, b: seq<Discogs.AlbumTags>)
    ensures StyleUses(a + b) == StyleUses(a) + StyleUses(b)
  {
    if |b| == 0 {
      assert a + b == a;
    } else {
      var n := |b| - 1;
      var x := b[n];
      var front := b[..n];
      var u := Uses(x.albumId, TagTexts(x.styles));
      assert a + b == (a + front) + [x];
      assert b == front + [x];
      GenreUsesSnoc(a + front, x);
      GenreUsesSnoc(front, x);
      StyleUsesAppend(a, front);
      var p := StyleUses(a);
      var q := StyleUses(front);
      assert StyleUses(a + b) == (p + q) + u;
      assert StyleUses(b) == q + u;
      assert (p + q) + u == p + (q + u);
    }
  }


  /** The results gathered chunk by chunk are the results for the whole prefix of the list. */
  lemma KeptChunksStep(chunks: seq<seq<Discogs.AlbumRef>>, c: nat, search: string -> Option<seq<Discogs.Release>>)
    requires c < |chunks|
    ensures Discogs.Kept(Flatten(chunks[..c + 1]), search) ==
      Discogs.Kept(Flatten(chunks[..c]), search) + Discogs.Kept(chunks[c], search)
  {
    assert chunks[..c + 1] == chunks[..c] + [chunks[c]];
    FlattenAppend(chunks[..c], [chunks[c]]);
    assert Flatten([chunks[c]]) == chunks[c];
    Discogs.KeptAppend(Flatten(chunks[..c]), chunks[c], search);
  }

  /** The loop over one chunk's results: genres, then styles, of each result in turn. */
  method TagResults(db: Database, results: seq<Discogs.AlbumTags>)
    modifies db`genres, db`albumGenres, db`styles, db`albumStyles
    ensures Tagging(db.genres, db.albumGenres) == TagAll(Tagging(old(db.genres), old(db.albumGenres)), GenreUses(results))
    ensures Tagging(db.styles, db.albumStyles) == TagAll(Tagging(old(db.styles), old(db.albumStyles)), StyleUses(results))
  {
    ghost var g0 := Tagging(db.genres, db.albumGenres);
    ghost var s0 := Tagging(db.styles, db.albumStyles);
    for k := 0 to |results|
      invariant Tagging(db.genres, db.albumGenres) == TagAll(g0, GenreUses(results[..k]))
      invariant Tagging(db.styles, db.albumStyles) == TagAll(s0, StyleUses(results[..k]))
    {
      var result := results[k];
      ghost var g := Tagging(db.genres, db.albumGenres);
      ghost var st := Tagging(db.styles, db.albumStyles);
      TagGenres(db, result.albumId, TagTexts(result.genres));
      assert Tagging(db.styles, db.albumStyles) == st;
      ghost var g' := Tagging(db.genres, db.albumGenres);
      TagStyles(db, result.albumId, TagTexts(result.styles));
      assert Tagging(db.genres, db.albumGenres) == g';
      TagResultsStep(g0, s0, results, k);
    }
    assert results[..|results|] == results;
  }

  /** One more result runs its genres on the genre tables and its styles on the style tables. */
  lemma TagResultsStep(g0: Tagging, s0: Tagging, results: seq<Discogs.AlbumTags>, k: nat)
    requires k < |results|
    ensures TagAll(g0, GenreUses(results[..k + 1])) ==
      TagAll(TagAll(g0, GenreUses(results[..k])), Uses(results[k].albumId, TagTexts(results[k].genres)))
    ensures TagAll(s0, StyleUses(results[..k + 1])) ==
      TagAll(TagAll(s0, StyleUses(results[..k])), Uses(results[k].albumId, TagTexts(results[k].styles)))
  {
    var result := results[k];
    assert results[..k + 1] == results[..k] + [result];
    GenreUsesSnoc(results[..k], result);
    TagAllAppend(g0, GenreUses(results[..k]), Uses(result.albumId, TagTexts(result.genres)));
    TagAllAppend(s0, StyleUses(results[..k]), Uses(result.albumId, TagTexts(result.styles)));
  }

  /** The size of the groups handed to the catalogue lookup. */
  const ChunkSize: nat := 20

  /**
   * `get_album_genres`: look the untagged albums up in chunks of 20 and, for every result,
   * get or create each genre and style and append its join row.  The function returns the
   * last chunk's results; with no untagged album the loop never binds that variable, so the
   * return raises UnboundLocalError.
   */
  method GetAlbumGenres(db: Database, search: string -> Option<seq<Discogs.Release>>)
    returns (r: Result<seq<Discogs.AlbumTags>>)
    modifies db`genres, db`albumGenres, db`styles, db`albumStyles
    ensures var cands := TagCandidates(old(db.albums), old(db.artists), old(db.albumGenres), old(db.albumStyles));
      var results := Discogs.Kept(cands, search);
      Tagging(db.genres, db.albumGenres) == TagAll(Tagging(old(db.genres), old(db.albumGenres)), GenreUses(results)) &&
      Tagging(db.styles, db.albumStyles) == TagAll(Tagging(old(db.styles), old(db.albumStyles)), StyleUses(results)) &&
      r == if |cands| == 0 then Raised(UnboundLocalError)
           else Ok(Discogs.Kept(Chunks(cands, ChunkSize)[|Chunks(cands, ChunkSize)| - 1], search))
  {
    var cands := TagCandidates(db.albums, db.artists, db.albumGenres, db.albumStyles);
    var chunks := Chunks(cands, ChunkSize);
    ChunksSizes(cands, ChunkSize);
    ghost var g0 := Tagging(db.genres, db.albumGenres);
    ghost var s0 := Tagging(db.styles, db.albumStyles);
    ghost var done: seq<Discogs.AlbumTags> := [];
    var last: seq<Discogs.AlbumTags> := [];
    for c := 0 to |chunks|
      invariant done == Discogs.Kept(Flatten(chunks[..c]), search)
      invariant Tagging(db.genres, db.albumGenres) == TagAll(g0, GenreUses(done))
      invariant Tagging(db.styles, db.albumStyles) == TagAll(s0, StyleUses(done))
      invariant c > 0 ==> last == Discogs.Kept(chunks[c - 1], search)
    {
      var results := Discogs.GetAlbumGenres(chunks[c], search);
      TagResults(db, results);
      GenreUsesAppend(done, results);
      StyleUsesAppend(done, results);
      TagAllAppend(g0, GenreUses(done), GenreUses(results));
      TagAllAppend(s0, StyleUses(done), StyleUses(results));
      KeptChunksStep(chunks, c, search);
      done := done + results;
      last := results;
    }
    assert chunks[..|chunks|] == chunks;
    ChunksFlatten(cands, ChunkSize);
    if |chunks| == 0 {
      return Raised(UnboundLocalError);
    }
    r := Ok(last);
  }

  // ---------------------------------------------------------------- get_albums_dominant_color

  /** The literal the source falls back to: five hex digits each, not colours. */
  const FallbackAsWritten: seq<string> := ["#FFFFF", "#00000"]

  /** The fallback evidently meant: white and black. */
  const Fallback: seq<string> := ["#FFFFFF", "#000000"]

  /** The palette stored for one album: the extracted one, or the fallback when extraction raises. */
  function PaletteOf(extracted: Option<seq<string>>, fallback: seq<string>): seq<string>
  {
    if extracted.Some? then extracted.value else fallback
  }

  /** The `update_color_album` calls of the colour pass, one per candidate, in order. */
  function ColorUpdates(cands: seq<Album>, extract: Option<string> -> Option<seq<string>>,
                        fallback: seq<string>): seq<ColorUpdate>
  {
    seq(|cands|, i requires 0 <= i < |cands| =>
      ColorUpdate(cands[i].id, PaletteOf(extract(cands[i].data.imageUrl), fallback)))
  }

  /**
   * `get_albums_dominant_color`: every album without a primary colour gets one
   * `update_color_album` call with the palette extracted from its cover (`extract` answers
   * None when download, decoding or clustering raises), or the `fallback` palette, which
   * `fetch_albums_data` gives as the literal `FallbackAsWritten`.
   */
  method GetAlbumsDominantColor(db: Database, extract: Option<string> -> Option<seq<string>>, fallback: seq<string>)
    modifies db`colorUpdates
    ensures db.colorUpdates == old(db.colorUpdates) + ColorUpdates(ColorCandidates(old(db.albums)), extract, fallback)
  {
    var albums := ColorCandidates(db.albums);
    ghost var u0 := db.colorUpdates;
    for i := 0 to |albums|
      invariant db.colorUpdates == u0 + ColorUpdates(albums[..i], extract, fallback)
    {
      var album := albums[i];
      var dominantColor := extract(album.data.imageUrl);
      var colors := if dominantColor.Some? then dominantColor.value else fallback;
      db.UpdateColorAlbum(album.id, colors);
      assert ColorUpdates(albums[..i + 1], extract, fallback) ==
        ColorUpdates(albums[..i], extract, fallback) + [ColorUpdate(album.id, colors)];
    }
    assert albums[..|albums|] == albums;
  }

  predicate AllHexColors(p: seq<string>)
  {
    forall k :: 0 <= k < |p| ==> ColorFinder.IsHexColor(p[k])
  }

  /** The corrected fallback is the hex triplet of white followed by that of black. */
  lemma FallbackIsWhiteAndBlack()
    ensures Fallback == [ColorFinder.HexTriplet([255, 255, 255]), ColorFinder.HexTriplet([0, 0, 0])]
    ensures AllHexColors(Fallback)
  {
    assert ColorFinder.HexDigits[15] == 'F' && ColorFinder.HexDigits[0] == '0';
    WhiteAndBlack(255, "FF");
    WhiteAndBlack(0, "00");
    assert "#" + "FF" + "FF" + "FF" == "#FFFFFF";
    assert "#" + "00" + "00" + "00" == "#000000";
    ColorFinder.HexTripletIsColor(ColorFinder.Triple(255, 255, 255));
    ColorFinder.HexTripletIsColor(ColorFinder.Triple(0, 0, 0));
  }

  lemma WhiteAndBlack(x: ColorFinder.uint8, pair: string)
    requires ColorFinder.HexPair(x) == pair
    ensures ColorFinder.HexTriplet([x, x, x]) == "#" + pair + pair + pair
  {
    var one: seq<ColorFinder.uint8> := [x];
    var two: seq<ColorFinder.uint8> := [x, x];
    var three: seq<ColorFinder.uint8> := [x, x, x];
    assert one[1..] == [] && two[1..] == one && three[1..] == two;
    assert ColorFinder.HexBody(one) == pair;
    assert ColorFinder.HexBody(two) == pair + pair;
    assert ColorFinder.HexBody(three) == pair + (pair + pair);
  }

  /**
   * With the corrected fallback, each candidate gets exactly one update, with its own id; when
   * every palette the extractor produces is made of hex colours, so is every stored palette.
   */
  lemma ColorUpdatesWellFormed(cands: seq<Album>, extract: Option<string> -> Option<seq<string>>)
    requires forall i :: 0 <= i < |cands| && extract(cands[i].data.imageUrl).Some? ==>
      AllHexColors(extract(cands[i].data.imageUrl).value)
    ensures |ColorUpdates(cands, extract, Fallback)| == |cands|
    ensures forall i :: 0 <= i < |cands| ==>
      ColorUpdates(cands, extract, Fallback)[i].albumId == cands[i].id &&
      AllHexColors(ColorUpdates(cands, extract, Fallback)[i].colors)
  {
    FallbackIsWhiteAndBlack();
  }

  /** As written, an album whose extraction raises is stored with two strings that are not colours. */
  lemma FallbackAsWrittenMalformed(cands: seq<Album>, extract: Option<string> -> Option<seq<string>>, i: nat)
    requires i < |cands| && extract(cands[i].data.imageUrl).None?
    ensures var p := ColorUpdates(cands, extract, FallbackAsWritten)[i].colors;
      |p| == 2 && !ColorFinder.IsHexColor(p[0]) && !ColorFinder.IsHexColor(p[1])
  {
    assert |FallbackAsWritten[0]| == 6 && |FallbackAsWritten[1]| == 6;
  }

  // ---------------------------------------------------------------- insert_untracked_albums

  /** The albums the catalogue returns for the batches, in batch order; a falsy `albums` adds nothing. */
  function FetchedAlbums(batches: seq<seq<string>>, fetch: seq<string> -> seq<AlbumData>): seq<AlbumData>
  {
    if |batches| == 0 then []
    else FetchedAlbums(batches[..|batches| - 1], fetch) + fetch(batches[|batches| - 1])
  }

  const AlbumBatch: nat := 10

  /**
   * `insert_untracked_albums`: fetch the untracked album ids in batches of 10 and insert the
   * returned albums in one bulk insert.  `requested` lists the batches sent; `inserted` is
   * false for the early `return []` when there is no untracked id, true for `return True`.
   */
  method InsertUntrackedAlbums(db: Database, fetch: seq<string> -> seq<AlbumData>, now: Timestamp)
    returns (inserted: bool, requested: seq<seq<string>>)
    modifies db`albums
    ensures var ids := UntrackedAlbumIds(old(db.userAlbums), old(db.albums));
      inserted == (|ids| > 0) &&
      requested == (if |ids| == 0 then [] else Chunks(ids, AlbumBatch)) &&
      db.albums == if |ids| == 0 then old(db.albums)
                   else old(db.albums) + NewAlbums(old(db.albums), FetchedAlbums(requested, fetch), now)
  {
    var ids := UntrackedAlbumIds(db.userAlbums, db.albums);
    if |ids| == 0 {
      return false, [];
    }
    var batches := Chunks(ids, AlbumBatch);
    var albums: seq<AlbumData> := [];
    requested := [];
    for i := 0 to |batches|
      invariant requested == batches[..i]
      invariant albums == FetchedAlbums(requested, fetch)
    {
      var batch := batches[i];
      var info := fetch(batch);
      assert batches[..i + 1][..i] == batches[..i];
      requested := requested + [batch];
      albums := albums + info;
    }
    assert batches[..|batches|] == batches;
    db.InsertAlbums(albums, now);
    inserted := true;
  }

  /** The batches sent are consecutive slices of at most 10 ids that cover the untracked ids in order. */
  lemma AlbumBatchesCover(ids: seq<string>)
    ensures Flatten(Chunks(ids, AlbumBatch)) == ids
    ensures forall i :: 0 <= i < |Chunks(ids, AlbumBatch)| ==> 1 <= |Chunks(ids, AlbumBatch)[i]| <= AlbumBatch
  {
    ChunksFlatten(ids, AlbumBatch);
    ChunksSizes(ids, AlbumBatch);
  }

  // ---------------------------------------------------------------- insert_untracked_artists

  const ArtistBatch: nat := 49

  /**
   * The answers to the batches up to the first one without an `artists` key (`fetch` answers
   * None), where `artists_info["artists"]` raises KeyError.
   */
  function Answered(batches: seq<seq<Option<string>>>, fetch: seq<Option<string>> -> Option<seq<ArtistData>>)
    : (r: seq<seq<ArtistData>>)
    ensures |r| <= |batches|
    ensures forall i :: 0 <= i < |r| ==> fetch(batches[i]) == Some(r[i])
    ensures |r| < |batches| ==> fetch(batches[|r|]).None?
  {
    if |batches| == 0 || fetch(batches[0]).None? then []
    else [fetch(batches[0]).value] + Answered(batches[1..], fetch)
  }

  /** The artists table after one bulk insert per answered batch. */
  function WithArtists(table: seq<Artist>, answers: seq<seq<ArtistData>>, now: Timestamp): seq<Artist>
  {
    if |answers| == 0 then table
    else
      var t := WithArtists(table, answers[..|answers| - 1], now);
      t + NewArtists(t, answers[|answers| - 1], now)
  }

  lemma WithArtistsStep(table: seq<Artist>, answers: seq<seq<ArtistData>>, i: nat, now: Timestamp)
    requires i < |answers|
    ensures WithArtists(table, answers[..i + 1], now) ==
      WithArtists(table, answers[..i], now) + NewArtists(WithArtists(table, answers[..i], now), answers[i], now)
  {
    assert answers[..i + 1][..i] == answers[..i];
  }

  /**
   * `insert_untracked_artists`: fetch the untracked artist ids in batches of 49 and insert each
   * batch's artists.  The list is rebuilt per batch, so only the last batch's artists are
   * returned; a reply without `artists` raises KeyError after the earlier batches were inserted.
   */
  method InsertUntrackedArtists(db: Database, fetch: seq<Option<string>> -> Option<seq<ArtistData>>, now: Timestamp)
    returns (r: Result<seq<ArtistData>>, requested: seq<seq<Option<string>>>)
    modifies db`artists
    ensures var ids := UntrackedArtistIds(old(db.albums), old(db.artists));
      var batches := Chunks(ids, ArtistBatch);
      var answers := Answered(batches, fetch);
      (|ids| == 0 ==> r == Ok([]) && requested == [] && db.artists == old(db.artists)) &&
      (|ids| > 0 ==>
        db.artists == WithArtists(old(db.artists), answers, now) &&
        (|answers| == |batches| ==> r == Ok(answers[|answers| - 1]) && requested == batches) &&
        (|answers| < |batches| ==> r == Raised(KeyError) && requested == batches[..|answers| + 1]))
  {
    var ids := UntrackedArtistIds(db.albums, db.artists);
    if |ids| == 0 {
      return Ok([]), [];
    }
    var batches := Chunks(ids, ArtistBatch);
    ChunksSizes(ids, ArtistBatch);
    r, requested := InsertArtistBatches(db, batches, fetch, now);
  }

  /**
   * The loop of `insert_untracked_artists` over a non-empty list of batches: one fetch and one
   * bulk insert per batch, stopping with KeyError at the first reply without `artists`.
   */
  method InsertArtistBatches(db: Database, batches: seq<seq<Option<string>>>,
                             fetch: seq<Option<string>> -> Option<seq<ArtistData>>, now: Timestamp)
    returns (r: Result<seq<ArtistData>>, requested: seq<seq<Option<string>>>)
    requires |batches| > 0
    modifies db`artists
    ensures var answers := Answered(batches, fetch);
      db.artists == WithArtists(old(db.artists), answers, now) &&
      (|answers| == |batches| ==> r == Ok(answers[|answers| - 1]) && requested == batches) &&
      (|answers| < |batches| ==> r == Raised(KeyError) && requested == batches[..|answers| + 1])
  {
    ghost var answers := Answered(batches, fetch);
    ghost var t0 := db.artists;
    var artists: seq<ArtistData> := [];
    requested := [];
    for i := 0 to |batches|
      invariant i <= |answers|
      invariant requested == batches[..i]
      invariant db.artists == WithArtists(t0, answers[..i], now)
      invariant i > 0 ==> artists == answers[i - 1]
    {
      var batch := batches[i];
      var info := fetch(batch);
      requested := requested + [batch];
      assert batches[..i + 1] == batches[..i] + [batch];
      if info.None? {
        assert i == |answers|;
        assert answers[..i] == answers;
        return Raised(KeyError), requested;
      }
      assert i < |answers| && info.value == answers[i];
      artists := info.value;
      db.InsertArtists(artists, now);
      WithArtistsStep(t0, answers, i, now);
    }
    assert batches[..|batches|] == batches;
    assert answers[..|batches|] == answers;
    r := Ok(artists);
  }

  // ---------------------------------------------------------------- fetch_albums_data

  /** The user album has the same (user_spotify_id, album_spotify_id) as the row; NULL matches NULL, as `filter_by(x=None)` does. */
  predicate SamePair(a: UserAlbum, b: UserAlbum)
  {
    a.userSpotifyId == b.userSpotifyId && a.albumSpotifyId == b.albumSpotifyId
  }

  predicate HasPair(table: seq<UserAlbum>, u: UserAlbum)
  {
    exists k :: 0 <= k < |table| && SamePair(table[k], u)
  }

  predicate NoDuplicatePairs(table: seq<UserAlbum>)
  {
    forall i, j :: 0 <= i < j < |table| ==> !SamePair(table[i], table[j])
  }

  /** The user_albums table after the check-then-insert loop. */
  function AddAbsent(table: seq<UserAlbum>, rows: seq<UserAlbum>): seq<UserAlbum>
  {
    if |rows| == 0 then table
    else
      var t := AddAbsent(table, rows[..|rows| - 1]);
      var u := rows[|rows| - 1];
      if HasPair(t, u) then t else t + [u]
  }

  /** The check-then-insert loop over the user albums the client returned. */
  method InsertNewUserAlbums(db: Database, rows: seq<UserAlbum>)
    modifies db`userAlbums
    ensures db.userAlbums == AddAbsent(old(db.userAlbums), rows)
  {
    ghost var t0 := db.userAlbums;
    for i := 0 to |rows|
      invariant db.userAlbums == AddAbsent(t0, rows[..i])
    {
      var u := rows[i];
      assert rows[..i + 1][..i] == rows[..i];
      var present := exists k :: 0 <= k < |db.userAlbums| && SamePair(db.userAlbums[k], u);
      if !present {
        db.InsertUserAlbum(u);
      }
    }
    assert rows[..|rows|] == rows;
  }

  /**
   * The loop keeps the old rows, adds only rows of the input whose pair was not yet there,
   * leaves every input pair present, and never creates a duplicate pair.
   */
  lemma {:induction false} AddAbsentEffect(table: seq<UserAlbum>, rows: seq<UserAlbum>)
    ensures var r := AddAbsent(table, rows);
      |table| <= |r| && r[..|table|] == table &&
      (forall k :: |table| <= k < |r| ==> r[k] in rows && !HasPair(table, r[k])) &&
      (forall i :: 0 <= i < |rows| ==> HasPair(r, rows[i])) &&
      (NoDuplicatePairs(table) ==> NoDuplicatePairs(r))
  {
    if |rows| > 0 {
      var n := |rows| - 1;
      var front := rows[..n];
      AddAbsentEffect(table, front);
      var t := AddAbsent(table, front);
      var u := rows[n];
      var r := AddAbsent(table, rows);
      assert forall i :: 0 <= i < n ==> rows[i] == front[i];
      if !HasPair(t, u) {
        assert r == t + [u];
        assert forall k :: 0 <= k < |t| ==> r[k] == t[k];
        assert SamePair(r[|t|], u);
        forall i | 0 <= i < |rows| ensures HasPair(r, rows[i]) {
          if i < n {
            var k :| 0 <= k < |t| && SamePair(t[k], front[i]);
            assert SamePair(r[k], rows[i]);
          }
        }
        assert !HasPair(table, u) by {
          assert forall k :: 0 <= k < |table| ==> table[k] == t[k];
        }
        assert r[..|table|] == t[..|table|];
      } else {
        assert r == t;
      }
    }
  }

  /** Running the loop a second time over the same user albums adds nothing. */
  lemma {:induction false} AddAbsentIdempotent(table: seq<UserAlbum>, rows: seq<UserAlbum>)
    ensures AddAbsent(AddAbsent(table, rows), rows) == AddAbsent(table, rows)
  {
    AddAbsentEffect(table, rows);
    AddAbsentNoop(AddAbsent(table, rows), rows);
  }

  lemma {:induction false} AddAbsentNoop(table: seq<UserAlbum>, rows: seq<UserAlbum>)
    requires forall i :: 0 <= i < |rows| ==> HasPair(table, rows[i])
    ensures AddAbsent(table, rows) == table
  {
    if |rows| > 0 {
      var n := |rows| - 1;
      assert forall i :: 0 <= i < n ==> rows[..n][i] == rows[i];
      AddAbsentNoop(table, rows[..n]);
    }
  }

  /** The albums table after `insert_untracked_albums`. */
  function AlbumsAfterInsert(userAlbums: seq<UserAlbum>, albums: seq<Album>,
                             fetch: seq<string> -> seq<AlbumData>, now: Timestamp): seq<Album>
  {
    var ids := UntrackedAlbumIds(userAlbums, albums);
    if |ids| == 0 then albums
    else albums + NewAlbums(albums, FetchedAlbums(Chunks(ids, AlbumBatch), fetch), now)
  }

  /** The artists table after `insert_untracked_artists`, whether or not it raised. */
  function ArtistsAfterInsert(albums: seq<Album>, artists: seq<Artist>,
                              fetch: seq<Option<string>> -> Option<seq<ArtistData>>, now: Timestamp): seq<Artist>
  {
    var ids := UntrackedArtistIds(albums, artists);
    if |ids| == 0 then artists
    else WithArtists(artists, Answered(Chunks(ids, ArtistBatch), fetch), now)
  }

  /** `insert_untracked_artists` raises KeyError: some batch's reply has no `artists`. */
  predicate ArtistsRaise(albums: seq<Album>, artists: seq<Artist>,
                         fetch: seq<Option<string>> -> Option<seq<ArtistData>>)
  {
    var ids := UntrackedArtistIds(albums, artists);
    |ids| > 0 && |Answered(Chunks(ids, ArtistBatch), fetch)| < |Chunks(ids, ArtistBatch)|
  }

  /**
   * `fetch_albums_data`: read the user's profile (`me` is the response `get_user_info` maps;
   * its failures raise before any table changes), record the user's saved albums
   * (`userAlbums` is the client's `user_albums` for that user, None when the key is missing,
   * so that iterating it raises TypeError),
   * then insert the untracked albums, the untracked artists, the Discogs tags and the colours,
   * in that order.  An exception in one pass stops the later ones.
   */
  method FetchAlbumsData(db: Database, me: Json.Json, userAlbums: Option<seq<UserAlbum>>,
                         fetchAlbums: seq<string> -> seq<AlbumData>,
                         fetchArtists: seq<Option<string>> -> Option<seq<ArtistData>>,
                         search: string -> Option<seq<Discogs.Release>>,
                         extract: Option<string> -> Option<seq<string>>, now: Timestamp)
    returns (r: Result<()>)
    modifies db`userAlbums, db`albums, db`artists, db`genres, db`styles, db`albumGenres, db`albumStyles, db`colorUpdates
    ensures Spotify.UserInfoOf(me).Raised? ==> r == Raised(Spotify.UserInfoOf(me).exc) && unchanged(db)
    ensures Spotify.UserInfoOf(me).Ok? && userAlbums.None? ==> r == Raised(TypeError) && unchanged(db)
    ensures Spotify.UserInfoOf(me).Ok? && userAlbums.Some? ==>
      db.userAlbums == AddAbsent(old(db.userAlbums), userAlbums.value) &&
      db.albums == AlbumsAfterInsert(db.userAlbums, old(db.albums), fetchAlbums, now) &&
      db.artists == ArtistsAfterInsert(db.albums, old(db.artists), fetchArtists, now)
    ensures Spotify.UserInfoOf(me).Ok? && userAlbums.Some? && ArtistsRaise(db.albums, old(db.artists), fetchArtists) ==>
      r == Raised(KeyError) && db.genres == old(db.genres) && db.styles == old(db.styles) &&
      db.albumGenres == old(db.albumGenres) && db.albumStyles == old(db.albumStyles) &&
      db.colorUpdates == old(db.colorUpdates)
    ensures Spotify.UserInfoOf(me).Ok? && userAlbums.Some? && !ArtistsRaise(db.albums, old(db.artists), fetchArtists) ==>
      var cands := TagCandidates(db.albums, db.artists, old(db.albumGenres), old(db.albumStyles));
      var results := Discogs.Kept(cands, search);
      Tagging(db.genres, db.albumGenres) == TagAll(Tagging(old(db.genres), old(db.albumGenres)), GenreUses(results)) &&
      Tagging(db.styles, db.albumStyles) == TagAll(Tagging(old(db.styles), old(db.albumStyles)), StyleUses(results)) &&
      (|cands| == 0 ==> r == Raised(UnboundLocalError) && db.colorUpdates == old(db.colorUpdates)) &&
      (|cands| > 0 ==>
        r == Ok(()) &&
        db.colorUpdates == old(db.colorUpdates) + ColorUpdates(ColorCandidates(db.albums), extract, FallbackAsWritten))
  {
    var user := Spotify.UserInfoOf(me);
    if user.Raised? {
      return Raised(user.exc);
    }
    if userAlbums.None? {
      return Raised(TypeError);
    }
    var artists := ImportAlbums(db, userAlbums.value, fetchAlbums, fetchArtists, now);
    if artists.Raised? {
      return Raised(artists.exc);
    }
    ghost var albums, artists1, ua := db.albums, db.artists, db.userAlbums;
    r := TagAndColor(db, search, extract, FallbackAsWritten);
    assert db.albums == albums && db.artists == artists1 && db.userAlbums == ua;
  }

  /**
   * The start of `fetch_albums_data`: the user's saved albums, then the untracked albums, then
   * the untracked artists; the tag and colour tables stay as they were.
   */
  method ImportAlbums(db: Database, userAlbums: seq<UserAlbum>,
                      fetchAlbums: seq<string> -> seq<AlbumData>,
                      fetchArtists: seq<Option<string>> -> Option<seq<ArtistData>>, now: Timestamp)
    returns (artists: Result<seq<ArtistData>>)
    modifies db`userAlbums, db`albums, db`artists
    ensures db.userAlbums == AddAbsent(old(db.userAlbums), userAlbums)
    ensures db.albums == AlbumsAfterInsert(db.userAlbums, old(db.albums), fetchAlbums, now)
    ensures db.artists == ArtistsAfterInsert(db.albums, old(db.artists), fetchArtists, now)
    ensures artists.Raised? <==> ArtistsRaise(db.albums, old(db.artists), fetchArtists)
    ensures artists.Raised? ==> artists.exc == KeyError
  {
    ghost var albums0, artists0 := db.albums, db.artists;
    InsertNewUserAlbums(db, userAlbums);
    ghost var ua := db.userAlbums;
    assert db.albums == albums0 && db.artists == artists0;
    var _, _ := InsertUntrackedAlbums(db, fetchAlbums, now);
    ghost var albums := db.albums;
    assert albums == AlbumsAfterInsert(ua, albums0, fetchAlbums, now);
    var requested;
    artists, requested := InsertUntrackedArtists(db, fetchArtists, now);
    assert db.albums == albums && db.userAlbums == ua;
  }

  /** The end of `fetch_albums_data`: the Discogs tags pass, then, unless it raised, the colour pass. */
  method TagAndColor(db: Database, search: string -> Option<seq<Discogs.Release>>,
                     extract: Option<string> -> Option<seq<string>>, fallback: seq<string>)
    returns (r: Result<()>)
    modifies db`genres, db`styles, db`albumGenres, db`albumStyles, db`colorUpdates
    ensures var cands := TagCandidates(db.albums, db.artists, old(db.albumGenres), old(db.albumStyles));
      var results := Discogs.Kept(cands, search);
      Tagging(db.genres, db.albumGenres) == TagAll(Tagging(old(db.genres), old(db.albumGenres)), GenreUses(results)) &&
      Tagging(db.styles, db.albumStyles) == TagAll(Tagging(old(db.styles), old(db.albumStyles)), StyleUses(results)) &&
      (|cands| == 0 ==> r == Raised(UnboundLocalError) && db.colorUpdates == old(db.colorUpdates)) &&
      (|cands| > 0 ==>
        r == Ok(()) &&
        db.colorUpdates == old(db.colorUpdates) + ColorUpdates(ColorCandidates(db.albums), extract, fallback))
  {
    ghost var albums, artists := db.albums, db.artists;
    ghost var cands := TagCandidates(albums, artists, db.albumGenres, db.albumStyles);
    var tags := GetAlbumGenres(db, search);
    assert db.albums == albums && db.artists == artists;
    if tags.Raised? {
      assert |cands| == 0;
      return Raised(tags.exc);
    }
    ghost var g := Tagging(db.genres, db.albumGenres);
    ghost var st := Tagging(db.styles, db.albumStyles);
    ghost var c := db.colorUpdates;
    GetAlbumsDominantColor(db, extract, fallback);
    assert db.colorUpdates == c + ColorUpdates(ColorCandidates(albums), extract, fallback);
    assert Tagging(db.genres, db.albumGenres) == g && Tagging(db.styles, db.albumStyles) == st;
    r := Ok(());
  }
}
