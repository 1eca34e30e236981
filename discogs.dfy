/** The tag lookup against the Discogs catalogue: the query text, the first-result rule, the fallbacks. */
module Discogs {
  import opened Wrappers
  import Text

  /** A search hit: the release's styles and genres attributes, None when the catalogue has none. */
  datatype Release = Release(styles: Option<seq<string>>, genres: Option<seq<string>>)

  /** A tag list after the None-to-"" replacement: the empty string, or the list as found. */
  datatype Tags = Blank | Listed(items: seq<string>)

  /** `get_album_genre`'s dict: the two lists, or `{"genres": None, "styles": None}` after an exception. */
  datatype GenreLookup = Found(genres: Tags, styles: Tags) | NotFound

  /** One row of the worker's untagged-albums query: `id`, `artist_name`, `album_name`. */
  datatype AlbumRef = AlbumRef(id: int, artistName: Option<string>, albumName: Option<string>)

  /** One entry of `get_album_genres`' result. */
  datatype AlbumTags = AlbumTags(albumId: int, genres: Tags, styles: Tags)

  /** The search text: both names with spaces turned into '+', joined by '+'. */
  function SearchQuery(albumName: string, artistName: string): (q: string)
    ensures |q| == |albumName| + 1 + |artistName|
    ensures forall i :: 0 <= i < |q| ==> q[i] != ' '
    ensures q[|albumName|] == '+'
    ensures forall i :: 0 <= i < |albumName| ==>
      q[i] == if albumName[i] == ' ' then '+' else albumName[i]
    ensures forall i :: 0 <= i < |artistName| ==>
      q[|albumName| + 1 + i] == if artistName[i] == ' ' then '+' else artistName[i]
  {
    Text.Replace(albumName, ' ', '+') + "+" + Text.Replace(artistName, ' ', '+')
  }

  /** `if x is None: x = ""`. */
  function TagsOf(x: Option<seq<string>>): Tags
  {
    if x.None? then Blank else Listed(x.value)
  }

  /**
   * `get_album_genre`: search for the query, take the first hit's genres and styles (None
   * becomes ""), and answer NotFound on any exception: a missing name (`None.replace`), a
   * failing search, or no hit at all (`search[0]`).  `search` returns None when the client raises.
   */
  function GetAlbumGenre(albumName: Option<string>, artistName: Option<string>,
                         search: string -> Option<seq<Release>>): (r: GenreLookup)
    ensures r.Found? <==>
      albumName.Some? && artistName.Some? &&
      var hits := search(SearchQuery(albumName.value, artistName.value));
      hits.Some? && |hits.value| > 0
    ensures r.Found? ==>
      var first := search(SearchQuery(albumName.value, artistName.value)).value[0];
      r.genres == TagsOf(first.genres) && r.styles == TagsOf(first.styles)
  {
    if albumName.None? || artistName.None? then NotFound
    else
      var hits := search(SearchQuery(albumName.value, artistName.value));
      if hits.None? || |hits.value| == 0 then NotFound
      else Found(TagsOf(hits.value[0].genres), TagsOf(hits.value[0].styles))
  }

  /** Hits after the first one never matter. */
  lemma OnlyFirstHitCounts(albumName: string, artistName: string,
                           s1: string -> Option<seq<Release>>, s2: string -> Option<seq<Release>>)
    requires var q := SearchQuery(albumName, artistName);
      s1(q).Some? && s2(q).Some? && |s1(q).value| > 0 && |s2(q).value| > 0 &&
      s1(q).value[0] == s2(q).value[0]
    ensures GetAlbumGenre(Some(albumName), Some(artistName), s1) == GetAlbumGenre(Some(albumName), Some(artistName), s2)
  {
  }

  /** The entry get_album_genres keeps for one album, if its lookup does not raise. */
  function AlbumTagsOf(album: AlbumRef, search: string -> Option<seq<Release>>): Option<AlbumTags>
  {
    match GetAlbumGenre(album.albumName, album.artistName, search)
    case Found(g, s) => Some(AlbumTags(album.id, g, s))
    case NotFound => None
  }

  /** The albums whose lookup succeeds, in input order. */
  function Kept(albums: seq<AlbumRef>, search: string -> Option<seq<Release>>): seq<AlbumTags>
  {
    if |albums| == 0 then []
    else
      var t := AlbumTagsOf(albums[|albums| - 1], search);
      Kept(albums[..|albums| - 1], search) + (if t.Some? then [t.value] else [])
  }

  /** `get_album_genres`: look every album up and skip the ones whose lookup raises. */
  method GetAlbumGenres(albums: seq<AlbumRef>, search: string -> Option<seq<Release>>)
    returns (results: seq<AlbumTags>)
    ensures results == Kept(albums, search)
  {
    results := [];
    for i := 0 to |albums|
      invariant results == Kept(albums[..i], search)
    {
      var album := albums[i];
      var found := GetAlbumGenre(album.albumName, album.artistName, search);
      if found.Found? {
        results := results + [AlbumTags(album.id, found.genres, found.styles)];
      }
      assert albums[..i + 1][..i] == albums[..i];
    }
    assert albums[..|albums|] == albums;
  }

  /**
   * What get_album_genres keeps: at most one entry per album, in input order, each carrying
   * its album's id and lookup; every album whose lookup succeeds is kept.
   */
  lemma {:induction false} KeptInOrder(albums: seq<AlbumRef>, search: string -> Option<seq<Release>>)
    returns (pos: seq<nat>)
    ensures |pos| == |Kept(albums, search)| <= |albums|
    ensures forall k :: 0 <= k < |pos| ==> pos[k] < |albums|
    ensures forall k, l :: 0 <= k < l < |pos| ==> pos[k] < pos[l]
    ensures forall k :: 0 <= k < |pos| ==>
      AlbumTagsOf(albums[pos[k]], search) == Some(Kept(albums, search)[k]) &&
      Kept(albums, search)[k].albumId == albums[pos[k]].id
    ensures forall i :: 0 <= i < |albums| && AlbumTagsOf(albums[i], search).Some? ==> i in pos
  {
    pos := KeptAt(albums, search);
    KeptAtShape(albums, search);
    KeptAtContent(albums, search);
    KeptAtComplete(albums, search);
  }

  /** The positions of the albums whose lookup succeeds, in input order. */
  function KeptAt(albums: seq<AlbumRef>, search: string -> Option<seq<Release>>): seq<nat>
  {
    if |albums| == 0 then []
    else
      var n := |albums| - 1;
      KeptAt(albums[..n], search) + (if AlbumTagsOf(albums[n], search).Some? then [n] else [])
  }

  /** One position per kept entry, increasing, each naming an album. */
  lemma {:induction false} KeptAtShape(albums: seq<AlbumRef>, search: string -> Option<seq<Release>>)
    ensures var pos := KeptAt(albums, search);
      |pos| == |Kept(albums, search)| <= |albums| &&
      (forall k :: 0 <= k < |pos| ==> pos[k] < |albums|) &&
      (forall k, l :: 0 <= k < l < |pos| ==> pos[k] < pos[l])
  {
    if |albums| > 0 {
      KeptAtShape(albums[..|albums| - 1], search);
    }
  }

  /** The entry kept k-th is the lookup of the album at position k. */
  lemma {:induction false} KeptAtContent(albums: seq<AlbumRef>, search: string -> Option<seq<Release>>)
    ensures var pos := KeptAt(albums, search);
      |pos| == |Kept(albums, search)| &&
      forall k :: 0 <= k < |pos| ==>
        (pos[k] < |albums| &&
         AlbumTagsOf(albums[pos[k]], search) == Some(Kept(albums, search)[k]) &&
         Kept(albums, search)[k].albumId == albums[pos[k]].id)
  {
    KeptAtShape(albums, search);
    if |albums| > 0 {
      var n := |albums| - 1;
      var front := albums[..n];
      KeptAtContent(front, search);
      KeptAtShape(front, search);
      var p := KeptAt(front, search);
      var init := Kept(front, search);
      forall k | 0 <= k < |p|
        ensures AlbumTagsOf(albums[p[k]], search) == Some(init[k]) && init[k].albumId == albums[p[k]].id
      {
        assert albums[p[k]] == front[p[k]];
      }
    }
  }

  /** Every album whose lookup succeeds has its position listed. */
  lemma {:induction false} KeptAtComplete(albums: seq<AlbumRef>, search: string -> Option<seq<Release>>)
    ensures forall i :: 0 <= i < |albums| && AlbumTagsOf(albums[i], search).Some? ==> i in KeptAt(albums, search)
  {
    if |albums| > 0 {
      var n := |albums| - 1;
      var front := albums[..n];
      KeptAtComplete(front, search);
      forall i | 0 <= i < n && AlbumTagsOf(albums[i], search).Some? ensures i in KeptAt(albums, search) {
        assert albums[i] == front[i];
      }
    }
  }

  /** Looking albums up in consecutive groups gives the same results as one lookup of them all. */
  lemma {:induction false} KeptAppend(a: seq<AlbumRef>, b: seq<AlbumRef>, search: string -> Option<seq<Release>>)
    ensures Kept(a + b, search) == Kept(a, search) + Kept(b, search)
  {
    if |b| == 0 {
      assert a + b == a;
    } else {
      var n := |b| - 1;
      assert (a + b)[..|a + b| - 1] == a + b[..n];
      assert (a + b)[|a + b| - 1] == b[n];
      KeptAppend(a, b[..n], search);
    }
  }
}
