/**
 * The relational store as in-memory tables (the columns of digster_api/models.py), and the
 * DigsterDB helper: the user upsert, the bulk appends of listens and tracks, and the inserts
 * and updates the worker calls.
 */
module DigsterDb {
  import opened Wrappers

  /** An instant; `datetime.now()` and parsed dates are parameters of the model. */
  type Timestamp = int

  /**
   * A users row, or the profile dict handed to `upsert_user`; in a dict, a None
   * `hasAllowedFetching` stands for the key being absent, as in the dict `get_user_info` builds.
   */
  datatype User = User(
    id: string,
    displayName: Option<string>,
    email: Option<string>,
    country: Option<string>,
    description: Option<string>,
    imageUrl: Option<string>,
    createdAt: Option<Timestamp>,
    hasAllowedFetching: Option<bool>,
    spotifyAccessToken: Option<string>,
    spotifyRefreshToken: Option<string>)

  datatype Listen = Listen(listenedAt: Option<Timestamp>, trackId: Option<string>, userId: Option<string>)

  datatype Track = Track(
    spotifyId: Option<string>, createdAt: Option<Timestamp>, name: Option<string>,
    durationMs: Option<int>, popularity: Option<int>, albumId: Option<string>,
    danceability: Option<real>, energy: Option<real>, key: Option<real>, loudness: Option<real>,
    mode: Option<real>, speechiness: Option<real>, acousticness: Option<real>,
    instrumentalness: Option<real>, liveness: Option<real>, valence: Option<real>, tempo: Option<real>)

  /** The columns of an album that come from the catalogue. */
  datatype AlbumData = AlbumData(
    spotifyId: Option<string>,
    artistId: Option<string>,   // compared with artists.spotify_id by every query that reads it
    albumType: Option<string>,
    name: Option<string>,
    upcId: Option<string>,
    genres: Option<string>,
    imageUrl: Option<string>,
    recordLabel: Option<string>,
    popularity: Option<int>,
    releaseDate: Option<string>,
    totalTracks: Option<int>)

  datatype Album = Album(
    id: int,
    data: AlbumData,
    createdAt: Option<Timestamp>,
    primaryColor: Option<string>,
    secondaryColor: Option<string>,
    tertiaryColor: Option<string>,
    fourthColor: Option<string>,
    fifthColor: Option<string>,
    fetchedGenresDate: Option<Timestamp>,
    fetchedColorsDate: Option<Timestamp>)

  datatype ArtistData = ArtistData(
    spotifyId: Option<string>,
    name: Option<string>,
    genres: Option<string>,
    followers: Option<int>,
    popularity: Option<int>,
    imageUrl: Option<string>)

  datatype Artist = Artist(id: int, data: ArtistData, createdAt: Option<Timestamp>)

  /** A row of `genres` or of `styles`: a serial id and the tag text. */
  datatype TagRow = TagRow(id: int, text: string)

  /** A row of `album_genres` or of `album_styles`. */
  datatype TagLink = TagLink(albumId: int, tagId: int)

  /**
   * A row of `user_albums`, by the column names the worker's queries use (`models.py` declares
   * `user_id` and `album_id` instead).
   */
  datatype UserAlbum = UserAlbum(
    userSpotifyId: Option<string>, albumSpotifyId: Option<string>, addedAt: Option<Timestamp>)

  /** One call of `update_color_album(album_id, colors)`. */
  datatype ColorUpdate = ColorUpdate(albumId: int, colors: seq<string>)

  // ---------------------------------------------------------------- serial ids

  /** The id Postgres' serial column hands out next: above every id in the table. */
  function NextId<T>(rows: seq<T>, id: T -> int): (n: int)
    ensures n >= 1 && forall i :: 0 <= i < |rows| ==> id(rows[i]) < n
  {
    if |rows| == 0 then 1
    else
      var m := NextId(rows[..|rows| - 1], id);
      var last := id(rows[|rows| - 1]);
      if last < m then m else last + 1
  }

  function TagRowId(r: TagRow): int { r.id }
  function AlbumId(a: Album): int { a.id }
  function ArtistId(a: Artist): int { a.id }

  function NextTagId(rows: seq<TagRow>): (n: int)
    ensures n >= 1 && forall i :: 0 <= i < |rows| ==> rows[i].id < n
  {
    NextId(rows, TagRowId)
  }

  function NextAlbumId(rows: seq<Album>): (n: int)
    ensures n >= 1 && forall i :: 0 <= i < |rows| ==> rows[i].id < n
  {
    NextId(rows, AlbumId)
  }

  function NextArtistId(rows: seq<Artist>): (n: int)
    ensures n >= 1 && forall i :: 0 <= i < |rows| ==> rows[i].id < n
  {
    NextId(rows, ArtistId)
  }

  /** The rows a bulk insert of albums adds: consecutive serial ids, all created at `now`. */
  function NewAlbums(table: seq<Album>, data: seq<AlbumData>, now: Timestamp): seq<Album>
  {
    var first := NextAlbumId(table);
    seq(|data|, k requires 0 <= k < |data| =>
      Album(first + k, data[k], Some(now), None, None, None, None, None, None, None))
  }

  /** The rows a bulk insert of artists adds. */
  function NewArtists(table: seq<Artist>, data: seq<ArtistData>, now: Timestamp): seq<Artist>
  {
    var first := NextArtistId(table);
    seq(|data|, k requires 0 <= k < |data| => Artist(first + k, data[k], Some(now)))
  }

  /** `query(Genre.id).filter_by(genre=text).first()`: the id of the first row with that text. */
  function FirstTagId(rows: seq<TagRow>, text: string): (r: Option<int>)
    ensures r.None? <==> forall i :: 0 <= i < |rows| ==> rows[i].text != text
    ensures r.Some? ==> TagRow(r.value, text) in rows
  {
    if |rows| == 0 then None
    else if rows[0].text == text then Some(rows[0].id)
    else FirstTagId(rows[1..], text)
  }

  // ---------------------------------------------------------------- upsert_user

  /** The position of the row with key id, if any. */
  function UserIndex(users: seq<User>, id: string): (r: Option<nat>)
    ensures r.None? <==> forall i :: 0 <= i < |users| ==> users[i].id != id
    ensures r.Some? ==> (r.value < |users| && users[r.value].id == id &&
      forall j :: 0 <= j < r.value ==> users[j].id != id)
  {
    if |users| == 0 then None
    else if users[0].id == id then Some(0)
    else
      var r := UserIndex(users[1..], id);
      if r.None? then None else Some(r.value + 1)
  }

  /** The primary key of `users`. */
  predicate UniqueUserIds(users: seq<User>)
  {
    forall i, j :: 0 <= i < j < |users| ==> users[i].id != users[j].id
  }

  /** What `ON CONFLICT DO UPDATE` writes into an existing row: the four profile fields. */
  function Refreshed(row: User, user: User): User
  {
    row.(displayName := user.displayName, email := user.email,
         country := user.country, imageUrl := user.imageUrl)
  }

  /**
   * The users table after `upsert_user(user)` at time `now`: the record, with created_at
   * set, is inserted when its id is absent; otherwise the conflicting row gets the four
   * profile fields and keeps every other column.
   */
  function Upserted(users: seq<User>, user: User, now: Timestamp): seq<User>
  {
    var i := UserIndex(users, user.id);
    if i.None? then users + [InsertedRow(user, now)]
    else users[i.value := Refreshed(users[i.value], user)]
  }

  /**
   * The row an insert of the dict writes: created_at set to now, and `has_allowed_fetching`
   * taking its column default False when the dict has no such key.
   */
  function InsertedRow(user: User, now: Timestamp): User
  {
    user.(createdAt := Some(now),
          hasAllowedFetching := if user.hasAllowedFetching.None? then Some(false) else user.hasAllowedFetching)
  }

  /**
   * An absent id: one row is appended, holding every field of the record, created_at set to
   * now and has_allowed_fetching False unless the record gives it.
   */
  lemma UpsertInsertsAbsent(users: seq<User>, user: User, now: Timestamp)
    requires forall i :: 0 <= i < |users| ==> users[i].id != user.id
    ensures var t := Upserted(users, user, now);
      |t| == |users| + 1 && t[..|users|] == users
    ensures var row := Upserted(users, user, now)[|users|];
      && row.id == user.id && row.displayName == user.displayName && row.email == user.email
      && row.country == user.country && row.description == user.description
      && row.imageUrl == user.imageUrl && row.createdAt == Some(now)
      && (user.hasAllowedFetching.None? ==> row.hasAllowedFetching == Some(false))
      && (user.hasAllowedFetching.Some? ==> row.hasAllowedFetching == user.hasAllowedFetching)
      && row.spotifyAccessToken == user.spotifyAccessToken
      && row.spotifyRefreshToken == user.spotifyRefreshToken
  {
    var k := UserIndex(users, user.id);
    assert k.None?;
  }

  /**
   * An existing id: only display_name, email, country and image_url change; created_at,
   * description, has_allowed_fetching and both tokens keep their values, and every other
   * row is untouched.
   */
  lemma UpsertUpdatesProfileOnly(users: seq<User>, user: User, now: Timestamp, i: nat)
    requires UniqueUserIds(users)
    requires i < |users| && users[i].id == user.id
    ensures |Upserted(users, user, now)| == |users|
    ensures forall j :: 0 <= j < |users| && j != i ==> Upserted(users, user, now)[j] == users[j]
    ensures var row := Upserted(users, user, now)[i];
      && row.id == users[i].id
      && row.displayName == user.displayName && row.email == user.email
      && row.country == user.country && row.imageUrl == user.imageUrl
      && row.createdAt == users[i].createdAt && row.description == users[i].description
      && row.hasAllowedFetching == users[i].hasAllowedFetching
      && row.spotifyAccessToken == users[i].spotifyAccessToken
      && row.spotifyRefreshToken == users[i].spotifyRefreshToken
  {
    var k := UserIndex(users, user.id);
    assert k == Some(i);
  }

  /** The key stays unique, and exactly one row carries the upserted id. */
  lemma UpsertKeepsKeyUnique(users: seq<User>, user: User, now: Timestamp)
    requires UniqueUserIds(users)
    ensures UniqueUserIds(Upserted(users, user, now))
    ensures exists i :: (0 <= i < |Upserted(users, user, now)| &&
      Upserted(users, user, now)[i].id == user.id &&
      forall j :: 0 <= j < |Upserted(users, user, now)| && j != i ==> Upserted(users, user, now)[j].id != user.id)
  {
    var r := Upserted(users, user, now);
    var k := UserIndex(users, user.id);
    if k.None? {
      assert r[|users|].id == user.id;
    } else {
      assert r[k.value].id == user.id;
      assert forall j :: 0 <= j < |r| && j != k.value ==> r[j] == users[j];
    }
  }

  /** Upserting the same user again leaves the table as one upsert left it. */
  lemma UpsertIdempotent(users: seq<User>, user: User, now1: Timestamp, now2: Timestamp)
    ensures Upserted(Upserted(users, user, now1), user, now2) == Upserted(users, user, now1)
  {
    var once := Upserted(users, user, now1);
    var k := UserIndex(users, user.id);
    if k.None? {
      assert once[|users|].id == user.id;
      assert UserIndex(once, user.id) == Some(|users|);
    } else {
      assert once[k.value].id == user.id;
      assert forall j :: 0 <= j < k.value ==> once[j].id != user.id;
      assert UserIndex(once, user.id) == k;
    }
  }

  // ---------------------------------------------------------------- the database

  /** A connection to the one database every DigsterDB instance opens. */
  class Database {
    var users: seq<User>
    var listens: seq<Listen>
    var tracks: seq<Track>
    var albums: seq<Album>
    var artists: seq<Artist>
    var genres: seq<TagRow>
    var styles: seq<TagRow>
    var albumGenres: seq<TagLink>
    var albumStyles: seq<TagLink>
    var userAlbums: seq<UserAlbum>
    var colorUpdates: seq<ColorUpdate>

    ghost predicate Valid()
      reads this
    {
      UniqueUserIds(users)
    }

    /** An empty database. */
    constructor ()
      ensures Valid()
      ensures users == [] && listens == [] && tracks == [] && albums == [] && artists == []
      ensures genres == [] && styles == [] && albumGenres == [] && albumStyles == []
      ensures userAlbums == [] && colorUpdates == []
    {
      users, listens, tracks, albums, artists := [], [], [], [], [];
      genres, styles, albumGenres, albumStyles := [], [], [], [];
      userAlbums, colorUpdates := [], [];
    }

    /** `upsert_user`: insert, or on a primary-key conflict refresh the four profile fields. */
    method UpsertUser(user: User, now: Timestamp)
      requires Valid()
      modifies this`users
      ensures Valid()
      ensures users == Upserted(old(users), user, now)
    {
      UpsertKeepsKeyUnique(users, user, now);
      var i := UserIndex(users, user.id);
      if i.None? {
        users := users + [InsertedRow(user, now)];
      } else {
        users := users[i.value := Refreshed(users[i.value], user)];
      }
    }

    /** `insert_listens`: a bulk append. */
    method InsertListens(rows: seq<Listen>)
      modifies this`listens
      ensures listens == old(listens) + rows
    {
      listens := listens + rows;
    }

    /** `insert_tracks`: a bulk append. */
    method InsertTracks(rows: seq<Track>)
      modifies this`tracks
      ensures tracks == old(tracks) + rows
    {
      tracks := tracks + rows;
    }

    /** `insert_genre(text)`: one new row under the next serial id. */
    method InsertGenre(text: string)
      modifies this`genres
      ensures genres == old(genres) + [TagRow(NextTagId(old(genres)), text)]
    {
      genres := genres + [TagRow(NextTagId(genres), text)];
    }

    /** `insert_style(text)`. */
    method InsertStyle(text: string)
      modifies this`styles
      ensures styles == old(styles) + [TagRow(NextTagId(old(styles)), text)]
    {
      styles := styles + [TagRow(NextTagId(styles), text)];
    }

    /** `insert_album_genre`: an append, with no duplicate check. */
    method InsertAlbumGenre(link: TagLink)
      modifies this`albumGenres
      ensures albumGenres == old(albumGenres) + [link]
    {
      albumGenres := albumGenres + [link];
    }

    /** `insert_album_style`: an append, with no duplicate check. */
    method InsertAlbumStyle(link: TagLink)
      modifies this`albumStyles
      ensures albumStyles == old(albumStyles) + [link]
    {
      albumStyles := albumStyles + [link];
    }

    /** `insert_user_album`: an append. */
    method InsertUserAlbum(row: UserAlbum)
      modifies this`userAlbums
      ensures userAlbums == old(userAlbums) + [row]
    {
      userAlbums := userAlbums + [row];
    }

    /** `insert_albums`: a bulk append under fresh serial ids. */
    method InsertAlbums(data: seq<AlbumData>, now: Timestamp)
      modifies this`albums
      ensures albums == old(albums) + NewAlbums(old(albums), data, now)
    {
      albums := albums + NewAlbums(albums, data, now);
    }

    /** `insert_artists`: a bulk append under fresh serial ids. */
    method InsertArtists(data: seq<ArtistData>, now: Timestamp)
      modifies this`artists
      ensures artists == old(artists) + NewArtists(old(artists), data, now)
    {
      artists := artists + NewArtists(artists, data, now);
    }

    /** `update_color_album(album_id, colors)`, recorded as a call. */
    method UpdateColorAlbum(albumId: int, colors: seq<string>)
      modifies this`colorUpdates
      ensures colorUpdates == old(colorUpdates) + [ColorUpdate(albumId, colors)]
    {
      colorUpdates := colorUpdates + [ColorUpdate(albumId, colors)];
    }
  }
}
