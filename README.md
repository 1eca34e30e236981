# digster-api — a Dafny model of the import and enrichment core

digster-api collects a Spotify listener's saved albums, stores them with their artists, then
enriches every stored album: genres and styles looked up on Discogs, and a two-colour palette
extracted from the cover art. This project models that core in Dafny and proves properties of it.

- **`bg_tasks.py`.** The background import. It pages through the saved albums 50 at a time. For
  every album it stores the artist, then the album, then the user–album link. At the end it
  enqueues the genre and colour passes.
- **`worker.py`.** The enrichment passes:
  - record the user's saved albums without duplicates;
  - insert the untracked albums (batches of 10) and artists (batches of 49);
  - tag the untagged albums with Discogs genres and styles (chunks of 20, get-or-create of every
    tag, then one join row per tag);
  - store a colour palette for every album without one.
- **`dominant_color_finder.py`.** The arithmetic and ordering around the clustering: the hex
  triplet, the index sort by (h, s, v), the brightness clamp, the label histogram, and ordering
  the clusters by share.
- **`digster_db.py`.** The user upsert and the bulk appends. The store methods that the worker
  calls but that have no body in the repository are modelled too, as plain appends.
- **The Spotify, Discogs and Deezer controllers.** URL and query builders, and the mapping of
  decoded responses.

Layout, one module per source file:

| file | module | form |
|---|---|---|
| `wrappers.dfy` | `Wrappers` | `Option`, `Result`, the Python exceptions that matter |
| `json.dfy` | `Json` | decoded responses; `.get`, `[...]`, truthiness, `int()`, iterating a value |
| `text.dfy` | `Text` | decimal rendering and parsing, join/split, replace, `[:-1]` |
| `color_finder.dfy` | `ColorFinder` | functions, plus methods for the loops |
| `digster_db.dfy` | `DigsterDb` | a `Database` class whose tables are `seq` fields |
| `discogs.dfy`, `spotify.dfy`, `deezer.dfy` | `Discogs`, `Spotify`, `Deezer` | functions for the mappings; a method per loop, proved equal to a function |
| `worker.dfy` | `Worker` | methods over the `Database`, proved against table functions |
| `bg_tasks.dfy` | `BgTasks` | a method returning the log of store calls, proved equal to a function |

Every loop of the source is a Dafny method, proved against a recursive function of its input
(`Kept`, `TagAll`, `AddAbsent`, `Paging`, …). The lemmas then state what the source promises
about those functions.

External effects are parameters. This covers HTTP answers, the Discogs search, KMeans labels
and centres, the cv2 colour conversions, the cover download, `datetime.now()` (one timestamp per
pass) and the values that bodiless store methods return (`reply(i)` for the i-th logged call).

### Behaviour of the code the model keeps

- **Cluster order.** `get_dominant_color` orders clusters by share only
  (`sorted(..., reverse=True)`, a stable sort). It never calls `_sort_hsvs`, so there is no HSV
  tie-break. `_sort_hsvs` is modelled on its own.
- **Enrichment candidates.** These are chosen by a null `primary_color` or by missing genre and
  style rows, not by fetch timestamps.
- **Last chunk's results.** `worker.get_album_genres` returns only the last chunk's results. It
  raises `UnboundLocalError` when there is no untagged album, and that stops `fetch_albums_data`
  before the colour pass.
- **Artist ids.** `insert_untracked_artists` selects `ARTIST_ID` without `IS NOT NULL`, so an
  album with no artist makes `None` a candidate id. It returns only the last batch's artists.
- **Type of `artist_id`.** `models.py` declares `albums.artist_id` an integer, but every join
  compares it with `artists.spotify_id`. The model types it as that spotify id
  (`Option<string>`).
- **User id.** `get_user_info` applies `int()` to the Spotify user id, so a non-numeric id raises
  `ValueError`.
- **Two-colour palettes.** A palette has two colours only when both clusters own pixels.
  `np.histogram` has one bin per distinct label, and `zip` stops at the shorter list.
- **Unknown tasks.** `bg_tasks.py` imports `fetch_albums_genres_worker` and
  `fetch_albums_color_worker`, which `worker.py` does not define. The model records the two
  enqueues as events.
- **SQL results.** `DISTINCT` and `.first()` are modelled as first occurrence in table order.

## Model

| member | source | states |
|---|---|---|
| BgTasks.FetchAlbumsData | digster_api/bg_tasks.py:20-55 | the calls, page count and outcome equal `Paging` from offset 0 after the token lookup; the k-th page fetched is at offset 50·k |
| BgTasks.VisitPage | digster_api/bg_tasks.py:34-52 | the inner album loop equals `PageVisit`: calls appended in album order, stopping at the first album that is not a dict |
| BgTasks.PageVisitShape | digster_api/bg_tasks.py:34-52 | a page visit keeps the earlier calls, adds exactly three calls per album up to the first non-dict, raises AttributeError exactly there, and never enqueues |
| BgTasks.PageVisitCalls | digster_api/bg_tasks.py:35-52 | album j's calls are `insert_artist`, then `insert_album` with the artist id the store returned, then `insert_user_album` with the returned album id and the album's `added_at` |
| BgTasks.PageVisitRaised | digster_api/bg_tasks.py:34-52 | once an album of a page has raised, the later albums change nothing |
| BgTasks.PagingShape | digster_api/bg_tasks.py:25-33 | pages are fetched in order; every page but the last is a dict whose `albums` is a non-empty list of dicts, so its visit raised nothing; the run ends normally iff the last page is a dict with falsy `albums` |
| BgTasks.PagingEnqueues | digster_api/bg_tasks.py:54-55 | the genre and colour tasks are enqueued once each, as the last two calls, iff the run ends normally; no other call is an enqueue |
| ColorFinder.HexBody | digster_api/dominant_color_finder.py:61 | two characters per channel, all upper-case hex digits |
| ColorFinder.HexTripletIsColor | digster_api/dominant_color_finder.py:60-61 | an RGB triple gives a 7-character `#RRGGBB` string |
| ColorFinder.HexBodyRoundTrip | digster_api/dominant_color_finder.py:61 | parsing the hex digits gives back the channels |
| ColorFinder.HexTripletRoundTrip | digster_api/dominant_color_finder.py:60-61 | parsing a hex triplet gives back the triple |
| ColorFinder.StableSortIndices | digster_api/dominant_color_finder.py:57 | the stable sort returns the indices ordered by key, with ties in index order |
| ColorFinder.StableOrderUnique | digster_api/dominant_color_finder.py:57 | a stable ordering of the indices is unique |
| ColorFinder.HsvKeyOrder | digster_api/dominant_color_finder.py:57 | the packed key orders triples lexicographically by (h, s, v) |
| ColorFinder.SortHsvs | digster_api/dominant_color_finder.py:46-58 | the result is a permutation of 0..n-1 listing the HSV triples in non-decreasing (h, s, v) order, with equal triples kept in index order |
| ColorFinder.MakeBar | digster_api/dominant_color_finder.py:23-32 | hue and saturation are kept; the value becomes at least 150; a value of 150 or more is kept; the rgb is the conversion of the clamped hsv |
| ColorFinder.Histogram | digster_api/dominant_color_finder.py:40-41 | one bin per distinct label |
| ColorFinder.HistogramCountsPixels | digster_api/dominant_color_finder.py:40-41 | the bin counts sum to the number of labels (pixels) |
| ColorFinder.TwoClusterHistogram | digster_api/dominant_color_finder.py:40-41 | with two clusters, one or two bins whose counts sum to the number of pixels |
| ColorFinder.GetDominantColor | digster_api/dominant_color_finder.py:74-97 | one hex colour per zipped (share, centre) pair; all are `#RRGGBB`; they follow the centres ranked by share, descending, ties in cluster order; the centres come in as uint8 triples, so the truncation of KMeans' float centres by `bar[:] = color` and `int(...)` (lines 22-23) is part of that parameter |
| DigsterDb.FirstTagId | digster_api/worker.py:76-84 | no id iff no row has the text; otherwise the id belongs to a row with that text |
| DigsterDb.NextId | digster_api/worker.py:79 | a fresh serial id is above every id in the table |
| DigsterDb.UpsertInsertsAbsent | digster_api/digster_db.py:16-18 | an absent id appends one row holding every field of the record, with `created_at` set to now and `has_allowed_fetching` False unless the record gives it (the column default) |
| DigsterDb.UpsertUpdatesProfileOnly | digster_api/digster_db.py:19-27 | on an existing id only display name, email, country and image url change; every other row and column is kept |
| DigsterDb.UpsertKeepsKeyUnique | digster_api/digster_db.py:19-21 | after the upsert, ids stay unique and exactly one row has the user's id |
| DigsterDb.UpsertIdempotent | digster_api/digster_db.py:16-29 | upserting the same user twice gives the table of one upsert |
| DigsterDb.Database.UpsertUser | digster_api/digster_db.py:16-29 | the users table becomes `Upserted(old, user, now)`; unique ids are preserved |
| DigsterDb.Database.InsertListens | digster_api/digster_db.py:31-33 | the listens are appended; the existing rows are untouched |
| DigsterDb.Database.InsertTracks | digster_api/digster_db.py:35-37 | the tracks are appended; the existing rows are untouched |
| DigsterDb.Database.InsertGenre | digster_api/worker.py:79 | appends one genre row with a fresh id |
| DigsterDb.Database.InsertStyle | digster_api/worker.py:95 | appends one style row with a fresh id |
| DigsterDb.Database.InsertAlbumGenre | digster_api/worker.py:89 | appends the join row |
| DigsterDb.Database.InsertAlbumStyle | digster_api/worker.py:105 | appends the join row |
| DigsterDb.Database.InsertUserAlbum | digster_api/worker.py:205 | appends the user-album row |
| DigsterDb.Database.InsertAlbums | digster_api/worker.py:146 | appends the albums with fresh ids and `created_at` |
| DigsterDb.Database.InsertArtists | digster_api/worker.py:181 | appends the artists with fresh ids and `created_at` |
| DigsterDb.Database.UpdateColorAlbum | digster_api/worker.py:41 | records one colour update for the album |
| Discogs.SearchQuery | digster_api/discogs_controller.py:24 | album name with spaces turned into '+', then '+', then artist name likewise; the query has no space |
| Discogs.GetAlbumGenre | digster_api/discogs_controller.py:44-56 | a result is found iff both names are present and the search gives at least one hit; it then carries the first hit's genres and styles, None becoming "" |
| Discogs.OnlyFirstHitCounts | digster_api/discogs_controller.py:47-49 | two searches that agree on the first hit give the same genres and styles: later hits never matter |
| Discogs.GetAlbumGenres | digster_api/discogs_controller.py:19-42 | the loop's results equal `Kept`: one entry per album whose lookup does not raise |
| Discogs.KeptInOrder | digster_api/discogs_controller.py:20-40 | the results keep input order, number at most the input, each carries its own album's id and tags, and every album whose lookup succeeds is among them |
| Discogs.KeptAppend | digster_api/discogs_controller.py:21-40 | looking up a concatenation gives the concatenated results, so chunking does not change them |
| Spotify.RecentlyPlayedQuery | digster_api/spotify_controller.py:77-87 | a given url is used unchanged; otherwise the query splits at '&' into `limit=` and, exactly when `after` is truthy, `after=`, from which both numbers read back |
| Spotify.QueryParamsNoAmpersand | digster_api/spotify_controller.py:78-87 | no query parameter contains '&' |
| Spotify.BuiltUrlJoinsParams | digster_api/spotify_controller.py:78-87 | the built url is the endpoint, '?', and the parameters joined with '&' |
| Spotify.GetRecentlyPlayed | digster_api/spotify_controller.py:98-113 | the item loop equals `RecentlyPlayedOf`, where a `played_at` that `fromisoformat` rejects raises ValueError |
| Spotify.RecentlyPlayedMessage | digster_api/spotify_controller.py:98-99 | empty or missing items gives the message alone, and nothing else does |
| Spotify.RecentlyPlayedEntries | digster_api/spotify_controller.py:100-112 | otherwise one entry per item in order, listened_at being played_at minus its last character (a text `fromisoformat` accepts) and track_id the nested id |
| Spotify.RecentlyPlayedNoRaise | digster_api/spotify_controller.py:103-111 | items that are dicts with a string `played_at` that parses and a dict `track` never raise |
| Spotify.PlayedAtRejects | digster_api/spotify_controller.py:106-108 | a string `played_at` that `fromisoformat` rejects once its last character is dropped raises ValueError |
| Spotify.TracksIdsParamSplits | digster_api/spotify_controller.py:123 | splitting the `ids` parameter at ',' gives back the track ids |
| Spotify.CollectRecords | digster_api/spotify_controller.py:130-184 | the record loop equals `RecordsOf` |
| Spotify.GetTracksInfo | digster_api/spotify_controller.py:130-145 | the track loop equals `RecordsOf` on `tracks` |
| Spotify.TracksInfoRecords | digster_api/spotify_controller.py:130-145 | one record per track, in order, copying the track's id, name, duration_ms and popularity and the nested album's id; falsy `tracks` gives the message |
| Spotify.TracksInfoNoRaise | digster_api/spotify_controller.py:134-143 | a list of dict tracks whose `album` is a dict never raises |
| Spotify.TracksInfoAlbumRaises | digster_api/spotify_controller.py:142 | in a list of dict tracks, one whose `album` is missing or no dict makes the loop raise AttributeError |
| Spotify.GetTracksAttributes | digster_api/spotify_controller.py:162-184 | the feature loop equals `RecordsOf` on `audio_features` |
| Spotify.AudioFeaturesRecords | digster_api/spotify_controller.py:162-184 | one record per entry, copying its id and exactly the eleven named features; dict entries never raise |
| Spotify.UserInfoFields | digster_api/spotify_controller.py:62-68 | a decimal id becomes its number and image_url is the first image's url; a non-decimal id raises ValueError; empty images raises IndexError |
| Deezer.AlbumInfoFields | digster_api/deezer_controller.py:17-28 | the mapping succeeds iff every key is there; id, artist id and name, upc, label, title, release date, cover_big and nb_tracks land in their fields |
| Deezer.SavedAlbumsUrl | digster_api/deezer_controller.py:33 | the url is the user's albums path with the offset as `index`, and the offset reads back from it; `limit` takes no part |
| Deezer.StepOfMeaning | digster_api/deezer_controller.py:43-49 | an item is skipped iff its id lookup, fetch or mapping raises; otherwise it raises iff `time_add` is missing, not a number (int, float or bool), or out of the platform's range; a kept album has the mapping, `created_at` now, and `added_at` from `time_add` |
| Deezer.GetUserSavedAlbums | digster_api/deezer_controller.py:39-52 | the response handling equals `SavedAlbumsOf` |
| Deezer.KeepItems | digster_api/deezer_controller.py:42-49 | the item loop equals `KeptAlbums` |
| Deezer.VisitItem | digster_api/deezer_controller.py:43-49 | one item's skip, append or raise equals `StepOf` |
| Deezer.KeptAlbumsRaised | digster_api/deezer_controller.py:42-49 | the loop raises iff some item that was not skipped has a missing, non-numeric or out-of-range `time_add`, with the first such item's exception |
| Deezer.KeptAlbumsInOrder | digster_api/deezer_controller.py:42-49 | the kept albums keep item order, each is its item's mapping, and every item that is not skipped is kept |
| Deezer.KeptRaisedPrefix | digster_api/deezer_controller.py:42-49 | once an item raises, later items change nothing |
| Deezer.SavedAlbumsTotal | digster_api/deezer_controller.py:39-51 | missing or empty `data` gives no albums; `total_albums` is the response's `total` |
| Json.MapAllMeaning | digster_api/spotify_controller.py:103-111 | a for-loop over items succeeds iff every step does, gives one value per item in order, and otherwise raises the first failing step's exception |
| Json.Collect | digster_api/spotify_controller.py:103-111 | iterating a response value equals `ForEachGet`: a list is mapped; an empty string or dict gives no values; a non-empty one raises AttributeError; anything else raises TypeError |
| Worker.ChunksFlatten | digster_api/worker.py:66-70 | the chunks concatenate back to the list |
| Worker.ChunksSizes | digster_api/worker.py:66-70 | a non-empty list gives at least one chunk; every chunk has 1 to n items and all but the last exactly n |
| Worker.ColorCandidatesExactly | digster_api/worker.py:26-33 | the colour candidates are exactly the albums with a null primary colour, in table order |
| Worker.JoinRows | digster_api/worker.py:48-54 | one joined row per matching artist, with the album id and name; no match gives one row without an artist name |
| Worker.MatchingNames | digster_api/worker.py:52 | a name is joined iff an artist's spotify id equals the album's artist id |
| Worker.TagCandidatesExactly | digster_api/worker.py:47-59 | an album is a tag candidate iff it has neither a genre nor a style join row |
| Worker.UntrackedAlbumIdsExactly | digster_api/worker.py:111-128 | an id is requested iff some user album has it, it is not null, and no album has that spotify id; no id is repeated |
| Worker.UntrackedArtistIdsExactly | digster_api/worker.py:153-162 | an artist id is requested iff some album has it and no artist has that spotify id, a null id included; no id is repeated |
| Worker.DedupDistinct | digster_api/worker.py:112 | `DISTINCT` keeps exactly the values that occur, each once |
| Worker.GetOrCreate | digster_api/worker.py:75-84 | after get-or-create the table has a row with the text |
| Worker.GetOrCreateShape | digster_api/worker.py:75-84 | a present text leaves the table unchanged; an absent one appends exactly one row with a fresh id |
| Worker.TagAllKeepsRows | digster_api/worker.py:73-105 | tagging only appends rows: the old tag table is a prefix |
| Worker.TagAllHasTexts | digster_api/worker.py:74-84 | every used text has a row afterwards |
| Worker.TagAllNewRows | digster_api/worker.py:75-79 | every new row's text was absent before and comes from the results |
| Worker.TagAllUnique | digster_api/worker.py:75-79 | if the texts were unique before, they are unique after: an absent text is inserted exactly once |
| Worker.TagAllLinks | digster_api/worker.py:80-89 | exactly one join row per used tag, in order, with the result's album id and the id of the row holding that text; the old links are kept |
| Worker.TagTextsOnce | digster_api/worker.py:74-84 | each text of the results is held by exactly one row afterwards |
| Worker.FirstTagIdStable | digster_api/worker.py:80-84 | appending rows never changes the id found for a text that was present |
| Worker.TagAllAppend | digster_api/worker.py:71-105 | tagging in two steps is tagging the concatenation |
| Worker.TagGenres | digster_api/worker.py:74-89 | the genre loop of one result equals `TagAll` on its uses |
| Worker.TagStyles | digster_api/worker.py:90-105 | the style loop of one result equals `TagAll` on its uses |
| Worker.TagResults | digster_api/worker.py:73-105 | the loop over one chunk's results equals `TagAll` on their genre and style uses |
| Worker.GetAlbumGenres | digster_api/worker.py:46-107 | genre and style tables equal `TagAll` over the Discogs results of all candidates; the result is the last chunk's results, or UnboundLocalError without candidates |
| Worker.GetAlbumsDominantColor | digster_api/worker.py:25-43 | exactly one colour update per candidate, in order, with the extracted palette or the given fallback (`fetch_albums_data` gives the literal `["#FFFFF", "#00000"]`) |
| Worker.ColorUpdatesWellFormed | digster_api/worker.py:35-41 | with the corrected fallback: one update per candidate with its id; every stored palette is made of `#RRGGBB` colours when the extractor's are |
| Worker.FallbackIsWhiteAndBlack | digster_api/worker.py:40 | the corrected fallback is the hex triplets of white and black |
| Worker.FallbackAsWrittenMalformed | digster_api/worker.py:40 | with the literal fallback, an album whose extraction raises is stored with two strings that are not colours |
| Worker.InsertUntrackedAlbums | digster_api/worker.py:110-148 | no untracked id returns early with no fetch; otherwise the ids are fetched in 10-id batches and the returned albums are appended in one insert |
| Worker.AlbumBatchesCover | digster_api/worker.py:135-136 | the album batches cover the ids in order, each of at most 10 |
| Worker.Answered | digster_api/worker.py:171-179 | the replies are taken up to the first one without `artists` |
| Worker.InsertUntrackedArtists | digster_api/worker.py:151-182 | one insert per answered 49-id batch; the result is the last batch's artists, or KeyError after the earlier batches were inserted |
| Worker.InsertArtistBatches | digster_api/worker.py:171-182 | the batch loop: the table grows by one bulk insert per answered batch in order; the batches sent are all of them, or the answered ones plus the failing one, which raises KeyError |
| Worker.InsertNewUserAlbums | digster_api/worker.py:197-205 | the check-then-insert loop equals `AddAbsent` |
| Worker.AddAbsentEffect | digster_api/worker.py:197-205 | old rows kept; the rows added come from the input and were absent; every input pair is present afterwards; no duplicate pair is created |
| Worker.AddAbsentIdempotent | digster_api/worker.py:197-205 | running the loop twice on the same input adds nothing the second time |
| Worker.FetchAlbumsData | digster_api/worker.py:185-213 | a `get_user_info` failure (ValueError, TypeError, IndexError, AttributeError) raises before any table changes; then user albums, albums, artists, tags and colours are updated in that order; a missing `user_albums` raises TypeError and changes no table; KeyError from the artists stops the tags and colours; no candidate stops the colours; the colour pass uses the literal fallback |
| Worker.ImportAlbums | digster_api/worker.py:197-209 | the saved albums are recorded without duplicates, then the untracked albums and then the untracked artists are inserted, each over the tables the previous step left; it raises exactly when the artists pass raises, and then with KeyError |
| Worker.TagAndColor | digster_api/worker.py:210-213 | the tag pass runs over the candidates of the tables as they then are; no candidate raises UnboundLocalError and records no colour, otherwise every colour candidate gets its palette or the given fallback |

## Left out

- HTTP, TLS, image download and `SystemExit` on HTTP errors: responses and failures are parameters.
- KMeans, `cv2.imdecode` and the cv2 colour conversions: the labels, centres and conversions are parameters.
- Float normalisation of the histogram (`hist /= hist.sum()`): the model keeps the integer counts. These order the same as the float32 shares for images under 2^24 pixels. Above that, two different counts can round to one share, and the stable sort then keeps cluster order.
- The 100×100 bar image built in `_make_bar`, and all `print`ing and logging.
- `datetime.now`, `fromisoformat` and `fromtimestamp`: one timestamp per pass is a parameter, and the parsed dates stay text or JSON. Which texts `fromisoformat` accepts is the parameter `isIso`, and which numbers `fromtimestamp` rejects, with what exception, is the parameter `rangeError`.
- Celery, `asyncio` and `.delay()`: enqueueing is a recorded call.
- `os.environ`, `dotenv` and the database connection and commits.
- `get_unauth_token` and `get_current_play`: network-only wrappers outside the modelled core.
- `get_albums_info`, `get_artists_info`, `get_user_saved_albums` (Spotify), `get_user_saved_albums_limit`, `get_user_spotify_tokens`, `insert_artist`, `insert_album` and the store's `insert_user_album`: the repository has no bodies for them, so their answers are parameters (`fetch`, `page`, `reply`).
- The store methods `insert_albums` (worker.py:146), `insert_artists` (181), `insert_genre` (79), `insert_style` (95), `insert_album_genre` (89), `insert_album_style` (105), `update_color_album` (41) and `close_conn` (42, 147) are not defined in `digster_db.py`. As written, each call raises AttributeError. The model gives the first seven the effect their call sites imply: plain appends, with fresh serial ids for new genre, style, album and artist rows, and a recorded call for the colour update. `close_conn` is left out.
- Celery tasks `fetch_albums_genres_worker` and `fetch_albums_color_worker`: not defined in `worker.py`; only their enqueueing is modelled.
- Concurrency races on check-then-insert: the code is sequential and so is the model.
- BgTasks.FetchAlbumsData: requires a page, at an offset it would reach, at which the service answers empty albums; a service that never answers so keeps the source looping forever, which is not modelled. As written, the module does not even import: lines 4-7 import `fetch_albums_genres_worker` and `fetch_albums_color_worker`, which `worker.py` does not define, so an ImportError is raised. Even with those imports, `with DigsterDB(...) as db` (line 20) raises before the token lookup, because `DigsterDB` defines no `__enter__` or `__exit__`: AttributeError before Python 3.11 and TypeError from 3.11 on. The model describes the paging loop with a working context manager and defined tasks.
- Worker.InsertNewUserAlbums: `worker.py:199-201` filters the ORM class `UserAlbum` by `user_spotify_id` and `album_spotify_id`. `models.py:94-100` gives that class only `id`, `user_id`, `album_id`, `added_at` and `created_at`. As written, `filter_by` therefore raises SQLAlchemy's InvalidRequestError on the first user album, before any row is inserted. Worker.ImportAlbums and Worker.FetchAlbumsData inherit this, so with a non-empty `user_albums` the source never reaches the albums pass. The raw SQL at `worker.py:112-115` likewise reads `USER_ALBUMS.ALBUM_SPOTIFY_ID`, which `models.py` does not declare. The model keys `user_albums` by the names `worker.py` uses, `(user_spotify_id, album_spotify_id)`, and describes the program in which those columns exist.
- Json.PyInt: reads ASCII decimal text with an optional sign only; `int()`'s acceptance of surrounding whitespace, `_` separators and non-ASCII Unicode digits is not modelled.
- Worker.GetAlbumGenres: `worker.py:72` calls `get_album_genres` on a `SeleniumScrapper`, and `selenium_scrapper.py` defines only `__init__` and `get_token`. As written, the first chunk therefore raises AttributeError. The model puts the Discogs lookup of `discogs_controller.py`, which has that name and shape, in its place, as the parameter `search`.
- Worker.TagAndColor: because of the scraper call above, the source never returns `Ok(())` and never reaches the colour pass. With candidates it raises AttributeError, and without them UnboundLocalError. The model's `|cands| > 0` case describes the program with the Discogs lookup in place.
- Worker.FetchAlbumsData: for the same reason, as written it ends with AttributeError or UnboundLocalError whenever the artists pass does not raise. It then never records a colour. The model's colour pass is that of the program with the Discogs lookup in place.
- Worker.InsertUntrackedAlbums: `Album(**album)` raising on unexpected keys is not modelled; the fetched album data is already typed.

## Findings

| source | as written | input that shows it | evidently intended | confidence | as-written member | corrected member |
|---|---|---|---|---|---|---|
| digster_api/worker.py:40 | the fallback palette is `["#FFFFF", "#00000"]`, five hex digits each | any colour candidate whose cover download or clustering raises | `["#FFFFFF", "#000000"]`, white and black as `#RRGGBB` | high; not executed | Worker.FallbackAsWrittenMalformed | Worker.FallbackIsWhiteAndBlack, Worker.ColorUpdatesWellFormed |
