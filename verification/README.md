# Waltz playlist transfer, modelled in Dafny

Waltz copies playlists from one music catalog to another. A user signs in
to Spotify and Google, picks playlists on the origin catalog, and the
transfer recreates each one on the destination: it finds or creates a
playlist of the same name, reads the origin playlist's tracks, searches
the destination catalog for each track by its full name, skips tracks it
cannot find or that the destination already holds, and inserts the rest.

This project models the core of that system:

- `base.dfy` (`Base`): errors with their exact message texts, results, OAuth2 tokens and HTTP responses.
- `provider.dfy` (`Provider`): playlist and track records, a track's search string (`FullName`), and the first-match scan behind every lookup by name.
- `paging.dfy` (`Paging`): the two listing loops. YouTube follows page tokens. Spotify advances an offset and also stops on an empty page.
- `session.dfy` (`Session`): the cookie session that keeps one token per identity provider, and the token refresh.
- `token.dfy` (`TokenProvider`): the per-provider token provider handed to each adapter, and the shared `IsLoggedIn`.
- `handlers.dfy` (`Handlers`): the web application's own copies of the session reads, writes and refreshes, and its client builders.
- `youtube.dfy` (`YouTube`): the YouTube Data API adapter, including its import loop with duplicate detection.
- `youtube_v3.dfy` (`YouTubeV3`): the second Data API adapter. It inserts a single video.
- `youtube_api.dfy` (`YouTubeApi`): the adapter that calls the local search service over HTTP.
- `spotify.dfy` (`Spotify`): the Spotify adapter. It lists playlists and reads tracks.
- `search_service.dfy` (`SearchService`): the Python search service, covering its routes, its endpoints and its auth-client cache.
- `transfer.dfy` (`Transfer`): the transfer's calls on both catalogs, as its tests fix them.

Vendor calls are inputs to the model:

- A search is a function from the request to its result.
- A listing is the finite sequence of page responses, in order.
- An insert is a function from the item sent to its outcome.
- Building an API client is an `Outcome`.
- Opening and saving the cookie session are fields of the `Session.Store`.
- The identity providers are a `Session.Registry`.

A Go `panic` becomes a precondition. Examples: the unchecked type assertion
on a missing session value, the dereference of a nil token in the session
refresh and the web handlers, and the read of `Items[0]` from an empty
channel list. One panic is outside the model instead: the Data API adapters'
client build dereferences a stored nil token (see "## Left out").

`Track.FullName` has no definition among the modelled sources. The file
that defines `Track` is not part of this model. `FullName` is therefore
defined from its test: the artists joined by ", ", then " - ", then the
track name.

## Behaviour of the code worth noting

- The YouTube adapter's `AddToPlaylist` (provider/youtube/youtube.go:172-227)
  reads the destination playlist's items once. Then, for each given track in
  order, it searches by the track's full name, skips an empty hit or a video
  already among those items, and inserts any other video. The items are not
  read again inside the loop. So two source tracks that resolve to the same new video
  are both inserted (`YouTube.SameNewVideoInsertedTwice`).
- Spotify's `GetFullPlaylist` reads only the first page of a playlist's
  tracks (`Spotify.FirstTrackPageOnly`).
- The API adapter reports a missed search as the "track not found" error.
  The Data API adapters return the empty id without error.
- The orchestrator's source is a stub that always succeeds. `Transfer`
  follows its tests instead:
  - both catalogs are asked for their names, origin first (the tests do not fix this order);
  - validation comes next;
  - then, per playlist: resolve the destination playlist, read the origin playlist, and add its tracks with one `AddToPlaylist` call.
  The tests stop before the add, so that last step follows the catalog operations' signatures.
- The Data API adapters list the user's playlists from a single response,
  with no page loop (provider/youtube/youtube.go:19-32 and 113-121,
  provider/youtube/v3.go:94-102). So `FindPlaylistByName` misses a playlist
  that is not on the first page, and the transfer then creates a second
  playlist of that name. The model's listing input is that single response.
- The playlist cache in the Data API adapters is written through a value
  receiver, so it is never kept. Every lookup lists afresh, and that is how
  it is modelled.

## Model

| member | source | states |
|---|---|---|
| Session.KeyFor | session/session.go:57-62 | A provider name has a session key exactly when it is "google" or "spotify"; google maps to "google-user", spotify to "spotify-token", anything else to the invalid-provider error for that name |
| Session.GetSessionTokens | session/session.go:52-64 | A failed session open is returned as is; "google" reads the "google-user" value and "spotify" the "spotify-token" value; any other name fails with message "invalid provider " + name |
| Session.UpdateTokens | session/session.go:66-79 | For a valid name the selected key, and only it, holds the new token afterwards, every other key keeps its value, and the result is the save outcome; an open failure or an unknown name returns an error and writes nothing |
| Session.UpdateThenGet | session/session.go:52-79 | Round trip: after an update for google or spotify, reading that provider's token returns what was written |
| Session.RefreshToken | session/session.go:28-50 | Provider lookup, read, identity-provider refresh and write happen in that order; any failure before the write leaves the session as it was; on success the provider's key holds the new token, which is returned, or the save error when saving fails |
| Session.RefreshWritesOnlyItsSlot | session/session.go:41-49 | A refresh either leaves the session untouched or changes exactly the provider's slot, to the token it returns |
| Session.RefreshThenGet | session/session.go:45-49 | After a successful refresh, reading the provider's token returns the new token |
| TokenProvider.New | token/token.go:10-17 | The provider name, request, writer and session manager are stored unchanged |
| TokenProvider.GetToken | token/token.go:26-35 | The session's error is returned unchanged; otherwise the token stored under this provider's own key, nil when a nil token is stored |
| TokenProvider.RefreshToken | token/token.go:37-39 | The result and session effect equal the session refresh for the same provider name |
| TokenProvider.IsLoggedIn | provider/youtube/api.go:97-100 | True exactly when the identity provider exists, the session opens, the name is valid, the refresh succeeds and the session saves; when it is false and saving works, the session is unchanged (every adapter's IsLoggedIn is this one) |
| Handlers.GetSessionTokens | handlers.go:64-76 | The same dispatch as the session store: google reads "google-user", spotify reads "spotify-token", anything else is the invalid-provider error |
| Handlers.UpdateSession | handlers.go:78-87 | Only the selected key is written and the save outcome returned; an unknown name is an error with nothing written |
| Handlers.UpdateSessionKeepsOtherProvider | handlers.go:78-87 | Writing the Google token leaves the Spotify token as it was, and the other way round |
| Handlers.RefreshToken | handlers.go:89-116 | The session is opened first; a failed provider lookup, read or refresh leaves the session untouched; on success the new token is stored and returned, or the save error when saving fails |
| Handlers.ClientFor | handlers.go:45-62 | No stored value gives no client and no error, with the session untouched; otherwise the refresh's error, or a client on the refreshed token |
| Handlers.GetYoutubeClient | handlers.go:45-62 | No Google value gives no client and no error; a built client carries the token now stored under "google-user" |
| Handlers.GetSpotifyClient | handlers.go:164-177 | No Spotify value gives no client and no error; a built client carries the token now stored under "spotify-token" |
| Paging.Consumed | provider/youtube/youtube.go:146-167 | A listing loop consumes responses up to and including the first one that stops it, and no earlier one stops it |
| Paging.FollowTokens | provider/youtube/youtube.go:145-167 | The first request sends the empty token and each later one the previous page's next token; a failed page ends the loop with its error; otherwise the result is every page's items in page order |
| Paging.FollowOffsets | provider/spotify/spotify.go:90-109 | Each request's offset is the number of items received before it; the loop stops after a page with no next link or no items; the result is the pages' items in order, or the failing page's error |
| Paging.LaterOffsetsAdvance | provider/spotify/spotify.go:105-108 | Every request after the first starts at a positive offset, because each earlier page had items |
| Provider.FirstIndex | provider/youtube/youtube.go:68-73 | The index found is the first element satisfying the test; none is found only when no element satisfies it |
| Provider.JoinPlacesParts | provider/provider_test.go:12 | Joining places every part at its offset, in order, with the separator between consecutive parts |
| Provider.ArtistsInFullName | provider/provider_test.go:10-12 | Every artist appears in the full name in list order, and consecutive artists are separated by ", " |
| Provider.NameLastInFullName | provider/provider_test.go:12 | The full name is the joined artists, then " - ", then the track name last |
| Provider.FullNameNeverEmpty | provider/provider_test.go:12 | A full name always contains the " - " separator, so it is never empty, even for a track without artists or name |
| Provider.FullNameOfTwoArtists | provider/provider_test.go:8-16 | The track "Song" by "Paulo" and "Other" has full name exactly "Paulo, Other - Song" |
| YouTube.QueryFor | provider/youtube/youtube.go:53 | A track search asks for ids of one video matching the name |
| YouTube.FindTrack | provider/youtube/youtube.go:48-61 | Client and search errors are returned; no hits gives "" without error; otherwise the first hit's video id |
| YouTube.FindPlaylistByName | provider/youtube/youtube.go:63-74 | Listing errors are returned; the id of the first playlist whose title equals the name exactly, or "" without error when none does |
| YouTube.GetPlaylists | provider/youtube/youtube.go:113-130 | One playlist per listed item, in order, carrying only its title |
| YouTube.GetFullPlaylist | provider/youtube/youtube.go:136-170 | The playlist carries the requested id; its tracks are every page's video ids in page order, ending at the first empty next token; a page error yields the wrapped "error retrieving playlist items" error |
| YouTube.ItemPagesFollowTokens | provider/youtube/youtube.go:145-166 | The item listing first sends the empty page token, then each page's next token |
| YouTube.CreateRequest | provider/youtube/youtube.go:96-104 | A created playlist has the given title, description "Playlist imported by Waltz" and privacy "public" |
| YouTube.CreatePlaylist | provider/youtube/youtube.go:91-111 | Without a client, the client error; otherwise exactly what inserting that playlist returns |
| YouTube.Classify | provider/youtube/youtube.go:184-224 | Each source track is searched by its full name; a search error aborts, an empty hit is skipped, an id in the snapshot is a duplicate, and any other id is inserted into the destination as a video, the step failing exactly when the insert does |
| YouTube.ImportAll | provider/youtube/youtube.go:184-226 | The steps follow the tracks in order; only the last step can abort; success means every track was processed; a failure carries the aborting step's error |
| YouTube.AddToPlaylist | provider/youtube/youtube.go:172-227 | Without a client it succeeds and does nothing; a failed read of the destination is returned; otherwise the import runs against the destination's ids read once before the loop |
| YouTube.NoSnapshotReinsert | provider/youtube/youtube.go:178-209 | No video already in the destination before the import is inserted, and every insert targets the destination playlist |
| YouTube.EmptyHitSkipped | provider/youtube/youtube.go:192-195 | A track whose search returns "" is skipped without error or insert, and the import goes on to the next track |
| YouTube.FailureStopsImport | provider/youtube/youtube.go:184-223 | The first failing search or insert ends the import at that track with that error; no later track is searched or inserted |
| YouTube.SameNewVideoInsertedTwice | provider/youtube/youtube.go:182-225 | The snapshot is never refreshed, so two tracks resolving to the same new video are both inserted |
| YouTubeV3.FindTrack | provider/youtube/v3.go:44-57 | Agrees with the first adapter's search for every input: "" for no hits, otherwise the first video id, with errors passed on |
| YouTubeV3.FindPlaylistByName | provider/youtube/v3.go:59-70 | Agrees with the first adapter's lookup by name for every input, errors from the listing included |
| YouTubeV3.Scan | provider/youtube/v3.go:64-69 | The id of the first playlist titled exactly as asked, or "" when none is |
| YouTubeV3.GetPlaylists | provider/youtube/v3.go:94-111 | Agrees with the first adapter: one entry per item, in order, carrying only the title |
| YouTubeV3.CreatePlaylist | provider/youtube/v3.go:72-92 | Agrees with the first adapter: the insert of a public playlist with the import description, returning the created id |
| YouTubeV3.GetFullPlaylist | provider/youtube/v3.go:117-151 | Agrees with the first adapter's token-following item listing for every response sequence |
| YouTubeV3.AddToPlaylist | provider/youtube/v3.go:153-173 | At most one insert, of the given video into the given playlist with no duplicate check; without a client nothing is sent and the result is success; otherwise the insert's outcome |
| YouTubeApi.SearchTrack | provider/youtube/api.go:315-331 | Transport errors pass through; status 404 gives exactly the track-not-found error; other non-200 statuses give an error with the body's detail; 200 gives the body's video_id; the result is a value exactly when the status is 200 |
| YouTubeApi.FindTrackAsWritten | provider/youtube/api.go:307-316 | The search as written: a transport failure is returned unchanged |
| YouTubeApi.AsWrittenNeverFinds | provider/youtube/api.go:316-323 | As written, the request path is "//track/search", which matches no route; the service answers 404 and every search reads as track not found |
| YouTubeApi.AsWrittenMissesAKnownSong | provider/youtube/api.go:316-323 | A song the service finds with status 200 is still reported as not found |
| YouTubeApi.FindTrack | provider/youtube/api.go:307-331 | With a single slash: an empty name fails with "query cannot be empty", no usable first hit gives track not found, otherwise the first hit's video id |
| YouTubeApi.PathsOnEndpoint | provider/youtube/api.go:22-24 | A path appended to the endpoint constant gains a second leading slash and reaches no route; appended to the origin it arrives as written |
| YouTubeApi.OtherPathsAsWritten | provider/youtube/api.go:143-250 | The playlist-listing, playlist-reading, create and insert requests as written reach no route; with one slash each reaches its own route |
| YouTubeApi.GetPlaylists | provider/youtube/api.go:210-247 | Client, channel-lookup and request errors are returned; otherwise each decoded {title, playlistId} becomes {Name, ID}, in order |
| YouTubeApi.FindPlaylistByName | provider/youtube/api.go:294-305 | Listing errors are returned; the id of the first playlist named exactly as asked, or "" without error |
| YouTubeApi.GetFullPlaylist | provider/youtube/api.go:249-292 | The service is asked for the requested id, and its error for that id is returned; otherwise that answer's id, title and author name are copied and its track count is not; each track keeps its video id, title and artists in order |
| YouTubeApi.FullPlaylistSearchStrings | provider/youtube/api.go:271-289 | A track read back has, as search string, its artists joined by ", ", then " - ", then its title; its id is the videoId |
| YouTubeApi.CreateAuthPayload | provider/youtube/api.go:106-122 | The token provider's error is returned; otherwise access token, refresh token, type and expiry seconds are copied from the session token |
| YouTubeApi.PayloadsShareServiceClient | yt_search/main.py:30-35 | Two payloads from tokens with the same access token get the same cached client from the service |
| YouTubeApi.CreatePlaylist | provider/youtube/api.go:124-158 | The credential error or request error is returned; otherwise the id of the decoded answer for a payload of the given title and credentials |
| YouTubeApi.AddToPlaylist | provider/youtube/api.go:160-194 | The credential error is returned; otherwise success exactly when the request for that playlist, video and credentials is answered, whatever status it reports |
| Spotify.PaginatedRequest | provider/spotify/spotify.go:113-119 | A listing request asks for 50 playlists and omits the offset exactly when the offset is 0 |
| Spotify.ToPlaylist | provider/spotify/spotify.go:97-103 | ID, name, track total and owner display name are copied field for field |
| Spotify.GetClient | provider/spotify/spotify.go:121-136 | The token provider's error is returned; a nil token gives no client and no error, with the session untouched; otherwise the refresh error, or a client on the refreshed token |
| Spotify.NilTokenNoClient | provider/spotify/spotify.go:121-136 | A stored nil Spotify token gives no client and no error, with the session untouched, even with the identity provider registered |
| Spotify.ClientCarriesStoredToken | provider/spotify/spotify.go:126-132 | A built client carries the token the session now holds for Spotify |
| Spotify.GetPlaylists | provider/spotify/spotify.go:84-111 | The result is every fetched page's playlists in order, mapped field for field, or the failing page's error; each request's offset is the count of playlists on earlier pages |
| Spotify.OnlyFirstRequestOmitsOffset | provider/spotify/spotify.go:90-118 | The first request omits the offset; every later one sends a positive offset |
| Spotify.GetFullPlaylist | provider/spotify/spotify.go:42-67 | The client error, or else the Web API's error for the requested id; otherwise that playlist's first page's tracks in order, with names and artists in order and no track ids; the playlist's own fields are empty |
| Spotify.FirstTrackPageOnly | provider/spotify/spotify.go:51-54 | A playlist with more tracks than its first page comes back short |
| Spotify.FullPlaylistSearchStrings | provider/spotify/spotify.go:54-63 | Each returned track's search string is built from the catalog's own artists and name |
| Spotify.CreatePlaylist | provider/spotify/spotify.go:26-28 | Always fails with "not implemented" |
| Spotify.FindTrack | provider/spotify/spotify.go:30-32 | Always fails with "not implemented" |
| Spotify.FindPlaylistByName | provider/spotify/spotify.go:34-36 | Always fails with "not implemented" |
| Spotify.AddToPlaylist | provider/spotify/spotify.go:38-40 | Always fails with "not implemented" |
| SearchService.Route | yt_search/main.py:38-73 | "/track/search", "/playlist" and "/track" select their endpoints exactly; "/playlists/" and "/playlist/" select theirs with a non-empty, slash-free parameter; a path not starting with one slash selects nothing |
| SearchService.RoutesReachable | yt_search/main.py:38-73 | Each endpoint's own path selects it |
| SearchService.SearchTrack | yt_search/main.py:38-45 | An empty query is exactly a 400 with detail "query cannot be empty"; no results or a first result without videoId is exactly a 404; otherwise 200 with {"video_id": first result's videoId} |
| SearchService.OnlyFirstHitCounts | yt_search/main.py:43-44 | A video further down the results is never returned when the first result is not a video |
| SearchService.Serve | yt_search/main.py:38-45 | A path no route matches is answered 404 "Not Found"; the search path is answered by the search endpoint |
| SearchService.GetPlaylists | yt_search/main.py:47-58 | An empty channel id is exactly a 400 refusal; otherwise the full list fetched with the user's params when present, or the inline results |
| SearchService.GetPlaylist | yt_search/main.py:60-64 | An empty playlist id is exactly a 400 refusal; otherwise the music client's playlist |
| SearchService.RoutedArgumentsNonEmpty | yt_search/main.py:47-63 | A routed request never has an empty path parameter, so the endpoints' own checks never refuse it |
| SearchService.GetAuthClient | yt_search/main.py:30-35 | A new client is built exactly when none exists or the access token differs from the last one; otherwise the cached client is returned and the state is unchanged |
| SearchService.GetAuthClientKeepsConsistent | yt_search/main.py:11-35 | From the initial state on, a cached client exists exactly when a token is remembered, and it was built for that token |
| SearchService.ClientMatchesAccessToken | yt_search/main.py:30-35 | The client returned always carries the requested access token |
| SearchService.ReuseIgnoresOtherFields | yt_search/main.py:30-35 | A second call with the same access token gets the first call's client, whatever its other credentials |
| Transfer.GetOrCreatePlaylist | transfer/transfer_test.go:39-66 | The destination is searched by the playlist's name first; a found id is returned with no create; "" leads to exactly one create under the same name, whose result is returned |
| Transfer.ResolutionNeverCreatesWhenFound | transfer/transfer_test.go:39-51 | When the destination has a playlist of that name, no create is issued |
| Transfer.LookupTests | transfer/transfer_test.go:39-66 | The repository's two lookup tests: "123" found is used as is; not found leads to one create returning "123" |
| Transfer.TransferOne | transfer/transfer_test.go:68-86 | The destination playlist is resolved, then the origin playlist is read by its origin id, then its tracks are added to the resolved id; the first failure ends it |
| Transfer.OneStopsAtFailure | transfer/transfer_test.go:82-85 | Within one playlist the failing call is the last call and every earlier call succeeded |
| Transfer.OneReadsOriginById | transfer/transfer_test.go:68-86 | The origin is read only by the origin id, after the destination lookups; added tracks are exactly the origin's tracks; every other call goes to the destination |
| Transfer.FailedAt | transfer/transfer_test.go:68-86 | The index of the first playlist whose transfer fails: every earlier one succeeds, and it is the selection's length only when none fails |
| Transfer.TransferAll | transfer/transfer_test.go:68-86 | Playlists are transferred in order. Success means every playlist succeeded, and the calls are every playlist's calls back to back. Failure is the first failing playlist's failure, and the calls are those of the playlists up to and including it, so nothing is called after it |
| Transfer.AllReadsOriginByIds | transfer/transfer_test.go:68-86 | Across a selection the origin is read only by selected playlists' ids; every other call goes to the destination |
| Transfer.To | transfer/transfer_test.go:11-37 | Both catalogs are asked for their names; a nil selection fails with "cannot import: list is null" and an empty one with "cannot import: list is empty", with no other call; otherwise the playlists are transferred |
| Transfer.ValidationBeforeAnyLookup | transfer/transfer_test.go:17-37 | For a nil or empty selection the error message is exact and no lookup is made on either catalog |
| Transfer.NothingAfterFailure | transfer/transfer_test.go:82-85 | A failed transfer's last call is the one that failed, and every earlier catalog call succeeded |
| Transfer.OriginFetchTest | transfer/transfer_test.go:68-86 | The repository's fetch test: with the destination resolved to "destination-ID", the origin is read by "origin-ID", and its failure ends the transfer after exactly that call |

## Left out

- Paging.FollowTokens, Paging.FollowOffsets: these require the catalog to end the listing within the given responses. A catalog that never does would make the source loop forever, and that case is not modelled.
- YouTubeApi.FindTrackAsWritten: its own contract states only the transport-failure case. `YouTubeApi.AsWrittenNeverFinds` states what it returns otherwise.
- `FindPlayListById` (provider/youtube/youtube.go:76-89, provider/spotify/spotify.go:69-82): nothing in the transfer calls it.
- Repeated client builds: `AddToPlaylist` builds a client again inside `FindTrack` and `GetFullPlaylist`. Each operation is modelled with one client outcome, because the same session yields the same outcome.
- Handlers.GetYoutubeClient: building the YouTube service on the refreshed token (handlers.go:53-58) is taken to succeed, since its failure comes from library code outside the model.
- Handlers.GetSpotifyClient: the source also stores the new client in a package-level variable (handlers.go:172). The page handler `homepageHandler` reads it right after (handlers.go:128), and so does main.go (main.go:176 and 198-210). Both are outside the modelled core, so the write is not modelled.
- The nil-token panic in the Data API adapters' client build: a stored nil token is dereferenced (provider/youtube/youtube.go:233, provider/youtube/v3.go:180, provider/youtube/api.go:201), and the source panics. The model's client outcome stands only for the build's two error returns, the token read's error and the service constructor's error. No model input stands for the panicking case, so what an adapter does with a nil token is not modelled.
- `createAuthPayload`'s `expires_in` (provider/youtube/api.go:113): it needs the wall clock and floating point.
- URL escaping of the search query (provider/youtube/api.go:316): escaping and the service's unescaping are treated as inverses, so the query is passed as is.
- JSON encoding and decoding: decoded bodies are inputs. A decode error that `GetPlaylists` ignores (provider/youtube/api.go:235) shows up as whatever entries were decoded.
- The music client behind the search service (`yt.search`, `get_user`, `get_playlist`, `create_playlist`, `add_playlist_items`): its answers are inputs. The bodies of the two POST endpoints (yt_search/main.py:66-77) are calls into it, so only their routes are modelled.
- Progress messages and logging: they have no effect on results.
- The web application's page, OAuth callback and redirect handlers, main.go, the browser code, the logger setup, the stub in transfer/transfer.go and the outdated interface in provider/provider.go: these are not part of the modelled core.
- The cookie store's encoding and signing: opening and saving the session are inputs.

## Findings

| source | as written | input that shows it | evidently intended | confidence | as-written member | corrected member |
|---|---|---|---|---|---|---|
| provider/youtube/api.go:23 | The endpoint constant "http://localhost:8000/" ends in a slash and every path appended to it begins with one, so requests go to "//track/search", "//playlists/…", "//playlist/…", "//playlist" and "//track" | searching "Rick Astley - Never Gonna Give You Up" while the service's search returns a video: the service would answer 200, but the doubled-slash path matches no route, so the answer is 404 and the adapter reports track not found | the endpoint without its trailing slash, so each request reaches its route | medium, not executed; assumes the service's router matches paths literally without merging slashes | YouTubeApi.AsWrittenNeverFinds | YouTubeApi.FindTrack |
