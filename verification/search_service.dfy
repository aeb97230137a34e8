/**
 The search service the API adapter calls: a small HTTP application over an
 unofficial YouTube Music client. The music client's answers are inputs:
 a search is a function from the query to its hits, a user lookup is a
 given record.
 */
module SearchService {
  import opened Base

  /** One search hit; `videoId` is absent for hits that are not videos. */
  datatype Hit = Hit(videoId: Option<string>)

  /** The request paths the application serves, after routing. A path
      parameter matches one non-empty segment. */
  datatype Endpoint =
    | TrackSearch
    | UserPlaylists(channelId: string)
    | PlaylistById(playlistId: string)
    | InsertPlaylist
    | InsertItem
    | NoRoute

  /** The body the framework sends for a 404 raised without a detail, and for
      a path no route matches. */
  const NotFoundBody: map<string, string> := map["detail" := "Not Found"]

  predicate NoSlash(s: string) {
    forall k :: 0 <= k < |s| ==> s[k] != '/'
  }

  /** The route a request path selects; a path matching none selects `NoRoute`. */
  function Route(path: string): (e: Endpoint)
    ensures e.TrackSearch? <==> path == "/track/search"
    ensures e.InsertPlaylist? <==> path == "/playlist"
    ensures e.InsertItem? <==> path == "/track"
    ensures e.UserPlaylists? ==> path == "/playlists/" + e.channelId && e.channelId != "" && NoSlash(e.channelId)
    ensures e.PlaylistById? ==> path == "/playlist/" + e.playlistId && e.playlistId != "" && NoSlash(e.playlistId)
    ensures (|path| == 0 || path[0] != '/' || (|path| > 1 && path[1] == '/')) ==> e.NoRoute?
  {
    if path == "/track/search" then TrackSearch
    else if path == "/playlist" then InsertPlaylist
    else if path == "/track" then InsertItem
    else if |path| > 11 && path[..11] == "/playlists/" && NoSlash(path[11..]) then UserPlaylists(path[11..])
    else if |path| > 10 && path[..10] == "/playlist/" && NoSlash(path[10..]) then PlaylistById(path[10..])
    else NoRoute
  }

  /** Every route is reachable: each endpoint's own path selects it. */
  lemma RoutesReachable(id: string)
    requires id != "" && NoSlash(id)
    ensures Route("/track/search") == TrackSearch
    ensures Route("/playlist") == InsertPlaylist && Route("/track") == InsertItem
    ensures Route("/playlists/" + id) == UserPlaylists(id)
    ensures Route("/playlist/" + id) == PlaylistById(id)
  {
    assert ("/playlists/" + id)[..11] == "/playlists/" && ("/playlists/" + id)[11..] == id;
    assert ("/playlist/" + id)[..10] == "/playlist/" && ("/playlist/" + id)[10..] == id;
    assert ("/playlist/" + id)[9] == '/' != "/playlists/"[9];
  }

  /** `GET /track/search`: reject an empty query; otherwise search and answer
      with the first hit's video id, or 404 when the first hit has none. */
  function SearchTrack(q: string, search: string -> seq<Hit>): (resp: HttpResponse)
    ensures q == "" <==> resp.status == 400
    ensures resp.status == 400 ==> resp.body == map["detail" := "query cannot be empty"]
    ensures resp.status == 404 <==> q != "" && (|search(q)| == 0 || search(q)[0].videoId.None?)
    ensures resp.status == 404 ==> resp.body == NotFoundBody
    ensures resp.status == 200 <==> q != "" && |search(q)| > 0 && search(q)[0].videoId.Some?
    ensures resp.status == 200 ==> resp.body == map["video_id" := search(q)[0].videoId.value]
    ensures resp.status in {200, 400, 404}
  {
    if q == "" then HttpResponse(400, map["detail" := "query cannot be empty"])
    else
      var res := search(q);
      if |res| == 0 || res[0].videoId.None? then HttpResponse(404, NotFoundBody)
      else HttpResponse(200, map["video_id" := res[0].videoId.value])
  }

  /** Only the first hit counts: a video further down the list is never
      returned, even when the first hit is not a video. */
  lemma OnlyFirstHitCounts(q: string, search: string -> seq<Hit>, i: nat)
    requires q != "" && 0 < i < |search(q)| && search(q)[0].videoId.None? && search(q)[i].videoId.Some?
    ensures SearchTrack(q, search).status == 404
  {
  }

  /** The server's answer to a GET on `path` with query parameter `q`, for the
      search route and for a path no route matches. */
  function Serve(path: string, q: string, search: string -> seq<Hit>): (resp: HttpResponse)
    requires Route(path).TrackSearch? || Route(path).NoRoute?
    ensures Route(path).NoRoute? ==> resp == HttpResponse(404, NotFoundBody)
    ensures Route(path).TrackSearch? ==> resp == SearchTrack(q, search)
  {
    if Route(path).TrackSearch? then SearchTrack(q, search) else HttpResponse(404, NotFoundBody)
  }

  /** A handler's answer: a served value or an HTTP error with its detail. */
  datatype Reply<T> = Served(value: T) | Refused(status: int, detail: string)

  /** The user record the music client returns: its playlist section holds
      either a browse parameter for the full list or the results inline. */
  datatype User<T> = User(params: Option<string>, results: seq<T>)

  /** `GET /playlists/{channelId}`: the user's playlists, fetched in full with
      the browse parameter when the user record carries one. */
  function GetPlaylists<T>(channelId: string, user: string -> User<T>,
                           userPlaylists: (string, string) -> seq<T>): (r: Reply<seq<T>>)
    ensures channelId == "" <==> r.Refused?
    ensures r.Refused? ==> r == Refused(400, "channelId cannot be empty")
    ensures r.Served? && user(channelId).params.Some? ==>
              r.value == userPlaylists(channelId, user(channelId).params.value)
    ensures r.Served? && user(channelId).params.None? ==> r.value == user(channelId).results
  {
    if channelId == "" then Refused(400, "channelId cannot be empty")
    else
      var u := user(channelId);
      if u.params.Some? then Served(userPlaylists(channelId, u.params.value)) else Served(u.results)
  }

  /** `GET /playlist/{playlist_id}`: the playlist the music client returns. */
  function GetPlaylist<T>(playlistId: string, playlist: string -> T): (r: Reply<T>)
    ensures playlistId == "" <==> r.Refused?
    ensures r.Refused? ==> r == Refused(400, "playlist_id cannot be empty")
    ensures r.Served? ==> r.value == playlist(playlistId)
  {
    if playlistId == "" then Refused(400, "playlist_id cannot be empty") else Served(playlist(playlistId))
  }

  /** A path parameter is never empty after routing, so the handlers' own
      empty-argument checks never refuse a routed request. */
  lemma RoutedArgumentsNonEmpty<T, P>(path: string, user: string -> User<T>,
                                      userPlaylists: (string, string) -> seq<T>, playlist: string -> P)
    ensures Route(path).UserPlaylists? ==> GetPlaylists(Route(path).channelId, user, userPlaylists).Served?
    ensures Route(path).PlaylistById? ==> GetPlaylist(Route(path).playlistId, playlist).Served?
  {
  }

  /** The credentials the adapter sends with each write. */
  datatype AuthPayload = AuthPayload(accessToken: string, refreshToken: string, tokenType: string, expiresAt: int)

  /** An authenticated music client, identified by the credentials it was built from. */
  datatype AuthClient = AuthClient(auth: AuthPayload)

  /** The application's state: the cached client and the access token it was
      built for. Both start absent. */
  datatype App = App(authClient: Option<AuthClient>, previousToken: Option<string>)

  const Initial := App(None, None)

  /** The cache is consistent: a client exists exactly when a token is
      remembered, and it was built for that token. */
  predicate Consistent(app: App) {
    && (app.authClient.Some? <==> app.previousToken.Some?)
    && (app.authClient.Some? ==> app.authClient.value.auth.accessToken == app.previousToken.value)
  }

  /** `get_auth_client`: build a new client when there is none or the access
      token changed; otherwise return the cached one. */
  function GetAuthClient(app: App, auth: AuthPayload): (r: (AuthClient, App))
    ensures r.1.authClient == Some(r.0)
    ensures r.1.previousToken == Some(auth.accessToken)
    ensures app.authClient.None? || app.previousToken != Some(auth.accessToken) ==>
              r.0 == AuthClient(auth)
    ensures app.authClient.Some? && app.previousToken == Some(auth.accessToken) ==>
              r.0 == app.authClient.value && r.1 == app
  {
    if app.authClient.None? || app.previousToken != Some(auth.accessToken) then
      (AuthClient(auth), App(Some(AuthClient(auth)), Some(auth.accessToken)))
    else
      (app.authClient.value, app)
  }

  /** Every call keeps the cache consistent, from the initial state on. */
  lemma GetAuthClientKeepsConsistent(app: App, auth: AuthPayload)
    requires Consistent(app)
    ensures Consistent(GetAuthClient(app, auth).1)
    ensures Consistent(Initial)
  {
  }

  /** The client always carries the access token it is asked for. */
  lemma ClientMatchesAccessToken(app: App, auth: AuthPayload)
    requires Consistent(app)
    ensures GetAuthClient(app, auth).0.auth.accessToken == auth.accessToken
  {
  }

  /** The cache looks only at the access token: a second call with the same
      access token but a new refresh token gets the client built from the
      first call's credentials. */
  lemma ReuseIgnoresOtherFields(app: App, a: AuthPayload, b: AuthPayload)
    requires a.accessToken == b.accessToken
    ensures var (c1, app1) := GetAuthClient(app, a);
            GetAuthClient(app1, b).0 == c1
  {
  }
}
