/**
 The adapter that goes through the local search service instead of the Data
 API for everything but the channel lookup. HTTP exchanges are inputs: a GET
 or POST yields a transport error or the decoded body.

 The request URLs are built as the endpoint constant followed by a path. The
 constant ends in "/" and every path begins with "/", so each request path
 begins with "//" and matches none of the service's routes; the corrected
 URLs drop the doubled slash.
 */
module YouTubeApi {
  import opened Base
  import opened Provider
  import SearchService

  const Name := "YouTubeApi"

  /** The service's origin, and the endpoint constant as the adapter writes it. */
  const Origin := "http://localhost:8000"
  const ApiEndpoint := "http://localhost:8000/"

  /** The part of `s` before the first `c`, or all of `s` without one. */
  function Before(s: string, c: char): (p: string)
    ensures |p| <= |s| && p == s[..|p|]
    ensures c !in p
    ensures |p| < |s| ==> s[|p|] == c
    decreases |s|
  {
    if |s| == 0 then ""
    else if s[0] == c then ""
    else [s[0]] + Before(s[1..], c)
  }

  /** The text before an inserted `c` is recovered whole when it holds no `c`. */
  lemma {:induction false} BeforeOfJoin(a: string, c: char, b: string)
    requires c !in a
    ensures Before(a + [c] + b, c) == a
    decreases |a|
  {
    if |a| > 0 {
      assert (a + [c] + b)[1..] == a[1..] + [c] + b;
      BeforeOfJoin(a[1..], c, b);
    } else {
      assert a + [c] + b == [c] + b;
    }
  }

  /** The request path of a URL on the service: what follows the origin, up to
      the query string. */
  function PathOf(url: string): string
    requires |url| >= |Origin| && url[..|Origin|] == Origin
  {
    Before(url[|Origin|..], '?')
  }

  /** A URL on the service made of a base, a path and an optional query. */
  lemma {:induction false} PathOfUrl(base: string, path: string, query: string)
    requires base == Origin || base == ApiEndpoint
    requires '?' !in path
    ensures var url := base + path + "?" + query;
            |url| >= |Origin| && url[..|Origin|] == Origin
            && PathOf(url) == base[|Origin|..] + path
  {
    var url := base + path + "?" + query;
    assert url[..|Origin|] == Origin;
    assert url[|Origin|..] == base[|Origin|..] + path + ['?'] + query;
    BeforeOfJoin(base[|Origin|..] + path, '?', query);
  }

  /** `searchTrack`'s URL as written: the query travels unescaped here, URL
      escaping and the service's unescaping being inverse. */
  function SearchUrlAsWritten(name: string): string {
    ApiEndpoint + "/track/search" + "?q=" + name
  }

  /** The same URL without the doubled slash. */
  function SearchUrl(name: string): string {
    Origin + "/track/search" + "?q=" + name
  }

  /** What `searchTrack` makes of the service's answer: 200 yields the video id
      (empty when the body lacks it), 404 the track-not-found error, any other
      status an error carrying the body's detail. */
  function SearchTrack(resp: Result<HttpResponse>): (r: Result<TrackID>)
    ensures resp.Err? ==> r == Err(resp.error)
    ensures resp.Ok? && resp.value.status == 200 ==> r == Ok(Field(resp.value.body, "video_id"))
    ensures resp.Ok? && resp.value.status == 404 ==> r == Err(TrackNotFound)
    ensures resp.Ok? && resp.value.status != 200 && resp.value.status != 404 ==>
              r == Err(Detail(Field(resp.value.body, "detail")))
    ensures resp.Ok? ==> (r.Ok? <==> resp.value.status == 200)
  {
    var res :- resp;
    if res.status != 200 then
      if res.status == 404 then Err(TrackNotFound)
      else Err(Detail(Field(res.body, "detail")))
    else Ok(Field(res.body, "video_id"))
  }

  /** `FindTrack` as written: the service answers the doubled-slash path. */
  function FindTrackAsWritten(name: string, transport: Outcome, search: string -> seq<SearchService.Hit>)
    : (r: Result<TrackID>)
    ensures transport.Fail? ==> r == Err(transport.error)
  {
    PathOfUrl(ApiEndpoint, "/track/search", "q=" + name);
    assert SearchUrlAsWritten(name) == ApiEndpoint + "/track/search" + "?" + ("q=" + name);
    var path := PathOf(SearchUrlAsWritten(name));
    assert SearchService.Route(path).NoRoute?;
    SearchTrack(if transport.Fail? then Err(transport.error)
                else Ok(SearchService.Serve(path, name, search)))
  }

  /** As written, no search ever succeeds: the doubled-slash path matches no
      route, the service answers 404, and every name reads as not found. */
  lemma AsWrittenNeverFinds(name: string, search: string -> seq<SearchService.Hit>)
    ensures FindTrackAsWritten(name, Pass, search) == Err(TrackNotFound)
  {
    PathOfUrl(ApiEndpoint, "/track/search", "q=" + name);
    assert SearchUrlAsWritten(name) == ApiEndpoint + "/track/search" + "?" + ("q=" + name);
    assert PathOf(SearchUrlAsWritten(name)) == "//track/search";
  }

  /** A concrete case: a song the service would find is still reported missing. */
  lemma AsWrittenMissesAKnownSong()
    ensures var search := (q: string) => [SearchService.Hit(Some("dQw4w9WgXcQ"))];
            && SearchService.SearchTrack("Rick Astley - Never Gonna Give You Up", search).status == 200
            && FindTrackAsWritten("Rick Astley - Never Gonna Give You Up", Pass, search) == Err(TrackNotFound)
  {
    AsWrittenNeverFinds("Rick Astley - Never Gonna Give You Up", (q: string) => [SearchService.Hit(Some("dQw4w9WgXcQ"))]);
  }

  /** `FindTrack` with the corrected URL: the service's answer to the search
      route, read by `SearchTrack`. */
  function FindTrack(name: string, transport: Outcome, search: string -> seq<SearchService.Hit>)
    : (r: Result<TrackID>)
    ensures transport.Fail? ==> r == Err(transport.error)
    ensures transport.Pass? && name == "" ==> r == Err(Detail("query cannot be empty"))
    ensures transport.Pass? && name != "" && (|search(name)| == 0 || search(name)[0].videoId.None?) ==>
              r == Err(TrackNotFound)
    ensures transport.Pass? && name != "" && |search(name)| > 0 && search(name)[0].videoId.Some? ==>
              r == Ok(search(name)[0].videoId.value)
  {
    PathOfUrl(Origin, "/track/search", "q=" + name);
    assert SearchUrl(name) == Origin + "/track/search" + "?" + ("q=" + name);
    var path := PathOf(SearchUrl(name));
    assert path == "/track/search";
    SearchTrack(if transport.Fail? then Err(transport.error)
                else Ok(SearchService.Serve(path, name, search)))
  }

  /** The text before `c` is all of a text that holds no `c`. */
  lemma {:induction false} BeforeWithout(a: string, c: char)
    requires c !in a
    ensures Before(a, c) == a
    decreases |a|
  {
    if |a| > 0 {
      BeforeWithout(a[1..], c);
      assert a == [a[0]] + a[1..];
    }
  }

  /** The request path of a URL with no query string. */
  lemma PathOfPlainUrl(base: string, path: string)
    requires base == Origin || base == ApiEndpoint
    requires '?' !in path
    ensures var url := base + path;
            |url| >= |Origin| && url[..|Origin|] == Origin
            && PathOf(url) == base[|Origin|..] + path
  {
    var url := base + path;
    assert url[..|Origin|] == Origin;
    assert url[|Origin|..] == base[|Origin|..] + path;
    BeforeWithout(base[|Origin|..] + path, '?');
  }

  /** A path on the endpoint constant as written gains a leading slash, so
      the router refuses it; on the origin it arrives as written. */
  lemma PathsOnEndpoint(path: string)
    requires '?' !in path && |path| > 0 && path[0] == '/'
    ensures SearchService.Route(PathOf(ApiEndpoint + path)).NoRoute?
    ensures PathOf(Origin + path) == path
  {
    PathOfPlainUrl(ApiEndpoint, path);
    PathOfPlainUrl(Origin, path);
    assert PathOf(ApiEndpoint + path) == "/" + path;
  }

  /** The other four requests: listing a channel's playlists, reading a
      playlist, creating a playlist and adding an item. Built on the endpoint
      constant as written, each request path is refused by the router; built
      on the origin, each reaches its route. */
  lemma OtherPathsAsWritten(channelId: string, playlistId: string)
    requires channelId != "" && SearchService.NoSlash(channelId) && '?' !in channelId
    requires playlistId != "" && SearchService.NoSlash(playlistId) && '?' !in playlistId
    ensures SearchService.Route(PathOf(ApiEndpoint + ("/playlists/" + channelId))).NoRoute?
    ensures SearchService.Route(PathOf(ApiEndpoint + ("/playlist/" + playlistId))).NoRoute?
    ensures SearchService.Route(PathOf(ApiEndpoint + "/playlist")).NoRoute?
    ensures SearchService.Route(PathOf(ApiEndpoint + "/track")).NoRoute?
    ensures SearchService.Route(PathOf(Origin + ("/playlists/" + channelId))) == SearchService.UserPlaylists(channelId)
    ensures SearchService.Route(PathOf(Origin + ("/playlist/" + playlistId))) == SearchService.PlaylistById(playlistId)
    ensures SearchService.Route(PathOf(Origin + "/playlist")) == SearchService.InsertPlaylist
    ensures SearchService.Route(PathOf(Origin + "/track")) == SearchService.InsertItem
  {
    PathsOnEndpoint("/playlists/" + channelId);
    PathsOnEndpoint("/playlist/" + playlistId);
    PathsOnEndpoint("/playlist");
    PathsOnEndpoint("/track");
    SearchService.RoutesReachable(channelId);
    SearchService.RoutesReachable(playlistId);
  }

  /** A listed playlist as the service returns it. */
  datatype PlaylistEntry = PlaylistEntry(title: string, playlistId: string)

  /** `GetPlaylists`: look up the user's channel through the Data API, then ask
      the service for that channel's playlists. The channel listing must not
      be empty: its first item is read unchecked. A body that does not decode
      is ignored and yields the entries decoded so far. */
  function GetPlaylists(client: Outcome, channels: Result<seq<string>>,
                        listed: string -> Result<seq<PlaylistEntry>>): (r: Result<seq<Playlist>>)
    requires client.Pass? && channels.Ok? ==> |channels.value| > 0
    ensures client.Fail? ==> r == Err(client.error)
    ensures client.Pass? && channels.Err? ==> r == Err(channels.error)
    ensures client.Pass? && channels.Ok? && listed(channels.value[0]).Err? ==>
              r == Err(listed(channels.value[0]).error)
    ensures client.Pass? && channels.Ok? && listed(channels.value[0]).Ok? ==>
              var entries := listed(channels.value[0]).value;
              && r.Ok? && |r.value| == |entries|
              && forall i :: 0 <= i < |entries| ==>
                   r.value[i] == Playlist(entries[i].playlistId, entries[i].title, 0, "")
  {
    if client.Fail? then Err(client.error)
    else
      var ids :- channels;
      var entries :- listed(ids[0]);
      Ok(seq(|entries|, i requires 0 <= i < |entries| => Playlist(entries[i].playlistId, entries[i].title, 0, "")))
  }

  /** `FindPlaylistByName`: the first listed playlist with exactly that name. */
  function FindPlaylistByName(listing: Result<seq<Playlist>>, name: string): (r: Result<PlaylistID>)
    ensures listing.Err? ==> r == Err(listing.error)
    ensures listing.Ok? ==> r.Ok?
    ensures r.Ok? && (forall i :: 0 <= i < |listing.value| ==> listing.value[i].name != name) ==> r.value == ""
    ensures r.Ok? && (exists i :: 0 <= i < |listing.value| && listing.value[i].name == name) ==>
              exists i :: 0 <= i < |listing.value|
                && listing.value[i].name == name
                && r.value == listing.value[i].id
                && forall j :: 0 <= j < i ==> listing.value[j].name != name
  {
    var playlists :- listing;
    match FirstIndex(playlists, (p: Playlist) => p.name == name)
    case None => Ok("")
    case Some(i) => Ok(playlists[i].id)
  }

  /** A playlist track as the service returns it, with its artists' names. */
  datatype DocTrack = DocTrack(videoId: string, title: string, artists: seq<string>)

  /** A playlist as the service returns it. */
  datatype PlaylistDoc = PlaylistDoc(title: string, id: string, trackCount: nat, authorName: string,
                                     tracks: seq<DocTrack>)

  /** `GetFullPlaylist`: ask the service for the playlist with the given id
      and return its id, title and author, and every track with its id, title
      and artists in order. The track count is not copied. `fetch` is the
      service's decoded answer for each requested id. */
  function GetFullPlaylist(id: PlaylistID, fetch: PlaylistID -> Result<PlaylistDoc>): (r: Result<FullPlaylist>)
    ensures fetch(id).Err? ==> r == Err(fetch(id).error)
    ensures fetch(id).Ok? ==>
              var doc := fetch(id).value;
              && r.Ok?
              && r.value.playlist == Playlist(doc.id, doc.title, 0, doc.authorName)
              && |r.value.tracks| == |doc.tracks|
              && forall i :: 0 <= i < |doc.tracks| ==>
                   r.value.tracks[i] == Track(doc.tracks[i].videoId, doc.tracks[i].title, doc.tracks[i].artists)
  {
    var doc :- fetch(id);
    Ok(FullPlaylist(Playlist(doc.id, doc.title, 0, doc.authorName),
                    seq(|doc.tracks|, i requires 0 <= i < |doc.tracks| =>
                      Track(doc.tracks[i].videoId, doc.tracks[i].title, doc.tracks[i].artists))))
  }

  /** Reading a playlist back gives every track's search string from the
      service's own title and artists. */
  lemma FullPlaylistSearchStrings(id: PlaylistID, fetch: PlaylistID -> Result<PlaylistDoc>, i: nat)
    requires fetch(id).Ok? && i < |fetch(id).value.tracks|
    ensures var doc := fetch(id).value;
            var t := GetFullPlaylist(id, fetch).value.tracks[i];
            t.FullName() == Join(doc.tracks[i].artists, ", ") + " - " + doc.tracks[i].title
            && IdsOf(GetFullPlaylist(id, fetch).value.tracks)[i] == doc.tracks[i].videoId
  {
  }

  /** `createAuthPayload`: the session token's fields as the service expects
      them; the token must be present, as it is dereferenced unchecked. */
  function CreateAuthPayload(token: Result<Option<Token>>): (r: Result<SearchService.AuthPayload>)
    requires token.Ok? ==> token.value.Some?
    ensures token.Err? ==> r == Err(token.error)
    ensures token.Ok? ==>
              var t := token.value.value;
              && r.Ok?
              && r.value.accessToken == t.accessToken
              && r.value.refreshToken == t.refreshToken
              && r.value.tokenType == t.tokenType
              && r.value.expiresAt == t.expiry
  {
    var t :- token;
    Ok(SearchService.AuthPayload(t.value.accessToken, t.value.refreshToken, t.value.tokenType, t.value.expiry))
  }

  /** The service keeps one client per access token, so two payloads built
      from tokens with the same access token share the service's client. */
  lemma PayloadsShareServiceClient(app: SearchService.App, a: Token, b: Token)
    requires a.accessToken == b.accessToken
    ensures var pa := CreateAuthPayload(Ok(Some(a))).value;
            var pb := CreateAuthPayload(Ok(Some(b))).value;
            var (c, app1) := SearchService.GetAuthClient(app, pa);
            SearchService.GetAuthClient(app1, pb).0 == c
  {
  }

  /** The body of a create-playlist request. */
  datatype CreatePlaylistPayload = CreatePlaylistPayload(title: string, auth: SearchService.AuthPayload)

  /** The body of an add-item request. */
  datatype CreateItemPayload = CreateItemPayload(playlistId: string, trackId: string, auth: SearchService.AuthPayload)

  /** `CreatePlaylist`: post the title with the credentials and return the id
      in the decoded answer (empty when the answer lacks one). */
  function CreatePlaylist(auth: Result<SearchService.AuthPayload>, name: string,
                          post: CreatePlaylistPayload -> Result<map<string, string>>): (r: Result<PlaylistID>)
    ensures auth.Err? ==> r == Err(auth.error)
    ensures auth.Ok? && post(CreatePlaylistPayload(name, auth.value)).Err? ==>
              r == Err(post(CreatePlaylistPayload(name, auth.value)).error)
    ensures auth.Ok? && post(CreatePlaylistPayload(name, auth.value)).Ok? ==>
              r == Ok(Field(post(CreatePlaylistPayload(name, auth.value)).value, "id"))
  {
    var a :- auth;
    var body :- post(CreatePlaylistPayload(name, a));
    Ok(Field(body, "id"))
  }

  /** `AddToPlaylist`: post one video id with the credentials; any decoded
      answer is success, whatever status it reports. */
  function AddToPlaylist(auth: Result<SearchService.AuthPayload>, playlistId: string, trackId: TrackID,
                         post: CreateItemPayload -> Result<map<string, string>>): (r: Outcome)
    ensures auth.Err? ==> r == Fail(auth.error)
    ensures auth.Ok? ==> (r.Pass? <==> post(CreateItemPayload(playlistId, trackId, auth.value)).Ok?)
    ensures auth.Ok? && r.Fail? ==> r.error == post(CreateItemPayload(playlistId, trackId, auth.value)).error
  {
    if auth.Err? then Fail(auth.error)
    else match post(CreateItemPayload(playlistId, trackId, auth.value))
      case Err(e) => Fail(e)
      case Ok(_) => Pass
  }
}
