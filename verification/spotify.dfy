/**
 The Spotify adapter: it lists the user's playlists page by page and reads a
 playlist's tracks; its other catalog operations are not implemented. Its
 client is built from a freshly refreshed token.
 */
module Spotify {
  import opened Base
  import opened Provider
  import opened Paging
  import Session
  import TokenProvider

  const PageLimit := 50

  /** A playlist as the Web API lists it. */
  datatype SimplePlaylist = SimplePlaylist(id: string, name: string, total: nat, ownerDisplayName: string)

  /** The options of one listing request: the page size, and the offset when
      it is sent. */
  datatype PageRequest = PageRequest(limit: nat, offset: Option<nat>)

  /** `getPaginatedPlaylists`: ask for fifty playlists, sending the offset
      option only when the offset is not 0. */
  function PaginatedRequest(offset: nat): (q: PageRequest)
    ensures q.limit == 50
    ensures q.offset.None? <==> offset == 0
    ensures q.offset.Some? ==> q.offset.value == offset
  {
    if offset == 0 then PageRequest(PageLimit, None) else PageRequest(PageLimit, Some(offset))
  }

  /** A listed playlist, field for field. */
  function ToPlaylist(p: SimplePlaylist): (r: Playlist)
    ensures r.id == p.id && r.name == p.name && r.tracks == p.total && r.creator == p.ownerDisplayName
  {
    Playlist(p.id, p.name, p.total, p.ownerDisplayName)
  }

  /** What a `GetPlaylists` call did: its result and its listing requests. */
  datatype Listing = Listing(result: Result<seq<Playlist>>, requests: seq<PageRequest>)

  /** `getSpotifyClient`: no client and no error when no token is stored;
      otherwise a client authorised with a refreshed token. */
  function GetClient(tp: TokenProvider.CookieStoreTokenProvider, s: Session.Store, registry: Session.Registry)
    : (e: Session.Effect<Result<Option<Client>>>)
    requires Session.Readable(s, tp.provider)
    ensures TokenProvider.GetToken(tp, s).Err? ==> e == Session.Effect(Err(TokenProvider.GetToken(tp, s).error), s)
    ensures TokenProvider.GetToken(tp, s) == Ok(None) ==> e == Session.Effect(Ok(None), s)
    ensures TokenProvider.GetToken(tp, s).Ok? && TokenProvider.GetToken(tp, s).value.Some? ==>
              var refreshed := Session.RefreshToken(s, tp.provider, registry);
              && e.after == refreshed.after
              && (refreshed.result.Err? ==> e.result == Err(refreshed.result.error))
              && (refreshed.result.Ok? ==> e.result == Ok(Some(Client(refreshed.result.value))))
  {
    match TokenProvider.GetToken(tp, s)
    case Err(err) => Session.Effect(Err(err), s)
    case Ok(None) => Session.Effect(Ok(None), s)
    case Ok(Some(_)) =>
      var refreshed := TokenProvider.RefreshToken(tp, s, registry);
      match refreshed.result
      case Err(err) => Session.Effect(Err(err), refreshed.after)
      case Ok(t) => Session.Effect(Ok(Some(Client(t))), refreshed.after)
  }

  /** A client built here always carries the token the session now holds. */
  lemma ClientCarriesStoredToken(tp: TokenProvider.CookieStoreTokenProvider, s: Session.Store,
                                 registry: Session.Registry)
    requires Session.Readable(s, tp.provider)
    requires GetClient(tp, s, registry).result.Ok? && GetClient(tp, s, registry).result.value.Some?
    ensures var e := GetClient(tp, s, registry);
            Session.Readable(e.after, tp.provider)
            && Session.GetSessionTokens(e.after, tp.provider) == Ok(Some(e.result.value.value.token))
  {
    Session.RefreshThenGet(s, tp.provider, registry);
  }

  /** A stored nil token yields no client and no error, and the identity
      provider is never asked, whether or not it is registered. */
  lemma NilTokenNoClient(tp: TokenProvider.CookieStoreTokenProvider, s: Session.Store,
                         registry: Session.Registry)
    requires tp.provider == "spotify" && s.open.Pass?
    requires Session.SpotifyTokenKey in s.values && s.values[Session.SpotifyTokenKey].None?
    ensures GetClient(tp, s, registry) == Session.Effect(Ok(None), s)
  {
  }

  /** `GetPlaylists`: list from offset 0, append each page's playlists, stop on
      a page with no next link or no playlists, and otherwise advance the
      offset by the page's length. A missing client would be dereferenced, so
      a client must exist when building it succeeded. */
  function GetPlaylists(client: Result<Option<Client>>, pages: seq<Result<Page<SimplePlaylist>>>): (l: Listing)
    requires client.Ok? ==> client.value.Some? && Ends(pages, true)
    ensures client.Err? ==> l == Listing(Err(client.error), [])
    ensures client.Ok? ==>
              var n := Consumed(pages, true);
              && |l.requests| == n
              && (forall j :: 0 <= j < n ==> l.requests[j] == PaginatedRequest(|Concat(pages[..j])|))
              && (pages[n - 1].Err? ==> l.result == Err(pages[n - 1].error))
              && (pages[n - 1].Ok? ==>
                    var all := Concat(pages[..n]);
                    && l.result.Ok? && |l.result.value| == |all|
                    && forall i :: 0 <= i < |all| ==> l.result.value[i] == ToPlaylist(all[i]))
  {
    if client.Err? then Listing(Err(client.error), [])
    else
      var w := FollowOffsets(0, pages);
      var requests := seq(|w.requested|, j requires 0 <= j < |w.requested| => PaginatedRequest(w.requested[j]));
      match w.result
      case Err(e) => Listing(Err(e), requests)
      case Ok(all) => Listing(Ok(seq(|all|, i requires 0 <= i < |all| => ToPlaylist(all[i]))), requests)
  }

  /** Only the first listing request omits the offset: every later request
      sends the number of playlists already received, which is positive. */
  lemma OnlyFirstRequestOmitsOffset(client: Result<Option<Client>>, pages: seq<Result<Page<SimplePlaylist>>>)
    requires client.Ok? && client.value.Some? && Ends(pages, true)
    ensures var rs := GetPlaylists(client, pages).requests;
            && rs[0] == PageRequest(50, None)
            && forall j :: 0 < j < |rs| ==> rs[j].offset.Some? && rs[j].offset.value > 0
  {
    var rs := GetPlaylists(client, pages).requests;
    assert pages[..0] == [];
    forall j | 0 < j < |rs|
      ensures rs[j].offset.Some? && rs[j].offset.value > 0
    {
      LaterOffsetsAdvance(pages, j);
    }
  }

  /** A track of a playlist's first track page: its name and artists' names. */
  datatype PlaylistItem = PlaylistItem(name: string, artists: seq<string>)

  /** A playlist as the Web API returns it: its first page of tracks and the
      playlist's track total. */
  datatype FullSimplePlaylist = FullSimplePlaylist(tracks: seq<PlaylistItem>, total: nat)

  /** `GetFullPlaylist`: ask the Web API for the playlist with the given id and
      return the tracks of its first track page, in order, with their artists
      in order and no track id; the playlist's own fields are left empty.
      `fetch` is the Web API's answer for each requested id. */
  function GetFullPlaylist(client: Result<Option<Client>>, id: PlaylistID,
                           fetch: PlaylistID -> Result<FullSimplePlaylist>): (r: Result<FullPlaylist>)
    requires client.Ok? ==> client.value.Some?
    ensures client.Err? ==> r == Err(client.error)
    ensures client.Ok? && fetch(id).Err? ==> r == Err(fetch(id).error)
    ensures client.Ok? && fetch(id).Ok? ==>
              var items := fetch(id).value.tracks;
              && r.Ok?
              && r.value.playlist == Playlist("", "", 0, "")
              && |r.value.tracks| == |items|
              && forall i :: 0 <= i < |items| ==> r.value.tracks[i] == Track("", items[i].name, items[i].artists)
  {
    if client.Err? then Err(client.error)
    else
      var p :- fetch(id);
      Ok(FullPlaylist(Playlist("", "", 0, ""),
                      seq(|p.tracks|, i requires 0 <= i < |p.tracks| => Track("", p.tracks[i].name, p.tracks[i].artists))))
  }

  /** Only the first track page is read: a playlist with more tracks than its
      first page holds comes back short. */
  lemma FirstTrackPageOnly(client: Result<Option<Client>>, id: PlaylistID,
                           fetch: PlaylistID -> Result<FullSimplePlaylist>)
    requires client.Ok? && client.value.Some? && fetch(id).Ok?
    requires fetch(id).value.total > |fetch(id).value.tracks|
    ensures |GetFullPlaylist(client, id, fetch).value.tracks| < fetch(id).value.total
  {
  }

  /** The search strings of the returned tracks are built from the catalog's
      own names and artists. */
  lemma FullPlaylistSearchStrings(client: Result<Option<Client>>, id: PlaylistID,
                                  fetch: PlaylistID -> Result<FullSimplePlaylist>, i: nat)
    requires client.Ok? && client.value.Some? && fetch(id).Ok? && i < |fetch(id).value.tracks|
    ensures var item := fetch(id).value.tracks[i];
            GetFullPlaylist(client, id, fetch).value.tracks[i].FullName() == Join(item.artists, ", ") + " - " + item.name
  {
  }

  /** `CreatePlaylist`, `FindTrack`, `FindPlaylistByName`: not implemented. */
  function CreatePlaylist(name: string): (r: Result<PlaylistID>)
    ensures r.Err? && Message(r.error) == "not implemented"
  {
    Err(NotImplemented)
  }

  function FindTrack(name: string): (r: Result<TrackID>)
    ensures r.Err? && Message(r.error) == "not implemented"
  {
    Err(NotImplemented)
  }

  function FindPlaylistByName(name: string): (r: Result<PlaylistID>)
    ensures r.Err? && Message(r.error) == "not implemented"
  {
    Err(NotImplemented)
  }

  /** `AddToPlaylist`: not implemented, whatever the tracks. */
  function AddToPlaylist(playlistId: string, tracks: seq<Track>): (r: Outcome)
    ensures r.Fail? && Message(r.error) == "not implemented"
  {
    Fail(NotImplemented)
  }
}
