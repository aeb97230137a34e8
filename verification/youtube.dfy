/**
 The YouTube Data API adapter. Every operation first builds an API client
 from the session token; `client` is the outcome of that step. Vendor calls
 are inputs: a search is a function of the query it sends, a listing is the
 sequence of page responses, an insert is a function of the item it sends.
 */
module YouTube {
  import opened Base
  import opened Provider
  import opened Paging

  const Name := "YouTube"
  const VideoKind := "youtube#video"
  const ImportedDescription := "Playlist imported by Waltz"
  const PublicStatus := "public"

  /** A playlist as the Data API lists it: its id and snippet title. */
  datatype YtPlaylist = YtPlaylist(id: string, title: string)

  /** The search request: parts, result type, result count and query. */
  datatype SearchQuery = SearchQuery(part: string, kind: string, maxResults: nat, q: string)

  /** A search hit: the video id it names. */
  datatype SearchResult = SearchResult(videoId: string)

  /** The playlist a create call sends. */
  datatype PlaylistInsert = PlaylistInsert(title: string, description: string, privacyStatus: string)

  /** The playlist item an insert call sends. */
  datatype ItemInsert = ItemInsert(playlistId: string, kind: string, videoId: string)

  type Search = SearchQuery -> Result<seq<SearchResult>>

  /** The search `FindTrack` sends for a name: one video, ids only. */
  function QueryFor(name: string): (q: SearchQuery)
    ensures q.q == name && q.kind == "video" && q.maxResults == 1 && q.part == "id"
  {
    SearchQuery("id", "video", 1, name)
  }

  /** `FindTrack`: the first hit's video id, or "" without error when the
      search finds nothing. */
  function FindTrack(client: Outcome, name: string, search: Search): (r: Result<TrackID>)
    ensures client.Fail? ==> r == Err(client.error)
    ensures client.Pass? && search(QueryFor(name)).Err? ==> r == Err(search(QueryFor(name)).error)
    ensures client.Pass? && search(QueryFor(name)).Ok? ==>
              var hits := search(QueryFor(name)).value;
              && (|hits| == 0 ==> r == Ok(""))
              && (|hits| > 0 ==> r == Ok(hits[0].videoId))
  {
    if client.Fail? then Err(client.error)
    else
      var hits :- search(QueryFor(name));
      if |hits| == 0 then Ok("") else Ok(hits[0].videoId)
  }

  /** `FindPlaylistByName`: the id of the first listed playlist whose title is
      exactly `name`, or "" without error when none is. */
  function FindPlaylistByName(client: Outcome, listed: Result<seq<YtPlaylist>>, name: string)
    : (r: Result<PlaylistID>)
    ensures client.Fail? ==> r == Err(client.error)
    ensures client.Pass? && listed.Err? ==> r == Err(listed.error)
    ensures client.Pass? && listed.Ok? ==> r.Ok?
    ensures r.Ok? && (forall i :: 0 <= i < |listed.value| ==> listed.value[i].title != name) ==>
              r.value == ""
    ensures r.Ok? && (exists i :: 0 <= i < |listed.value| && listed.value[i].title == name) ==>
              exists i :: 0 <= i < |listed.value|
                && listed.value[i].title == name
                && r.value == listed.value[i].id
                && forall j :: 0 <= j < i ==> listed.value[j].title != name
  {
    if client.Fail? then Err(client.error)
    else
      var playlists :- listed;
      match FirstIndex(playlists, (p: YtPlaylist) => p.title == name)
      case None => Ok("")
      case Some(i) => Ok(playlists[i].id)
  }

  /** `GetPlaylists`: one playlist per listed item, in order, carrying only its title. */
  function GetPlaylists(client: Outcome, listed: Result<seq<YtPlaylist>>): (r: Result<seq<Playlist>>)
    ensures client.Fail? ==> r == Err(client.error)
    ensures client.Pass? && listed.Err? ==> r == Err(listed.error)
    ensures client.Pass? && listed.Ok? ==>
              && r.Ok? && |r.value| == |listed.value|
              && forall i :: 0 <= i < |r.value| ==> r.value[i] == Playlist("", listed.value[i].title, 0, "")
  {
    if client.Fail? then Err(client.error)
    else
      var items :- listed;
      Ok(seq(|items|, i requires 0 <= i < |items| => Playlist("", items[i].title, 0, "")))
  }

  /** A playlist item's video as a track: only its id is known. */
  function VideoTrack(videoId: string): Track {
    Track(videoId, "", [])
  }

  /** `GetFullPlaylist`: follow the item pages from the empty token until the
      returned token is empty; the result keeps every video of every page in
      order and carries only the requested id. */
  function GetFullPlaylist(client: Outcome, id: string, pages: seq<Result<Page<string>>>)
    : (r: Result<FullPlaylist>)
    requires client.Pass? ==> Ends(pages, false)
    ensures client.Fail? ==> r == Err(client.error)
    ensures client.Pass? ==>
              var n := Consumed(pages, false);
              && (pages[n - 1].Err? ==> r == Err(ItemsRetrieval(pages[n - 1].error)))
              && (pages[n - 1].Ok? ==>
                    && r.Ok?
                    && r.value.playlist == Playlist(id, "", 0, "")
                    && IdsOf(r.value.tracks) == Concat(pages[..n])
                    && forall k :: 0 <= k < |r.value.tracks| ==> r.value.tracks[k] == VideoTrack(r.value.tracks[k].id))
  {
    if client.Fail? then Err(client.error)
    else
      var w := FollowTokens("", pages);
      match w.result
      case Err(e) => Err(ItemsRetrieval(e))
      case Ok(videos) =>
        var tracks := seq(|videos|, k requires 0 <= k < |videos| => VideoTrack(videos[k]));
        assert IdsOf(tracks) == videos;
        Ok(FullPlaylist(Playlist(id, "", 0, ""), tracks))
  }

  /** The page tokens the item listing sends: first the empty token, then each
      page's `NextPageToken`. */
  lemma ItemPagesFollowTokens(pages: seq<Result<Page<string>>>)
    requires Ends(pages, false)
    ensures var req := FollowTokens("", pages).requested;
            && |req| == Consumed(pages, false)
            && req[0] == ""
            && forall j :: 0 < j < |req| ==> pages[j - 1].Ok? && req[j] == pages[j - 1].value.next
  {
  }

  /** The playlist a create call sends for `name`. */
  function CreateRequest(name: string): (p: PlaylistInsert)
    ensures p.title == name
    ensures p.description == "Playlist imported by Waltz"
    ensures p.privacyStatus == "public"
  {
    PlaylistInsert(name, ImportedDescription, PublicStatus)
  }

  /** `CreatePlaylist`: insert a public playlist titled `name` with the import
      description and return the id the API assigns. */
  function CreatePlaylist(client: Outcome, name: string, insert: PlaylistInsert -> Result<string>)
    : (r: Result<PlaylistID>)
    ensures client.Fail? ==> r == Err(client.error)
    ensures client.Pass? ==> r == insert(PlaylistInsert(name, "Playlist imported by Waltz", "public"))
  {
    if client.Fail? then Err(client.error)
    else
      var id :- insert(CreateRequest(name));
      Ok(id)
  }

  /** What happened to one source track during an import. */
  datatype Step =
    | NotFound(query: string)
    | Duplicate(query: string, videoId: TrackID)
    | Inserted(query: string, item: ItemInsert)
    | SearchFailed(query: string, error: Error)
    | InsertFailed(query: string, item: ItemInsert, error: Error)
  {
    /** The steps that end the import. */
    predicate Aborts() { SearchFailed? || InsertFailed? }
  }

  /** An import's outcome and one step per source track it reached. */
  datatype Import = Import(outcome: Outcome, steps: seq<Step>)

  /** The loop body for one source track: search its full name, skip an empty
      hit, skip an id already in the snapshot, insert anything else. */
  function Classify(playlistId: string, t: Track, snapshot: seq<TrackID>, search: Search,
                    insert: ItemInsert -> Outcome): (s: Step)
    ensures s.query == t.FullName()
    ensures s.SearchFailed? <==> search(QueryFor(t.FullName())).Err?
    ensures s.NotFound? <==> FindTrack(Pass, t.FullName(), search) == Ok("")
    ensures (s.Duplicate? || s.Inserted? || s.InsertFailed?) <==>
              exists id :: FindTrack(Pass, t.FullName(), search) == Ok(id) && id != ""
                && (s.Duplicate? <==> id in snapshot)
    ensures s.Duplicate? ==> s.videoId in snapshot && FindTrack(Pass, t.FullName(), search) == Ok(s.videoId)
    ensures s.Inserted? || s.InsertFailed? ==>
              && s.item == ItemInsert(playlistId, VideoKind, s.item.videoId)
              && FindTrack(Pass, t.FullName(), search) == Ok(s.item.videoId)
              && s.item.videoId != ""
              && s.item.videoId !in snapshot
              && (s.Inserted? <==> insert(s.item).Pass?)
  {
    var q := t.FullName();
    match FindTrack(Pass, q, search)
    case Err(e) => SearchFailed(q, e)
    case Ok(id) =>
      if id == "" then NotFound(q)
      else if id in snapshot then Duplicate(q, id)
      else
        var item := ItemInsert(playlistId, VideoKind, id);
        match insert(item)
        case Pass => Inserted(q, item)
        case Fail(e) => InsertFailed(q, item, e)
  }

  /** The import loop over the source tracks, against a snapshot of the
      destination's ids taken before the loop and never updated inside it. */
  function ImportAll(playlistId: string, tracks: seq<Track>, snapshot: seq<TrackID>, search: Search,
                     insert: ItemInsert -> Outcome): (r: Import)
    ensures |r.steps| <= |tracks|
    ensures forall i :: 0 <= i < |r.steps| ==>
              r.steps[i] == Classify(playlistId, tracks[i], snapshot, search, insert)
    ensures forall i :: 0 <= i < |r.steps| - 1 ==> !r.steps[i].Aborts()
    ensures r.outcome.Pass? ==> |r.steps| == |tracks| && forall i :: 0 <= i < |r.steps| ==> !r.steps[i].Aborts()
    ensures r.outcome.Fail? ==>
              && |r.steps| > 0
              && r.steps[|r.steps| - 1].Aborts()
              && r.outcome.error == r.steps[|r.steps| - 1].error
    decreases |tracks|
  {
    if |tracks| == 0 then Import(Pass, [])
    else
      var s := Classify(playlistId, tracks[0], snapshot, search, insert);
      if s.Aborts() then Import(Fail(s.error), [s])
      else
        var rest := ImportAll(playlistId, tracks[1..], snapshot, search, insert);
        Import(rest.outcome, [s] + rest.steps)
  }

  /** `AddToPlaylist`: with no client, succeed and do nothing; otherwise fetch
      the destination playlist once and run the import loop against its ids. */
  function AddToPlaylist(client: Outcome, playlistId: string, tracks: seq<Track>,
                         current: seq<Result<Page<string>>>, search: Search,
                         insert: ItemInsert -> Outcome): (r: Import)
    requires client.Pass? ==> Ends(current, false)
    ensures client.Fail? ==> r == Import(Pass, [])
    ensures client.Pass? ==>
              var n := Consumed(current, false);
              && (current[n - 1].Err? ==> r == Import(Fail(ItemsRetrieval(current[n - 1].error)), []))
              && (current[n - 1].Ok? ==>
                    r == ImportAll(playlistId, tracks, Concat(current[..n]), search, insert))
  {
    if client.Fail? then Import(Pass, [])
    else
      match GetFullPlaylist(client, playlistId, current)
      case Err(e) => Import(Fail(e), [])
      case Ok(playlist) => ImportAll(playlistId, tracks, IdsOf(playlist.tracks), search, insert)
  }

  /** Nothing already in the destination before the import is inserted again,
      and every insert targets the destination playlist. */
  lemma NoSnapshotReinsert(playlistId: string, tracks: seq<Track>, snapshot: seq<TrackID>,
                           search: Search, insert: ItemInsert -> Outcome, i: nat)
    requires i < |ImportAll(playlistId, tracks, snapshot, search, insert).steps|
    ensures var s := ImportAll(playlistId, tracks, snapshot, search, insert).steps[i];
            s.Inserted? ==> s.item.videoId !in snapshot && s.item.playlistId == playlistId
  {
  }

  /** A source track whose search comes back empty is skipped without error
      and without an insert; the import goes on to the next track. */
  lemma EmptyHitSkipped(playlistId: string, tracks: seq<Track>, snapshot: seq<TrackID>,
                        search: Search, insert: ItemInsert -> Outcome, i: nat)
    requires i < |ImportAll(playlistId, tracks, snapshot, search, insert).steps|
    requires FindTrack(Pass, tracks[i].FullName(), search) == Ok("")
    ensures var r := ImportAll(playlistId, tracks, snapshot, search, insert);
            r.steps[i] == NotFound(tracks[i].FullName())
            && (i + 1 < |tracks| ==> i + 1 < |r.steps|)
  {
  }

  /** A failing search or insert ends the import at that track: no later
      source track is searched or inserted. */
  lemma {:induction false} FailureStopsImport(playlistId: string, tracks: seq<Track>, snapshot: seq<TrackID>,
                                              search: Search, insert: ItemInsert -> Outcome, i: nat)
    requires i < |tracks|
    requires Classify(playlistId, tracks[i], snapshot, search, insert).Aborts()
    requires forall j :: 0 <= j < i ==> !Classify(playlistId, tracks[j], snapshot, search, insert).Aborts()
    ensures var r := ImportAll(playlistId, tracks, snapshot, search, insert);
            && |r.steps| == i + 1
            && r.outcome == Fail(Classify(playlistId, tracks[i], snapshot, search, insert).error)
    decreases i
  {
    if i > 0 {
      FailureStopsImport(playlistId, tracks[1..], snapshot, search, insert, i - 1);
    }
  }

  /** The snapshot is not refreshed after an insert: two source tracks whose
      searches resolve to the same new video are both inserted. */
  lemma SameNewVideoInsertedTwice(playlistId: string, t1: Track, t2: Track, snapshot: seq<TrackID>,
                                  search: Search, insert: ItemInsert -> Outcome, v: TrackID)
    requires FindTrack(Pass, t1.FullName(), search) == Ok(v)
    requires FindTrack(Pass, t2.FullName(), search) == Ok(v)
    requires v != "" && v !in snapshot
    requires insert(ItemInsert(playlistId, VideoKind, v)).Pass?
    ensures var r := ImportAll(playlistId, [t1, t2], snapshot, search, insert);
            var item := ItemInsert(playlistId, VideoKind, v);
            r == Import(Pass, [Inserted(t1.FullName(), item), Inserted(t2.FullName(), item)])
  {
    var r := ImportAll(playlistId, [t1, t2], snapshot, search, insert);
    assert [t1, t2][1..] == [t2];
    assert [t2][1..] == [];
  }
}
