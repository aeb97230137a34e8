/**
 The second Data API adapter. Its search, playlist lookup, listing, creation
 and item listing are written out again in the same way as the first
 adapter's; its import takes one video id instead of a list of tracks and
 inserts it with no search and no duplicate check.
 */
module YouTubeV3 {
  import opened Base
  import opened Provider
  import opened Paging
  import YouTube

  const Name := "YouTubeV3"

  /** `FindTrack`: the first hit of a one-video search, "" when there is none. */
  function FindTrack(client: Outcome, name: string, search: YouTube.Search): (r: Result<TrackID>)
    ensures r == YouTube.FindTrack(client, name, search)
  {
    if client.Fail? then Err(client.error)
    else match search(YouTube.SearchQuery("id", "video", 1, name))
      case Err(e) => Err(e)
      case Ok(hits) => if |hits| == 0 then Ok("") else Ok(hits[0].videoId)
  }

  /** `FindPlaylistByName`: a left-to-right scan over the listed playlists. */
  function FindPlaylistByName(client: Outcome, listed: Result<seq<YouTube.YtPlaylist>>, name: string)
    : (r: Result<PlaylistID>)
    ensures r == YouTube.FindPlaylistByName(client, listed, name)
  {
    if client.Fail? then Err(client.error)
    else if listed.Err? then Err(listed.error)
    else Scan(listed.value, name)
  }

  /** The scan itself: the id of the first playlist titled `name`, else "". */
  function Scan(playlists: seq<YouTube.YtPlaylist>, name: string): (r: Result<PlaylistID>)
    ensures r.Ok?
    ensures (forall i :: 0 <= i < |playlists| ==> playlists[i].title != name) ==> r.value == ""
    ensures forall i :: 0 <= i < |playlists| && playlists[i].title == name
                        && (forall j :: 0 <= j < i ==> playlists[j].title != name) ==>
              r.value == playlists[i].id
    decreases |playlists|
  {
    if |playlists| == 0 then Ok("")
    else if playlists[0].title == name then Ok(playlists[0].id)
    else
      var r := Scan(playlists[1..], name);
      assert forall i :: 1 <= i < |playlists| ==> playlists[1..][i - 1] == playlists[i];
      r
  }

  /** `GetPlaylists`: titles only, in listing order. */
  function GetPlaylists(client: Outcome, listed: Result<seq<YouTube.YtPlaylist>>): (r: Result<seq<Playlist>>)
    ensures r == YouTube.GetPlaylists(client, listed)
  {
    if client.Fail? then Err(client.error)
    else match listed
      case Err(e) => Err(e)
      case Ok(items) => Ok(seq(|items|, i requires 0 <= i < |items| => Playlist("", items[i].title, 0, "")))
  }

  /** `CreatePlaylist`: a public playlist with the import description. */
  function CreatePlaylist(client: Outcome, name: string, insert: YouTube.PlaylistInsert -> Result<string>)
    : (r: Result<PlaylistID>)
    ensures r == YouTube.CreatePlaylist(client, name, insert)
  {
    if client.Fail? then Err(client.error)
    else insert(YouTube.PlaylistInsert(name, "Playlist imported by Waltz", "public"))
  }

  /** `GetFullPlaylist`: the same token-following item listing. */
  function GetFullPlaylist(client: Outcome, id: string, pages: seq<Result<Page<string>>>)
    : (r: Result<FullPlaylist>)
    requires client.Pass? ==> Ends(pages, false)
    ensures r == YouTube.GetFullPlaylist(client, id, pages)
  {
    if client.Fail? then Err(client.error)
    else match FollowTokens("", pages).result
      case Err(e) => Err(ItemsRetrieval(e))
      case Ok(videos) =>
        Ok(FullPlaylist(Playlist(id, "", 0, ""),
                        seq(|videos|, k requires 0 <= k < |videos| => YouTube.VideoTrack(videos[k]))))
  }

  /** What one `AddToPlaylist` did: its outcome and the item it sent, if any. */
  datatype Insertion = Insertion(outcome: Outcome, sent: Option<YouTube.ItemInsert>)

  /** `AddToPlaylist`: insert the one given video into the playlist. Without a
      client it reports success and sends nothing. */
  function AddToPlaylist(client: Outcome, playlistId: string, trackId: TrackID,
                         insert: YouTube.ItemInsert -> Outcome): (r: Insertion)
    ensures client.Fail? <==> r.sent.None?
    ensures client.Fail? ==> r.outcome.Pass?
    ensures r.sent.Some? ==>
              && r.sent.value == YouTube.ItemInsert(playlistId, "youtube#video", trackId)
              && r.outcome == insert(r.sent.value)
  {
    if client.Fail? then Insertion(Pass, None)
    else
      var item := YouTube.ItemInsert(playlistId, YouTube.VideoKind, trackId);
      Insertion(insert(item), Some(item))
  }
}
