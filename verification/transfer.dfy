/**
 The transfer of a playlist selection from an origin catalog to a
 destination catalog, as its tests fix it: the calls it makes on each
 catalog, in order, and the outcome. A catalog is its operations, each a
 function of its arguments. Progress messages are not modelled.
 */
module Transfer {
  import opened Base
  import opened Provider

  /** A catalog adapter, seen through the operations a transfer uses. */
  datatype Catalog = Catalog(
    name: string,
    findPlaylistByName: string -> Result<PlaylistID>,
    createPlaylist: string -> Result<PlaylistID>,
    getFullPlaylist: PlaylistID -> Result<FullPlaylist>,
    addToPlaylist: (PlaylistID, seq<Track>) -> Outcome)

  datatype Side = Origin | Destination

  /** One call on a catalog, with its arguments. */
  datatype Op =
    | Name
    | FindPlaylistByName(name: string)
    | CreatePlaylist(name: string)
    | GetFullPlaylist(id: PlaylistID)
    | AddToPlaylist(id: PlaylistID, tracks: seq<Track>)

  datatype Call = Call(side: Side, op: Op)

  /** The selection handed to a transfer: a nil list or a list of playlists. */
  datatype Selection = Null | List(playlists: seq<Playlist>)

  /** What a step of a transfer did: its result and its calls, in order. */
  datatype Run<T> = Run(result: Result<T>, calls: seq<Call>)

  /** The error a call returns, if any; asking for a name never fails. */
  function ErrorOf(c: Call, origin: Catalog, destination: Catalog): Option<Error> {
    var cat := if c.side == Origin then origin else destination;
    match c.op
    case Name => None
    case FindPlaylistByName(n) => if cat.findPlaylistByName(n).Err? then Some(cat.findPlaylistByName(n).error) else None
    case CreatePlaylist(n) => if cat.createPlaylist(n).Err? then Some(cat.createPlaylist(n).error) else None
    case GetFullPlaylist(id) => if cat.getFullPlaylist(id).Err? then Some(cat.getFullPlaylist(id).error) else None
    case AddToPlaylist(id, ts) => if cat.addToPlaylist(id, ts).Fail? then Some(cat.addToPlaylist(id, ts).error) else None
  }

  /** A run that failed stopped at the call that failed, and every call
      before it succeeded. */
  predicate StopsAtFailure<T>(r: Run<T>, origin: Catalog, destination: Catalog) {
    && (forall i :: 0 <= i < |r.calls| - 1 ==> ErrorOf(r.calls[i], origin, destination).None?)
    && (r.result.Err? <==> |r.calls| > 0 && ErrorOf(r.calls[|r.calls| - 1], origin, destination).Some?)
    && (r.result.Err? ==> ErrorOf(r.calls[|r.calls| - 1], origin, destination) == Some(r.result.error))
  }

  /** `getOrCreatePlaylist`: the destination playlist with the playlist's name,
      created when the lookup finds none. */
  function GetOrCreatePlaylist(destination: Catalog, p: Playlist): (r: Run<PlaylistID>)
    ensures |r.calls| >= 1 && r.calls[0] == Call(Destination, FindPlaylistByName(p.name))
    ensures destination.findPlaylistByName(p.name).Err? ==>
              r == Run(Err(destination.findPlaylistByName(p.name).error), [r.calls[0]])
    ensures destination.findPlaylistByName(p.name).Ok? && destination.findPlaylistByName(p.name).value != "" ==>
              r == Run(destination.findPlaylistByName(p.name), [r.calls[0]])
    ensures destination.findPlaylistByName(p.name) == Ok("") ==>
              r == Run(destination.createPlaylist(p.name), [r.calls[0], Call(Destination, CreatePlaylist(p.name))])
    ensures forall i :: 0 <= i < |r.calls| ==> r.calls[i].side == Destination
  {
    var find := Call(Destination, FindPlaylistByName(p.name));
    match destination.findPlaylistByName(p.name)
    case Err(e) => Run(Err(e), [find])
    case Ok(id) =>
      if id != "" then Run(Ok(id), [find])
      else Run(destination.createPlaylist(p.name), [find, Call(Destination, CreatePlaylist(p.name))])
  }

  /** Resolution is idempotent: once the destination has a playlist of that
      name, no playlist is created. */
  lemma ResolutionNeverCreatesWhenFound(destination: Catalog, p: Playlist)
    requires destination.findPlaylistByName(p.name).Ok? && destination.findPlaylistByName(p.name).value != ""
    ensures forall c :: c in GetOrCreatePlaylist(destination, p).calls ==> !c.op.CreatePlaylist?
  {
  }

  /** One playlist: resolve the destination playlist, read the origin playlist
      by its origin id, and add its tracks to the resolved destination playlist. */
  function TransferOne(origin: Catalog, destination: Catalog, p: Playlist): (r: Run<()>)
    ensures var resolved := GetOrCreatePlaylist(destination, p);
            var fetch := Call(Origin, GetFullPlaylist(p.id));
            && (resolved.result.Err? ==> r == Run(Err(resolved.result.error), resolved.calls))
            && (resolved.result.Ok? && origin.getFullPlaylist(p.id).Err? ==>
                  r == Run(Err(origin.getFullPlaylist(p.id).error), resolved.calls + [fetch]))
            && (resolved.result.Ok? && origin.getFullPlaylist(p.id).Ok? ==>
                  var destId, tracks := resolved.result.value, origin.getFullPlaylist(p.id).value.tracks;
                  && r.calls == resolved.calls + [fetch, Call(Destination, AddToPlaylist(destId, tracks))]
                  && (r.result.Ok? <==> destination.addToPlaylist(destId, tracks).Pass?)
                  && (r.result.Err? ==> r.result.error == destination.addToPlaylist(destId, tracks).error))
  {
    var resolved := GetOrCreatePlaylist(destination, p);
    match resolved.result
    case Err(e) => Run(Err(e), resolved.calls)
    case Ok(destId) =>
      var fetch := Call(Origin, GetFullPlaylist(p.id));
      match origin.getFullPlaylist(p.id)
      case Err(e) => Run(Err(e), resolved.calls + [fetch])
      case Ok(full) =>
        var calls := resolved.calls + [fetch, Call(Destination, AddToPlaylist(destId, full.tracks))];
        match destination.addToPlaylist(destId, full.tracks)
        case Fail(e) => Run(Err(e), calls)
        case Pass => Run(Ok(()), calls)
  }

  /** Within one playlist, a failure is the last call, and every call before
      it succeeded. */
  lemma OneStopsAtFailure(origin: Catalog, destination: Catalog, p: Playlist)
    ensures StopsAtFailure(TransferOne(origin, destination, p), origin, destination)
  {
    var resolved := GetOrCreatePlaylist(destination, p);
    assert StopsAtFailure(resolved, origin, destination);
  }

  /** Within one playlist, the origin is read only by the playlist's origin id,
      after the destination is resolved; the tracks added to the destination
      are exactly the origin playlist's tracks, right after reading them; all
      other calls go to the destination. */
  lemma OneReadsOriginById(origin: Catalog, destination: Catalog, p: Playlist)
    ensures var r := TransferOne(origin, destination, p);
            && |r.calls| >= 1 && r.calls[0] == Call(Destination, FindPlaylistByName(p.name))
            && (forall i :: 0 <= i < |r.calls| && r.calls[i].op.GetFullPlaylist? ==>
                  && r.calls[i] == Call(Origin, GetFullPlaylist(p.id))
                  && forall j :: 0 <= j < i ==> r.calls[j].side == Destination && !r.calls[j].op.AddToPlaylist?)
            && (forall i :: 0 <= i < |r.calls| && r.calls[i].op.AddToPlaylist? ==>
                  && i > 0 && r.calls[i - 1] == Call(Origin, GetFullPlaylist(p.id))
                  && origin.getFullPlaylist(p.id).Ok?
                  && r.calls[i] == Call(Destination, AddToPlaylist(r.calls[i].op.id, origin.getFullPlaylist(p.id).value.tracks)))
            && (forall c :: c in r.calls && !c.op.GetFullPlaylist? ==> c.side == Destination)
            && (r.result.Ok? ==> r.calls[|r.calls| - 1].op.AddToPlaylist?)
  {
  }

  /** Every playlist's calls, one playlist after another, as if none failed. */
  function CallsOf(origin: Catalog, destination: Catalog, ps: seq<Playlist>): seq<Call>
    decreases |ps|
  {
    if |ps| == 0 then [] else TransferOne(origin, destination, ps[0]).calls + CallsOf(origin, destination, ps[1..])
  }

  /** The index of the first playlist whose transfer fails on its own, or the
      selection's length when none does. */
  function FailedAt(origin: Catalog, destination: Catalog, ps: seq<Playlist>): (k: nat)
    ensures k <= |ps|
    ensures forall j :: 0 <= j < k ==> TransferOne(origin, destination, ps[j]).result.Ok?
    ensures k < |ps| ==> TransferOne(origin, destination, ps[k]).result.Err?
  {
    match FirstIndex(ps, (p: Playlist) => TransferOne(origin, destination, p).result.Err?)
    case None => |ps|
    case Some(i) => i
  }

  /** Every playlist of a selection in order, stopping at the first failure:
      the calls are exactly those of the playlists up to and including the
      first one that fails, in selection order. */
  function TransferAll(origin: Catalog, destination: Catalog, ps: seq<Playlist>): (r: Run<()>)
    ensures StopsAtFailure(r, origin, destination)
    ensures r.result.Ok? ==> forall i :: 0 <= i < |ps| ==> TransferOne(origin, destination, ps[i]).result.Ok?
    ensures r.result.Err? ==>
              exists i :: 0 <= i < |ps|
                && TransferOne(origin, destination, ps[i]).result == r.result
                && forall j :: 0 <= j < i ==> TransferOne(origin, destination, ps[j]).result.Ok?
    ensures r.result.Ok? <==> FailedAt(origin, destination, ps) == |ps|
    ensures r.result.Ok? ==> r.calls == CallsOf(origin, destination, ps)
    ensures r.result.Err? ==>
              && r.result == TransferOne(origin, destination, ps[FailedAt(origin, destination, ps)]).result
              && r.calls == CallsOf(origin, destination, ps[..FailedAt(origin, destination, ps) + 1])
    decreases |ps|
  {
    if |ps| == 0 then Run(Ok(()), [])
    else
      var first := TransferOne(origin, destination, ps[0]);
      OneStopsAtFailure(origin, destination, ps[0]);
      if first.result.Err? then
        CallsOfPrefix(origin, destination, ps, 0);
        first
      else
        var rest := TransferAll(origin, destination, ps[1..]);
        assert forall i :: 1 <= i < |ps| ==> ps[1..][i - 1] == ps[i];
        FailedAtOfTail(origin, destination, ps);
        var r := Run(rest.result, first.calls + rest.calls);
        StopsAtFailureOfJoin(first, rest, origin, destination);
        if rest.result.Err? then
          CallsOfPrefix(origin, destination, ps, FailedAt(origin, destination, ps[1..]) + 1);
          r
        else r
  }

  /** A successful run followed by another run stops where the second one does. */
  lemma StopsAtFailureOfJoin(first: Run<()>, rest: Run<()>, origin: Catalog, destination: Catalog)
    requires first.result.Ok? && StopsAtFailure(first, origin, destination) && StopsAtFailure(rest, origin, destination)
    ensures StopsAtFailure(Run(rest.result, first.calls + rest.calls), origin, destination)
  {
    var calls := first.calls + rest.calls;
    assert forall i :: |first.calls| <= i < |calls| ==> calls[i] == rest.calls[i - |first.calls|];
  }

  /** Past a first playlist that succeeds, the first failure is one further on. */
  lemma FailedAtOfTail(origin: Catalog, destination: Catalog, ps: seq<Playlist>)
    requires |ps| > 0 && TransferOne(origin, destination, ps[0]).result.Ok?
    ensures FailedAt(origin, destination, ps) == FailedAt(origin, destination, ps[1..]) + 1
  {
  }

  /** The calls of a prefix of one or more playlists: the first playlist's
      calls, then those of the rest of the prefix. */
  lemma CallsOfPrefix(origin: Catalog, destination: Catalog, ps: seq<Playlist>, k: nat)
    requires k < |ps|
    ensures CallsOf(origin, destination, ps[..k + 1])
            == TransferOne(origin, destination, ps[0]).calls + CallsOf(origin, destination, ps[1..][..k])
  {
    assert ps[..k + 1][1..] == ps[1..][..k] && ps[..k + 1][0] == ps[0];
  }

  /** The origin ids of a selection, in order. */
  function SelectedIds(ps: seq<Playlist>): (ids: seq<PlaylistID>)
    ensures |ids| == |ps| && forall i :: 0 <= i < |ps| ==> ids[i] == ps[i].id
  {
    seq(|ps|, i requires 0 <= i < |ps| => ps[i].id)
  }

  /** A call a transfer of the selection with origin ids `ids` may make: a
      read of the origin by one of those ids, or any call on the destination. */
  predicate Permitted(c: Call, ids: seq<PlaylistID>) {
    if c.op.GetFullPlaylist? then c.side == Origin && c.op.id in ids else c.side == Destination
  }

  predicate AllPermitted(calls: seq<Call>, ids: seq<PlaylistID>) {
    forall k :: 0 <= k < |calls| ==> Permitted(calls[k], ids)
  }

  /** One playlist's calls are permitted for any selection holding its id. */
  lemma OnePermitted(origin: Catalog, destination: Catalog, p: Playlist, ids: seq<PlaylistID>)
    requires p.id in ids
    ensures AllPermitted(TransferOne(origin, destination, p).calls, ids)
  {
    var calls := TransferOne(origin, destination, p).calls;
    OneReadsOriginById(origin, destination, p);
    forall k | 0 <= k < |calls|
      ensures Permitted(calls[k], ids)
    {
      assert calls[k] in calls;
    }
  }

  /** Calls permitted for the later playlists stay permitted for the whole selection. */
  lemma PermittedForTail(calls: seq<Call>, ids: seq<PlaylistID>)
    requires |ids| > 0 && AllPermitted(calls, ids[1..])
    ensures AllPermitted(calls, ids)
  {
    forall k | 0 <= k < |calls|
      ensures Permitted(calls[k], ids)
    {
      if calls[k].op.GetFullPlaylist? {
        var x :| 0 <= x < |ids[1..]| && ids[1..][x] == calls[k].op.id;
        assert ids[x + 1] == calls[k].op.id;
      }
    }
  }

  /** Across a selection, the origin is only read, and only by ids of selected
      playlists; every other call goes to the destination. */
  lemma {:induction false} AllReadsOriginByIds(origin: Catalog, destination: Catalog, ps: seq<Playlist>)
    ensures AllPermitted(TransferAll(origin, destination, ps).calls, SelectedIds(ps))
    decreases |ps|
  {
    if |ps| > 0 {
      var ids := SelectedIds(ps);
      var first := TransferOne(origin, destination, ps[0]);
      assert ids[0] == ps[0].id;
      OnePermitted(origin, destination, ps[0], ids);
      if first.result.Ok? {
        var rest := TransferAll(origin, destination, ps[1..]);
        AllReadsOriginByIds(origin, destination, ps[1..]);
        assert SelectedIds(ps[1..]) == ids[1..];
        PermittedForTail(rest.calls, ids);
        assert TransferAll(origin, destination, ps).calls == first.calls + rest.calls;
      }
    }
  }

  /** `Transfer(origin, selection).To(destination)`: ask both catalogs for
      their names, reject a nil or empty selection, then transfer every
      playlist in order. */
  function To(origin: Catalog, destination: Catalog, selection: Selection): (r: Run<()>)
    ensures |r.calls| >= 2 && r.calls[..2] == [Call(Origin, Name), Call(Destination, Name)]
    ensures selection.Null? ==> r == Run(Err(NullSelection), [Call(Origin, Name), Call(Destination, Name)])
    ensures selection.List? && |selection.playlists| == 0 ==>
              r == Run(Err(EmptySelection), [Call(Origin, Name), Call(Destination, Name)])
    ensures selection.List? && |selection.playlists| > 0 ==>
              r.calls[2..] == TransferAll(origin, destination, selection.playlists).calls
              && r.result == TransferAll(origin, destination, selection.playlists).result
  {
    var names := [Call(Origin, Name), Call(Destination, Name)];
    match selection
    case Null => Run(Err(NullSelection), names)
    case List(ps) =>
      if |ps| == 0 then Run(Err(EmptySelection), names)
      else
        var all := TransferAll(origin, destination, ps);
        Run(all.result, names + all.calls)
  }

  /** A nil or empty selection fails with its fixed message and makes no call
      beyond asking for the names: no destination lookup at all. */
  lemma ValidationBeforeAnyLookup(origin: Catalog, destination: Catalog, selection: Selection)
    requires selection.Null? || |selection.playlists| == 0
    ensures var r := To(origin, destination, selection);
            && r.result.Err?
            && Message(r.result.error)
               == (if selection.Null? then "cannot import: list is null" else "cannot import: list is empty")
            && forall c :: c in r.calls ==> c.op.Name?
  {
  }

  /** A failed transfer's failing call is its last: nothing is called on
      either catalog after a failure. */
  lemma NothingAfterFailure(origin: Catalog, destination: Catalog, selection: Selection)
    requires selection.List? && |selection.playlists| > 0
    requires To(origin, destination, selection).result.Err?
    ensures var r := To(origin, destination, selection);
            ErrorOf(r.calls[|r.calls| - 1], origin, destination) == Some(r.result.error)
            && forall i :: 2 <= i < |r.calls| - 1 ==> ErrorOf(r.calls[i], origin, destination).None?
  {
    var r := To(origin, destination, selection);
    var all := TransferAll(origin, destination, selection.playlists);
    assert forall i :: 2 <= i < |r.calls| ==> r.calls[i] == all.calls[i - 2];
  }

  /** The repository's lookup tests: an existing playlist is used as it is,
      a missing one is created once under the same name. */
  lemma LookupTests(destination: Catalog)
    ensures destination.findPlaylistByName("name") == Ok("123") ==>
              GetOrCreatePlaylist(destination, Playlist("123", "name", 0, "")) ==
                Run(Ok("123"), [Call(Destination, FindPlaylistByName("name"))])
    ensures destination.findPlaylistByName("name") == Ok("") && destination.createPlaylist("name") == Ok("123") ==>
              GetOrCreatePlaylist(destination, Playlist("123", "name", 0, "")) ==
                Run(Ok("123"), [Call(Destination, FindPlaylistByName("name")), Call(Destination, CreatePlaylist("name"))])
  {
  }

  /** The repository's fetch test: with the destination resolved to another
      id, the origin is read by the origin id, and its failure ends the
      transfer with that failure and no further call. */
  lemma OriginFetchTest(origin: Catalog, destination: Catalog, stop: Error)
    requires destination.findPlaylistByName("playlist") == Ok("destination-ID")
    requires origin.getFullPlaylist("origin-ID") == Err(stop)
    ensures To(origin, destination, List([Playlist("origin-ID", "playlist", 0, "")])) ==
              Run(Err(stop), [Call(Origin, Name), Call(Destination, Name),
                              Call(Destination, FindPlaylistByName("playlist")),
                              Call(Origin, GetFullPlaylist("origin-ID"))])
  {
    var ps := [Playlist("origin-ID", "playlist", 0, "")];
    assert ps[1..] == [];
  }
}
