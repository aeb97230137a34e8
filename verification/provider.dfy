/**
 The catalog-independent vocabulary: playlist and track records as the
 adapters build them, the canonical search string of a track, and the
 first-match scan every `FindPlaylistByName` performs.
 */
module Provider {
  import opened Base

  /** Identifiers are provider-scoped strings; the empty string means "none". */
  type PlaylistID = string
  type TrackID = string

  /** A listed playlist; `tracks` is the catalog's track total. */
  datatype Playlist = Playlist(id: PlaylistID, name: string, tracks: nat, creator: string)

  /** A track; `id` is only set by catalogs that report one. */
  datatype Track = Track(id: string, name: string, artists: seq<string>) {
    /** The search string for this track: artists joined by ", ", then " - ", then the name. */
    function FullName(): string {
      Join(artists, ", ") + " - " + name
    }
  }

  /** A playlist together with all of its tracks, in catalog order. */
  datatype FullPlaylist = FullPlaylist(playlist: Playlist, tracks: seq<Track>)

  /** `strings.Join`: the parts in order with `sep` between neighbours. */
  function Join(parts: seq<string>, sep: string): string
    decreases |parts|
  {
    if |parts| == 0 then ""
    else if |parts| == 1 then parts[0]
    else parts[0] + sep + Join(parts[1..], sep)
  }

  /** Where part `i` starts in `Join(parts, sep)`: the lengths of the parts
      before it, plus one separator after each of them. */
  function Offset(parts: seq<string>, sep: string, i: nat): nat
    requires i <= |parts|
    decreases i
  {
    if i == 0 then 0 else |parts[0]| + |sep| + Offset(parts[1..], sep, i - 1)
  }

  /** Appending a suffix does not disturb a slice inside the prefix, and a
      slice inside the suffix is the suffix's own slice shifted. */
  lemma SliceOfConcat(a: string, b: string, lo: nat, hi: nat)
    requires lo <= hi <= |b|
    ensures (a + b)[|a| + lo .. |a| + hi] == b[lo..hi]
  {
    assert forall k :: 0 <= k < hi - lo ==> (a + b)[|a| + lo .. |a| + hi][k] == b[lo..hi][k];
  }

  /** Consecutive offsets differ by the length of the part and one separator. */
  lemma {:induction false} OffsetStep(parts: seq<string>, sep: string, i: nat)
    requires i < |parts|
    ensures Offset(parts, sep, i + 1) == Offset(parts, sep, i) + |parts[i]| + |sep|
    decreases i
  {
    if i > 0 {
      OffsetStep(parts[1..], sep, i - 1);
    }
  }

  /** Joining keeps every part, in order, at its offset, with exactly `sep`
      between consecutive parts. */
  lemma {:induction false} JoinPlacesParts(parts: seq<string>, sep: string, i: nat)
    requires i < |parts|
    ensures Offset(parts, sep, i) + |parts[i]| <= |Join(parts, sep)|
    ensures Join(parts, sep)[Offset(parts, sep, i) .. Offset(parts, sep, i) + |parts[i]|] == parts[i]
    ensures i + 1 < |parts| ==>
              var o := Offset(parts, sep, i) + |parts[i]|;
              o + |sep| <= |Join(parts, sep)| && Join(parts, sep)[o .. o + |sep|] == sep
    decreases i
  {
    var j := Join(parts, sep);
    if |parts| == 1 {
      assert j == parts[0];
    } else {
      var rest := Join(parts[1..], sep);
      assert j == parts[0] + sep + rest;
      if i == 0 {
        assert j[0 .. |parts[0]|] == parts[0];
        assert j[|parts[0]| .. |parts[0]| + |sep|] == sep;
      } else {
        JoinPlacesParts(parts[1..], sep, i - 1);
        var o := Offset(parts[1..], sep, i - 1);
        assert parts[1..][i - 1] == parts[i];
        SliceOfConcat(parts[0] + sep, rest, o, o + |parts[i]|);
        if i + 1 < |parts| {
          SliceOfConcat(parts[0] + sep, rest, o + |parts[i]|, o + |parts[i]| + |sep|);
        }
      }
    }
  }

  /** Every artist of a track appears in its full name, in list order, at the
      artist's offset, and consecutive artists are separated by ", ". */
  lemma ArtistsInFullName(t: Track, i: nat)
    requires i < |t.artists|
    ensures var o := Offset(t.artists, ", ", i);
            o + |t.artists[i]| <= |t.FullName()|
            && t.FullName()[o .. o + |t.artists[i]|] == t.artists[i]
    ensures i + 1 < |t.artists| ==>
              var o := Offset(t.artists, ", ", i) + |t.artists[i]|;
              o + 2 == Offset(t.artists, ", ", i + 1)
              && o + 2 <= |t.FullName()|
              && t.FullName()[o .. o + 2] == ", "
  {
    var a := Join(t.artists, ", ");
    var tail := " - " + t.name;
    assert t.FullName() == a + tail;
    JoinPlacesParts(t.artists, ", ", i);
    var o := Offset(t.artists, ", ", i);
    assert (a + tail)[o .. o + |t.artists[i]|] == a[o .. o + |t.artists[i]|];
    if i + 1 < |t.artists| {
      OffsetStep(t.artists, ", ", i);
      var e := o + |t.artists[i]|;
      assert (a + tail)[e .. e + 2] == a[e .. e + 2];
    }
  }

  /** The artist part comes first, then " - ", and the track name is last. */
  lemma NameLastInFullName(t: Track)
    ensures var f := t.FullName(); var n := |t.name|;
            |f| >= n + 3
            && f[|f| - n ..] == t.name
            && f[|f| - n - 3 .. |f| - n] == " - "
            && f[.. |f| - n - 3] == Join(t.artists, ", ")
  {
  }

  /** `f` holds the artist-name separator " - " at index `k`. */
  predicate SeparatorAt(f: string, k: int) {
    0 <= k <= |f| - 3 && f[k .. k + 3] == " - "
  }

  /** The search string always holds the " - " separator, so it is never
      empty, whatever the track: even a track with no artists and no name. */
  lemma FullNameNeverEmpty(t: Track)
    ensures t.FullName() != ""
    ensures exists k :: SeparatorAt(t.FullName(), k)
  {
    NameLastInFullName(t);
    assert SeparatorAt(t.FullName(), |Join(t.artists, ", ")|);
  }

  /** The case the repository's test pins down. */
  lemma FullNameOfTwoArtists()
    ensures Track("", "Song", ["Paulo", "Other"]).FullName() == "Paulo, Other - Song"
  {
    assert Join(["Other"], ", ") == "Other";
    assert Join(["Paulo", "Other"], ", ") == "Paulo" + ", " + Join(["Other"], ", ");
  }

  /** The index of the first element satisfying `p`, if any. */
  function FirstIndex<T>(xs: seq<T>, p: T -> bool): (r: Option<nat>)
    ensures r.Some? ==> r.value < |xs| && p(xs[r.value])
    ensures r.Some? ==> forall j :: 0 <= j < r.value ==> !p(xs[j])
    ensures r.None? ==> forall j :: 0 <= j < |xs| ==> !p(xs[j])
    decreases |xs|
  {
    if |xs| == 0 then None
    else if p(xs[0]) then Some(0)
    else
      match FirstIndex(xs[1..], p)
      case None => None
      case Some(k) => Some(k + 1)
  }

  /** The IDs of a sequence of tracks, in order. */
  function IdsOf(tracks: seq<Track>): (ids: seq<string>)
    ensures |ids| == |tracks|
    ensures forall i :: 0 <= i < |tracks| ==> ids[i] == tracks[i].id
  {
    seq(|tracks|, i requires 0 <= i < |tracks| => tracks[i].id)
  }
}
