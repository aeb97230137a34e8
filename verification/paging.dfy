/**
 The two listing loops of the adapters, run over the finite sequence of
 responses the catalog gives in order: the n-th response answers the n-th
 request. YouTube follows a page token until the token comes back empty;
 Spotify advances an offset by each page's length and also stops on a page
 without items.
 */
module Paging {
  import opened Base

  /** One page of a listing: its items and the catalog's pointer to the next
      page (`NextPageToken` on YouTube, `Next` on Spotify), empty when last. */
  datatype Page<T> = Page(items: seq<T>, next: string)

  /** What one listing loop did: its result and the request parameter of
      every fetch it made, in order. */
  datatype Walk<T, Q> = Walk(result: Result<seq<T>>, requested: seq<Q>)

  /** Whether the loop stops after receiving `r`; `emptyEnds` selects the
      Spotify rule, which also stops on a page without items. */
  predicate Stops<T>(r: Result<Page<T>>, emptyEnds: bool) {
    r.Err? || r.value.next == "" || (emptyEnds && |r.value.items| == 0)
  }

  /** The catalog ends the listing within the given responses (otherwise the
      source loop would keep fetching). */
  predicate Ends<T>(rs: seq<Result<Page<T>>>, emptyEnds: bool) {
    exists k :: 0 <= k < |rs| && Stops(rs[k], emptyEnds)
  }

  lemma EndsOfTail<T>(rs: seq<Result<Page<T>>>, emptyEnds: bool)
    requires Ends(rs, emptyEnds) && !Stops(rs[0], emptyEnds)
    ensures Ends(rs[1..], emptyEnds)
  {
    var k :| 0 <= k < |rs| && Stops(rs[k], emptyEnds);
    assert rs[1..][k - 1] == rs[k];
  }

  /** How many responses a loop consumes: up to and including the first one
      that stops it. */
  function Consumed<T>(rs: seq<Result<Page<T>>>, emptyEnds: bool): (n: nat)
    requires Ends(rs, emptyEnds)
    ensures 0 < n <= |rs|
    ensures Stops(rs[n - 1], emptyEnds)
    ensures forall j :: 0 <= j < n - 1 ==> !Stops(rs[j], emptyEnds)
    decreases |rs|
  {
    if Stops(rs[0], emptyEnds) then 1
    else
      EndsOfTail(rs, emptyEnds);
      1 + Consumed(rs[1..], emptyEnds)
  }

  /** The items of the received pages, in page order (a failed fetch adds none). */
  function Concat<T>(rs: seq<Result<Page<T>>>): seq<T>
    decreases |rs|
  {
    if |rs| == 0 then []
    else (if rs[0].Ok? then rs[0].value.items else []) + Concat(rs[1..])
  }

  /** Concatenating a prefix starts with the first page's items. */
  lemma ConcatOfPrefixes<T>(rs: seq<Result<Page<T>>>)
    requires |rs| > 0 && rs[0].Ok?
    ensures forall j {:trigger rs[..j]} :: 0 < j <= |rs| ==>
              Concat(rs[..j]) == rs[0].value.items + Concat(rs[1..][..j - 1])
  {
    forall j | 0 < j <= |rs|
      ensures Concat(rs[..j]) == rs[0].value.items + Concat(rs[1..][..j - 1])
    {
      assert rs[..j][1..] == rs[1..][..j - 1];
    }
  }

  /** The YouTube loop: request the page named by `token`, append its items,
      and continue with the returned token until it is empty; a failed fetch
      ends the loop with that failure. */
  function FollowTokens<T>(token: string, rs: seq<Result<Page<T>>>): (w: Walk<T, string>)
    requires Ends(rs, false)
    ensures |w.requested| == Consumed(rs, false)
    ensures w.requested[0] == token
    ensures forall j :: 0 < j < |w.requested| ==>
              rs[j - 1].Ok? && w.requested[j] == rs[j - 1].value.next
    ensures rs[|w.requested| - 1].Err? ==> w.result == Err(rs[|w.requested| - 1].error)
    ensures rs[|w.requested| - 1].Ok? ==> w.result == Ok(Concat(rs[..|w.requested|]))
    decreases |rs|
  {
    if rs[0].Err? then Walk(Err(rs[0].error), [token])
    else if rs[0].value.next == "" then
      assert rs[..1] == [rs[0]] && rs[..1][1..] == [];
      assert Concat(rs[..1]) == rs[0].value.items + Concat(rs[..1][1..]);
      assert Concat<T>([]) == [] && rs[0].value.items + [] == rs[0].value.items;
      assert Concat(rs[..1]) == rs[0].value.items;
      Walk(Ok(rs[0].value.items), [token])
    else
      EndsOfTail(rs, false);
      ConcatOfPrefixes(rs);
      var w := FollowTokens(rs[0].value.next, rs[1..]);
      var n := |w.requested| + 1;
      assert rs[n - 1] == rs[1..][n - 2];
      assert Concat(rs[..n]) == rs[0].value.items + Concat(rs[1..][..n - 1]);
      Walk(if w.result.Ok? then Ok(rs[0].value.items + w.result.value) else w.result,
           [token] + w.requested)
  }

  /** The Spotify loop: request the page at `offset`, append its items, stop
      when the page has no next link or no items, and otherwise advance the
      offset by the page's length; a failed fetch ends the loop. */
  function FollowOffsets<T>(offset: nat, rs: seq<Result<Page<T>>>): (w: Walk<T, nat>)
    requires Ends(rs, true)
    ensures |w.requested| == Consumed(rs, true)
    ensures forall j :: 0 <= j < |w.requested| ==> w.requested[j] == offset + |Concat(rs[..j])|
    ensures rs[|w.requested| - 1].Err? ==> w.result == Err(rs[|w.requested| - 1].error)
    ensures rs[|w.requested| - 1].Ok? ==> w.result == Ok(Concat(rs[..|w.requested|]))
    decreases |rs|
  {
    assert rs[..0] == [];
    if rs[0].Err? then Walk(Err(rs[0].error), [offset])
    else if rs[0].value.next == "" || |rs[0].value.items| == 0 then
      assert rs[..1] == [rs[0]] && rs[..1][1..] == [];
      assert Concat(rs[..1]) == rs[0].value.items + Concat(rs[..1][1..]);
      assert Concat<T>([]) == [] && rs[0].value.items + [] == rs[0].value.items;
      Walk(Ok(rs[0].value.items), [offset])
    else
      EndsOfTail(rs, true);
      ConcatOfPrefixes(rs);
      var w := FollowOffsets(offset + |rs[0].value.items|, rs[1..]);
      var n := |w.requested| + 1;
      assert rs[n - 1] == rs[1..][n - 2];
      assert Concat(rs[..n]) == rs[0].value.items + Concat(rs[1..][..n - 1]);
      Walk(if w.result.Ok? then Ok(rs[0].value.items + w.result.value) else w.result,
           [offset] + w.requested)
  }

  /** Only the first request of the offset loop starts at the initial offset:
      every page before the last one had items, so later offsets are larger. */
  lemma {:induction false} LaterOffsetsAdvance<T>(rs: seq<Result<Page<T>>>, j: nat)
    requires Ends(rs, true)
    requires 0 < j < Consumed(rs, true)
    ensures |Concat(rs[..j])| > 0
  {
    assert !Stops(rs[0], true);
    ConcatOfPrefixes(rs);
    assert Concat(rs[..j]) == rs[0].value.items + Concat(rs[1..][..j - 1]);
  }
}
