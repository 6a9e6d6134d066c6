/** The Go wrapper itself: `MetadataSearch.Start` registers a search and
    hands back a one-shot `MetadataSearchFuture`; its `Get` waits for the
    result, decodes it with `ProcessResult` and releases the future's C
    handle on every path; a second `Get` reports `AlreadyCalled`. Ownership
    is tracked through `Native.Sdk.live`. */
module MetadataSearch {
  import opened Types
  import opened Decoder
  import opened Lifecycle
  import opened Native

  /** A search request; its fingerprint is an opaque handle built elsewhere. */
  datatype MetadataSearchRequest = MetadataSearchRequest(fingerprint: CFingerprint)

  class MetadataSearchFuture {
    const lib: Sdk
    var lookupID: uint64
    var c: CFuture?

    /** A non-nil handle is owned by this future and still live. */
    ghost predicate Valid()
      reads this, lib
    {
      c != null ==> c in lib.live
    }

    /** Live while the handle is non-nil, consumed once `Get` nulled it. */
    function State(): FutureState
      reads this
    {
      if c == null then Consumed else Live
    }

    constructor (lib: Sdk, lookupID: uint64, c: CFuture)
      ensures this.lib == lib && this.lookupID == lookupID && this.c == c
    {
      this.lib := lib;
      this.lookupID := lookupID;
      this.c := c;
    }

    /** Blocks until the search result is ready and returns it, releasing the
        future's handle whether the fetch succeeded or failed. The reply is
        the `GetReply` step from the state the future was in; `completion`
        says how the fetch ended, and is the entry the fetch left in the
        SDK's call log, when there was a fetch. */
    method Get() returns (r: Result<SearchResult>, ghost completion: Completion)
      requires Valid()
      modifies this, lib
      ensures Valid() && State() == Consumed && lookupID == old(lookupID)
      ensures r == GetReply(old(State()), completion)
      ensures old(c) == null ==> && lib.live == old(lib.live) && lib.allocations == old(lib.allocations)
                                 && lib.calls == old(lib.calls)
      ensures old(c) != null ==> && lib.live == old(lib.live) - {old(c)}
                                 && lib.allocations == old(lib.allocations) + (if r.Ok? then 3 else 2)
                                 && lib.calls == old(lib.calls) + [Fetched(completion)]
    {
      if c == null {
        r, completion := Err(AlreadyCalled), Failed(0);
        return;
      }
      var st := lib.NewStatus();
      var res := lib.NewResult();
      completion := lib.FetchResult(c, res, st);
      var e := StatusToError(st.code);
      if e.Some? {
        r := Err(e.value);
      } else {
        var decoded := ProcessResult(res);
        r := Ok(decoded);
      }
      // the deferred calls, last registered first
      lib.Delete(res);
      lib.Delete(st);
      Close();
    }

    /** Deletes the future's handle and nulls it. */
    method Close()
      requires Valid() && c != null
      modifies this, lib
      ensures Valid() && c == null && lookupID == old(lookupID)
      ensures lib.live == old(lib.live) - {old(c)} && lib.calls == old(lib.calls)
      ensures lib.allocations == old(lib.allocations)
    {
      lib.Delete(c);
      c := null;
    }

    /** Walks the completed result handle with the two nested cursors. The
        value built is `Decode` of the handle's contents, and the scratch
        match handle is released again. */
    method ProcessResult(cResult: CResult) returns (r: SearchResult)
      requires cResult in lib.live
      modifies lib
      ensures r == Decode(cResult.contents)
      ensures lib.live == old(lib.live) && lib.calls == old(lib.calls)
      ensures lib.allocations == old(lib.allocations) + 1
    {
      var cMatch := lib.NewMatch();
      ghost var raw := cResult.contents.matches;
      var cMatchesPos: nat := 0;
      var matches: seq<Match> := [];
      var more;
      more, cMatchesPos := lib.NextMatch(cResult, cMatch, cMatchesPos);
      while more
        invariant cMatchesPos <= |raw| && cResult.contents.matches == raw
        invariant more ==> 0 < cMatchesPos
                           && cMatch.assetID == raw[cMatchesPos - 1].assetID
                           && cMatch.segments == raw[cMatchesPos - 1].segments
        invariant !more ==> cMatchesPos == |raw|
        invariant matches == DecodeMatches(raw[..if more then cMatchesPos - 1 else cMatchesPos])
        invariant lib.live == old(lib.live) + {cMatch} && cMatch !in old(lib.live)
        invariant lib.calls == old(lib.calls) && lib.allocations == old(lib.allocations) + 1
        decreases |raw| - cMatchesPos, more
      {
        var segments := CollectSegments(cMatch);
        DecodeMatchesSnoc(raw[..cMatchesPos - 1], raw[cMatchesPos - 1]);
        assert raw[..cMatchesPos] == raw[..cMatchesPos - 1] + [raw[cMatchesPos - 1]];
        matches := matches + [Match(cMatch.assetID, segments)];
        more, cMatchesPos := lib.NextMatch(cResult, cMatch, cMatchesPos);
      }
      assert raw[..cMatchesPos] == raw;
      r := SearchResult(cResult.contents.lookupID, cResult.contents.ugcID, matches);
      lib.Delete(cMatch);
    }

    /** The inner loop of `ProcessResult`: a fresh segment position and an
        empty list for the match just loaded, then one `append` per
        successful segment cursor step. */
    method CollectSegments(cMatch: CMatch) returns (segments: seq<Segment>)
      requires cMatch in lib.live
      ensures segments == DecodeSegments(cMatch.segments)
    {
      var queryStart: int64, queryEnd: int64, assetStart: int64, assetEnd: int64 := 0, 0, 0, 0;
      var cSegmentsPos: nat := 0;
      segments := [];
      var moreSegments;
      moreSegments, queryStart, queryEnd, assetStart, assetEnd, cSegmentsPos :=
        lib.NextSegment(cMatch, queryStart, queryEnd, assetStart, assetEnd, cSegmentsPos);
      while moreSegments
        invariant cSegmentsPos <= |cMatch.segments|
        invariant moreSegments ==> 0 < cSegmentsPos
                                   && (queryStart, queryEnd, assetStart, assetEnd) == cMatch.segments[cSegmentsPos - 1]
        invariant !moreSegments ==> cSegmentsPos == |cMatch.segments|
        invariant segments == DecodeSegments(cMatch.segments[..if moreSegments then cSegmentsPos - 1 else cSegmentsPos])
        decreases |cMatch.segments| - cSegmentsPos, moreSegments
      {
        DecodeSegmentsSnoc(cMatch.segments[..cSegmentsPos - 1], cMatch.segments[cSegmentsPos - 1]);
        assert cMatch.segments[..cSegmentsPos] == cMatch.segments[..cSegmentsPos - 1] + [cMatch.segments[cSegmentsPos - 1]];
        segments := segments + [Segment(queryStart, queryEnd, assetStart, assetEnd)];
        moreSegments, queryStart, queryEnd, assetStart, assetEnd, cSegmentsPos :=
          lib.NextSegment(cMatch, queryStart, queryEnd, assetStart, assetEnd, cSegmentsPos);
      }
      assert cMatch.segments[..cSegmentsPos] == cMatch.segments;
    }
  }

  class MetadataSearchSession {
    const lib: Sdk
    const c: CSearch

    ghost predicate Valid()
      reads this, lib
    {
      c in lib.live
    }

    constructor (lib: Sdk, c: CSearch)
      requires c in lib.live
      ensures this.lib == lib && this.c == c && Valid()
    {
      this.lib := lib;
      this.c := c;
    }

    /** Registers a search without waiting for it. On success the new future
        owns the future handle that was allocated, now the only handle added
        to `live`, and carries the lookup ID the service assigned. On failure nothing
        stays allocated and the error is the start status's own. Which of the
        two happens is decided by `status`, and the future's lookup ID is
        `startedID`: both come from the start call's entry in the SDK's call
        log. */
    method Start(req: MetadataSearchRequest)
      returns (r: Result<MetadataSearchFuture>, ghost status: StatusCode, ghost startedID: uint64)
      requires Valid()
      modifies lib
      ensures Valid() && lib.calls == old(lib.calls) + [Started(status, startedID)]
      ensures lib.allocations == old(lib.allocations) + 3
      ensures r.Ok? <==> status == StatusOk
      ensures r.Err? ==> Some(r.error) == StatusToError(status) && lib.live == old(lib.live)
      ensures r.Ok? ==> && fresh(r.value) && r.value.lib == lib
                        && r.value.c != null && fresh(r.value.c)
                        && r.value.lookupID == startedID && r.value.c.lookupID == startedID
                        && r.value.Valid() && r.value.State() == Live
                        && lib.live == old(lib.live) + {r.value.c}
    {
      var cStatus := lib.NewStatus();
      var cRequest := lib.NewRequest();
      var cFuture := lib.NewFuture();
      lib.SetFingerprint(cRequest, req.fingerprint);
      lib.StartSearch(c, cRequest, cFuture, cStatus);
      status, startedID := cStatus.code, cFuture.lookupID;
      var e := StatusToError(cStatus.code);
      if e.Some? {
        // the future handle is deleted here so that it does not leak
        lib.Delete(cFuture);
        r := Err(e.value);
      } else {
        var f := new MetadataSearchFuture(lib, cFuture.lookupID, cFuture);
        r := Ok(f);
      }
      // the deferred calls, last registered first
      lib.Delete(cRequest);
      lib.Delete(cStatus);
    }
  }

  /** The documented usage end to end: start a search, consume its future,
      and call `Get` once more. Every handle is released whatever the
      service answers. A started search makes exactly two remote calls, the
      first `Get` is served with the fetch the log records, and the second
      `Get` always reports `AlreadyCalled`. */
  method StartGetGetAgain(session: MetadataSearchSession, req: MetadataSearchRequest)
    returns (started: Result<MetadataSearchFuture>, first: Result<SearchResult>, second: Result<SearchResult>)
    requires session.Valid()
    modifies session.lib
    ensures session.lib.live == old(session.lib.live)
    ensures started.Ok? ==> && |session.lib.calls| == |old(session.lib.calls)| + 2
                            && session.lib.calls[|old(session.lib.calls)|].Started?
                            && session.lib.calls[|old(session.lib.calls)|].status == StatusOk
                            && started.value.lookupID == session.lib.calls[|old(session.lib.calls)|].lookupID
                            && session.lib.calls[|old(session.lib.calls)| + 1].Fetched?
                            && first == Serve(session.lib.calls[|old(session.lib.calls)| + 1].completion)
                            && second == Err(AlreadyCalled)
    ensures started.Err? ==> && |session.lib.calls| == |old(session.lib.calls)| + 1
                             && session.lib.calls[|old(session.lib.calls)|].Started?
                             && session.lib.calls[|old(session.lib.calls)|].status != StatusOk
  {
    first, second := Err(AlreadyCalled), Err(AlreadyCalled);
    ghost var status, startedID;
    started, status, startedID := session.Start(req);
    if started.Ok? {
      var f := started.value;
      ghost var c1, c2;
      first, c1 := f.Get();
      second, c2 := f.Get();
    }
  }
}
