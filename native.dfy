/** The C SDK underneath the Go wrapper, as far as the wrapper relies on it.
    Each C handle is an object of its own class; `Sdk.live` is the ghost set
    of handles allocated and not yet deleted, `Sdk.allocations` counts every
    handle ever allocated, and `Sdk.calls` logs the calls that go to the
    remote service, with what each one reported. The remote
    service's answers are nondeterministic. The two cursor functions follow one explicit
    assumption about the unseen C code: a cursor at position `pos` loads
    element `pos` and advances by one while elements remain, and otherwise
    reports `false` and changes nothing. */
module Native {
  import opened Types
  import opened Decoder

  /** What a status handle reports after a C call. */
  datatype StatusCode = StatusOk | StatusFailed(code: nat)

  /** How the blocking remote fetch of a future ended: a filled result
      handle, or an error status. */
  datatype Completion = Completed(raw: RawResult) | Failed(code: nat)

  /** One call to the remote service: a search start with the status it
      reported and the lookup ID it left in the future handle, or a result
      fetch and how it ended. */
  datatype RemoteCall = Started(status: StatusCode, lookupID: uint64) | Fetched(completion: Completion)

  /** `statusToError`, defined outside the modelled file: no error for a
      successful status, the status's own error otherwise. */
  function StatusToError(s: StatusCode): (e: Option<Error>)
    ensures e.None? <==> s == StatusOk
    ensures e.Some? ==> e.value != AlreadyCalled
  {
    match s
    case StatusOk => None
    case StatusFailed(code) => Some(StatusError(code))
  }

  /** `AE_Fingerprint`: built elsewhere, only passed along here. */
  class CFingerprint {
    constructor () { }
  }

  /** `AE_MetadataSearch`: the session handle a `MetadataSearch` wraps. */
  class CSearch {
    constructor () { }
  }

  /** `AE_Status` */
  class CStatus {
    var code: StatusCode
    constructor ()
      ensures code == StatusOk
    {
      code := StatusOk;
    }
  }

  /** `AE_MetadataSearchRequest` */
  class CRequest {
    var fingerprint: CFingerprint?
    constructor ()
      ensures fingerprint == null
    {
      fingerprint := null;
    }
  }

  /** `AE_MetadataSearchFuture`: a search registered with the service. */
  class CFuture {
    var lookupID: uint64
    constructor ()
      ensures lookupID == 0
    {
      lookupID := 0;
    }
  }

  /** `AE_MetadataSearchResult`: filled by a successful fetch. */
  class CResult {
    var contents: RawResult
    constructor ()
      ensures contents == RawResult(0, 0, [])
    {
      contents := RawResult(0, 0, []);
    }
  }

  /** `AE_MetadataSearchMatch`: the scratch match the match cursor loads. */
  class CMatch {
    var assetID: uint64
    var segments: seq<RawSegment>
    constructor ()
      ensures assetID == 0 && segments == []
    {
      assetID, segments := 0, [];
    }
  }

  class Sdk {
    ghost var live: set<object>
    ghost var allocations: nat
    ghost var calls: seq<RemoteCall>

    constructor ()
      ensures live == {} && allocations == 0 && calls == []
    {
      live, allocations, calls := {}, 0, [];
    }

    /** The session handle that `Client.MetadataSearch` allocates, outside
        the modelled file. */
    method NewSearch() returns (h: CSearch)
      modifies this
      ensures fresh(h)
      ensures live == old(live) + {h} && calls == old(calls)
      ensures allocations == old(allocations) + 1
    {
      h := new CSearch();
      live, allocations := live + {h}, allocations + 1;
    }

    /** `AE_Status_New` (allocation failure is not modelled). */
    method NewStatus() returns (h: CStatus)
      modifies this
      ensures fresh(h) && h.code == StatusOk
      ensures live == old(live) + {h} && calls == old(calls)
      ensures allocations == old(allocations) + 1
    {
      h := new CStatus();
      live, allocations := live + {h}, allocations + 1;
    }

    /** `AE_MetadataSearchRequest_New` */
    method NewRequest() returns (h: CRequest)
      modifies this
      ensures fresh(h) && h.fingerprint == null
      ensures live == old(live) + {h} && calls == old(calls)
      ensures allocations == old(allocations) + 1
    {
      h := new CRequest();
      live, allocations := live + {h}, allocations + 1;
    }

    /** `AE_MetadataSearchFuture_New` */
    method NewFuture() returns (h: CFuture)
      modifies this
      ensures fresh(h)
      ensures live == old(live) + {h} && calls == old(calls)
      ensures allocations == old(allocations) + 1
    {
      h := new CFuture();
      live, allocations := live + {h}, allocations + 1;
    }

    /** `AE_MetadataSearchResult_New` */
    method NewResult() returns (h: CResult)
      modifies this
      ensures fresh(h)
      ensures live == old(live) + {h} && calls == old(calls)
      ensures allocations == old(allocations) + 1
    {
      h := new CResult();
      live, allocations := live + {h}, allocations + 1;
    }

    /** `AE_MetadataSearchMatch_New` */
    method NewMatch() returns (h: CMatch)
      modifies this
      ensures fresh(h)
      ensures live == old(live) + {h} && calls == old(calls)
      ensures allocations == old(allocations) + 1
    {
      h := new CMatch();
      live, allocations := live + {h}, allocations + 1;
    }

    /** The `AE_*_Delete` functions: release a live handle. Releasing a
        handle that is not live (a double release) is ruled out. */
    method Delete(h: object)
      requires h in live
      modifies this
      ensures live == old(live) - {h} && calls == old(calls) && allocations == old(allocations)
    {
      live := live - {h};
    }

    /** `AE_MetadataSearchRequest_SetFingerprint` */
    method SetFingerprint(rq: CRequest, ft: CFingerprint)
      requires rq in live
      modifies rq
      ensures rq.fingerprint == ft
    {
      rq.fingerprint := ft;
    }

    /** `AE_MetadataSearch_Start`: one round trip that registers the search.
        The service may refuse it; on acceptance the future handle carries
        the server-assigned lookup ID. */
    method StartSearch(s: CSearch, rq: CRequest, fut: CFuture, st: CStatus)
      requires s in live && rq in live && fut in live && st in live
      modifies this, fut, st
      ensures live == old(live) && allocations == old(allocations)
      ensures calls == old(calls) + [Started(st.code, fut.lookupID)]
    {
      var code: StatusCode :| true;
      var id: uint64 :| true;
      st.code := code;
      fut.lookupID := id;
      calls := calls + [Started(code, id)];
    }

    /** `AE_MetadataSearchFuture_Get`: waits for the search to finish and
        fills the result handle, or reports an error status. The ghost
        `completion` names which of the two happened, and the call log
        records it. */
    method FetchResult(fut: CFuture, res: CResult, st: CStatus) returns (ghost completion: Completion)
      requires fut in live && res in live && st in live
      modifies this, res, st
      ensures completion.Completed? <==> st.code == StatusOk
      ensures completion.Completed? ==> res.contents == completion.raw
      ensures completion.Failed? ==> st.code == StatusFailed(completion.code)
      ensures live == old(live) && allocations == old(allocations)
      ensures calls == old(calls) + [Fetched(completion)]
    {
      var c: Completion :| true;
      match c {
        case Completed(raw) =>
          st.code := StatusOk;
          res.contents := raw;
        case Failed(code) =>
          st.code := StatusFailed(code);
      }
      calls := calls + [Fetched(c)];
      completion := c;
    }

    /** `AE_MetadataSearchResult_NextMatch`: loads match `pos` into the
        scratch match and advances the position, while matches remain. */
    method NextMatch(res: CResult, m: CMatch, pos: nat) returns (more: bool, pos': nat)
      requires res in live && m in live
      modifies m
      ensures more <==> pos < |res.contents.matches|
      ensures more ==> pos' == pos + 1
                       && m.assetID == res.contents.matches[pos].assetID
                       && m.segments == res.contents.matches[pos].segments
      ensures !more ==> pos' == pos && unchanged(m)
    {
      more := pos < |res.contents.matches|;
      if more {
        m.assetID := res.contents.matches[pos].assetID;
        m.segments := res.contents.matches[pos].segments;
        pos' := pos + 1;
      } else {
        pos' := pos;
      }
    }

    /** `AE_MetadataSearchMatch_NextSegment`: writes segment `pos` of the
        loaded match to the four out-parameters and advances the position,
        while segments remain; otherwise leaves all five untouched. */
    method NextSegment(m: CMatch, queryStart: int64, queryEnd: int64, assetStart: int64, assetEnd: int64, pos: nat)
      returns (more: bool, queryStart': int64, queryEnd': int64, assetStart': int64, assetEnd': int64, pos': nat)
      requires m in live
      ensures more <==> pos < |m.segments|
      ensures more ==> pos' == pos + 1 && (queryStart', queryEnd', assetStart', assetEnd') == m.segments[pos]
      ensures !more ==> pos' == pos && (queryStart', queryEnd', assetStart', assetEnd') == (queryStart, queryEnd, assetStart, assetEnd)
    {
      more := pos < |m.segments|;
      if more {
        queryStart', queryEnd', assetStart', assetEnd' := m.segments[pos].0, m.segments[pos].1, m.segments[pos].2, m.segments[pos].3;
        pos' := pos + 1;
      } else {
        queryStart', queryEnd', assetStart', assetEnd', pos' := queryStart, queryEnd, assetStart, assetEnd, pos;
      }
    }
  }
}
