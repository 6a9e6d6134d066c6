/** The result decoder's specification: the data a completed C result handle
    exposes through its cursors, and the value tree `processResult` builds
    from it. The walk itself is `MetadataSearch.MetadataSearchFuture.ProcessResult`;
    the functions here are what that loop is proved to compute. */
module Decoder {
  import opened Types

  /** One segment as `AE_MetadataSearchMatch_NextSegment` yields it: query
      start, query end, asset start, asset end. */
  type RawSegment = (int64, int64, int64, int64)

  /** One match as `AE_MetadataSearchResult_NextMatch` loads it into the
      scratch match handle. */
  datatype RawMatch = RawMatch(assetID: uint64, segments: seq<RawSegment>)

  /** Everything a completed result handle holds, in cursor order. */
  datatype RawResult = RawResult(lookupID: uint64, ugcID: uint64, matches: seq<RawMatch>)

  /** The `Segment` built from one cursor step: each offset in its own role. */
  function DecodeSegment(t: RawSegment): (r: Segment)
    ensures (r.queryStart, r.queryEnd, r.assetStart, r.assetEnd) == t
  {
    Segment(t.0, t.1, t.2, t.3)
  }

  /** The segment list the inner loop grows, one `append` per cursor step. */
  function DecodeSegments(ts: seq<RawSegment>): (r: seq<Segment>)
    ensures |r| == |ts|
  {
    if ts == [] then [] else DecodeSegments(ts[..|ts| - 1]) + [DecodeSegment(ts[|ts| - 1])]
  }

  /** The `MetadataSearchMatch` built from one loaded match. */
  function DecodeMatch(m: RawMatch): (r: Match)
    ensures r.assetID == m.assetID && |r.segments| == |m.segments|
  {
    Match(m.assetID, DecodeSegments(m.segments))
  }

  /** The match list the outer loop grows, one `append` per cursor step. */
  function DecodeMatches(ms: seq<RawMatch>): (r: seq<Match>)
    ensures |r| == |ms|
  {
    if ms == [] then [] else DecodeMatches(ms[..|ms| - 1]) + [DecodeMatch(ms[|ms| - 1])]
  }

  /** The result `processResult` returns for a completed result handle. */
  function Decode(raw: RawResult): (r: SearchResult)
    ensures r.lookupID == raw.lookupID && r.ugcID == raw.ugcID
    ensures |r.matches| == |raw.matches|
  {
    SearchResult(raw.lookupID, raw.ugcID, DecodeMatches(raw.matches))
  }

  /** Growing the cursor prefix by one segment appends exactly its decoding. */
  lemma DecodeSegmentsSnoc(ts: seq<RawSegment>, t: RawSegment)
    ensures DecodeSegments(ts + [t]) == DecodeSegments(ts) + [DecodeSegment(t)]
  {
  }

  /** Growing the cursor prefix by one match appends exactly its decoding. */
  lemma DecodeMatchesSnoc(ms: seq<RawMatch>, m: RawMatch)
    ensures DecodeMatches(ms + [m]) == DecodeMatches(ms) + [DecodeMatch(m)]
  {
  }

  /** Segments keep cursor order, and each one carries the four offsets the
      cursor yielded, in the same roles and unscaled. */
  lemma {:induction false} DecodedSegments(ts: seq<RawSegment>)
    ensures |DecodeSegments(ts)| == |ts|
    ensures forall k :: 0 <= k < |ts| ==>
              && DecodeSegments(ts)[k].queryStart == ts[k].0
              && DecodeSegments(ts)[k].queryEnd == ts[k].1
              && DecodeSegments(ts)[k].assetStart == ts[k].2
              && DecodeSegments(ts)[k].assetEnd == ts[k].3
  {
    if ts != [] {
      DecodedSegments(ts[..|ts| - 1]);
    }
  }

  /** Matches keep cursor order; each carries its own asset ID and the
      decoding of its own segments. */
  lemma {:induction false} DecodedMatches(ms: seq<RawMatch>)
    ensures |DecodeMatches(ms)| == |ms|
    ensures forall k :: 0 <= k < |ms| ==>
              && DecodeMatches(ms)[k].assetID == ms[k].assetID
              && DecodeMatches(ms)[k].segments == DecodeSegments(ms[k].segments)
  {
    if ms != [] {
      DecodedMatches(ms[..|ms| - 1]);
    }
  }

  /** The whole result tree: identifiers echoed, every match and every
      segment in cursor order, offsets copied unchanged. An empty cursor
      gives an empty list at either level. */
  lemma DecodeIsFaithful(raw: RawResult)
    ensures Decode(raw).lookupID == raw.lookupID && Decode(raw).ugcID == raw.ugcID
    ensures |Decode(raw).matches| == |raw.matches|
    ensures forall k :: 0 <= k < |raw.matches| ==>
              && Decode(raw).matches[k].assetID == raw.matches[k].assetID
              && |Decode(raw).matches[k].segments| == |raw.matches[k].segments|
    ensures forall k, j :: 0 <= k < |raw.matches| && 0 <= j < |raw.matches[k].segments| ==>
              Decode(raw).matches[k].segments[j]
                == Segment(raw.matches[k].segments[j].0, raw.matches[k].segments[j].1,
                           raw.matches[k].segments[j].2, raw.matches[k].segments[j].3)
  {
    DecodedMatches(raw.matches);
    forall k | 0 <= k < |raw.matches| {
      DecodedSegments(raw.matches[k].segments);
    }
  }
}
