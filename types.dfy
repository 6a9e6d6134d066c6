/** Value types shared by the metadata-search model: fixed-width integers,
    the decoded result tree handed to callers, and the error taxonomy. */
module Types {

  /** Go's uint64: lookup, UGC and asset identifiers. */
  newtype uint64 = x: int | 0 <= x < 0x1_0000_0000_0000_0000

  /** Go's int64: segment time offsets in the service's own unit. */
  newtype int64 = x: int | -0x8000_0000_0000_0000 <= x < 0x8000_0000_0000_0000

  /** One time-aligned pairing between the query and a matched asset. */
  datatype Segment = Segment(queryStart: int64, queryEnd: int64, assetStart: int64, assetEnd: int64)

  /** A matched reference asset with its segments, in server order. */
  datatype Match = Match(assetID: uint64, segments: seq<Segment>)

  /** What a successful `Get` returns. */
  datatype SearchResult = SearchResult(lookupID: uint64, ugcID: uint64, matches: seq<Match>)

  /** Errors surfaced by `Start` and `Get`: the one raised locally by a second
      `Get`, and whatever the SDK status translates to. */
  datatype Error = AlreadyCalled | StatusError(code: nat)

  datatype Option<T> = None | Some(value: T)

  /** Go's `(value, error)` pair, in which exactly one side is non-nil. */
  datatype Result<T> = Ok(value: T) | Err(error: Error)
}
