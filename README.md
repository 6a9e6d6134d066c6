# Metadata search: one-shot futures and the result decoder

This project models the Go wrapper `metadata_search.go` of the Pex
Attribution Engine SDK. The wrapper sits over a C SDK. It submits a
metadata search without blocking (`MetadataSearch.Start`). It returns a
one-shot `MetadataSearchFuture` whose `Get` waits for the remote result,
decodes it and releases the future's C handle. `processResult` decodes a
completed result through two nested cursors: matches, then the segments of
each match.

The C SDK is modelled in `native.dfy` as abstract operations on handle
objects:

- `Sdk.live` is the ghost set of C handles allocated and not yet deleted.
  Every "no leak" property is stated on it.
- `Sdk.allocations` is a ghost count of every handle ever allocated. It
  only grows, by one per `*_New` call, so it shows where nothing was
  allocated at all.
- `Sdk.calls` is a ghost log of the calls that reach the remote service,
  each with what it reported: the start status and the lookup ID the
  service assigned, or how the fetch ended.
- The remote answers are nondeterministic. Both the start status and the
  fetch outcome are chosen freely, and the log records the choice. `Start`
  and `Get` are tied to the log entry their own call left.
- `statusToError` is modelled as `StatusToError` on an uninterpreted status
  code. It gives no error for a good status and the status's own error
  otherwise.
- The cursors follow one assumption about the unseen C code. At position
  `pos`, while elements remain, a cursor loads element `pos`, advances the
  position by one and returns true. Otherwise it returns false and changes
  nothing. The position counters at metadata_search.go:144 and 152 suggest
  this.

Files:

- `types.dfy`: `int64`/`uint64`, the decoded `SearchResult`/`Match`/`Segment`
  tree, `Error` (`AlreadyCalled` or a status error) and `Result`, the Go
  `(value, error)` pair.
- `decoder.dfy`: the raw data behind a result handle, and the reference
  functions `DecodeSegments`, `DecodeMatches` and `Decode`. They grow lists
  by appending, as the loops do. The lemmas here prove order, one-to-one
  correspondence and offset fidelity.
- `lifecycle.dfy`: the future as a two-state machine (`Live`/`Consumed`).
  `GetReply` is one `Get` step. `Replies` runs a sequence of `Get` calls.
  The lemmas here prove that the consumed state is sticky and that exactly
  one real `Get` happens.
- `native.dfy`: the C handles and the SDK calls.
- `metadata_search.dfy`: the classes `MetadataSearchSession` (Go's
  `MetadataSearch`) and `MetadataSearchFuture`. Their methods `Start`,
  `Get`, `Close` and `ProcessResult` are proved against the functions above
  and against `Sdk.live` and `Sdk.calls`. A future's `State()` is `Live`
  while its handle is non-nil and `Consumed` after that. It is a definition
  used in `Get`'s contract, not an operation of the source.

Go's `defer` calls are written out explicitly at the end of each method,
last registered first. The inner segment loop of `processResult` lives in
its own method, `CollectSegments`. Its handle and data flow are those of
the source, and splitting it out keeps each proof small. The session handle
is allocated by client code outside the modelled file. `Sdk.NewSearch`
stands in for that allocation, so a `MetadataSearchSession` can be built
over a live handle.

## Model

| member | source | states |
|---|---|---|
| `Decoder.DecodeSegment` | metadata_search.go:156-161 | the `Segment` literal takes the four cursor offsets, each in its own role |
| `Decoder.DecodeMatch` | metadata_search.go:164-167 | the match literal takes the loaded match's asset ID and one segment per raw segment |
| `Decoder.DecodeSegments` | metadata_search.go:152-162 | the segment list has one entry per cursor step of the match |
| `Decoder.DecodeMatches` | metadata_search.go:144-168 | the match list has one entry per cursor step of the result |
| `Decoder.Decode` | metadata_search.go:170-174 | the result echoes the handle's lookup ID and UGC ID and has one match per raw match |
| `Decoder.DecodeSegmentsSnoc` | metadata_search.go:156-161 | one more segment cursor step appends exactly the decoding of that segment at the end |
| `Decoder.DecodeMatchesSnoc` | metadata_search.go:164-167 | one more match cursor step appends exactly the decoding of that match at the end |
| `Decoder.DecodedSegments` | metadata_search.go:155-161 | segments keep cursor order, and the k-th carries the k-th tuple's four offsets in their roles, unchanged |
| `Decoder.DecodedMatches` | metadata_search.go:164-167 | matches keep cursor order, and the k-th carries the k-th match's asset ID and the decoding of its own segments |
| `Decoder.DecodeIsFaithful` | metadata_search.go:137-175 | the whole tree: IDs echoed, match and segment counts equal, and every segment equal to its raw offsets |
| `Lifecycle.Serve` | metadata_search.go:125-129 | a call that reaches the service never reports `AlreadyCalled`; it succeeds exactly when the fetch completed, with the result's lookup ID and match count |
| `Lifecycle.GetReply` | metadata_search.go:104-130 | one `Get` step: `AlreadyCalled` exactly when the future is consumed; a result exactly when it is live and the fetch completed |
| `Lifecycle.Replies` | metadata_search.go:101-135 | n successive `Get` calls give n replies |
| `Lifecycle.ConsumedIsSticky` | metadata_search.go:108-110 | on a consumed future every call reports `AlreadyCalled`, whatever the service would answer |
| `Lifecycle.OnlyFirstGetIsServed` | metadata_search.go:104-135 | the first call is served if the future is live, and every later call reports `AlreadyCalled`, also after a failed first call |
| `Lifecycle.NoneServedWhenConsumed` | metadata_search.go:108-110 | no call on a consumed future reaches the service |
| `Lifecycle.ExactlyOneServed` | metadata_search.go:101-135 | a live future serves exactly one of any nonempty sequence of calls; a consumed one serves none |
| `Native.StatusToError` | metadata_search.go:80-83 | no error exactly for a good status; a status error is never `AlreadyCalled` |
| `Native.Sdk.NewStatus` | metadata_search.go:60-64 | a fresh status handle becomes live, and the allocation count grows by one |
| `Native.Sdk.NewRequest` | metadata_search.go:66-70 | a fresh request handle with no fingerprint becomes live, and the allocation count grows by one |
| `Native.Sdk.NewFuture` | metadata_search.go:72-75 | a fresh future handle becomes live, and the allocation count grows by one |
| `Native.Sdk.NewResult` | metadata_search.go:119-123 | a fresh result handle becomes live, and the allocation count grows by one |
| `Native.Sdk.NewMatch` | metadata_search.go:138-142 | a fresh scratch match handle becomes live, and the allocation count grows by one |
| `Native.Sdk.Delete` | metadata_search.go:82 | only a live handle can be deleted, and exactly it leaves the live set; nothing is allocated |
| `Native.Sdk.SetFingerprint` | metadata_search.go:77 | the request handle holds the caller's fingerprint |
| `Native.Sdk.StartSearch` | metadata_search.go:79 | one remote call, logged with the status it left in the status handle and the lookup ID it left in the future handle; no handle is allocated or released |
| `Native.Sdk.FetchResult` | metadata_search.go:125 | one remote call, logged with how it ended; the status is good exactly when the result handle was filled with the completed result |
| `Native.Sdk.NextMatch` | metadata_search.go:147 | true exactly while matches remain; then loads match `pos` into the scratch match and advances by one; otherwise changes nothing |
| `Native.Sdk.NextSegment` | metadata_search.go:155 | true exactly while segments remain; then yields segment `pos` and advances by one; otherwise leaves all five by-reference values unchanged |
| `MetadataSearch.MetadataSearchFuture.constructor` | metadata_search.go:86-89 | the future holds the given lookup ID and handle |
| `MetadataSearch.MetadataSearchFuture.Get` | metadata_search.go:104-130 | afterwards the handle is nil; the reply is `GetReply` from the prior state and the fetch the SDK logged; a nil handle means `AlreadyCalled` with no handle allocated at all and no remote call; otherwise exactly one logged fetch, two handles allocated (three when the result is decoded), and the future's handle is the only one released, on success and on failure alike |
| `MetadataSearch.MetadataSearchFuture.Close` | metadata_search.go:132-135 | the handle is deleted and set to nil |
| `MetadataSearch.MetadataSearchFuture.ProcessResult` | metadata_search.go:137-175 | the value built is `Decode` of the handle's contents, and the one scratch match handle allocated is released again |
| `MetadataSearch.MetadataSearchFuture.CollectSegments` | metadata_search.go:148-162 | starting from position 0 and an empty list, the loop yields the decoding of exactly the loaded match's segments |
| `MetadataSearch.MetadataSearchSession.Start` | metadata_search.go:59-90 | one logged start call, whose status decides the outcome: success exactly for a good status, otherwise the error `statusToError` gives. On error: no future, a status error, and the live set as before (the future handle was deleted). On success: a fresh live future that owns exactly the allocated future handle, whose lookup ID is the one the start call logged; no other handle stays live. Three handles are allocated either way |
| `MetadataSearch.StartGetGetAgain` | metadata_search.go:101-111 | start, then `Get` twice: every handle is released whatever the service answers; a started search makes exactly two logged calls, the future carries the logged lookup ID, the first `Get` is served with the logged fetch and the second reports `AlreadyCalled`; a refused start makes one call with a bad status |

## Left out

- The C SDK itself: network submission, the blocking wait and the real
  cursors. They are abstract operations with nondeterministic answers and
  the cursor assumption stated above.
- The `sync.Mutex` in `Get`. Its only job is to serialise concurrent
  callers. `Get` is modelled sequentially, so the concurrent single-winner
  property is not modelled. It follows for a serialised execution from
  `Lifecycle.ExactlyOneServed`.
- The out-of-memory `panic` branches after each `*_New` call. Allocation
  always succeeds in the model.
- How fingerprints are built. A fingerprint is an opaque `CFingerprint`
  handle that is never null, so the nil dereference a nil `Fingerprint`
  field would cause in Go is not modelled.
- The `uint64(...)`/`int64(...)` conversions between C and Go integers.
  They are identity on values of the same width.
- The equality of the future's lookup ID and the result's lookup ID. It
  depends on the remote service, which is nondeterministic here, so no
  contract states it.
- Nil versus empty lists. For a result with no matches, or a match with no
  segments, Go's `processResult` returns a nil slice of length 0 rather
  than an allocated empty one. The model has an empty `seq`, since
  sequences have no nil. The zero-length behaviour the code gives is what
  is proved.
