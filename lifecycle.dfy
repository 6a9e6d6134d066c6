/** The one-shot future as a small state machine. A future is `Live` while its
    C handle is non-nil and `Consumed` once `Get` has nulled it. Each `Get`
    call is one step; `Replies` runs a sequence of them. The class method
    `MetadataSearch.MetadataSearchFuture.Get` is proved to take exactly the
    step `GetReply` describes. */
module Lifecycle {
  import opened Types
  import opened Decoder
  import opened Native

  datatype FutureState = Live | Consumed

  /** The reply of a `Get` that gets past the nil check. */
  function Serve(c: Completion): (r: Result<SearchResult>)
    ensures r != Err(AlreadyCalled)
    ensures r.Ok? <==> c.Completed?
    ensures c.Completed? ==> r.value.lookupID == c.raw.lookupID && |r.value.matches| == |c.raw.matches|
  {
    match c
    case Completed(raw) => Ok(Decode(raw))
    case Failed(code) => Err(StatusError(code))
  }

  /** The reply of one `Get` on a future in state `s`, whose fetch (if it
      reaches the service) ends as `c`. Whatever the reply, the state after
      the call is `Consumed`. */
  function GetReply(s: FutureState, c: Completion): (r: Result<SearchResult>)
    ensures r == Err(AlreadyCalled) <==> s == Consumed
    ensures r.Ok? <==> (s == Live && c.Completed?)
  {
    match s
    case Consumed => Err(AlreadyCalled)
    case Live => Serve(c)
  }

  /** The replies to |cs| successive `Get` calls, the i-th call's fetch
      ending as cs[i] should it reach the service. */
  function Replies(s: FutureState, cs: seq<Completion>): (r: seq<Result<SearchResult>>)
    ensures |r| == |cs|
    decreases cs
  {
    if cs == [] then [] else [GetReply(s, cs[0])] + Replies(Consumed, cs[1..])
  }

  /** How many replies came from a real fetch rather than the nil check. */
  function CountServed(rs: seq<Result<SearchResult>>): nat
  {
    if rs == [] then 0
    else (if rs[0] == Err(AlreadyCalled) then 0 else 1) + CountServed(rs[1..])
  }

  /** Consumed is sticky: on a consumed future every call reports
      `AlreadyCalled`, whatever the service would have answered. */
  lemma {:induction false} ConsumedIsSticky(cs: seq<Completion>)
    ensures forall i :: 0 <= i < |cs| ==> Replies(Consumed, cs)[i] == Err(AlreadyCalled)
  {
    if cs != [] {
      ConsumedIsSticky(cs[1..]);
    }
  }

  /** Only the first call can reach the service: it is served when the
      future starts live, and every later call reports `AlreadyCalled`,
      including after a first call that failed. */
  lemma OnlyFirstGetIsServed(s: FutureState, cs: seq<Completion>)
    ensures |cs| > 0 ==> Replies(s, cs)[0] == (if s == Live then Serve(cs[0]) else Err(AlreadyCalled))
    ensures forall i :: 0 < i < |cs| ==> Replies(s, cs)[i] == Err(AlreadyCalled)
  {
    if cs != [] {
      ConsumedIsSticky(cs[1..]);
      assert forall i :: 0 < i < |cs| ==> Replies(s, cs)[i] == Replies(Consumed, cs[1..])[i - 1];
    }
  }

  lemma {:induction false} NoneServedWhenConsumed(cs: seq<Completion>)
    ensures CountServed(Replies(Consumed, cs)) == 0
  {
    if cs != [] {
      assert Replies(Consumed, cs)[1..] == Replies(Consumed, cs[1..]);
      NoneServedWhenConsumed(cs[1..]);
    }
  }

  /** At most one real `Get`: exactly one call in any sequence is served if
      the future starts live and is called at all, and none otherwise. */
  lemma ExactlyOneServed(s: FutureState, cs: seq<Completion>)
    ensures CountServed(Replies(s, cs)) == (if s == Live && cs != [] then 1 else 0)
  {
    if cs != [] {
      assert Replies(s, cs)[1..] == Replies(Consumed, cs[1..]);
      NoneServedWhenConsumed(cs[1..]);
    }
  }
}
