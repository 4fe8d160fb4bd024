/**
 * The host objects the plugin works on, reduced to the state the plugin reads
 * and writes: the album's in-flight counter and finalize signal, a track's
 * tag map, the web service's queue of requests awaiting a reply, and the
 * process-wide rate-control registry.
 */
module Picard {
  import opened Wrappers

  /** An album being loaded: `_requests` and the calls of `_finalize_loading`. */
  class Album {
    /** `_requests`: requests the album still waits for. */
    var requests: int
    /** How many times `_finalize_loading` has been called. */
    var finalizeCount: nat

    constructor (requests: int)
      ensures this.requests == requests && finalizeCount == 0
    {
      this.requests := requests;
      finalizeCount := 0;
    }

    /** `_finalize_loading(None)`: only that it is called is modelled. */
    method FinalizeLoading()
      modifies this`finalizeCount
      ensures finalizeCount == old(finalizeCount) + 1
    {
      finalizeCount := finalizeCount + 1;
    }
  }

  /** A track's metadata: a mutable map from tag name to value. */
  class Metadata {
    var tags: map<string, string>

    constructor (tags: map<string, string>)
      ensures this.tags == tags
    {
      this.tags := tags;
    }

    /** `metadata[name]`, with an absent tag as `None`. */
    function Get(name: string): (r: Option<string>)
      reads this
      ensures r.Some? <==> name in tags
      ensures r.Some? ==> r.value == tags[name]
    {
      if name in tags then Some(tags[name]) else None
    }

    /** `metadata[name] = value`. */
    method Set(name: string, value: string)
      modifies this
      ensures tags == old(tags)[name := value]
    {
      tags := tags[name := value];
    }
  }

  /**
   * A GET handed to the web service. The continuation it carries is always the
   * plugin's completion handler, bound to `album` and `metadata`.
   */
  datatype Request = Request(
    host: string,
    port: int,
    path: string,
    queryArgs: map<string, string>,
    parseResponseType: Option<string>,
    priority: bool,
    album: Album,
    metadata: Metadata)

  /** The web service, seen as the queue of requests whose reply has not been delivered yet. */
  class WebService {
    var pending: seq<Request>

    constructor ()
      ensures pending == []
    {
      pending := [];
    }

    /** `webservice.get(...)`: queue one request. */
    method Get(r: Request)
      modifies this
      ensures pending == old(pending) + [r]
    {
      pending := pending + [r];
    }

    /** The reply to `pending[i]` arrives: the request leaves the queue, once. */
    method Take(i: nat) returns (r: Request)
      requires i < |pending|
      modifies this
      ensures r == old(pending[i])
      ensures pending == old(pending[..i] + pending[i + 1..])
    {
      r := pending[i];
      pending := pending[..i] + pending[i + 1..];
    }
  }

  /** Number of queued requests whose continuation is bound to `a`. */
  function Outstanding(reqs: seq<Request>, a: Album): nat
  {
    if reqs == [] then 0
    else (if reqs[0].album == a then 1 else 0) + Outstanding(reqs[1..], a)
  }

  /** Counting over a concatenation adds the counts. */
  lemma {:induction false} OutstandingConcat(xs: seq<Request>, ys: seq<Request>, a: Album)
    ensures Outstanding(xs + ys, a) == Outstanding(xs, a) + Outstanding(ys, a)
  {
    if xs != [] {
      assert (xs + ys)[1..] == xs[1..] + ys;
      OutstandingConcat(xs[1..], ys, a);
    } else {
      assert xs + ys == ys;
    }
  }

  /** Queuing a request for `a` raises its count by one; one for another album leaves it. */
  lemma OutstandingAppend(xs: seq<Request>, r: Request, a: Album)
    ensures Outstanding(xs + [r], a) == Outstanding(xs, a) + (if r.album == a then 1 else 0)
  {
    OutstandingConcat(xs, [r], a);
  }

  /** Taking `xs[i]` out of the queue lowers the count of its album by one and no other. */
  lemma OutstandingRemove(xs: seq<Request>, i: nat, a: Album)
    requires i < |xs|
    ensures Outstanding(xs[..i] + xs[i + 1..], a)
            == Outstanding(xs, a) - (if xs[i].album == a then 1 else 0)
  {
    assert xs == xs[..i] + ([xs[i]] + xs[i + 1..]);
    OutstandingConcat(xs[..i], [xs[i]] + xs[i + 1..], a);
    OutstandingConcat([xs[i]], xs[i + 1..], a);
    OutstandingConcat(xs[..i], xs[i + 1..], a);
  }

  /** `ratecontrol`: the minimum delay in milliseconds registered per (host, port). */
  class RateControl {
    var minimumDelays: map<(string, int), real>

    constructor ()
      ensures minimumDelays == map[]
    {
      minimumDelays := map[];
    }

    /** `set_minimum_delay(hostkey, delay)`: the last registration wins. */
    method SetMinimumDelay(hostKey: (string, int), delay: real)
      modifies this
      ensures minimumDelays == old(minimumDelays)[hostKey := delay]
    {
      minimumDelays := minimumDelays[hostKey := delay];
    }
  }
}
