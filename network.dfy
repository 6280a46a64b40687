// The resilient client of frontend/src/core/network.js: the offline check of
// `safeFetch` and the bounded retry loop of `fetchWithRetry`. The transport and
// the clock are abstracted: each attempt's environment is an input, and the
// waits the loop would perform are returned as a list of delays.
module Network {
  import opened Config
  import opened Utils

  /** What `fetch` does with a request that was sent. */
  datatype Transport = Responded(status: int) | TimedOut | TransportFailed

  /** The environment of one attempt: `navigator.onLine`, and what `fetch` would do. */
  datatype Probe = Probe(online: bool, transport: Transport)

  /** The errors `lastErr` can hold. */
  datatype FetchError =
    | Offline                  // thrown by safeFetch, code OFFLINE
    | Aborted                  // the timeout signal fired (AbortError)
    | Failed                   // any other transport error
    | HttpStatus(status: int)  // `HTTP <status>` built for a non-ok response
    | RetriesFailed            // `new Error("fetchWithRetry failed")` when no attempt ran

  /** What one call of `safeFetch` produces: a response of any status, or a thrown error. */
  datatype Outcome = Response(status: int) | Thrown(error: FetchError)

  /** The overall result of `fetchWithRetry`: an ok response, or the error it throws. */
  datatype FetchResult = Ok(status: int) | Err(error: FetchError)

  /** `res.ok`: the status is in the 2xx range. */
  predicate IsOk(o: Outcome) {
    o.Response? && 200 <= o.status <= 299
  }

  /** `safeFetch`: when offline it throws OFFLINE and never issues the request;
      otherwise the request is sent. `sent` tells whether `fetch` was called. */
  function SafeFetch(p: Probe): (r: (Outcome, bool))
    ensures !p.online ==> r == (Thrown(Offline), false)
    ensures p.online ==> r.1 && (r.0.Response? <==> p.transport.Responded?)
    ensures p.online && p.transport.Responded? ==> r.0.status == p.transport.status
  {
    if !p.online then (Thrown(Offline), false)
    else match p.transport
      case Responded(s) => (Response(s), true)
      case TimedOut => (Thrown(Aborted), true)
      case TransportFailed => (Thrown(Failed), true)
  }

  function OutcomeOf(p: Probe): Outcome {
    SafeFetch(p).0
  }

  /** The error an attempt leaves in `lastErr`. */
  function ErrorOf(o: Outcome): FetchError
    requires !IsOk(o)
  {
    match o
    case Response(s) => HttpStatus(s)
    case Thrown(e) => e
  }

  /** The waits of the attempts in `ps`: attempt k (1-based) waits `300 * k` ms when its
      call threw, and not at all when it got a non-ok response. */
  function DelaysOf(ps: seq<Probe>): seq<nat> {
    if ps == [] then []
    else DelaysOf(ps[..|ps| - 1]) + (if OutcomeOf(ps[|ps| - 1]).Thrown? then [300 * |ps|] else [])
  }

  /** The number of attempts among `ps` that issued a request. */
  function SentCount(ps: seq<Probe>): nat {
    if ps == [] then 0 else SentCount(ps[..|ps| - 1]) + (if ps[|ps| - 1].online then 1 else 0)
  }

  /** `fetchWithRetry`: at most `MaxBackendRetries` attempts; returns the first ok response
      at once, and otherwise fails with the error recorded by the last attempt.
      `probes[k]` is the environment of attempt k + 1. */
  method FetchWithRetry(probes: seq<Probe>)
    returns (result: FetchResult, attempts: nat, requests: nat, delays: seq<nat>)
    requires |probes| >= MaxBackendRetries
    ensures 1 <= attempts <= MaxBackendRetries
    ensures forall k :: 0 <= k < attempts - 1 ==> !IsOk(OutcomeOf(probes[k]))
    ensures result.Ok? <==> IsOk(OutcomeOf(probes[attempts - 1]))
    ensures result.Ok? ==> result.status == OutcomeOf(probes[attempts - 1]).status
    ensures result.Err? ==>
      attempts == MaxBackendRetries && result.error == ErrorOf(OutcomeOf(probes[attempts - 1]))
    ensures delays == DelaysOf(probes[..attempts])
    ensures requests == SentCount(probes[..attempts])
  {
    var lastErr: Option<FetchError> := None;
    delays, requests := [], 0;
    var attempt := 1;
    while attempt <= MaxBackendRetries
      invariant 1 <= attempt <= MaxBackendRetries + 1
      invariant forall k :: 0 <= k < attempt - 1 ==> !IsOk(OutcomeOf(probes[k]))
      invariant attempt == 1 ==> lastErr == None
      invariant attempt > 1 ==> lastErr == Some(ErrorOf(OutcomeOf(probes[attempt - 2])))
      invariant delays == DelaysOf(probes[..attempt - 1])
      invariant requests == SentCount(probes[..attempt - 1])
    {
      ghost var done := probes[..attempt];
      assert done[..attempt - 1] == probes[..attempt - 1];
      var (outcome, sent) := SafeFetch(probes[attempt - 1]);
      if sent {
        requests := requests + 1;
      }
      if outcome.Response? {
        if !(200 <= outcome.status <= 299) {
          lastErr := Some(HttpStatus(outcome.status));
          attempt := attempt + 1;
          continue;
        }
        result, attempts := Ok(outcome.status), attempt;
        return;
      } else {
        lastErr := Some(outcome.error);
      }
      delays := delays + [300 * attempt];
      attempt := attempt + 1;
    }
    attempts := MaxBackendRetries;
    result := Err(if lastErr.Some? then lastErr.value else RetriesFailed);
  }

  /** `v` is the wait of some attempt k of `ps` whose call threw. */
  ghost predicate ThrownWait(ps: seq<Probe>, v: nat) {
    exists k :: 1 <= k <= |ps| && v == 300 * k && OutcomeOf(ps[k - 1]).Thrown?
  }

  /** There are at most as many waits as attempts, and none is longer than `300 * |ps|`. */
  lemma {:induction false} DelaysBounded(ps: seq<Probe>)
    ensures |DelaysOf(ps)| <= |ps|
    ensures forall i :: 0 <= i < |DelaysOf(ps)| ==> DelaysOf(ps)[i] <= 300 * |ps|
  {
    if ps != [] {
      var p := ps[..|ps| - 1];
      DelaysBounded(p);
      assert DelaysOf(ps)[..|DelaysOf(p)|] == DelaysOf(p);
    }
  }

  /** The waits grow strictly from one attempt to the next. */
  lemma {:induction false} DelaysIncreasing(ps: seq<Probe>)
    ensures forall i, j :: 0 <= i < j < |DelaysOf(ps)| ==> DelaysOf(ps)[i] < DelaysOf(ps)[j]
  {
    if ps != [] {
      var p := ps[..|ps| - 1];
      DelaysIncreasing(p);
      DelaysBounded(p);
      var d, dp := DelaysOf(ps), DelaysOf(p);
      assert d[..|dp|] == dp;
      forall i, j | 0 <= i < j < |d|
        ensures d[i] < d[j]
      {
        if j >= |dp| {
          assert d[j] == 300 * |ps| && d[i] == dp[i];
        } else {
          assert d[i] == dp[i] && d[j] == dp[j];
        }
      }
    }
  }

  /** Every wait is `300 * k` for an attempt k whose call threw. */
  lemma {:induction false} DelaysAreThrownWaits(ps: seq<Probe>)
    ensures forall i :: 0 <= i < |DelaysOf(ps)| ==> ThrownWait(ps, DelaysOf(ps)[i])
  {
    if ps != [] {
      var p := ps[..|ps| - 1];
      DelaysAreThrownWaits(p);
      var d, dp := DelaysOf(ps), DelaysOf(p);
      assert d[..|dp|] == dp;
      forall i | 0 <= i < |d|
        ensures ThrownWait(ps, d[i])
      {
        if i < |dp| {
          assert ThrownWait(p, dp[i]);
          var k :| 1 <= k <= |p| && dp[i] == 300 * k && OutcomeOf(p[k - 1]).Thrown?;
          assert ps[k - 1] == p[k - 1];
        } else {
          assert d[i] == 300 * |ps| && OutcomeOf(ps[|ps| - 1]).Thrown?;
        }
      }
    }
  }

  /** Every attempt k whose call threw is followed by a wait of `300 * k`, the final
      attempt included. */
  lemma {:induction false} ThrownIsWaited(ps: seq<Probe>, k: nat)
    requires 1 <= k <= |ps| && OutcomeOf(ps[k - 1]).Thrown?
    ensures 300 * k in DelaysOf(ps)
  {
    var p := ps[..|ps| - 1];
    if k < |ps| {
      assert p[k - 1] == ps[k - 1];
      ThrownIsWaited(p, k);
    }
  }

  /** A throwing last attempt appends its own wait to the waits of the earlier ones. */
  lemma ThrownLastWaits(ps: seq<Probe>, p: seq<Probe>)
    requires ps != [] && p == ps[..|ps| - 1] && OutcomeOf(ps[|ps| - 1]).Thrown?
    ensures DelaysOf(ps) == DelaysOf(p) + [300 * |ps|]
  {
  }

  /** When every attempt throws, the loop waits 300, 600 and 900 ms, the last one after
      the final attempt. */
  lemma AllThrownDelays(ps: seq<Probe>)
    requires |ps| == MaxBackendRetries
    requires forall k :: 0 <= k < |ps| ==> OutcomeOf(ps[k]).Thrown?
    ensures DelaysOf(ps) == [300, 600, 900]
  {
    var p0, p1, p2 := ps[..0], ps[..1], ps[..2];
    assert p1[0] == ps[0] && p2[1] == ps[1] && p1[..0] == p0 && p2[..1] == p1 && ps[..2] == p2;
    ThrownLastWaits(p1, p0);
    ThrownLastWaits(p2, p1);
    ThrownLastWaits(ps, p2);
    assert p0 == [];
  }

  /** Non-ok responses are retried without any wait. */
  lemma {:induction false} NonOkNoDelay(ps: seq<Probe>)
    requires forall k :: 0 <= k < |ps| ==> OutcomeOf(ps[k]).Response?
    ensures DelaysOf(ps) == []
  {
    if ps != [] {
      var p := ps[..|ps| - 1];
      assert forall k :: 0 <= k < |p| ==> p[k] == ps[k];
      NonOkNoDelay(p);
    }
  }

  /** While offline no request is ever issued. */
  lemma {:induction false} OfflineSendsNothing(ps: seq<Probe>)
    requires forall k :: 0 <= k < |ps| ==> !ps[k].online
    ensures SentCount(ps) == 0
  {
    if ps != [] {
      var p := ps[..|ps| - 1];
      assert forall k :: 0 <= k < |p| ==> p[k] == ps[k];
      OfflineSendsNothing(p);
    }
  }
}
