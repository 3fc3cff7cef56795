/**
 * The per-client request counter in front of the API (`RateLimitMiddleware`):
 * a Redis counter per IP address, given a one-minute lifetime when it is
 * created, and a 429 answer once it passes 100.
 */
module RateLimit {
  import opened Common

  const Limit: nat := 100
  const WindowSeconds: nat := 60
  const KeyPrefix: string := "ratelimit:"
  const UnknownClient: string := "unknown"

  /** A Redis counter and the instant its key expires, if an expiry was ever set. */
  datatype Counter = Counter(count: nat, expiresAt: Option<int>)

  datatype Outcome = Forwarded | TooManyRequests

  /** The counter key: the client's address, or "unknown" when there is none. */
  function KeyFor(ip: Option<string>): string
  {
    KeyPrefix + OrElse(ip, UnknownClient)
  }

  /** The counter as Redis sees it at `now`: an expired key reads as absent. */
  function LiveCount(store: map<string, Counter>, key: string, now: int): nat
  {
    if key !in store then 0
    else if store[key].expiresAt.Some? && store[key].expiresAt.value <= now then 0
    else store[key].count
  }

  /** `StringIncrementAsync`, then `KeyExpireAsync` only when the count has just become 1. */
  function Bump(store: map<string, Counter>, key: string, now: int): (r: map<string, Counter>)
    ensures key in r && r[key].count == LiveCount(store, key, now) + 1
    ensures r[key].count == 1 ==> r[key].expiresAt == Some(now + WindowSeconds)
    ensures r[key].count > 1 ==> r[key].expiresAt == store[key].expiresAt
    ensures forall k :: k != key ==> (k in r <==> k in store) && (k in store ==> r[k] == store[k])
  {
    var n := LiveCount(store, key, now) + 1;
    store[key := Counter(n, if n == 1 then Some(now + WindowSeconds) else store[key].expiresAt)]
  }

  /** `n` requests from one key at the given instants: the final store and how many were forwarded. */
  function Replay(store: map<string, Counter>, key: string, times: seq<int>): (r: (map<string, Counter>, nat))
    ensures r.1 <= |times|
    decreases |times|
  {
    if times == [] then (store, 0)
    else
      var next := Bump(store, key, times[0]);
      var (final, passed) := Replay(next, key, times[1..]);
      (final, passed + (if next[key].count <= Limit then 1 else 0))
  }

  /** Inside one window the counter only grows, and its expiry stays where the first request put it. */
  lemma {:induction false} ReplayInWindow(store: map<string, Counter>, key: string, times: seq<int>, start: int)
    requires key in store && store[key].expiresAt == Some(start + WindowSeconds)
    requires store[key].count >= 1
    requires forall i :: 0 <= i < |times| ==> times[i] < start + WindowSeconds
    ensures var (final, passed) := Replay(store, key, times);
      key in final && final[key].count == store[key].count + |times| &&
      final[key].expiresAt == Some(start + WindowSeconds) &&
      passed == Max(0, Min(|times|, Limit - store[key].count))
    decreases |times|
  {
    if times != [] {
      var next := Bump(store, key, times[0]);
      assert LiveCount(store, key, times[0]) == store[key].count;
      ReplayInWindow(next, key, times[1..], start);
    }
  }

  /**
   * The first request of a window opens it for a minute; within that
   * minute the first 100 requests pass and every later one is refused,
   * though each is still counted.
   */
  lemma WindowAdmitsOneHundred(store: map<string, Counter>, key: string, times: seq<int>)
    requires |times| >= 1 && LiveCount(store, key, times[0]) == 0
    requires forall i :: 0 <= i < |times| ==> times[i] < times[0] + WindowSeconds
    ensures var (final, passed) := Replay(store, key, times);
      key in final && final[key].count == |times| &&
      final[key].expiresAt == Some(times[0] + WindowSeconds) &&
      passed == Min(|times|, Limit)
  {
    var next := Bump(store, key, times[0]);
    ReplayInWindow(next, key, times[1..], times[0]);
  }

  /** `RateLimitMiddleware` over the Redis counters it writes. */
  class RateLimiter {
    var counters: map<string, Counter>

    constructor ()
      ensures counters == map[]
    {
      counters := map[];
    }

    /** `InvokeAsync`: every request is counted; only counts up to the limit are forwarded. */
    method Invoke(ip: Option<string>, now: int) returns (outcome: Outcome)
      modifies this
      ensures counters == Bump(old(counters), KeyFor(ip), now)
      ensures outcome == Forwarded <==> LiveCount(old(counters), KeyFor(ip), now) < Limit
    {
      var key := KeyFor(ip);
      var count := LiveCount(counters, key, now) + 1;
      var expiresAt := if key in counters then counters[key].expiresAt else None;
      counters := counters[key := Counter(count, expiresAt)];
      if count == 1 {
        counters := counters[key := Counter(count, Some(now + WindowSeconds))];
      }
      if count > Limit {
        return TooManyRequests;
      }
      outcome := Forwarded;
    }
  }

  /** Requests without an address all share one counter. */
  lemma UnknownClientsShareACounter()
    ensures KeyFor(None) == "ratelimit:unknown"
  {
  }

  /** Different addresses never share a counter. */
  lemma CountersArePerAddress(a: string, b: string)
    requires a != b
    ensures KeyFor(Some(a)) != KeyFor(Some(b))
  {
    assert KeyFor(Some(a))[|KeyPrefix|..] == a;
    assert KeyFor(Some(b))[|KeyPrefix|..] == b;
  }
}
