/**
 * The fixed-window rate-limit step that both `RateLimiter.check` and the
 * request gate's `rateLimit` perform on their map of records: a missing or
 * expired record opens a new window with count 1; inside a window a request is
 * refused once the count has reached the limit, and otherwise counted.
 * The clock is a parameter (`now`, in milliseconds).
 */
module FixedWindow {

  datatype Entry = Entry(count: int, resetTime: int)

  type Store = map<string, Entry>

  function Max(a: int, b: int): int { if a < b then b else a }

  /** The record of `id` is missing, or `now` is strictly past its reset time. */
  predicate Expired(store: Store, id: string, now: int) {
    id !in store || now > store[id].resetTime
  }

  /** One rate-limit decision for `id` at time `now`: the new store and whether the request may pass. */
  function Step(store: Store, id: string, now: int, limit: int, window: int): (res: (Store, bool))
    ensures res.1 <==> Expired(store, id, now) || store[id].count < limit
    ensures !res.1 ==> res.0 == store
    ensures id in res.0 && res.0.Keys == store.Keys + {id}
    ensures forall k :: k in store && k != id ==> res.0[k] == store[k]
    ensures Expired(store, id, now) ==> res.0[id] == Entry(1, now + window)
    ensures !Expired(store, id, now) && res.1 ==>
      res.0[id] == Entry(store[id].count + 1, store[id].resetTime)
  {
    if Expired(store, id, now) then
      (store[id := Entry(1, now + window)], true)
    else if store[id].count >= limit then
      (store, false)
    else
      (store[id := store[id].(count := store[id].count + 1)], true)
  }

  /** Every stored count lies between 1 and the limit (or 1, for a limit below 1). */
  ghost predicate Bounded(store: Store, limit: int) {
    forall k :: k in store ==> 1 <= store[k].count <= Max(limit, 1)
  }

  /** A step keeps every stored count within bounds. */
  lemma StepKeepsBounded(store: Store, id: string, now: int, limit: int, window: int)
    requires Bounded(store, limit)
    ensures Bounded(Step(store, id, now, limit, window).0, limit)
  {
  }

  /** Replays requests from one identifier at the given times; returns the final store and how many passed. */
  function Replay(store: Store, id: string, times: seq<int>, limit: int, window: int): (res: (Store, nat))
    ensures res.1 <= |times|
    decreases |times|
  {
    if times == [] then (store, 0)
    else
      var (next, ok) := Step(store, id, times[0], limit, window);
      var (final, passed) := Replay(next, id, times[1..], limit, window);
      (final, if ok then passed + 1 else passed)
  }

  /**
   * Inside an open window (no request later than its reset time), at most
   * `limit - count` further requests pass.
   */
  lemma {:induction false} QuotaWithinWindow(store: Store, id: string, times: seq<int>, limit: int, window: int)
    requires id in store
    requires forall t :: t in times ==> t <= store[id].resetTime
    ensures Replay(store, id, times, limit, window).1 <= Max(limit - store[id].count, 0)
    decreases |times|
  {
    if times != [] {
      var (next, ok) := Step(store, id, times[0], limit, window);
      assert times[0] in times;
      assert next[id].resetTime == store[id].resetTime;
      assert ok ==> next[id].count == store[id].count + 1;
      assert forall t :: t in times[1..] ==> t in times;
      QuotaWithinWindow(next, id, times[1..], limit, window);
    }
  }

  /**
   * A request that opens a window, followed by requests no later than the
   * window's end: at most `limit` of them pass (one, for a limit below 1).
   */
  lemma QuotaFromNewWindow(store: Store, id: string, first: int, rest: seq<int>, limit: int, window: int)
    requires Expired(store, id, first)
    requires forall t :: t in rest ==> t <= first + window
    ensures Replay(store, id, [first] + rest, limit, window).1 <= Max(limit, 1)
  {
    var next := Step(store, id, first, limit, window).0;
    assert ([first] + rest)[1..] == rest;
    QuotaWithinWindow(next, id, rest, limit, window);
  }
}
