/** The window counter of RateLimiterMiddleware, over a Redis sorted set with an expiry. */
module RateLimiter {
  import opened Outcomes

  datatype Endpoint = Webhook | Api

  datatype Key = Key(endpoint: Endpoint, client: string)

  /** Windows are whole seconds, at least one. */
  datatype Limit = Limit(maxRequests: int, window: int)

  // ---------- what is counted ----------

  /** The seconds in which requests arrived; the score of a request is its second, and so is its member. */
  function Seconds(times: seq<real>): set<int> {
    set k | 0 <= k < |times| :: times[k].Floor
  }

  /** The distinct seconds in (now - window, now] in which a request arrived. */
  function InWindow(times: seq<real>, now: real, window: int): set<int> {
    set s | s in Seconds(times) && now.Floor - window < s <= now.Floor
  }

  function Interval(low: int, high: int): (r: set<int>)
    ensures forall s :: s in r <==> low < s <= high
    ensures low <= high ==> |r| == high - low
    decreases high - low
  {
    if high <= low then {} else Interval(low, high - 1) + {high}
  }

  lemma {:induction false} SubsetSize(a: set<int>, b: set<int>)
    requires a <= b
    ensures |a| <= |b|
  {
    if a != {} {
      var x := Member(a);
      SubsetSize(a - {x}, b - {x});
    }
  }

  /** However many requests arrive, the count never exceeds the length of the window. */
  lemma CountIsBounded(times: seq<real>, now: real, window: int)
    requires 1 <= window
    ensures |InWindow(times, now, window)| <= window
  {
    SubsetSize(InWindow(times, now, window), Interval(now.Floor - window, now.Floor));
  }

  /** One request in each second of a window. */
  function Steady(window: nat): seq<real> {
    seq(window, k => k as real)
  }

  /** So a limit can ever deny a request exactly if it is lower than its window is long. */
  lemma DeniesAtAll(limit: Limit)
    requires 1 <= limit.window
    ensures (exists times: seq<real>, now: real :: |InWindow(times, now, limit.window)| > limit.maxRequests)
       <==> limit.maxRequests < limit.window
  {
    forall times: seq<real>, now: real ensures |InWindow(times, now, limit.window)| <= limit.window {
      CountIsBounded(times, now, limit.window);
    }
    var w := limit.window;
    var times, now := Steady(w), (w - 1) as real;
    forall s | -1 < s <= w - 1 ensures s in Seconds(times) {
      assert times[s].Floor == s;
    }
    assert InWindow(times, now, w) == Interval(-1, w - 1);
  }

  const DEFAULT_API_LIMIT := Limit(100, 60)
  const DEFAULT_WEBHOOK_LIMIT := Limit(30, 60)

  /** With the default settings the general limit never denies anything; the webhook limit can. */
  lemma DefaultLimits(times: seq<real>, now: real)
    ensures |InWindow(times, now, DEFAULT_API_LIMIT.window)| <= DEFAULT_API_LIMIT.maxRequests
    ensures exists ts: seq<real>, t: real :: |InWindow(ts, t, DEFAULT_WEBHOOK_LIMIT.window)| > DEFAULT_WEBHOOK_LIMIT.maxRequests
  {
    CountIsBounded(times, now, DEFAULT_API_LIMIT.window);
    DeniesAtAll(DEFAULT_WEBHOOK_LIMIT);
  }

  // ---------- the middleware ----------

  function EndpointOf(path: string): Endpoint {
    if "/webhooks" <= path then Webhook else Endpoint.Api
  }

  /** The requests of a key that were counted, in order. */
  ghost predicate IsRun(times: seq<real>) {
    && (forall k :: 0 <= k < |times| ==> 0.0 <= times[k])
    && (forall j, k :: 0 <= j < k < |times| ==> times[j] <= times[k])
  }

  lemma SecondsGrow(times: seq<real>, now: real)
    ensures Seconds(times + [now]) == Seconds(times) + {now.Floor}
  {
    var all := times + [now];
    forall s | s in Seconds(times) + {now.Floor} ensures s in Seconds(all) {
      if s in Seconds(times) {
        var k :| 0 <= k < |times| && times[k].Floor == s;
        assert all[k].Floor == s;
      } else {
        assert all[|times|].Floor == s;
      }
    }
  }

  /** Dropping what the window has left and adding the present second counts exactly the new window. */
  lemma WindowSlides(times: seq<real>, now: real, window: int)
    requires 1 <= window && times != [] && IsRun(times + [now])
    ensures var last := times[|times| - 1];
      InWindow(times + [now], now, window)
      == (set s | s in InWindow(times, last, window) && !(0 <= s <= now.Floor - window)) + {now.Floor}
  {
    var all := times + [now];
    var last := times[|times| - 1];
    SecondsGrow(times, now);
    assert all[|times| - 1] == last && all[|times|] == now;
    forall s | s in Seconds(times) ensures 0 <= s <= last.Floor {
      var k :| 0 <= k < |times| && times[k].Floor == s;
      assert all[k] == times[k];
    }
  }

  /** Once the key may have expired, nothing it held could still be counted. */
  lemma NothingLeftToCount(times: seq<real>, now: real, window: int)
    requires 1 <= window && IsRun(times + [now])
    requires times != [] ==> times[|times| - 1] + window as real <= now
    ensures InWindow(times + [now], now, window) == {now.Floor}
  {
    var all := times + [now];
    SecondsGrow(times, now);
    forall s | s in Seconds(times) ensures s <= now.Floor - window {
      var k :| 0 <= k < |times| && times[k].Floor == s;
      assert all[k] == times[k] && all[|times| - 1] == times[|times| - 1];
    }
  }

  /** What is stored of a key is its window at the time of its last request. */
  ghost predicate Current(times: seq<real>, stored: set<int>, deadline: real, window: int) {
    && times != [] && IsRun(times)
    && stored == InWindow(times, times[|times| - 1], window)
    && deadline == times[|times| - 1] + window as real
  }

  /** The same of a key that was last hit by the time now. */
  ghost predicate Tracks(times: seq<real>, stored: set<int>, deadline: real, window: int, now: real) {
    Current(times, stored, deadline, window) && times[|times| - 1] <= now
  }

  lemma StillTracks(times: seq<real>, stored: set<int>, deadline: real, window: int, before: real, now: real)
    requires Tracks(times, stored, deadline, window, before) && before <= now
    ensures Tracks(times, stored, deadline, window, now)
  {
  }

  class RateLimiterMiddleware {
    const api: Limit
    const webhook: Limit
    const enabled: bool
    var sets: map<Key, set<int>>
    var deadlines: map<Key, real>
    // the counted requests of every key, and the time of the latest request
    ghost var hits: map<Key, seq<real>>
    ghost var clock: real

    function LimitOf(e: Endpoint): Limit {
      if e.Webhook? then webhook else api
    }

    ghost function HitsOf(key: Key): seq<real>
      reads this
    {
      if key in hits then hits[key] else []
    }

    ghost predicate Valid()
      reads this
    {
      && 1 <= api.window && 1 <= webhook.window && 0.0 <= clock
      && sets.Keys == deadlines.Keys == hits.Keys
      && forall key :: key in hits ==>
           Tracks(hits[key], sets[key], deadlines[key], LimitOf(key.endpoint).window, clock)
    }

    constructor (api: Limit, webhook: Limit, enabled: bool)
      requires 1 <= api.window && 1 <= webhook.window
      ensures Valid() && this.api == api && this.webhook == webhook && this.enabled == enabled && hits == map[]
    {
      this.api, this.webhook, this.enabled := api, webhook, enabled;
      sets, deadlines, hits, clock := map[], map[], map[], 0.0;
    }

    /** What the key holds once what the window has left is removed and the present second added.  gone says
        whether Redis has already dropped a key whose deadline has come. */
    method Refreshed(key: Key, now: real, gone: bool) returns (stored: set<int>)
      requires Valid() && clock <= now
      ensures IsRun(HitsOf(key) + [now])
      ensures stored == InWindow(HitsOf(key) + [now], now, LimitOf(key.endpoint).window)
    {
      var window := LimitOf(key.endpoint).window;
      ghost var times := HitsOf(key);
      assert IsRun(times + [now]) by {
        assert key in hits ==> Current(times, sets[key], deadlines[key], window);
      }
      if key in sets && !(gone && deadlines[key] <= now) {
        var present := sets[key];
        stored := (set s | s in present && !(0 <= s <= now.Floor - window)) + {now.Floor};
        WindowSlides(times, now, window);
      } else {
        stored := {now.Floor};
        NothingLeftToCount(times, now, window);
      }
    }

    /** The new members of the key, and its new time to live. */
    method Save(key: Key, stored: set<int>, deadline: real, now: real)
      requires Valid() && clock <= now
      requires Current(HitsOf(key) + [now], stored, deadline, LimitOf(key.endpoint).window)
      modifies this
      ensures Valid() && hits == old(hits)[key := old(HitsOf(key)) + [now]]
    {
      ghost var times := HitsOf(key) + [now];
      sets, deadlines, hits, clock := sets[key := stored], deadlines[key := deadline], hits[key := times], now;
      forall k | k in hits
        ensures Tracks(hits[k], sets[k], deadlines[k], LimitOf(k.endpoint).window, now) {
        if k != key {
          StillTracks(hits[k], sets[k], deadlines[k], LimitOf(k.endpoint).window, old(clock), now);
        }
      }
    }

    /** The pipeline of one request. */
    method Count(key: Key, now: real, gone: bool) returns (count: nat)
      requires Valid() && clock <= now
      modifies this
      ensures Valid() && hits == old(hits)[key := old(HitsOf(key)) + [now]]
      ensures count == |InWindow(hits[key], now, LimitOf(key.endpoint).window)|
    {
      var stored := Refreshed(key, now, gone);
      Save(key, stored, now + LimitOf(key.endpoint).window as real, now);
      return |stored|;
    }

    /** One request, of the limit for webhooks if its path starts like theirs, else of the general one; the two are counted
        apart, and so are clients.  A request is let through unless it is counted and too many seconds of its window were hit,
        denied requests included; neither the expiry of keys nor their removal enters the decision. */
    method Dispatch(path: string, client: string, now: real, gone: bool, call: Call) returns (allowed: bool)
      requires Valid() && clock <= now
      modifies this
      ensures Valid()
      ensures var isWebhook := "/webhooks" <= path;
        var limit := if isWebhook then webhook else api;
        var key := Key(if isWebhook then Webhook else Endpoint.Api, client);
        var counted := enabled && path != "/health" && call.TookEffect();
        && hits == (if counted then old(hits)[key := old(HitsOf(key)) + [now]] else old(hits))
        && (allowed <==> (counted && call.Ok? ==>
              |InWindow(hits[key], now, limit.window)| <= limit.maxRequests))
    {
      if !enabled || path == "/health" {
        return true;
      }
      var key := Key(EndpointOf(path), client);
      if call.Lost? {
        return true;
      }
      var count := Count(key, now, gone);
      return call.Late? || count <= LimitOf(key.endpoint).maxRequests;
    }
  }
}
