/** `SlidingWindowLimiter.allow`: the pruned queue against the full history of
    allowed requests. Times are readings of one monotonic clock. */
module RateLimiter {

  ghost predicate Ordered(h: seq<real>) {
    forall i, j :: 0 <= i < j < |h| ==> h[i] <= h[j]
  }

  /** How many of the times lie after `since`. */
  function CountAfter(h: seq<real>, since: real): (n: nat)
    ensures n <= |h|
  {
    if h == [] then 0 else CountAfter(h[..|h| - 1], since) + if h[|h| - 1] > since then 1 else 0
  }

  /** How many lie after `since` and not after `until`. */
  function CountIn(h: seq<real>, since: real, until: real): nat {
    if h == [] then 0 else CountIn(h[..|h| - 1], since, until) + if since < h[|h| - 1] <= until then 1 else 0
  }

  /** The times at which requests were allowed, by the rule over the full history. */
  function Allowed(requests: seq<real>, max: nat, window: real): seq<real> {
    if requests == [] then []
    else
      var n := |requests| - 1;
      var before := Allowed(requests[..n], max, window);
      if CountAfter(before, requests[n] - window) < max then before + [requests[n]] else before
  }

  lemma {:induction false} NoneAfter(h: seq<real>, since: real)
    requires forall i :: 0 <= i < |h| ==> h[i] <= since
    ensures CountAfter(h, since) == 0
  {
    if h != [] { NoneAfter(h[..|h| - 1], since); }
  }

  lemma {:induction false} AllAfter(h: seq<real>, since: real)
    requires forall i :: 0 <= i < |h| ==> h[i] > since
    ensures CountAfter(h, since) == |h|
  {
    if h != [] { AllAfter(h[..|h| - 1], since); }
  }

  lemma {:induction false} CountAppend(a: seq<real>, b: seq<real>, since: real)
    ensures CountAfter(a + b, since) == CountAfter(a, since) + CountAfter(b, since)
  {
    if b == [] {
      assert a + b == a;
    } else {
      assert (a + b)[..|a + b| - 1] == a + b[..|b| - 1];
      CountAppend(a, b[..|b| - 1], since);
    }
  }

  /** What was dropped from the front no longer counts, what is left all does. */
  lemma QueueCounts(dropped: seq<real>, left: seq<real>, since: real)
    requires forall i :: 0 <= i < |dropped| ==> dropped[i] <= since
    requires forall i :: 0 <= i < |left| ==> left[i] > since
    ensures CountAfter(dropped + left, since) == |left|
  {
    CountAppend(dropped, left, since);
    NoneAfter(dropped, since);
    AllAfter(left, since);
  }

  ghost predicate AtMost(h: seq<real>, t: real) {
    forall i :: 0 <= i < |h| ==> h[i] <= t
  }

  lemma {:induction false} AllowedAtMost(requests: seq<real>, max: nat, window: real, t: real)
    requires AtMost(requests, t)
    ensures AtMost(Allowed(requests, max, window), t)
  {
    if requests != [] { AllowedAtMost(requests[..|requests| - 1], max, window, t); }
  }

  lemma {:induction false} AllowedOrdered(requests: seq<real>, max: nat, window: real)
    requires Ordered(requests)
    ensures Ordered(Allowed(requests, max, window))
  {
    if requests != [] {
      var n := |requests| - 1;
      AllowedOrdered(requests[..n], max, window);
      AllowedAtMost(requests[..n], max, window, requests[n]);
    }
  }

  lemma AllowedSnoc(requests: seq<real>, now: real, max: nat, window: real)
    ensures Allowed(requests + [now], max, window)
            == Allowed(requests, max, window)
               + if CountAfter(Allowed(requests, max, window), now - window) < max then [now] else []
  {
    assert (requests + [now])[..|requests|] == requests;
  }

  /** The queue is the end of the allowed history; what is missing from it is
      older than a window. */
  ghost predicate QueueOk(h: seq<real>, q: seq<real>, max: nat, window: real, clock: real) {
    Ordered(h) && AtMost(h, clock) && |q| <= max
    && |q| <= |h| && h[|h| - |q|..] == q && AtMost(h[..|h| - |q|], clock - window)
  }

  lemma QueueLater(h: seq<real>, q: seq<real>, max: nat, window: real, clock: real, now: real)
    requires QueueOk(h, q, max, window, clock) && clock <= now
    ensures QueueOk(h, q, max, window, now)
  {
  }

  lemma QueueShape(h: seq<real>, q: seq<real>, max: nat, window: real, clock: real)
    requires QueueOk(h, q, max, window, clock)
    ensures Ordered(q) && |q| <= max
  {
    forall i, j | 0 <= i < j < |q| ensures q[i] <= q[j] {
      assert q[i] == h[|h| - |q| + i] && q[j] == h[|h| - |q| + j];
    }
  }

  /** After popping what has left the window, the length of the queue decides. */
  lemma QueueDecides(h: seq<real>, q: seq<real>, max: nat, window: real, now: real)
    requires QueueOk(h, q, max, window, now) && (q != [] ==> q[0] > now - window)
    ensures CountAfter(h, now - window) == |q|
  {
    hide CountAfter;
    var k := |h| - |q|;
    assert h == h[..k] + q;
    forall i | 0 <= i < |q| ensures q[i] > now - window { assert q[i] == h[k + i] && q[0] == h[k]; }
    QueueCounts(h[..k], q, now - window);
  }

  lemma PushNow(h: seq<real>, q: seq<real>, max: nat, window: real, now: real)
    requires QueueOk(h, q, max, window, now) && |q| < max
    ensures QueueOk(h + [now], q + [now], max, window, now)
  {
    var k := |h| - |q|;
    assert (h + [now])[..k] == h[..k];
    assert (h + [now])[k..] == h[k..] + [now];
  }

  class SlidingWindowLimiter {
    const max: nat
    const window: real
    var hits: map<string, seq<real>>
    ghost var requests: map<string, seq<real>>   // every request ever made, by key
    ghost var clock: real

    ghost function Past(key: string): seq<real>
      reads this
    {
      if key in requests then requests[key] else []
    }

    function Queue(key: string): seq<real>
      reads this
    {
      if key in hits then hits[key] else []
    }

    ghost predicate Valid()
      reads this
    {
      forall key :: QueueOk(Allowed(Past(key), max, window), Queue(key), max, window, clock)
    }

    constructor (max: nat, window: real, ghost now: real)
      ensures Valid() && this.max == max && this.window == window && requests == map[] && clock == now
    {
      this.max, this.window := max, window;
      hits, requests, clock := map[], map[], now;
    }

    /** Allowed exactly when fewer than `max` requests of this key were allowed
        within the window that ends now. */
    method Allow(key: string, now: real) returns (ok: bool)
      requires Valid() && now >= clock
      modifies this
      ensures Valid() && clock == now && requests == old(requests)[key := old(Past(key)) + [now]]
      ensures ok <==> CountAfter(Allowed(old(Past(key)), max, window), now - window) < max
      ensures Ordered(Queue(key)) && |Queue(key)| <= max
      ensures forall k :: k != key ==> Queue(k) == old(Queue(k))
    {
      hide QueueOk, Allowed, CountAfter;
      ghost var h := Allowed(Past(key), max, window);
      Later(now);
      var q := PopOld(Queue(key), now - window, h, max, window, now);
      QueueDecides(h, q, max, window, now);
      AllowedSnoc(Past(key), now, max, window);
      assert h + [] == h;
      ok := |q| < max;
      if ok {
        PushNow(h, q, max, window, now);
        q := q + [now];
      }
      hits := hits[key := q];
      requests := requests[key := Past(key) + [now]];
      clock := now;
      forall k ensures QueueOk(Allowed(Past(k), max, window), Queue(k), max, window, now) {
        assert QueueOk(Allowed(old(Past(k)), max, window), old(Queue(k)), max, window, now);
      }
      QueueShape(Allowed(Past(key), max, window), Queue(key), max, window, now);
    }

    lemma Later(now: real)
      requires Valid() && now >= clock
      ensures forall key :: QueueOk(Allowed(Past(key), max, window), Queue(key), max, window, now)
    {
      hide Allowed, QueueOk;
      forall key ensures QueueOk(Allowed(Past(key), max, window), Queue(key), max, window, now) {
        QueueLater(Allowed(Past(key), max, window), Queue(key), max, window, clock, now);
      }
    }
  }

  /** The `popleft` loop. */
  method PopOld(queue: seq<real>, since: real, ghost h: seq<real>, ghost max: nat, ghost window: real, ghost now: real)
    returns (q: seq<real>)
    requires QueueOk(h, queue, max, window, now) && since == now - window
    ensures QueueOk(h, q, max, window, now) && (q != [] ==> q[0] > since)
  {
    hide QueueOk;
    q := queue;
    while q != [] && q[0] <= since
      invariant QueueOk(h, q, max, window, now)
      decreases |q|
    {
      PopOne(h, q, max, window, now);
      q := q[1..];
    }
  }

  lemma PopOne(h: seq<real>, q: seq<real>, max: nat, window: real, now: real)
    requires QueueOk(h, q, max, window, now) && q != [] && q[0] <= now - window
    ensures QueueOk(h, q[1..], max, window, now)
  {
    var k := |h| - |q|;
    assert h[k] == q[0] && h[k + 1..] == q[1..];
    assert h[..k + 1] == h[..k] + [q[0]];
  }

  // --------------------------------------------------------- no window overflows

  lemma CountInSnoc(h: seq<real>, t: real, since: real, until: real)
    ensures CountIn(h + [t], since, until) == CountIn(h, since, until) + if since < t <= until then 1 else 0
  {
    assert (h + [t])[..|h|] == h;
  }

  /** Between two readings, whatever lies in a window counts from its newest member. */
  lemma {:induction false} CountInIsAfter(h: seq<real>, since: real, until: real)
    requires AtMost(h, until)
    ensures CountIn(h, since, until) == CountAfter(h, since)
  {
    if h != [] { CountInIsAfter(h[..|h| - 1], since, until); }
  }

  lemma {:induction false} CountSmaller(h: seq<real>, since: real, later: real)
    requires since <= later
    ensures CountAfter(h, later) <= CountAfter(h, since)
  {
    if h != [] { CountSmaller(h[..|h| - 1], since, later); }
  }

  /** No window of that length, wherever it ends, ever holds more than `max`
      allowed requests. */
  lemma {:induction false} NoWindowOverflows(requests: seq<real>, max: nat, window: real, until: real)
    requires Ordered(requests) && window >= 0.0
    ensures CountIn(Allowed(requests, max, window), until - window, until) <= max
  {
    hide CountIn, CountAfter, Allowed;
    if requests == [] {
      NothingAllowed(max, window, until);
    } else {
      var n := |requests| - 1;
      var before, now := Allowed(requests[..n], max, window), requests[n];
      NoWindowOverflows(requests[..n], max, window, until);
      assert requests == requests[..n] + [now];
      AllowedSnoc(requests[..n], now, max, window);
      CountInSnoc(before, now, until - window, until);
      if until - window < now <= until {
        AllowedAtMost(requests[..n], max, window, now);
        CountInIsAfter(before, until - window, until);
        CountSmaller(before, now - window, until - window);
      }
      assert before + [] == before;
    }
  }

  lemma NothingAllowed(max: nat, window: real, until: real)
    ensures CountIn(Allowed([], max, window), until - window, until) == 0
  {
  }

  /** And the rule refuses nobody it need not: a refused request would have been
      one too many. */
  lemma RefusedOnlyWhenFull(requests: seq<real>, max: nat, window: real, now: real)
    requires AtMost(requests, now) && window > 0.0
    requires Allowed(requests + [now], max, window) == Allowed(requests, max, window)
    ensures CountIn(Allowed(requests, max, window) + [now], now - window, now) > max
  {
    hide CountIn, CountAfter, Allowed;
    var before := Allowed(requests, max, window);
    AllowedSnoc(requests, now, max, window);
    AllowedAtMost(requests, max, window, now);
    CountInIsAfter(before, now - window, now);
    CountInSnoc(before, now, now - window, now);
  }
}
