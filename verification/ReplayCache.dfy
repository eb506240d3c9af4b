/** The nonce cache (`auth/replay_cache.py`) and the clock window in front of it
    (`auth/agent_auth.py`). Times are seconds of the monotonic clock; the wall
    clock runs ahead of it by a fixed `offset`. A nonce is the hash of a signature,
    and a signature covers its date, so `date` gives the date of each nonce. */
module ReplayCache {

  const TTL := 360.0
  const MAX_SKEW := 300.0

  /** One request presented to the gate. */
  datatype Use = Use(nonce: string, at: real)

  /** No earlier acceptance of this nonce is younger than the TTL. */
  predicate Unseen(accepted: seq<Use>, nonce: string, now: real) {
    forall i :: 0 <= i < |accepted| && accepted[i].nonce == nonce ==> accepted[i].at + TTL <= now
  }

  predicate InWindow(u: Use, date: string -> real, offset: real) {
    -MAX_SKEW <= u.at + offset - date(u.nonce) <= MAX_SKEW
  }

  /** The requests accepted, by the rule over the whole past. */
  function Accepted(uses: seq<Use>, date: string -> real, offset: real): seq<Use> {
    if uses == [] then []
    else
      var u := uses[|uses| - 1];
      var before := Accepted(uses[..|uses| - 1], date, offset);
      if InWindow(u, date, offset) && Unseen(before, u.nonce, u.at) then before + [u] else before
  }

  // ------------------------------------------------------------------ the cache

  /** The map agrees with a scan of everything ever accepted. */
  ghost predicate Agrees(seen: map<string, real>, accepted: seq<Use>, clock: real) {
    (forall i :: 0 <= i < |accepted| ==> accepted[i].at <= clock && Remembered(seen, accepted[i], clock))
    && (forall n :: n in seen ==> exists i :: 0 <= i < |accepted| && accepted[i] == Use(n, seen[n] - TTL))
  }

  /** An acceptance is in the map until it is older than the TTL. */
  ghost predicate Remembered(seen: map<string, real>, u: Use, clock: real) {
    u.at + TTL > clock ==> u.nonce in seen && seen[u.nonce] >= u.at + TTL
  }

  class ReplayCache {
    var seen: map<string, real>
    ghost var accepted: seq<Use>
    ghost var clock: real

    ghost predicate Valid()
      reads this
    {
      Agrees(seen, accepted, clock)
    }

    constructor (ghost now: real)
      ensures Valid() && accepted == [] && clock == now
    {
      seen, accepted, clock := map[], [], now;
    }

    /** A nonce is fresh exactly when no acceptance of it is younger than the TTL;
        a fresh one is recorded. */
    method CheckAndAdd(nonce: string, now: real) returns (isNew: bool)
      requires Valid() && now >= clock
      modifies this
      ensures Valid() && clock == now
      ensures isNew <==> Unseen(old(accepted), nonce, now)
      ensures accepted == if isNew then old(accepted) + [Use(nonce, now)] else old(accepted)
    {
      hide Agrees, Unseen;
      Prune(now);
      CacheDecides(seen, accepted, nonce, now);
      if nonce in seen { return false; }
      CacheAdds(seen, accepted, nonce, now);
      seen := seen[nonce := now + TTL];
      accepted := accepted + [Use(nonce, now)];
      return true;
    }

    /** `_prune` */
    method Prune(now: real)
      requires Valid() && now >= clock
      modifies this`seen, this`clock
      ensures Valid() && clock == now && forall n :: n in seen ==> seen[n] > now
    {
      ghost var before := seen;
      var expired := set n | n in seen && seen[n] <= now;
      while expired != {}
        invariant clock == old(clock)
        invariant forall n :: n in seen ==> n in before && seen[n] == before[n] && (seen[n] > now || n in expired)
        invariant forall n :: n in before && before[n] > now ==> n in seen
        invariant forall n :: n in expired ==> n in before && before[n] <= now
        decreases expired
      {
        var n :| n in expired;
        expired := expired - {n};
        seen := map k | k in seen && k != n :: seen[k];
      }
      PrunedAgrees(before, seen, accepted, clock, now);
      clock := now;
    }
  }

  lemma PrunedAgrees(before: map<string, real>, seen: map<string, real>, accepted: seq<Use>, clock: real, now: real)
    requires Agrees(before, accepted, clock) && clock <= now
    requires forall n :: n in seen ==> n in before && seen[n] == before[n]
    requires forall n :: n in before && before[n] > now ==> n in seen
    ensures Agrees(seen, accepted, now)
  {
    forall i | 0 <= i < |accepted| ensures Remembered(seen, accepted[i], now) {
      assert Remembered(before, accepted[i], clock);
    }
  }

  lemma CacheDecides(seen: map<string, real>, accepted: seq<Use>, nonce: string, now: real)
    requires Agrees(seen, accepted, now) && forall n :: n in seen ==> seen[n] > now
    ensures nonce in seen <==> !Unseen(accepted, nonce, now)
  {
    if nonce in seen {
      var i :| 0 <= i < |accepted| && accepted[i] == Use(nonce, seen[nonce] - TTL);
    }
    forall i | 0 <= i < |accepted| ensures Remembered(seen, accepted[i], now) { }
  }

  lemma CacheAdds(seen: map<string, real>, accepted: seq<Use>, nonce: string, now: real)
    requires Agrees(seen, accepted, now) && nonce !in seen
    ensures Agrees(seen[nonce := now + TTL], accepted + [Use(nonce, now)], now)
  {
    var s, a := seen[nonce := now + TTL], accepted + [Use(nonce, now)];
    forall i | 0 <= i < |a| ensures a[i].at <= now && Remembered(s, a[i], now) {
      if i < |accepted| { assert Remembered(seen, accepted[i], now); }
    }
    forall n | n in s ensures exists i :: 0 <= i < |a| && a[i] == Use(n, s[n] - TTL) {
      if n == nonce {
        assert a[|accepted|] == Use(n, s[n] - TTL);
      } else {
        var i :| 0 <= i < |accepted| && accepted[i] == Use(n, seen[n] - TTL);
        assert a[i] == Use(n, s[n] - TTL);
      }
    }
  }

  /** The two steps of `verify_agent` that look at the clock. */
  method Admit(cache: ReplayCache, u: Use, ghost past: seq<Use>, date: string -> real, offset: real) returns (ok: bool)
    requires cache.Valid() && u.at >= cache.clock && cache.accepted == Accepted(past, date, offset)
    modifies cache
    ensures cache.Valid() && cache.clock <= u.at && cache.accepted == Accepted(past + [u], date, offset)
    ensures ok <==> |cache.accepted| > |old(cache.accepted)|
    ensures ok <==> -300.0 <= u.at + offset - date(u.nonce) <= 300.0 && NotWithin(old(cache.accepted), u, 360.0)
  {
    hide Agrees, Unseen, InWindow, NotWithin;
    assert (past + [u])[..|past|] == past;
    AcceptedIff(past, u, date, offset);
    if !InWindow(u, date, offset) { return false; }
    ok := cache.CheckAndAdd(u.nonce, u.at);
  }

  /** No use of the same nonce in the list is closer than `gap` to this one. */
  ghost predicate NotWithin(accepted: seq<Use>, u: Use, gap: real) {
    forall i :: 0 <= i < |accepted| && accepted[i].nonce == u.nonce ==> u.at - accepted[i].at >= gap
  }

  /** A request is accepted if and only if its date is at most five minutes from the
      wall clock, behind or ahead, and its nonce was not accepted in the last six. */
  lemma AcceptedIff(uses: seq<Use>, u: Use, date: string -> real, offset: real)
    ensures Accepted(uses + [u], date, offset)
            == if -300.0 <= u.at + offset - date(u.nonce) <= 300.0 && NotWithin(Accepted(uses, date, offset), u, 360.0)
               then Accepted(uses, date, offset) + [u] else Accepted(uses, date, offset)
  {
    assert (uses + [u])[..|uses|] == uses;
  }

  // --------------------------------------------------------------- single use

  lemma {:induction false} AcceptedFacts(uses: seq<Use>, date: string -> real, offset: real, i: nat)
    requires i < |Accepted(uses, date, offset)|
    ensures InWindow(Accepted(uses, date, offset)[i], date, offset)
    ensures Unseen(Accepted(uses, date, offset)[..i], Accepted(uses, date, offset)[i].nonce, Accepted(uses, date, offset)[i].at)
  {
    hide InWindow, Unseen;
    var n := |uses| - 1;
    var before := Accepted(uses[..n], date, offset);
    if i < |before| {
      AcceptedFacts(uses[..n], date, offset, i);
      assert Accepted(uses, date, offset)[..i] == before[..i];
    } else {
      assert Accepted(uses, date, offset)[..i] == before;
    }
  }

  /** How far a request's date runs ahead of the gate's wall clock. */
  function Lead(u: Use, date: string -> real, offset: real): real {
    date(u.nonce) - (u.at + offset)
  }

  /** A request that is not dated a minute or more ahead is accepted at most once
      in the life of a process: by the time the cache forgets it, its date is too
      old. */
  lemma {:induction false} SingleUse(uses: seq<Use>, date: string -> real, offset: real, i: nat, j: nat)
    requires i < j < |Accepted(uses, date, offset)|
    requires Accepted(uses, date, offset)[i].nonce == Accepted(uses, date, offset)[j].nonce
    ensures Lead(Accepted(uses, date, offset)[i], date, offset) >= 60.0
    ensures Accepted(uses, date, offset)[j].at >= Accepted(uses, date, offset)[i].at + 360.0
  {
    var a := Accepted(uses, date, offset);
    AcceptedFacts(uses, date, offset, j);
    assert a[..j][i] == a[i];
  }

  /** The bound is exact: a request just accepted can be accepted again, some
      time later, if and only if it is dated a minute or more ahead. */
  lemma SecondUseIff(uses: seq<Use>, u: Use, date: string -> real, offset: real)
    requires InWindow(u, date, offset) && Unseen(Accepted(uses, date, offset), u.nonce, u.at)
    ensures (exists at :: AcceptedAgain(uses + [u], Use(u.nonce, at), date, offset)) <==> Lead(u, date, offset) >= 60.0
  {
    var past := Accepted(uses, date, offset);
    assert (uses + [u])[..|uses|] == uses;
    var now := past + [u];
    assert Accepted(uses + [u], date, offset) == now && now[|past|] == u;
    if Lead(u, date, offset) >= 60.0 {
      var again := Use(u.nonce, u.at + TTL);
      forall i | 0 <= i < |now| && now[i].nonce == u.nonce ensures now[i].at + TTL <= again.at {
        if i < |past| { assert past[i].nonce == u.nonce; }
      }
      assert AcceptedAgain(uses + [u], again, date, offset);
    }
  }

  /** Presented at this time and nothing in between, the request is accepted. */
  ghost predicate AcceptedAgain(past: seq<Use>, u: Use, date: string -> real, offset: real) {
    InWindow(u, date, offset) && Unseen(Accepted(past, date, offset), u.nonce, u.at)
  }
}
