/** The TTL sweep (`jobs/expiry.py`). It walks offset cursors over a list that
    its own writes shrink, so a page turn skips as many tickets as were expired
    on the page before. `Swept` is what one sweep leaves of a status list; the
    methods are proved to compute it, the lemmas say what it is worth. */
module Expiry {
  import opened Wrappers
  import opened Models
  import opened Fold
  import opened Store
  import opened Service
  import opened Legality
  import opened StoreInvariants
  import opened TextOrder
  import opened JsonlRepository
  import opened Protocol
  import opened ServiceCalls

  const PAGE := 100

  // ------------------------------------------------------------ list arithmetic

  function Without(s: seq<Id>, d: set<Id>): (r: seq<Id>)
    ensures |r| <= |s| && forall id :: id in r <==> id in s && id !in d
  {
    if s == [] then []
    else Without(s[..|s| - 1], d) + if s[|s| - 1] in d then [] else [s[|s| - 1]]
  }

  /** How many members of `d` the list holds. */
  function Hits(s: seq<Id>, d: set<Id>): (n: nat)
    ensures n <= |s|
  {
    if s == [] then 0 else Hits(s[..|s| - 1], d) + if s[|s| - 1] in d then 1 else 0
  }

  lemma {:induction false} HitsAppend(a: seq<Id>, b: seq<Id>, d: set<Id>)
    ensures Hits(a + b, d) == Hits(a, d) + Hits(b, d)
  {
    if b == [] {
      assert a + b == a;
    } else {
      assert (a + b)[..|a + b| - 1] == a + b[..|b| - 1];
      HitsAppend(a, b[..|b| - 1], d);
    }
  }

  lemma {:induction false} WithoutAppend(a: seq<Id>, b: seq<Id>, d: set<Id>)
    ensures Without(a + b, d) == Without(a, d) + Without(b, d)
  {
    if b == [] {
      assert a + b == a;
    } else {
      assert (a + b)[..|a + b| - 1] == a + b[..|b| - 1];
      WithoutAppend(a, b[..|b| - 1], d);
    }
  }

  lemma {:induction false} WithoutSize(s: seq<Id>, d: set<Id>)
    ensures |Without(s, d)| == |s| - Hits(s, d)
  {
    if s != [] { WithoutSize(s[..|s| - 1], d); }
  }

  lemma {:induction false} HitsNone(s: seq<Id>, d: set<Id>)
    requires forall id :: id in s ==> id !in d
    ensures Hits(s, d) == 0
  {
    if s != [] {
      assert s[|s| - 1] in s;
      HitsNone(s[..|s| - 1], d);
    }
  }

  lemma WithoutHits(s: seq<Id>, d: set<Id>)
    ensures |Without(s, d)| == |s| - Hits(s, d) && Hits(Without(s, d), d) == 0
  {
    WithoutSize(s, d);
    HitsNone(Without(s, d), d);
  }

  lemma {:induction false} WithoutNone(s: seq<Id>, d: set<Id>)
    requires forall id :: id in s ==> id !in d
    ensures Without(s, d) == s
  {
    if s != [] {
      var n := |s| - 1;
      assert s[n] in s && s == s[..n] + [s[n]];
      WithoutNone(s[..n], d);
    }
  }

  /** Only what occurs in the list matters. */
  lemma {:induction false} WithoutSame(s: seq<Id>, d: set<Id>, e: set<Id>)
    requires forall id :: id in s ==> (id in d <==> id in e)
    ensures Without(s, d) == Without(s, e) && Hits(s, d) == Hits(s, e)
  {
    if s != [] {
      assert s[|s| - 1] in s;
      WithoutSame(s[..|s| - 1], d, e);
    }
  }

  // ---------------------------------------------------------------- one sweep

  /** The list after the stale tickets on the page at offset `o` are expired. */
  function PageDone(s: seq<Id>, o: nat, stale: set<Id>): (r: seq<Id>)
    ensures |r| <= |s|
  {
    var lo, hi := Min(o, |s|), Min(o + PAGE, |s|);
    s[..lo] + Without(s[lo..hi], stale) + s[hi..]
  }

  /** The list after the sweep, from offset `o` on. */
  function Swept(s: seq<Id>, o: nat, stale: set<Id>): seq<Id>
    decreases |s| - o
  {
    if o + PAGE < |s| then Swept(PageDone(s, o, stale), o + PAGE, stale) else PageDone(s, o, stale)
  }

  lemma PageHits(s: seq<Id>, o: nat, stale: set<Id>)
    ensures var gone := |s| - |PageDone(s, o, stale)|;
            Hits(PageDone(s, o, stale), stale) == Hits(s, stale) - gone
            && (o + PAGE < |s| ==> Hits(PageDone(s, o, stale)[..Min(o + PAGE, |PageDone(s, o, stale)|)], stale)
                                   <= Hits(s[..Min(o, |s|)], stale) + gone)
            && (o + PAGE >= |s| ==> Hits(PageDone(s, o, stale), stale) == Hits(s[..Min(o, |s|)], stale))
  {
    hide Hits, Without;
    var lo, hi := Min(o, |s|), Min(o + PAGE, |s|);
    var head, page, tail := s[..lo], s[lo..hi], s[hi..];
    assert s == head + page + tail;
    HitsAppend(head + page, tail, stale);
    HitsAppend(head, page, stale);
    WithoutHits(page, stale);
    var kept := Without(page, stale);
    HitsAppend(head + kept, tail, stale);
    HitsAppend(head, kept, stale);
    if o + PAGE < |s| {
      var r := PageDone(s, o, stale);
      var m := Min(o + PAGE, |r|);
      var k := m - lo - |kept|;
      assert r[..m] == head + kept + tail[..k];
      HitsAppend(head + kept, tail[..k], stale);
    } else {
      assert tail == [];
    }
  }

  /** Of what a sweep leaves stale, beyond what lay before its start, it has
      expired at least as many. */
  lemma {:induction false} SweptHits(s: seq<Id>, o: nat, stale: set<Id>)
    ensures |Swept(s, o, stale)| <= |s|
    ensures Hits(Swept(s, o, stale), stale) == Hits(s, stale) - (|s| - |Swept(s, o, stale)|)
    ensures Hits(Swept(s, o, stale), stale) <= Hits(s[..Min(o, |s|)], stale) + (|s| - |Swept(s, o, stale)|)
    decreases |s| - o
  {
    hide PageDone;
    PageHits(s, o, stale);
    if o + PAGE < |s| { SweptHits(PageDone(s, o, stale), o + PAGE, stale); }
  }

  /** At least half of the stale tickets of a status list go; a list of one page
      is cleared. */
  lemma HalfIsExpired(s: seq<Id>, stale: set<Id>)
    ensures 2 * Hits(Swept(s, 0, stale), stale) <= Hits(s, stale)
    ensures |s| <= 100 ==> Hits(Swept(s, 0, stale), stale) == 0
  {
    hide Swept, PageDone;
    SweptHits(s, 0, stale);
    assert s[..0] == [];
    if |s| <= PAGE { OnePage(s, stale); }
  }

  lemma OnePage(s: seq<Id>, stale: set<Id>)
    requires |s| <= PAGE
    ensures Swept(s, 0, stale) == Without(s, stale) && Hits(Swept(s, 0, stale), stale) == 0
  {
    assert s[0..|s|] == s;
    WithoutHits(s, stale);
  }

  /** More cannot be promised: of 200 tickets, all stale, one sweep expires 100;
      of 101, it leaves one. */
  lemma HalfIsTight(s: seq<Id>, stale: set<Id>)
    requires 100 < |s| <= 200 && forall id :: id in s ==> id in stale
    ensures Swept(s, 0, stale) == s[100..]
  {
    assert s[..0] == [];
    AllStale(s[0..PAGE], stale);
    var r := PageDone(s, 0, stale);
    assert r == s[PAGE..];
    assert PageDone(r, PAGE, stale) == r by {
      assert r[..|r|] == r && r[|r|..] == [] && r[|r|..|r|] == [];
    }
  }

  function Members(s: seq<Id>): set<Id> {
    set id | id in s
  }

  /** Once passed, a position is never looked at again. */
  lemma {:induction false} PassedStays(s: seq<Id>, o: nat, stale: set<Id>)
    ensures s[..Min(o, |s|)] <= Swept(s, o, stale)
    decreases |s| - o
  {
    hide Without;
    if o + PAGE < |s| {
      var r := PageDone(s, o, stale);
      PassedStays(r, o + PAGE, stale);
      assert s[..o] <= r[..Min(o + PAGE, |r|)];
    }
  }

  /** When one sweep can be relied on to clear a status: exactly when its list
      fits on one page, whichever of its tickets are stale. */
  lemma OneSweepClears(s: seq<Id>)
    ensures (forall stale: set<Id> :: Hits(Swept(s, 0, stale), stale) == 0) <==> |s| <= 100
  {
    hide Swept, Hits;
    forall stale: set<Id> ensures |s| <= PAGE ==> Hits(Swept(s, 0, stale), stale) == 0 { HalfIsExpired(s, stale); }
    if |s| > PAGE {
      OneIsSkipped(s, Members(s[..PAGE + 1]));
    }
  }

  /** The ticket just behind the first page slips to its front when that page
      is expired. */
  lemma OneIsSkipped(s: seq<Id>, stale: set<Id>)
    requires |s| > PAGE && stale == Members(s[..PAGE + 1])
    ensures Hits(Swept(s, 0, stale), stale) > 0
  {
    hide Without;
    assert forall id :: id in s[0..PAGE] ==> id in stale by {
      forall id | id in s[0..PAGE] ensures id in s[..PAGE + 1] { assert s[0..PAGE] == s[..PAGE + 1][..PAGE]; }
    }
    AllStale(s[0..PAGE], stale);
    var r := PageDone(s, 0, stale);
    assert r == s[PAGE..];
    hide Swept;
    assert Swept(s, 0, stale) == Swept(r, PAGE, stale) by { SweptTurns(s, stale); }
    PassedStays(r, PAGE, stale);
    var left := Swept(r, PAGE, stale);
    assert left[0] == s[PAGE] == s[..PAGE + 1][PAGE];
    HitSomething(left, 0, stale);
  }

  lemma SweptTurns(s: seq<Id>, stale: set<Id>)
    requires |s| > PAGE
    ensures Swept(s, 0, stale) == Swept(PageDone(s, 0, stale), PAGE, stale)
  {
  }

  lemma {:induction false} HitSomething(s: seq<Id>, i: nat, d: set<Id>)
    requires i < |s| && s[i] in d
    ensures Hits(s, d) > 0
  {
    if i < |s| - 1 { HitSomething(s[..|s| - 1], i, d); }
  }

  lemma {:induction false} AllStale(s: seq<Id>, stale: set<Id>)
    requires forall id :: id in s ==> id in stale
    ensures Without(s, stale) == []
  {
    if s != [] {
      assert s[|s| - 1] in s;
      AllStale(s[..|s| - 1], stale);
    }
  }

  // ------------------------------------------------------------ on the tickets

  function StaleIds(cfg: Config, tickets: map<Id, Ticket>, status: Status, now: int): set<Id> {
    set id | id in tickets && tickets[id].status == status && Overdue(cfg, tickets[id], now)
  }

  function Gone(t: Ticket): Ticket {
    t.(status := Expired, version := t.version + 1)
  }

  /** Exactly the tickets `gone` are expired, the others are what they were. */
  ghost predicate SweptTo(before: map<Id, Ticket>, after: map<Id, Ticket>, gone: set<Id>) {
    gone <= before.Keys && after.Keys == before.Keys
    && forall id :: id in before ==> after[id] == if id in gone then Gone(before[id]) else before[id]
  }

  lemma ExpiryApplies(cfg: Config, t: Ticket, eventId: string, now: int)
    ensures ApplyEvent(t, ExpiredEvent(cfg, t, eventId, now)) == Success(Gone(t))
    ensures ExpiredEvent(cfg, t, eventId, now).ticketId == t.ticketId
    ensures ExpiredEvent(cfg, t, eventId, now).kind == TicketExpired
  {
  }

  lemma FallingUnique(a: seq<Id>, b: seq<Id>)
    requires Falling(a) && Falling(b) && forall x :: x in a <==> x in b
    ensures a == b
  {
    var c, d := Reversed(a), Reversed(b);
    AscendingUnique(c, d);
    assert |a| == |b|;
    forall i | 0 <= i < |a| ensures a[i] == b[i] { assert c[|a| - 1 - i] == d[|a| - 1 - i]; }
  }

  lemma {:induction false} WithoutFalls(s: seq<Id>, d: set<Id>)
    requires Falling(s)
    ensures Falling(Without(s, d))
  {
    if s != [] {
      var n := |s| - 1;
      WithoutFalls(s[..n], d);
      var r := Without(s[..n], d);
      forall i | 0 <= i < |r| ensures Less(s[n], r[i]) {
        assert r[i] in s[..n];
        var j :| 0 <= j < n && s[j] == r[i];
      }
    }
  }

  lemma FallingIsDistinct(s: seq<Id>)
    requires Falling(s)
    ensures forall i, j :: 0 <= i < j < |s| ==> s[i] != s[j]
  {
    forall i, j | 0 <= i < j < |s| ensures s[i] != s[j] { Trichotomy(s[i], s[j]); }
  }

  /** The status list after some of its tickets expired. */
  lemma ListAfter(before: map<Id, Ticket>, after: map<Id, Ticket>, gone: set<Id>, status: Status)
    requires SweptTo(before, after, gone) && status in {Pending, Approved}
    ensures ByStatus(after, status) == Without(ByStatus(before, status), gone)
  {
    hide ByStatus, Without, SweptTo, Falling;
    var a, b := ByStatus(after, status), ByStatus(before, status);
    ByStatusFacts(before, status);
    ByStatusFacts(after, status);
    WithoutFalls(b, gone);
    forall id ensures id in a <==> id in Without(b, gone) { StatusAfter(before, after, gone, status, id); }
    FallingUnique(a, Without(b, gone));
  }

  lemma StatusAfter(before: map<Id, Ticket>, after: map<Id, Ticket>, gone: set<Id>, status: Status, id: Id)
    requires SweptTo(before, after, gone) && status in {Pending, Approved}
    ensures (id in after && after[id].status == status) <==> (id in before && before[id].status == status && id !in gone)
  {
  }

  /** Taking out the stale tickets of one page is `PageDone`. */
  lemma PageList(s: seq<Id>, o: nat, stale: set<Id>, gone: set<Id>)
    requires Falling(s) && forall id :: id in gone <==> id in Window(s, o, PAGE) && id in stale
    ensures Without(s, gone) == PageDone(s, o, stale)
  {
    hide Falling, Without;
    var lo, hi := Min(o, |s|), Min(o + PAGE, |s|);
    var head, page, tail := s[..lo], s[lo..hi], s[hi..];
    PageApart(s, lo, hi);
    WithoutAppend(head + page, tail, gone);
    WithoutAppend(head, page, gone);
    WithoutNone(head, gone);
    WithoutNone(tail, gone);
    WithoutSame(page, gone, stale);
  }

  lemma PageApart(s: seq<Id>, lo: nat, hi: nat)
    requires Falling(s) && lo <= hi <= |s|
    ensures s == s[..lo] + s[lo..hi] + s[hi..]
    ensures forall id :: id in s[..lo] || id in s[hi..] ==> id !in s[lo..hi]
  {
    FallingIsDistinct(s);
  }

  // ----------------------------------------------------------------- the loops

  /** A sweep seen as a client of the protocol: from gate `start` it has taken the
      steps `done`, under the client number `sweeper`. */
  datatype Tour = Tour(start: Gate, done: seq<Step>, sweeper: nat)

  function Continue(cfg: Config, g: Gate, steps: seq<Step>): Gate {
    if steps == [] then g else Next(cfg, Continue(cfg, g, steps[..|steps| - 1]), steps[|steps| - 1])
  }

  /** Reading one ticket and writing its expiry. */
  function ExpirySteps(sweeper: nat, id: Id, eventId: string, now: int): seq<Step> {
    [ReadStep(sweeper, Expire(id)), WriteStep(sweeper, Stamp(id, eventId, "", now, now))]
  }

  /** Nothing but steps of the sweep at time `now`. */
  ghost predicate Sweeping(steps: seq<Step>, sweeper: nat, now: int) {
    forall e :: e in steps ==>
      if e.ReadStep? then e.client == sweeper && e.req.Expire?
      else e.WriteStep? && e.client == sweeper && e.stamp.now == now
  }

  /** The repository is where the steps taken so far lead to. */
  ghost predicate OnTour(cfg: Config, now: int, d: Disk, tour: Tour) {
    var g := Continue(cfg, tour.start, tour.done);
    Shaped(d.maps) && Refines(d, g) && Inv(cfg, g) && Sweeping(tour.done, tour.sweeper, now)
    && g.inFlight == tour.start.inFlight && tour.sweeper !in tour.start.inFlight
  }

  ghost predicate Onward(tour: Tour, after: Tour) {
    after.start == tour.start && after.sweeper == tour.sweeper && tour.done <= after.done
  }

  lemma OnwardTwice(a: Tour, b: Tour, c: Tour)
    requires Onward(a, b) && Onward(b, c)
    ensures Onward(a, c)
  {
  }

  /** Steps taken from where a run has led are a longer run. */
  lemma {:induction false} ContinueIsRun(cfg: Config, steps: seq<Step>, more: seq<Step>)
    ensures Continue(cfg, Run(cfg, steps), more) == Run(cfg, steps + more)
    decreases |more|
  {
    hide Next;
    if more == [] {
      assert steps + more == steps;
    } else {
      assert (steps + more)[..|steps + more| - 1] == steps + more[..|more| - 1];
      ContinueIsRun(cfg, steps, more[..|more| - 1]);
    }
  }

  lemma TwoMore(cfg: Config, g: Gate, steps: seq<Step>, e: Step, f: Step)
    ensures Continue(cfg, g, steps + [e, f]) == Next(cfg, Next(cfg, Continue(cfg, g, steps), e), f)
  {
    hide Next;
    assert (steps + [e, f])[..|steps| + 1] == steps + [e] && (steps + [e])[..|steps|] == steps;
  }

  /** Undisturbed, the two steps expire the ticket. */
  lemma ExpiryLands(cfg: Config, g: Gate, sweeper: nat, t: Ticket, eventId: string, now: int)
    requires cfg.Valid() && Inv(cfg, g) && sweeper !in g.inFlight && t.ticketId in g.store.tickets
    requires g.store.tickets[t.ticketId] == t && Stale(cfg, t, now)
    ensures var e := ExpirySteps(sweeper, t.ticketId, eventId, now);
            var w := Append(t.ticketId, t.version, ExpiredEvent(cfg, t, eventId, now));
            var after := Next(cfg, Next(cfg, g, e[0]), e[1]);
            Inv(cfg, after) && after.inFlight == g.inFlight && Do(g.store, w) == Success(after.store)
            && after.log == g.log + Lines(w) && after.store.tickets == g.store.tickets[t.ticketId := Gone(t)]
  {
    hide Inv, ApplyEvent, ExpiredEvent, Stale, Gone, Text;
    var e := ExpirySteps(sweeper, t.ticketId, eventId, now);
    NextKeepsInv(cfg, g, e[0]);
    NextKeepsInv(cfg, Next(cfg, g, e[0]), e[1]);
    ExpiryApplies(cfg, t, eventId, now);
    Stored(cfg, g, t.ticketId);
    assert g.inFlight[sweeper := InFlight(Expire(t.ticketId), Some(t))] - {sweeper} == g.inFlight;
  }

  lemma Stored(cfg: Config, g: Gate, id: Id)
    requires cfg.Valid() && Inv(cfg, g) && id in g.store.tickets
    ensures id in g.store.events && id != ""
  {
    hide LegalHistory, FoldTicket, LogOk, ChainsOk, IdemOk, ApprovalsOk, OutcomeOk, SameFrozen, LegalCreation;
    assert EntryOk(cfg, g.store, id);
    CurrentTicket(cfg, g.store, id);
  }

  lemma ExpiryWrite(cfg: Config, d: Disk, tour: Tour, t: Ticket, eventId: string, now: int)
    requires cfg.Valid() && OnTour(cfg, now, d, tour) && t.ticketId in d.maps.tickets && d.maps.tickets[t.ticketId] == t
    requires Stale(cfg, t, now)
    ensures var w := Append(t.ticketId, t.version, ExpiredEvent(cfg, t, eventId, now));
            Shaped(d.maps) && Verdict(d, w).Success? && Onward(tour, TourAfter(tour, t, eventId, now))
            && AfterWrite(d, w).maps.tickets == d.maps.tickets[t.ticketId := Gone(t)]
            && (Shaped(AfterWrite(d, w).maps) ==> OnTour(cfg, now, AfterWrite(d, w), TourAfter(tour, t, eventId, now)))
  {
    hide Inv, Next, ExpiredEvent, Gone, Shaped, Stale, WriteText, Text, Lines, Do, Continue, ExpirySteps;
    var g := Continue(cfg, tour.start, tour.done);
    var w := Append(t.ticketId, t.version, ExpiredEvent(cfg, t, eventId, now));
    ExpiryLands(cfg, g, tour.sweeper, t, eventId, now);
    StepsOf(tour.sweeper, t.ticketId, eventId, now);
    var e := ExpirySteps(tour.sweeper, t.ticketId, eventId, now);
    TwoMore(cfg, tour.start, tour.done, e[0], e[1]);
    WriteTextIsLines(g.log, w);
  }

  lemma StepsOf(sweeper: nat, id: Id, eventId: string, now: int)
    ensures var e := ExpirySteps(sweeper, id, eventId, now); |e| == 2 && e == [e[0], e[1]] && Sweeping(e, sweeper, now)
  {
  }

  function TourAfter(tour: Tour, t: Ticket, eventId: string, now: int): Tour {
    tour.(done := tour.done + ExpirySteps(tour.sweeper, t.ticketId, eventId, now))
  }

  /** One stale ticket: the append is never refused, since nothing wrote to the
      ticket after the page was read. */
  method ExpireTicket(repo: Repository, cfg: Config, t: Ticket, eventId: string, now: int, ghost tour: Tour)
    returns (r: Result<Ticket, Error>, ghost after: Tour)
    requires cfg.Valid() && OnTour(cfg, now, repo.Whole(), tour) && Stale(cfg, t, now)
    requires t.ticketId in repo.tickets && repo.tickets[t.ticketId] == t
    modifies repo
    ensures r.Success? && OnTour(cfg, now, repo.Whole(), after) && Onward(tour, after)
    ensures repo.tickets == old(repo.tickets)[t.ticketId := Gone(t)]
  {
    hide OnTour, Stale, Shaped, ExpiredEvent, Gone, Do, AfterWrite, Verdict, Onward, TourAfter;
    ExpiryApplies(cfg, t, eventId, now);
    ExpiryWrite(cfg, repo.Whole(), tour, t, eventId, now);
    r := repo.AppendEvent(t.ticketId, t.version, ExpiredEvent(cfg, t, eventId, now));
    after := TourAfter(tour, t, eventId, now);
  }

  /** The stale tickets among the first `n` of a page. */
  function StaleAmong(ids: seq<Id>, n: nat, stale: set<Id>): set<Id> {
    set id | id in ids[..Min(n, |ids|)] && id in stale
  }

  /** The list of a page: tickets of one status, each once. */
  ghost predicate PageOk(tickets: map<Id, Ticket>, ids: seq<Id>, status: Status) {
    Falling(ids) && forall id :: id in ids ==> id in tickets && tickets[id].status == status
  }

  /** `i` items into the page: those of them that were stale are expired. */
  ghost predicate PageAt(before: map<Id, Ticket>, tickets: map<Id, Ticket>, ids: seq<Id>, i: nat, stale: set<Id>,
                         gone: set<Id>, n: nat) {
    gone == StaleAmong(ids, i, stale) && n == |gone| && SweptTo(before, tickets, gone)
  }

  /** The tickets of one page, as they were read. */
  method ExpirePage(repo: Repository, cfg: Config, items: seq<Ticket>, now: int, eventIds: Id -> string,
                    ghost status: Status, ghost ids: seq<Id>, ghost tour: Tour)
    returns (n: nat, ghost gone: set<Id>, ghost after: Tour)
    requires cfg.Valid() && OnTour(cfg, now, repo.Whole(), tour) && PageOk(repo.tickets, ids, status)
    requires Known(repo.tickets, ids) && items == TicketsOf(repo.tickets, ids)
    modifies repo
    ensures OnTour(cfg, now, repo.Whole(), after) && Onward(tour, after)
    ensures PageAt(old(repo.tickets), repo.tickets, ids, |ids|, StaleIds(cfg, old(repo.tickets), status, now), gone, n)
  {
    hide OnTour, PageOk, PageAt, StaleIds, Stale, Overdue, Known, TicketsOf, Shaped, SweptTo, Gone, Onward;
    ghost var before := repo.tickets;
    ghost var stale := StaleIds(cfg, before, status, now);
    ItemsOf(repo.Whole(), cfg, now, tour, ids);
    Stay(tour);
    StartOfPage(before, ids, stale);
    n, gone, after := 0, {}, tour;
    var i := 0;
    while i < |items|
      invariant i <= |items| && OnTour(cfg, now, repo.Whole(), after) && Onward(tour, after)
      invariant PageAt(before, repo.tickets, ids, i, stale, gone, n)
    {
      var t := items[i];
      OneMoreItem(cfg, before, repo.tickets, ids, i, status, now, gone, n);
      StaleMeans(cfg, t, now);
      if Stale(cfg, t, now) {
        var r: Result<Ticket, Error>;
        ghost var sofar := after;
        r, after := ExpireTicket(repo, cfg, t, eventIds(t.ticketId), now, after);
        OnwardTwice(tour, sofar, after);
        if r.Success? {
          n := n + 1;
          gone := gone + {t.ticketId};
        }
      }
      i := i + 1;
    }
  }

  lemma Stay(tour: Tour)
    ensures Onward(tour, tour)
  {
  }

  lemma ItemsOf(d: Disk, cfg: Config, now: int, tour: Tour, ids: seq<Id>)
    requires OnTour(cfg, now, d, tour) && Known(d.maps.tickets, ids)
    ensures forall i :: 0 <= i < |ids| ==> ids[i] in d.maps.tickets && d.maps.tickets[ids[i]].ticketId == ids[i]
  {
    hide Refines, Inv, Continue;
  }

  lemma StartOfPage(before: map<Id, Ticket>, ids: seq<Id>, stale: set<Id>)
    ensures PageAt(before, before, ids, 0, stale, {}, 0)
  {
  }

  /** The next item on the page is untouched so far, and expiring it extends what
      was swept. */
  lemma OneMoreItem(cfg: Config, before: map<Id, Ticket>, tickets: map<Id, Ticket>, ids: seq<Id>, i: nat,
                    status: Status, now: int, gone: set<Id>, n: nat)
    requires i < |ids| && PageOk(before, ids, status) && before[ids[i]].ticketId == ids[i]
    requires PageAt(before, tickets, ids, i, StaleIds(cfg, before, status, now), gone, n)
    ensures var id := ids[i]; var stale := StaleIds(cfg, before, status, now);
            id in tickets && tickets[id] == before[id]
            && if Overdue(cfg, before[id], now)
               then PageAt(before, tickets[id := Gone(before[id])], ids, i + 1, stale, gone + {id}, n + 1)
               else PageAt(before, tickets, ids, i + 1, stale, gone, n)
  {
    var id, stale := ids[i], StaleIds(cfg, before, status, now);
    assert id in ids && (id in stale <==> Overdue(cfg, before[id], now));
    FallingIsDistinct(ids);
    hide Overdue, Gone, Falling, PageOk, StaleIds;
    AmongNext(ids, i, stale);
    NotYet(ids, i, stale);
    hide StaleAmong;
    SweptOne(before, tickets, gone, id);
  }

  lemma AmongNext(ids: seq<Id>, i: nat, stale: set<Id>)
    requires i < |ids|
    ensures StaleAmong(ids, i + 1, stale) == StaleAmong(ids, i, stale) + if ids[i] in stale then {ids[i]} else {}
  {
    assert ids[..i + 1] == ids[..i] + [ids[i]];
  }

  lemma NotYet(ids: seq<Id>, i: nat, stale: set<Id>)
    requires i < |ids| && forall j, k :: 0 <= j < k < |ids| ==> ids[j] != ids[k]
    ensures ids[i] !in StaleAmong(ids, i, stale)
  {
  }

  lemma SweptOne(before: map<Id, Ticket>, tickets: map<Id, Ticket>, gone: set<Id>, id: Id)
    requires SweptTo(before, tickets, gone) && id in before && id !in gone
    ensures id in tickets && tickets[id] == before[id]
    ensures SweptTo(before, tickets[id := Gone(before[id])], gone + {id}) && |gone + {id}| == |gone| + 1
  {
    hide Gone;
  }

  /** What one sweep makes of one status. */
  ghost predicate SweepDone(before: map<Id, Ticket>, tickets: map<Id, Ticket>, status: Status, stale: set<Id>,
                            gone: set<Id>, n: nat) {
    SweptTo(before, tickets, gone) && n == |gone| && gone <= stale
    && ByStatus(tickets, status) == Swept(ByStatus(before, status), 0, stale)
  }

  /** The same, with the pages from `offset` on still to come. */
  ghost predicate SweepAt(before: map<Id, Ticket>, tickets: map<Id, Ticket>, status: Status, stale: set<Id>, offset: nat,
                          gone: set<Id>, n: nat) {
    SweptTo(before, tickets, gone) && n == |gone| && gone <= stale
    && Swept(ByStatus(tickets, status), offset, stale) == Swept(ByStatus(before, status), 0, stale)
  }

  /** One status: the loop over the pages. The cursor of the next page is taken
      from the list as it was before this page's tickets expired. */
  method SweepStatus(repo: Repository, cfg: Config, status: Status, now: int, eventIds: Id -> string,
                     ghost tour: Tour) returns (n: nat, ghost gone: set<Id>, ghost after: Tour)
    requires cfg.Valid() && OnTour(cfg, now, repo.Whole(), tour) && status in {Pending, Approved}
    modifies repo
    ensures OnTour(cfg, now, repo.Whole(), after) && Onward(tour, after)
    ensures SweepDone(old(repo.tickets), repo.tickets, status, StaleIds(cfg, old(repo.tickets), status, now), gone, n)
  {
    hide *;
    ghost var before := repo.tickets;
    ghost var stale := StaleIds(cfg, before, status, now);
    StartOfSweep(before, status, stale);
    Stay(tour);
    n, gone, after := 0, {}, tour;
    var offset, more := 0, true;
    while more
      invariant OnTour(cfg, now, repo.Whole(), after) && Onward(tour, after)
      invariant if more then SweepAt(before, repo.tickets, status, stale, offset, gone, n)
                else SweepDone(before, repo.tickets, status, stale, gone, n)
      decreases more, |ByStatus(repo.tickets, status)| - offset
    {
      ghost var mid := repo.tickets;
      ghost var sofar := after;
      var expired: nat, next: Option<nat>;
      ghost var here: set<Id>;
      expired, next, here, after := SweepPage(repo, cfg, status, offset, now, eventIds, after);
      OnwardTwice(tour, sofar, after);
      PageTurn(cfg, before, mid, repo.tickets, status, now, offset, gone, n, here, expired);
      n := n + expired;
      gone := gone + here;
      more := next.Some?;
      if next.Some? { offset := next.value; }
    }
  }

  /** Read one page, expire what is stale on it. */
  method SweepPage(repo: Repository, cfg: Config, status: Status, offset: nat, now: int, eventIds: Id -> string,
                   ghost tour: Tour)
    returns (n: nat, next: Option<nat>, ghost here: set<Id>, ghost after: Tour)
    requires cfg.Valid() && OnTour(cfg, now, repo.Whole(), tour)
    modifies repo
    ensures OnTour(cfg, now, repo.Whole(), after) && Onward(tour, after)
    ensures next == NextCursor(ByStatus(old(repo.tickets), status), offset, PAGE)
    ensures var ids := Window(ByStatus(old(repo.tickets), status), offset, PAGE);
            PageAt(old(repo.tickets), repo.tickets, ids, |ids|, StaleIds(cfg, old(repo.tickets), status, now), here, n)
  {
    ghost var ids := Window(ByStatus(repo.tickets, status), offset, PAGE);
    hide *;
    PageIsSound(repo.tickets, status, offset);
    var items: seq<Ticket>;
    items, next := repo.QueryByStatus(status, PAGE, offset);
    n, here, after := ExpirePage(repo, cfg, items, now, eventIds, status, ids, tour);
  }

  lemma StartOfSweep(before: map<Id, Ticket>, status: Status, stale: set<Id>)
    ensures SweepAt(before, before, status, stale, 0, {}, 0)
  {
  }

  lemma PageIsSound(tickets: map<Id, Ticket>, status: Status, offset: nat)
    ensures PageOk(tickets, Window(ByStatus(tickets, status), offset, PAGE), status)
  {
    ByStatusFacts(tickets, status);
    hide ByStatus, Less;
  }

  lemma PageTurn(cfg: Config, before: map<Id, Ticket>, mid: map<Id, Ticket>, after: map<Id, Ticket>, status: Status, now: int,
                 offset: nat, gone: set<Id>, n: nat, here: set<Id>, m: nat)
    requires status in {Pending, Approved}
    requires SweepAt(before, mid, status, StaleIds(cfg, before, status, now), offset, gone, n)
    requires var ids := Window(ByStatus(mid, status), offset, PAGE);
             PageAt(mid, after, ids, |ids|, StaleIds(cfg, mid, status, now), here, m)
    ensures var list := ByStatus(mid, status); var next := NextCursor(list, offset, PAGE);
            (if next.Some?
             then SweepAt(before, after, status, StaleIds(cfg, before, status, now), next.value, gone + here, n + m)
             else SweepDone(before, after, status, StaleIds(cfg, before, status, now), gone + here, n + m))
            && |ByStatus(after, status)| <= |list| && (next.Some? ==> offset < next.value <= |list|)
  {
    hide Window, StaleIds, StaleAmong, SweptTo, ByStatus, PageOk, PageDone, Overdue, Gone, Less, Descending;
    var ids := Window(ByStatus(mid, status), offset, PAGE);
    var stale := StaleIds(cfg, before, status, now);
    PageIsSound(mid, status, offset);
    WhoIsHere(cfg, before, mid, gone, here, status, now, ids);
    SweptTwice(before, mid, after, gone, here, status);
    PageTurnList(mid, after, status, offset, stale, here);
  }

  lemma PageTurnList(mid: map<Id, Ticket>, after: map<Id, Ticket>, status: Status, offset: nat, stale: set<Id>, here: set<Id>)
    requires SweptTo(mid, after, here) && status in {Pending, Approved}
    requires forall id :: id in here <==> id in Window(ByStatus(mid, status), offset, PAGE) && id in stale
    ensures ByStatus(after, status) == PageDone(ByStatus(mid, status), offset, stale)
  {
    hide Window, Falling, Without, SweptTo, ByStatus, PageDone;
    ByStatusFacts(mid, status);
    ListAfter(mid, after, here, status);
    PageList(ByStatus(mid, status), offset, stale, here);
  }

  /** What goes on this page: the members of the page that were stale from the
      start; they have not gone before. */
  lemma WhoIsHere(cfg: Config, before: map<Id, Ticket>, mid: map<Id, Ticket>, gone: set<Id>, here: set<Id>, status: Status,
                  now: int, ids: seq<Id>)
    requires SweptTo(before, mid, gone) && status in {Pending, Approved} && PageOk(mid, ids, status)
    requires here == StaleAmong(ids, |ids|, StaleIds(cfg, mid, status, now))
    ensures forall id :: id in here <==> id in ids && id in StaleIds(cfg, before, status, now)
    ensures forall id :: id in here ==> id in mid && mid[id].status == status
  {
    hide Overdue, Falling;
    assert ids[..|ids|] == ids;
    forall id | id in ids ensures id !in gone && id in before && mid[id] == before[id] { }
  }

  lemma SweptTwice(before: map<Id, Ticket>, mid: map<Id, Ticket>, after: map<Id, Ticket>, gone: set<Id>, here: set<Id>,
                   status: Status)
    requires SweptTo(before, mid, gone) && SweptTo(mid, after, here) && status in {Pending, Approved}
    requires forall id :: id in here ==> id in mid && mid[id].status == status
    ensures SweptTo(before, after, gone + here) && |gone + here| == |gone| + |here|
  {
    forall id | id in gone ensures id !in here { assert mid[id] == Gone(before[id]); }
    DisjointSize(gone, here);
  }

  lemma DisjointSize(a: set<Id>, b: set<Id>)
    requires a !! b
    ensures |a + b| == |a| + |b|
  {
  }

  // ---------------------------------------------------------------- both statuses

  /** `gone` are expired, all of them stale, `n` in number, nothing else changed,
      and each status list is what `Swept` makes of it. */
  ghost predicate SweepResult(cfg: Config, now: int, before: map<Id, Ticket>, after: map<Id, Ticket>, gone: set<Id>, n: nat) {
    SweptTo(before, after, gone) && n == |gone|
    && gone <= StaleIds(cfg, before, Pending, now) + StaleIds(cfg, before, Approved, now)
    && forall status :: status in {Pending, Approved} ==>
         ByStatus(after, status) == Swept(ByStatus(before, status), 0, StaleIds(cfg, before, status, now))
  }

  /** `sweep_once`, undisturbed: it ends, reports exactly how many tickets it
      expired, and takes only read and write steps of its own, so that a repository
      at the end of a run is left at the end of a longer one (`SweepIsARun`). */
  method SweepOnce(repo: Repository, cfg: Config, now: int, eventIds: Id -> string, ghost tour: Tour)
    returns (expired: nat, ghost gone: set<Id>, ghost after: Tour)
    requires cfg.Valid() && OnTour(cfg, now, repo.Whole(), tour)
    modifies repo
    ensures OnTour(cfg, now, repo.Whole(), after) && Onward(tour, after)
    ensures SweepResult(cfg, now, old(repo.tickets), repo.tickets, gone, expired)
  {
    hide *;
    ghost var before := repo.tickets;
    var first, gone1, between := SweepStatus(repo, cfg, Pending, now, eventIds, tour);
    ghost var mid := repo.tickets;
    var second: nat;
    ghost var gone2: set<Id>;
    second, gone2, after := SweepStatus(repo, cfg, Approved, now, eventIds, between);
    OnwardTwice(tour, between, after);
    BothStatuses(cfg, now, before, mid, repo.tickets, gone1, first, gone2, second);
    expired := first + second;
    gone := gone1 + gone2;
  }

  /** A sweep that starts where a run has led takes no client's place, and ends
      where a longer run leads: the run, then steps of the sweep alone. */
  lemma SweepIsARun(cfg: Config, now: int, steps: seq<Step>, sweeper: nat, before: Disk, d: Disk, after: Tour)
    requires cfg.Valid() && Shaped(before.maps) && Refines(before, Run(cfg, steps)) && sweeper !in Run(cfg, steps).inFlight
    ensures OnTour(cfg, now, before, Tour(Run(cfg, steps), [], sweeper))
    ensures OnTour(cfg, now, d, after) && Onward(Tour(Run(cfg, steps), [], sweeper), after) ==>
              Refines(d, Run(cfg, steps + after.done)) && Sweeping(after.done, sweeper, now)
              && Run(cfg, steps + after.done).inFlight == Run(cfg, steps).inFlight
  {
    hide Run, Inv, Refines, Shaped, Next;
    RunKeepsInv(cfg, steps);
    ContinueIsRun(cfg, steps, after.done);
  }

  /** Sweeping one status leaves the other as it was. */
  lemma OtherStatus(cfg: Config, now: int, before: map<Id, Ticket>, after: map<Id, Ticket>, gone: set<Id>,
                    mine: Status, other: Status)
    requires SweptTo(before, after, gone) && gone <= StaleIds(cfg, before, mine, now)
    requires mine != other && other in {Pending, Approved}
    ensures ByStatus(after, other) == ByStatus(before, other)
    ensures StaleIds(cfg, after, other, now) == StaleIds(cfg, before, other, now)
  {
    hide Overdue, Less, Descending;
    assert IdsWith(after, other) == IdsWith(before, other);
  }

  lemma BothStatuses(cfg: Config, now: int, before: map<Id, Ticket>, mid: map<Id, Ticket>, after: map<Id, Ticket>,
                     gone1: set<Id>, n1: nat, gone2: set<Id>, n2: nat)
    requires SweepDone(before, mid, Pending, StaleIds(cfg, before, Pending, now), gone1, n1)
    requires SweepDone(mid, after, Approved, StaleIds(cfg, mid, Approved, now), gone2, n2)
    ensures SweepResult(cfg, now, before, after, gone1 + gone2, n1 + n2)
  {
    hide Overdue, Less, Descending, ByStatus, Swept, StaleIds, SweptTo, Gone;
    OtherStatus(cfg, now, before, mid, gone1, Pending, Approved);
    OtherStatus(cfg, now, mid, after, gone2, Approved, Pending);
    StaleHasStatus(cfg, mid, Approved, now);
    SweptTwice(before, mid, after, gone1, gone2, Approved);
  }

  lemma StaleHasStatus(cfg: Config, tickets: map<Id, Ticket>, status: Status, now: int)
    ensures forall id :: id in StaleIds(cfg, tickets, status, now) ==> id in tickets && tickets[id].status == status
  {
  }

  // --------------------------------------------------------- what a sweep is worth

  lemma {:induction false} HitsIsSize(s: seq<Id>, d: set<Id>)
    requires forall i, j :: 0 <= i < j < |s| ==> s[i] != s[j]
    ensures Hits(s, d) == |set id | id in s && id in d|
  {
    if s == [] {
      assert (set id | id in s && id in d) == {};
    } else {
      var n := |s| - 1;
      HitsIsSize(s[..n], d);
      var before, now := set id | id in s[..n] && id in d, set id | id in s && id in d;
      assert s == s[..n] + [s[n]];
      assert now == if s[n] in d then before + {s[n]} else before;
    }
  }

  /** The stale tickets of a status, counted along its list. */
  lemma StaleCount(cfg: Config, before: map<Id, Ticket>, after: map<Id, Ticket>, gone: set<Id>, status: Status, now: int)
    requires SweptTo(before, after, gone) && status in {Pending, Approved}
    ensures |StaleIds(cfg, after, status, now)| == Hits(ByStatus(after, status), StaleIds(cfg, before, status, now))
  {
    hide Overdue, Less, Descending, ByStatus, Falling, Hits;
    var s, d := ByStatus(after, status), StaleIds(cfg, before, status, now);
    ByStatusFacts(after, status);
    FallingIsDistinct(s);
    HitsIsSize(s, d);
    assert (set id | id in s && id in d) == StaleIds(cfg, after, status, now);
  }

  lemma NothingSwept(before: map<Id, Ticket>)
    ensures SweptTo(before, before, {})
  {
  }

  /** One sweep expires at least half of the stale tickets of each status, and
      all of them where the status holds at most a page of tickets. */
  lemma SweepHalves(cfg: Config, now: int, before: map<Id, Ticket>, after: map<Id, Ticket>, gone: set<Id>, n: nat,
                    status: Status)
    requires SweepResult(cfg, now, before, after, gone, n) && status in {Pending, Approved}
    ensures 2 * |StaleIds(cfg, after, status, now)| <= |StaleIds(cfg, before, status, now)|
    ensures |IdsWith(before, status)| <= 100 ==> StaleIds(cfg, after, status, now) == {}
  {
    hide Overdue, Less, StaleIds, Swept, SweptTo, Gone, Hits;
    assert |ByStatus(before, status)| == |IdsWith(before, status)|;
    hide ByStatus;
    NothingSwept(before);
    StaleCount(cfg, before, before, {}, status, now);
    StaleCount(cfg, before, after, gone, status, now);
    HalfIsExpired(ByStatus(before, status), StaleIds(cfg, before, status, now));
  }

  /** Waiting for a decision since it was made, or approved with no approval
      younger than that, for the TTL or longer. */
  predicate Due(cfg: Config, t: Ticket, now: int) {
    (t.status == Pending && now - t.ticketDate >= cfg.ttl)
    || (t.status == Approved && forall a :: a in t.approvals ==> now - a.approvedAt >= cfg.ttl)
  }

  lemma DueOnTour(cfg: Config, d: Disk, tour: Tour, now: int)
    requires cfg.Valid() && OnTour(cfg, now, d, tour)
    ensures forall id :: id in d.maps.tickets ==>
              (Overdue(cfg, d.maps.tickets[id], now) <==> Due(cfg, d.maps.tickets[id], now))
  {
    hide Continue, Shaped, Sweeping, LogOk, ChainsOk, IdemOk, LegalHistory, FoldTicket, Overdue, Due;
    forall id | id in d.maps.tickets
      ensures Overdue(cfg, d.maps.tickets[id], now) <==> Due(cfg, d.maps.tickets[id], now)
    {
      assert EntryOk(cfg, d.maps, id);
      CurrentTicket(cfg, d.maps, id);
      DueIsOverdue(cfg, d.maps.tickets[id], now);
    }
  }

  lemma DueIsOverdue(cfg: Config, t: Ticket, now: int)
    requires cfg.Valid() && TicketOk(cfg, t)
    ensures Overdue(cfg, t, now) <==> Due(cfg, t, now)
  {
    hide OutcomeOk, LinkOk, GateTagged;
  }

  /** One sweep of a reachable store expires none but tickets that are due, and every
      due ticket of a status that holds at most 100. */
  lemma SweepIsFair(cfg: Config, now: int, d: Disk, tour: Tour, after: map<Id, Ticket>, gone: set<Id>, n: nat, id: Id)
    requires cfg.Valid() && OnTour(cfg, now, d, tour) && SweepResult(cfg, now, d.maps.tickets, after, gone, n)
    ensures id in gone ==> id in d.maps.tickets && Due(cfg, d.maps.tickets[id], now)
    ensures (id in d.maps.tickets && Due(cfg, d.maps.tickets[id], now)
             && |IdsWith(d.maps.tickets, d.maps.tickets[id].status)| <= 100) ==> id in gone
  {
    hide OnTour, Overdue, ByStatus, Swept, Gone;
    DueOnTour(cfg, d, tour, now);
    if id in d.maps.tickets && Due(cfg, d.maps.tickets[id], now) {
      SweepHalves(cfg, now, d.maps.tickets, after, gone, n, d.maps.tickets[id].status);
      if id !in gone { assert id in StaleIds(cfg, after, d.maps.tickets[id].status, now); }
    }
  }

  function Pow2(n: nat): nat {
    if n == 0 then 1 else 2 * Pow2(n - 1)
  }

  /** Undisturbed sweeps, one after the other, at one and the same time. */
  ghost predicate Sweeps(cfg: Config, now: int, states: seq<map<Id, Ticket>>) {
    forall k :: 0 < k < |states| ==> SweepsTo(cfg, now, states[k - 1], states[k])
  }

  ghost predicate SweepsTo(cfg: Config, now: int, before: map<Id, Ticket>, after: map<Id, Ticket>) {
    exists gone, n :: SweepResult(cfg, now, before, after, gone, n)
  }

  lemma {:induction false} SweepsHalve(cfg: Config, now: int, states: seq<map<Id, Ticket>>, k: nat, status: Status)
    requires Sweeps(cfg, now, states) && k < |states| && status in {Pending, Approved}
    ensures |StaleIds(cfg, states[k], status, now)| * Pow2(k) <= |StaleIds(cfg, states[0], status, now)|
  {
    hide StaleIds, SweepResult, Overdue;
    if k > 0 {
      SweepsHalve(cfg, now, states, k - 1, status);
      assert SweepsTo(cfg, now, states[k - 1], states[k]);
      var gone, n :| SweepResult(cfg, now, states[k - 1], states[k], gone, n);
      SweepHalves(cfg, now, states[k - 1], states[k], gone, n, status);
      var x, y := |StaleIds(cfg, states[k], status, now)|, |StaleIds(cfg, states[k - 1], status, now)|;
      DoubleHalf(x, y, Pow2(k - 1));
    }
  }

  lemma DoubleHalf(x: nat, y: nat, p: nat)
    requires 2 * x <= y
    ensures x * (2 * p) <= y * p
  {
    assert x * (2 * p) == (2 * x) * p;
  }

  /** Repeated sweeps clear everything: `k` of them are enough for fewer than
      2 to the `k` stale tickets of a status. */
  lemma SweepsClear(cfg: Config, now: int, states: seq<map<Id, Ticket>>, status: Status)
    requires Sweeps(cfg, now, states) && states != [] && status in {Pending, Approved}
    requires |StaleIds(cfg, states[0], status, now)| < Pow2(|states| - 1)
    ensures StaleIds(cfg, states[|states| - 1], status, now) == {}
  {
    hide StaleIds, Sweeps, Overdue;
    SweepsHalve(cfg, now, states, |states| - 1, status);
    var x := |StaleIds(cfg, states[|states| - 1], status, now)|;
    if x > 0 { AtLeastOnce(x, Pow2(|states| - 1)); }
  }

  lemma AtLeastOnce(x: nat, p: nat)
    requires x > 0
    ensures x * p >= p
  {
  }

  /** Until a sweep gets to it, a stale approval is as good as a fresh one:
      whether a start is granted depends on assignee, status and hash alone. */
  lemma StartIgnoresAge(cfg: Config, t: Ticket, principal: string, echoedHash: string, session: Option<string>, s: Stamp)
    ensures DecideStart(t, principal, echoedHash, session, s).Success? <==>
              t.assignee == principal && t.status == Approved && echoedHash == t.actionDetails.parametersHash
    ensures t.status == Approved && Overdue(cfg, t, s.now) ==>
              DecideStart(t, t.assignee, t.actionDetails.parametersHash, session, s).Success?
  {
  }
}
