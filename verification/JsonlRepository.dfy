/** `JsonlTicketRepository`: one log file, three maps that cache it, and the
    methods that keep them in step. Everything the other modules prove about the
    values of Store.dfy holds of this class through the contracts below. */
module JsonlRepository {
  import opened Wrappers
  import opened Models
  import opened Fold
  import opened Store
  import opened EventCodec
  import opened Json
  import opened TextOrder
  import opened StoreInvariants
  import opened Service
  import opened Protocol

  // ------------------------------------------------------------- list queries

  function IdsWith(tickets: map<Id, Ticket>, status: Status): set<Id> {
    set id | id in tickets && tickets[id].status == status
  }

  /** Newest first. */
  function ByStatus(tickets: map<Id, Ticket>, status: Status): seq<Id> {
    Descending(IdsWith(tickets, status))
  }

  function Min(a: nat, b: nat): nat { if a < b then a else b }

  /** Python's `items[offset : offset + limit]` */
  function Window(items: seq<Id>, offset: nat, limit: nat): seq<Id> {
    items[Min(offset, |items|)..Min(offset + limit, |items|)]
  }

  ghost predicate Known(tickets: map<Id, Ticket>, ids: seq<Id>) {
    forall id :: id in ids ==> id in tickets
  }

  lemma ByStatusFacts(tickets: map<Id, Ticket>, status: Status)
    ensures Falling(ByStatus(tickets, status))
    ensures forall id :: id in ByStatus(tickets, status) <==> id in tickets && tickets[id].status == status
  {
    hide Falling;
  }

  lemma PageIsKnown(tickets: map<Id, Ticket>, status: Status, offset: nat, limit: nat)
    ensures Known(tickets, Window(ByStatus(tickets, status), offset, limit))
  {
    ByStatusFacts(tickets, status);
    hide ByStatus, Falling;
  }

  function TicketsOf(tickets: map<Id, Ticket>, ids: seq<Id>): (r: seq<Ticket>)
    requires Known(tickets, ids)
    ensures |r| == |ids| && forall i :: 0 <= i < |ids| ==> ids[i] in tickets && r[i] == tickets[ids[i]]
  {
    if ids == [] then [] else [tickets[ids[0]]] + TicketsOf(tickets, ids[1..])
  }

  /** The cursor of the next page, or none on the last one. */
  function NextCursor(items: seq<Id>, offset: nat, limit: nat): Option<nat> {
    if offset + limit < |items| then Some(offset + limit) else None
  }

  /** Following the cursors over a list that does not change. */
  function Pages(items: seq<Id>, offset: nat, limit: nat): seq<Id>
    requires limit > 0
    decreases |items| - offset
  {
    Window(items, offset, limit)
    + match NextCursor(items, offset, limit) case Some(next) => Pages(items, next, limit) case None => []
  }

  /** Undisturbed, the pages list every item exactly once and in order. */
  lemma {:induction false} PagesCoverAll(items: seq<Id>, offset: nat, limit: nat)
    requires limit > 0
    ensures Pages(items, offset, limit) == items[Min(offset, |items|)..]
    decreases |items| - offset
  {
    if offset + limit < |items| {
      PagesCoverAll(items, offset + limit, limit);
      assert items[offset..offset + limit] + items[offset + limit..] == items[offset..];
    }
  }

  /** `query_lineage` */
  function Lineage(tickets: map<Id, Ticket>, root: Id): seq<Id> {
    SortedKeys(set id | id in tickets && tickets[id].lineageRootId == root)
  }

  /** The lineage query answers with the chain, from root to tip, if and only if
      the ids ascend along it. */
  lemma LineageIsTheChain(cfg: Config, st: State, chains: map<Id, seq<Id>>, root: Id)
    requires Sound(cfg, st, chains) && root in chains
    ensures Lineage(st.tickets, root) == chains[root] <==> Ascending(chains[root])
  {
    hide StoreOk, IdemOk;
    var c := chains[root];
    assert ChainOk(st, root, c);
    forall id ensures id in Lineage(st.tickets, root) <==> id in c {
      if id in c {
        var i :| 0 <= i < |c| && c[i] == id;
        assert Node(st, root, c, i);
      }
      if id in st.tickets && st.tickets[id].lineageRootId == root { assert OnChain(chains, root, id); }
    }
    if Ascending(c) { AscendingUnique(Lineage(st.tickets, root), c); }
  }

  // --------------------------------------------------------------- the store

  ghost predicate BornAs(es: seq<AuditEvent>, id: Id) {
    es != [] && es[0].details.TicketDetails? && es[0].details.ticket.ticketId == id
  }

  /** A repository as a value: its maps, its file, and the events the file holds. */
  datatype Disk = Disk(maps: State, file: string, log: seq<AuditEvent>)

  /** The cache is the fold of the file. */
  ghost predicate InStep(d: Disk) {
    d.file == Text(d.log) && LogOk(d.maps, d.log)
  }

  /** A write does to maps and file what `Store.Do` says, or nothing at all. */
  function AfterWrite(d: Disk, w: Write): Disk {
    match Do(d.maps, w)
    case Success(st) => Disk(st, d.file + WriteText(w), d.log + Lines(w))
    case Failure(_) => d
  }

  function Verdict(d: Disk, w: Write): Result<(), Error> {
    match Do(d.maps, w) case Success(_) => Success(()) case Failure(err) => Failure(err)
  }

  /** Whichever write it is, it leaves cache and file in step. */
  lemma WriteKeepsInStep(d: Disk, w: Write)
    requires InStep(d) && Shaped(d.maps) && Coherent(w)
    ensures InStep(AfterWrite(d, w))
  {
    assert d.maps.tickets.Keys == d.maps.events.Keys;
    hide LogOk, Shaped, Do, Lines, Coherent, Text, WriteText;
    if Do(d.maps, w).Success? {
      WriteKeepsLog(d.maps, d.log, w);
      WriteTextIsLines(d.log, w);
    }
  }

  /** What the methods rely on: one non-empty event list per ticket, under its id. */
  ghost predicate Shaped(st: State) {
    st.tickets.Keys == st.events.Keys
    && (forall id :: id in st.tickets ==> st.tickets[id].ticketId == id)
    && (forall id :: id in st.events ==> BornAs(st.events[id], id))
  }

  lemma ApplyKeepsShape(st: State, e: AuditEvent)
    requires Shaped(st) && Store.ApplyToState(st, e).Success?
    ensures Shaped(Store.ApplyToState(st, e).value)
  {
    hide ApplyEvent;
    if e.kind != TicketCreated { ApplyKeepsId(st.tickets[e.ticketId], e); }
  }

  lemma RefoldedId(es: seq<AuditEvent>, id: Id)
    requires es != [] && BornAs(es, id) && FoldTicket(es).Success?
    ensures FoldTicket(es).value.ticketId == id
  {
    hide FoldTicket;
    FoldKeepsFrozen(es);
  }

  class Repository {
    var file: string
    var tickets: map<Id, Ticket>
    var events: map<Id, seq<AuditEvent>>
    var byIdem: map<(string, string), Id>
    ghost var log: seq<AuditEvent>   // what the file holds, while it holds whole lines

    function Maps(): State
      reads this
    {
      State(tickets, events, byIdem)
    }

    ghost predicate Valid()
      reads this
    {
      Shaped(Maps())
    }

    ghost function Whole(): Disk
      reads this
    {
      Disk(Maps(), file, log)
    }

    constructor Empty(data: string, ghost known: seq<AuditEvent>)
      ensures file == data && Maps() == EMPTY && Valid() && log == known
    {
      file := data;
      tickets, events, byIdem := map[], map[], map[];
      log := known;
    }

    // ------------------------------------------------------------- boot

    /** Starting the process on an existing file, of which `known` is the history. */
    static method Open(data: string, ghost known: seq<AuditEvent>) returns (r: Result<Repository, Error>)
      ensures match Boot(data)
              case Success(st) => r.Success? && fresh(r.value) && r.value.Maps() == st && r.value.file == data
                                  && r.value.log == known && r.value.Valid()
              case Failure(err) => r == Failure(err)
    {
      hide Boot, Repair;
      var repo := new Repository.Empty(data, known);
      var replayed := repo.Replay();
      if replayed.Failure? { return Failure(replayed.error); }
      return Success(repo);
    }

    /** `_replay` */
    method Replay() returns (r: Result<(), Error>)
      requires Maps() == EMPTY && Valid()
      modifies this`tickets, this`events, this`byIdem
      ensures match Boot(file)
              case Success(st) => r == Success(()) && Maps() == st && Valid()
              case Failure(err) => r == Failure(err)
    {
      hide Repair, Store.ApplyToState, Loads, DecodeEvent, Split;
      var lines := Split(file);
      var i := 0;
      while i < |lines|
        invariant i <= |lines| && Valid() && ReplayLines(lines, i) == Success(Maps())
      {
        if !BlankLine(lines[i]) {
          match Loads(lines[i])
          case Bad =>
            if i < |lines| - 1 {
              FailureStays(lines, i + 1, |lines|);
              return Failure(Corrupt(i + 1));
            }
          case Ok(data, _) =>
            match DecodeEvent(data) {
              case None =>
                FailureStays(lines, i + 1, |lines|);
                return Failure(Malformed);
              case Some(e) =>
                var applied := ApplyToState(e);
                if applied.Failure? {
                  FailureStays(lines, i + 1, |lines|);
                  return applied;
                }
            }
        }
        i := i + 1;
      }
      r := RepairPartialSupersede();
    }

    /** `_apply_to_state` */
    method ApplyToState(e: AuditEvent) returns (r: Result<(), Error>)
      requires Valid()
      modifies this`tickets, this`events, this`byIdem
      ensures match Store.ApplyToState(old(Maps()), e)
              case Success(st) => r == Success(()) && Maps() == st && Valid()
              case Failure(err) => r == Failure(err) && Maps() == old(Maps())
    {
      if Store.ApplyToState(Maps(), e).Success? { ApplyKeepsShape(Maps(), e); }
      assert tickets.Keys == events.Keys;
      hide ApplyEvent, Shaped, Truthy;
      if e.kind == TicketCreated {
        if !e.details.TicketDetails? { return Failure(Malformed); }
        var t := e.details.ticket;
        tickets := tickets[t.ticketId := t];
        events := events[t.ticketId := (if t.ticketId in events then events[t.ticketId] else []) + [e]];
        if Truthy(t.idempotencyKey) {
          byIdem := byIdem[(t.assignee, t.idempotencyKey.value) := t.ticketId];
        }
      } else {
        if e.ticketId !in tickets { return Failure(Malformed); }
        var t :- ApplyEvent(tickets[e.ticketId], e);
        tickets := tickets[e.ticketId := t];
        events := events[e.ticketId := events[e.ticketId] + [e]];
      }
      return Success(());
    }

    /** Folding an event list from its creation event. */
    static method Refold(es: seq<AuditEvent>) returns (r: Result<Ticket, Error>)
      ensures r == FoldTicket(es)
    {
      hide ApplyEvent;
      if es == [] { return Failure(Malformed); }
      assert es[..1] == [es[0]];
      if !es[0].details.TicketDetails? {
        FoldFailureStays(es, 1);
        return Failure(Malformed);
      }
      var t := es[0].details.ticket;
      var i := 1;
      while i < |es|
        invariant 1 <= i <= |es| && FoldTicket(es[..i]) == Success(t)
      {
        assert es[..i + 1] == es[..i] + [es[i]];
        FoldAppend(es[..i], es[i]);
        var next := ApplyEvent(t, es[i]);
        if next.Failure? {
          FoldFailureStays(es, i + 1);
          return next;
        }
        t := next.value;
        i := i + 1;
      }
      assert es[..|es|] == es;
      return Success(t);
    }

    /** `_repair_partial_supersede` */
    method RepairPartialSupersede() returns (r: Result<(), Error>)
      requires Valid()
      modifies this`tickets, this`events
      ensures match Repair(old(Maps()))
              case Success(st) => r == Success(()) && Maps() == st && Valid()
              case Failure(err) => r == Failure(err)
    {
      ghost var st := Maps();
      var rest := tickets.Keys;
      hide FoldTicket, Repair, RepairedAt, Dangling, BornAs, Repairable, SameButFor;
      StartRepairing(st);
      hide Shaped, HalfRepaired;
      while rest != {}
        invariant Valid() && byIdem == st.byIdem && rest <= tickets.Keys == st.tickets.Keys
          && HalfRepaired(st, Maps(), rest)
        decreases rest
      {
        var id :| id in rest;
        ghost var before := Maps();
        assert rest - {id} + {id} == rest;
        rest := rest - {id};
        var done := RepairTicket(id);
        if done.Failure? {
          CannotRepair(st, before, rest + {id}, id);
          return done;
        }
        OneMoreRepaired(st, before, Maps(), rest, id);
        SameKeys(before, Maps(), id);
      }
      RepairedEverywhere(st, Maps());
      return Success(());
    }

    /** The body of the loop: one ticket. */
    method RepairTicket(id: Id) returns (r: Result<(), Error>)
      requires Valid() && id in tickets
      modifies this`tickets, this`events
      ensures Valid() && SameButFor(old(Maps()), Maps(), id)
      ensures r == (if Dangling(old(Maps()), id) && !Repairable(old(Maps()), id) then Failure(Malformed) else Success(()))
      ensures r.Success? ==> RepairedAt(old(Maps()), Maps(), id)
    {
      hide FoldTicket;
      ghost var st := Maps();
      if tickets[id].supersededBy.Some? && tickets[id].supersededBy.value !in tickets {
        assert Dangling(st, id);
        var shorter := events[id][..|events[id]| - 1];
        var rebuilt := Refold(shorter);
        if rebuilt.Failure? { return Failure(Malformed); }
        hide *;
        events := events[id := shorter];
        tickets := tickets[id := rebuilt.value];
        RevertedTicket(st, Maps(), id, rebuilt.value);
      }
      return Success(());
    }

    // ------------------------------------------------------------- writes

    /** `create_ticket` */
    method CreateTicket(t: Ticket, created: AuditEvent) returns (r: Result<(), Error>)
      requires Valid() && CreationOf(created, t)
      modifies this
      ensures Whole() == AfterWrite(old(Whole()), Create(t, created)) && r == Verdict(old(Whole()), Create(t, created))
      ensures Valid()
    {
      hide Shaped, Dump, Store.ApplyToState;
      if t.ticketId in tickets { return Failure(Duplicate); }
      if Truthy(t.idempotencyKey) && (t.assignee, t.idempotencyKey.value) in byIdem { return Failure(Duplicate); }
      AppendLines(Dump(created), [created]);
      CreationApplies(Maps(), created);
      r := ApplyToState(created);
    }

    /** `_append_lines` */
    method AppendLines(payload: string, ghost added: seq<AuditEvent>)
      modifies this`file, this`log
      ensures file == old(file) + payload && log == old(log) + added
    {
      file := file + payload;
      log := log + added;
    }

    /** Ticket `id` moves on by one event. */
    method Advance(id: Id, t: Ticket, e: AuditEvent)
      requires Valid() && id in tickets && ApplyEvent(tickets[id], e) == Success(t)
      modifies this`tickets, this`events
      ensures id in old(events) && tickets == old(tickets)[id := t] && events == old(events)[id := old(events)[id] + [e]]
      ensures Valid()
    {
      ghost var before := Maps();
      assert id in events;
      hide Shaped, ApplyEvent;
      tickets := tickets[id := t];
      events := events[id := events[id] + [e]];
      LaterKeepsShape(before, Maps(), id, e);
    }

    /** `append_event` */
    method AppendEvent(id: Id, expected: int, e: AuditEvent) returns (r: Result<Ticket, Error>)
      requires Valid() && e.ticketId == id && e.kind != TicketCreated
      modifies this
      ensures Whole() == AfterWrite(old(Whole()), Append(id, expected, e))
      ensures Verdict(old(Whole()), Append(id, expected, e)) == if r.Success? then Success(()) else Failure(r.error)
      ensures r.Success? ==> id in tickets && r.value == tickets[id]
      ensures Valid()
    {
      hide Shaped, Dump, ApplyEvent;
      if id !in tickets { return Failure(NotFound); }
      if tickets[id].version != expected { return Failure(Conflict); }
      var updated :- ApplyEvent(tickets[id], e);
      AppendLines(Dump(e), [e]);
      Advance(id, updated, e);
      return Success(updated);
    }

    /** `transact_supersede`: both lines in one write. */
    method TransactSupersede(oldId: Id, expected: int, link: AuditEvent, t: Ticket, created: AuditEvent)
      returns (r: Result<(), Error>)
      requires Valid() && link.ticketId == oldId && link.kind != TicketCreated && CreationOf(created, t)
      modifies this
      ensures var w := Write.Supersede(oldId, expected, link, t, created);
              Whole() == AfterWrite(old(Whole()), w) && r == Verdict(old(Whole()), w)
      ensures Valid()
    {
      hide Shaped, Dump, ApplyEvent, Store.ApplyToState;
      if oldId !in tickets { return Failure(NotFound); }
      if tickets[oldId].version != expected { return Failure(Conflict); }
      if t.ticketId in tickets { return Failure(Duplicate); }
      var linked :- ApplyEvent(tickets[oldId], link);
      AppendLines(Dump(link) + Dump(created), [link, created]);
      Advance(oldId, linked, link);
      CreationApplies(Maps(), created);
      r := ApplyToState(created);
    }

    /** One decided write, by the method that carries it out. */
    method Carry(w: Write) returns (r: Result<(), Error>)
      requires Valid() && Coherent(w)
      modifies this
      ensures Whole() == AfterWrite(old(Whole()), w) && r == Verdict(old(Whole()), w) && Valid()
      ensures old(InStep(Whole())) ==> InStep(Whole())
    {
      if InStep(Whole()) { WriteKeepsInStep(Whole(), w); }
      hide AfterWrite, Verdict, InStep, Shaped;
      match w
      case Create(t, created) => r := CreateTicket(t, created);
      case Append(id, expected, e) =>
        var appended := AppendEvent(id, expected, e);
        r := if appended.Success? then Success(()) else Failure(appended.error);
      case Supersede(oldId, expected, link, t, created) => r := TransactSupersede(oldId, expected, link, t, created);
    }

    // -------------------------------------------------------------- reads

    /** `query_by_status`, one page and the cursor of the next */
    method QueryByStatus(status: Status, limit: nat, offset: nat) returns (items: seq<Ticket>, next: Option<nat>)
      ensures Known(tickets, Window(ByStatus(tickets, status), offset, limit))
      ensures items == TicketsOf(tickets, Window(ByStatus(tickets, status), offset, limit))
      ensures next == NextCursor(ByStatus(tickets, status), offset, limit)
    {
      PageIsKnown(tickets, status, offset, limit);
      hide *;
      var all := ByStatus(tickets, status);
      items := TicketsOf(tickets, Window(all, offset, limit));
      next := NextCursor(all, offset, limit);
    }

    /** `list_audit_events` */
    method ListAuditEvents(id: Id) returns (r: Result<seq<AuditEvent>, Error>)
      requires Valid() && InStep(Whole())
      ensures r == if id in tickets then Success(Project(log, id)) else Failure(NotFound)
    {
      if id !in events { return Failure(NotFound); }
      return Success(events[id]);
    }
  }

  lemma CreationApplies(st: State, created: AuditEvent)
    requires created.kind == TicketCreated && created.details.TicketDetails?
    ensures Store.ApplyToState(st, created).Success?
  {
  }

  /** One ticket's entry is replaced by another for the same id. */
  lemma ReplacedShape(st: State, now: State, id: Id, t: Ticket, es: seq<AuditEvent>)
    requires Shaped(st) && id in st.tickets && t.ticketId == id && BornAs(es, id)
    requires now.tickets == st.tickets[id := t] && now.events == st.events[id := es]
    ensures Shaped(now)
  {
    hide BornAs;
    UpdateKeepsKeys(st.tickets, id, t);
    UpdateKeepsKeys(st.events, id, es);
  }

  lemma LaterKeepsShape(st: State, now: State, id: Id, e: AuditEvent)
    requires Shaped(st) && id in st.tickets && id in st.events && ApplyEvent(st.tickets[id], e).Success?
    requires now.tickets == st.tickets[id := ApplyEvent(st.tickets[id], e).value]
    requires now.events == st.events[id := st.events[id] + [e]]
    ensures Shaped(now)
  {
    assert BornAs(st.events[id], id) && st.tickets[id].ticketId == id;
    hide ApplyEvent, Shaped;
    ApplyKeepsId(st.tickets[id], e);
    ReplacedShape(st, now, id, now.tickets[id], st.events[id] + [e]);
  }

  lemma RevertedTicket(st: State, now: State, id: Id, t: Ticket)
    requires Shaped(st) && id in st.tickets && Dangling(st, id)
    requires now.tickets == st.tickets[id := t] && now.events == st.events[id := WithoutLast(st.events[id])]
    requires FoldTicket(WithoutLast(st.events[id])) == Success(t)
    ensures Shaped(now) && SameButFor(st, now, id) && Repairable(st, id) && RepairedAt(st, now, id)
  {
    RevertedShape(st, now, id, t);
    assert st.tickets.Keys == st.events.Keys;
    hide Shaped, FoldTicket, WithoutLast, Dangling;
    UpdateKeepsKeys(st.tickets, id, t);
    UpdateKeepsKeys(st.events, id, now.events[id]);
  }

  lemma RevertedShape(st: State, now: State, id: Id, t: Ticket)
    requires Shaped(st) && id in st.tickets && FoldTicket(WithoutLast(st.events[id])) == Success(t)
    requires now.tickets == st.tickets[id := t] && now.events == st.events[id := WithoutLast(st.events[id])]
    ensures Shaped(now)
  {
    FoldOfNothing();
    assert BornAs(st.events[id], id);
    hide FoldTicket, Shaped;
    RefoldedId(WithoutLast(st.events[id]), id);
    ReplacedShape(st, now, id, t, WithoutLast(st.events[id]));
  }

  lemma FoldOfNothing()
    ensures FoldTicket([]).Failure?
  {
  }

  /** Ticket `id` is in `now` what `_repair_partial_supersede` makes of it in `st`. */
  ghost predicate RepairedAt(st: State, now: State, id: Id)
    requires id in st.tickets
  {
    id in now.tickets && id in now.events && id in st.events
    && if Dangling(st, id)
       then Repairable(st, id) && now.events[id] == WithoutLast(st.events[id])
            && FoldTicket(now.events[id]) == Success(now.tickets[id])
       else now.tickets[id] == st.tickets[id] && now.events[id] == st.events[id]
  }

  /** Halfway through the loop: `rest` is still to be looked at. */
  ghost predicate HalfRepaired(st: State, now: State, rest: set<Id>) {
    now.tickets.Keys == st.tickets.Keys == st.events.Keys == now.events.Keys
    && (forall id :: id in st.tickets && id !in rest ==> RepairedAt(st, now, id))
    && (forall id :: id in rest && id in st.tickets ==> now.tickets[id] == st.tickets[id] && now.events[id] == st.events[id])
  }

  ghost predicate SameButFor(before: State, now: State, id: Id) {
    before.tickets.Keys == before.events.Keys == now.tickets.Keys == now.events.Keys
    && forall x :: x in now.tickets && x != id ==> now.tickets[x] == before.tickets[x] && now.events[x] == before.events[x]
  }

  lemma StartRepairing(st: State)
    requires st.tickets.Keys == st.events.Keys
    ensures HalfRepaired(st, st, st.tickets.Keys)
  {
  }

  lemma SameKeys(before: State, now: State, id: Id)
    requires SameButFor(before, now, id)
    ensures now.tickets.Keys == before.tickets.Keys
  {
  }

  lemma OneMoreRepaired(st: State, before: State, now: State, rest: set<Id>, id: Id)
    requires HalfRepaired(st, before, rest + {id}) && id in st.tickets && id !in rest
    requires SameButFor(before, now, id)
    requires id in before.tickets && RepairedAt(before, now, id)
    ensures HalfRepaired(st, now, rest)
  {
    hide RepairedAt, FoldTicket;
    forall x | x in st.tickets && x !in rest ensures RepairedAt(st, now, x) {
      if x != id { StaysRepaired(st, before, now, x); } else { SameStart(st, before, now, id); }
    }
  }

  lemma StaysRepaired(st: State, before: State, now: State, x: Id)
    requires x in st.tickets && RepairedAt(st, before, x)
    requires x in now.tickets && x in now.events && now.tickets[x] == before.tickets[x] && now.events[x] == before.events[x]
    ensures RepairedAt(st, now, x)
  {
    hide FoldTicket;
  }

  lemma SameStart(st: State, before: State, now: State, id: Id)
    requires id in st.tickets && id in before.tickets && before.tickets.Keys == st.tickets.Keys
    requires id in before.events && id in st.events
    requires before.tickets[id] == st.tickets[id] && before.events[id] == st.events[id] && RepairedAt(before, now, id)
    ensures RepairedAt(st, now, id)
  {
    hide FoldTicket;
  }

  lemma CannotRepair(st: State, before: State, rest: set<Id>, id: Id)
    requires HalfRepaired(st, before, rest) && id in rest && id in st.tickets
    requires id in before.tickets && Dangling(before, id) && !Repairable(before, id)
    ensures Repair(st) == Failure(Malformed)
  {
    hide FoldTicket;
    assert Dangling(st, id) && !Repairable(st, id);
  }

  lemma RepairedEverywhere(st: State, now: State)
    requires HalfRepaired(st, now, {}) && now.byIdem == st.byIdem
    ensures Repair(st) == Success(now)
  {
    hide FoldTicket;
    forall id | id in st.tickets && Dangling(st, id) ensures Repairable(st, id) { assert RepairedAt(st, now, id); }
    var r := Repair(st).value;
    forall id | id in st.tickets ensures r.tickets[id] == now.tickets[id] && r.events[id] == now.events[id] {
      assert RepairedAt(st, now, id);
    }
    assert r.tickets == now.tickets && r.events == now.events;
  }
}
