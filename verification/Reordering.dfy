/** The order in which events of different tickets reach the log carries no
    information: any log with the same events per ticket boots to the same maps. */
module Reordering {
  import opened Wrappers
  import opened Models
  import opened Fold
  import opened Store
  import opened Legality
  import opened StoreInvariants
  import opened Protocol

  ghost predicate SameProjections(a: seq<AuditEvent>, b: seq<AuditEvent>) {
    forall id :: Project(a, id) == Project(b, id)
  }

  /** `part` is what the events `seen` of ticket `id` amount to. */
  ghost predicate PartOf(part: State, seen: seq<AuditEvent>, id: Id) {
    if seen == [] then id !in part.tickets && id !in part.events
    else id in part.tickets && id in part.events && part.events[id] == seen && FoldTicket(seen) == Success(part.tickets[id])
  }

  /** The maps after replaying `log`, some of the events of `st`. */
  ghost predicate Partial(st: State, log: seq<AuditEvent>, part: State) {
    (forall id :: PartOf(part, Project(log, id), id))
    && (forall k :: k in part.byIdem ==> k in st.byIdem && part.byIdem[k] == st.byIdem[k])
    && (forall id :: id in part.tickets ==> KeyIndexed(part, part.tickets[id]))
  }

  ghost predicate KeyIndexed(part: State, t: Ticket) {
    Truthy(t.idempotencyKey) ==> (t.assignee, t.idempotencyKey.value) in part.byIdem
  }

  lemma PrefixProjects(log: seq<AuditEvent>, n: nat, id: Id)
    requires n <= |log|
    ensures Project(log[..n], id) <= Project(log, id)
  {
    ProjectAppend(log[..n], log[n..], id);
    assert log[..n] + log[n..] == log;
  }

  lemma ProjectSnoc(log: seq<AuditEvent>, e: AuditEvent, id: Id)
    ensures Project(log + [e], id) == if e.ticketId == id then Project(log, id) + [e] else Project(log, id)
  {
    assert (log + [e])[..|log|] == log;
  }

  /** The next event of a legal history, and what it does to the fold. */
  lemma NextOfHistory(cfg: Config, es: seq<AuditEvent>, i: nat, id: Id)
    requires cfg.Valid() && LegalHistory(cfg, es) && i < |es| && FoldTicket(es).Success?
    requires FoldTicket(es).value.ticketId == id
    ensures FoldTicket(es[..i + 1]).Success? && SameFrozen(FoldTicket(es[..i + 1]).value, FoldTicket(es).value)
    ensures i == 0 ==> CreationOf(es[0], FoldTicket(es[..1]).value) && FoldTicket(es[..1]).value.ticketId == id
    ensures i > 0 ==> es[i].kind != TicketCreated && FoldTicket(es[..i]).Success?
                      && ApplyEvent(FoldTicket(es[..i]).value, es[i]) == FoldTicket(es[..i + 1])
  {
    hide TicketOk, Fresh, ApplyEvent, SameFrozen, LegalHistory, StepOk, Moves;
    FrozenPrefix(cfg, es, i + 1);
    if i == 0 {
      BornAs(cfg, es);
    } else {
      AuditTrailIsTrue(cfg, es, i);
      assert es[..i + 1][..i] == es[..i];
    }
  }

  lemma FrozenPrefix(cfg: Config, es: seq<AuditEvent>, n: nat)
    requires cfg.Valid() && LegalHistory(cfg, es) && 1 <= n <= |es|
    ensures FoldTicket(es[..n]).Success? && FoldTicket(es).Success?
    ensures SameFrozen(FoldTicket(es[..n]).value, FoldTicket(es).value)
  {
    hide LegalHistory, FoldTicket, SameFrozen;
    OutcomeIsPermanent(cfg, es, n);
  }

  lemma BornAs(cfg: Config, es: seq<AuditEvent>)
    requires cfg.Valid() && LegalHistory(cfg, es) && FoldTicket(es).Success?
    ensures es != [] && FoldTicket(es[..1]).Success? && CreationOf(es[0], FoldTicket(es[..1]).value)
    ensures FoldTicket(es[..1]).value.ticketId == FoldTicket(es).value.ticketId
  {
    hide LegalHistory, TicketOk, Fresh;
    LegalHistoryFolds(cfg, es);
    assert es[..1] == [es[0]];
    CreationFolds(cfg, es[0]);
  }

  lemma PartialStep(cfg: Config, st: State, log: seq<AuditEvent>, e: AuditEvent, part: State)
    requires cfg.Valid() && StoreOk(cfg, st) && IdemOk(st) && Partial(st, log, part)
    requires e.ticketId in st.events && Project(log + [e], e.ticketId) <= st.events[e.ticketId]
    ensures ApplyToState(part, e).Success? && Partial(st, log + [e], ApplyToState(part, e).value)
  {
    hide LegalHistory, FoldTicket, ApplyEvent, ApplyToState, CreationOf, Project, SameFrozen, KeyIndexed;
    var id, es := e.ticketId, st.events[e.ticketId];
    var seen := Project(log, id);
    ProjectSnoc(log, e, id);
    assert EntryOk(cfg, st, id) && IdemTicketOk(st, id);
    assert PartOf(part, seen, id);
    assert es[|seen|] == e && es[..|seen|] == seen && es[..|seen| + 1] == seen + [e];
    NextOfHistory(cfg, es, |seen|, id);
    StepApplies(part, e, seen);
    var t := FoldTicket(seen + [e]).value;
    KeyOfFrozen(t, st.tickets[id]);
    forall x ensures PartOf(ApplyToState(part, e).value, Project(log + [e], x), x) {
      ProjectSnoc(log, e, x);
      assert PartOf(part, Project(log, x), x);
    }
    if seen != [] { ApplyKeepsFrozen(part.tickets[id], e); KeyOfFrozen(part.tickets[id], t); }
    KeysIndexed(part, ApplyToState(part, e).value, id, t);
  }

  lemma KeysIndexed(part: State, after: State, id: Id, t: Ticket)
    requires forall x :: x in part.tickets ==> KeyIndexed(part, part.tickets[x])
    requires after.tickets == part.tickets[id := t]
    requires after.byIdem == (if id !in part.tickets && Truthy(t.idempotencyKey)
                              then part.byIdem[(t.assignee, t.idempotencyKey.value) := id] else part.byIdem)
    requires id in part.tickets ==>
               part.tickets[id].assignee == t.assignee && part.tickets[id].idempotencyKey == t.idempotencyKey
    ensures forall x :: x in after.tickets ==> KeyIndexed(after, after.tickets[x])
  {
    forall x | x in after.tickets ensures KeyIndexed(after, after.tickets[x]) {
      if x in part.tickets { assert KeyIndexed(part, part.tickets[x]); }
    }
  }

  lemma KeyOfFrozen(t: Ticket, u: Ticket)
    requires SameFrozen(t, u)
    ensures t.assignee == u.assignee && t.idempotencyKey == u.idempotencyKey && t.ticketId == u.ticketId
  {
  }

  lemma StepApplies(part: State, e: AuditEvent, seen: seq<AuditEvent>)
    requires PartOf(part, seen, e.ticketId) && FoldTicket(seen + [e]).Success?
    requires seen == [] ==> CreationOf(e, FoldTicket(seen + [e]).value)
    requires seen != [] ==> e.kind != TicketCreated && FoldTicket(seen).Success?
                            && ApplyEvent(FoldTicket(seen).value, e) == FoldTicket(seen + [e])
    ensures ApplyToState(part, e).Success?
    ensures var after := ApplyToState(part, e).value; var t := FoldTicket(seen + [e]).value;
            after.tickets == part.tickets[e.ticketId := t] && after.events == part.events[e.ticketId := seen + [e]]
            && after.byIdem == if seen == [] && Truthy(t.idempotencyKey)
                               then part.byIdem[(t.assignee, t.idempotencyKey.value) := e.ticketId] else part.byIdem
  {
    hide FoldTicket, ApplyEvent;
  }

  lemma {:induction false} PartialReplay(cfg: Config, st: State, log: seq<AuditEvent>, n: nat)
    requires cfg.Valid() && StoreOk(cfg, st) && IdemOk(st) && n <= |log|
    requires forall id :: Project(log, id) == if id in st.events then st.events[id] else []
    ensures Replay(EMPTY, log[..n]).Success? && Partial(st, log[..n], Replay(EMPTY, log[..n]).value)
  {
    hide StoreOk, IdemOk, ApplyToState, Partial;
    if n == 0 {
      NothingSeen(st);
      assert log[..0] == [];
    } else {
      PartialReplay(cfg, st, log, n - 1);
      var e := log[n - 1];
      assert log[..n][..n - 1] == log[..n - 1] && log[..n] == log[..n - 1] + [e];
      PrefixProjects(log, n, e.ticketId);
      ProjectSnoc(log[..n - 1], e, e.ticketId);
      PartialStep(cfg, st, log[..n - 1], e, Replay(EMPTY, log[..n - 1]).value);
    }
  }

  lemma NothingSeen(st: State)
    ensures Partial(st, [], EMPTY) && Replay(EMPTY, []) == Success(EMPTY)
  {
  }

  lemma PartialIsAll(cfg: Config, st: State, log: seq<AuditEvent>, part: State)
    requires cfg.Valid() && StoreOk(cfg, st) && IdemOk(st) && Partial(st, log, part)
    requires forall id :: Project(log, id) == if id in st.events then st.events[id] else []
    ensures part == st
  {
    hide LegalHistory, FoldTicket, Project;
    forall id ensures (id in part.tickets <==> id in st.tickets) && (id in part.events <==> id in st.events) {
      assert PartOf(part, Project(log, id), id);
      if id in st.tickets { assert EntryOk(cfg, st, id); HistoryNotEmpty(cfg, st.events[id]); }
    }
    forall id | id in st.tickets ensures part.tickets[id] == st.tickets[id] && part.events[id] == st.events[id] {
      assert PartOf(part, Project(log, id), id);
      assert EntryOk(cfg, st, id);
    }
    forall k | k in st.byIdem ensures k in part.byIdem {
      assert IdemEntryOk(st, k);
      assert KeyIndexed(part, part.tickets[st.byIdem[k]]);
    }
    assert part.tickets == st.tickets && part.events == st.events && part.byIdem == st.byIdem;
  }

  lemma HistoryNotEmpty(cfg: Config, es: seq<AuditEvent>)
    requires LegalHistory(cfg, es)
    ensures es != []
  {
  }

  /** Whatever run wrote the log: any other log that holds the same events in the
      same order for each single ticket replays, and boots, to the very same
      tickets, event lists and index. */
  lemma OrderDoesNotMatter(cfg: Config, steps: seq<Step>, other: seq<AuditEvent>)
    requires cfg.Valid() && SameProjections(Run(cfg, steps).log, other)
    ensures Replay(EMPTY, other) == Success(Run(cfg, steps).store)
    ensures Boot(Text(other)) == Success(Run(cfg, steps).store)
  {
    hide Run, Replay, Partial, Boot, Text, StoreOk, IdemOk, ChainsOk, Repair, Project;
    RunKeepsInv(cfg, steps);
    var g := Run(cfg, steps);
    forall id ensures Project(other, id) == if id in g.store.events then g.store.events[id] else [] {
      assert Project(g.log, id) == if id in g.store.events then g.store.events[id] else [];
    }
    PartialReplay(cfg, g.store, other, |other|);
    assert other[..|other|] == other;
    PartialIsAll(cfg, g.store, other, Replay(EMPTY, other).value);
    SoundHasNoDangling(cfg, g.store, g.chains);
    RepairNothing(g.store);
    BootText(other);
  }
}
