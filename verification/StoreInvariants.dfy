/** What every reachable store satisfies, and that every legal write keeps it. */
module StoreInvariants {
  import opened Wrappers
  import opened Models
  import opened Fold
  import opened Store
  import opened Legality

  // ------------------------------------------------------------- histories

  ghost predicate EntryOk(cfg: Config, st: State, id: Id)
    requires id in st.tickets && id in st.events
  {
    LegalHistory(cfg, st.events[id]) && FoldTicket(st.events[id]) == Success(st.tickets[id])
    && st.tickets[id].ticketId == id
  }

  /** Every cached ticket is the fold of its event list, which is legal. */
  ghost predicate StoreOk(cfg: Config, st: State) {
    st.tickets.Keys == st.events.Keys
    && forall id :: id in st.tickets ==> EntryOk(cfg, st, id)
  }

  lemma CurrentTicket(cfg: Config, st: State, id: Id)
    requires cfg.Valid() && StoreOk(cfg, st) && id in st.tickets
    ensures TicketOk(cfg, st.tickets[id]) && st.tickets[id].version == |st.events[id]|
    ensures st.events[id] != [] && LegalCreation(cfg, st.events[id][0])
    ensures SameFrozen(st.events[id][0].details.ticket, st.tickets[id])
  {
    LegalHistoryFolds(cfg, st.events[id]);
  }

  /** `t` is what ticket `t.ticketId` was at some point of its history. */
  ghost predicate Historic(st: State, t: Ticket) {
    t.ticketId in st.events && 1 <= t.version <= |st.events[t.ticketId]|
    && FoldTicket(st.events[t.ticketId][..t.version]) == Success(t)
  }

  lemma CurrentIsHistoric(cfg: Config, st: State, id: Id)
    requires cfg.Valid() && StoreOk(cfg, st) && id in st.tickets
    ensures Historic(st, st.tickets[id])
  {
    CurrentTicket(cfg, st, id);
    assert st.events[id][..|st.events[id]|] == st.events[id];
  }

  /** The compare-and-swap argument: a snapshot whose version is still current
      is the current ticket itself. */
  lemma EqualVersionMeansCurrent(cfg: Config, st: State, t: Ticket)
    requires cfg.Valid() && StoreOk(cfg, st) && Historic(st, t)
    requires t.version == st.tickets[t.ticketId].version
    ensures t == st.tickets[t.ticketId]
  {
    CurrentTicket(cfg, st, t.ticketId);
    var es := st.events[t.ticketId];
    assert es[..|es|] == es;
  }

  /** Histories only ever get longer. */
  ghost predicate Grows(st: State, after: State) {
    forall id :: id in st.events ==> id in after.events && st.events[id] <= after.events[id]
  }

  lemma HistoricStays(st: State, after: State, t: Ticket)
    requires Grows(st, after) && Historic(st, t)
    ensures Historic(after, t)
  {
    assert after.events[t.ticketId][..t.version] == st.events[t.ticketId][..t.version];
  }

  // --------------------------------------------------------------- chains

  /** Position `i` of the lineage `c` under `root`. */
  ghost predicate Node(st: State, root: Id, c: seq<Id>, i: nat)
    requires i < |c|
  {
    c[i] in st.tickets && root in st.tickets
    && var t := st.tickets[c[i]];
       t.lineageRootId == root && t.assignee == st.tickets[root].assignee
       && t.supersedes == (if i == 0 then None else Some(c[i - 1]))
       && t.supersededBy == (if i == |c| - 1 then None else Some(c[i + 1]))
  }

  ghost predicate Distinct(c: seq<Id>) {
    forall i, j :: 0 <= i < j < |c| ==> c[i] != c[j]
  }

  ghost predicate ChainOk(st: State, root: Id, c: seq<Id>) {
    c != [] && c[0] == root && Distinct(c) && forall i :: 0 <= i < |c| ==> Node(st, root, c, i)
  }

  /** Every ticket lies on exactly the chain of its root. */
  ghost predicate ChainsOk(st: State, chains: map<Id, seq<Id>>) {
    (forall root :: root in chains ==> ChainOk(st, root, chains[root]))
    && (forall id :: id in st.tickets ==> OnChain(chains, st.tickets[id].lineageRootId, id))
  }

  ghost predicate OnChain(chains: map<Id, seq<Id>>, root: Id, id: Id) {
    root in chains && id in chains[root]
  }

  // ------------------------------------------------------ idempotency index

  ghost predicate IdemEntryOk(st: State, k: (string, string))
    requires k in st.byIdem
  {
    k.1 != "" && st.byIdem[k] in st.tickets
    && st.tickets[st.byIdem[k]].assignee == k.0 && st.tickets[st.byIdem[k]].idempotencyKey == Some(k.1)
  }

  ghost predicate IdemTicketOk(st: State, id: Id)
    requires id in st.tickets
  {
    var t := st.tickets[id];
    Truthy(t.idempotencyKey) ==>
      (t.assignee, t.idempotencyKey.value) in st.byIdem && st.byIdem[(t.assignee, t.idempotencyKey.value)] == id
  }

  /** The index holds exactly the pairs in use, each with its one ticket. */
  ghost predicate IdemOk(st: State) {
    (forall k :: k in st.byIdem ==> IdemEntryOk(st, k))
    && (forall id :: id in st.tickets ==> IdemTicketOk(st, id))
  }

  // ------------------------------------------------------------ everything

  ghost predicate Sound(cfg: Config, st: State, chains: map<Id, seq<Id>>) {
    StoreOk(cfg, st) && ChainsOk(st, chains) && IdemOk(st)
  }

  /** The lineages after a write. */
  function ChainsAfter(chains: map<Id, seq<Id>>, w: Write): map<Id, seq<Id>> {
    match w
    case Create(t, _) => chains[t.ticketId := [t.ticketId]]
    case Append(_, _, _) => chains
    case Supersede(_, _, _, t, _) =>
      if t.lineageRootId in chains then chains[t.lineageRootId := chains[t.lineageRootId] + [t.ticketId]] else chains
  }

  /** Ticket `id` moves on by one legal event. */
  ghost predicate Advanced(cfg: Config, st: State, after: State, id: Id, e: AuditEvent) {
    id in st.tickets && id in st.events
    && Legal(cfg, st.tickets[id], e)
    && ApplyEvent(st.tickets[id], e).Success?
    && after.tickets == st.tickets[id := ApplyEvent(st.tickets[id], e).value]
    && after.events == st.events[id := st.events[id] + [e]]
    && after.byIdem == st.byIdem
  }

  lemma AdvanceKeepsStore(cfg: Config, st: State, after: State, id: Id, e: AuditEvent)
    requires cfg.Valid() && StoreOk(cfg, st) && Advanced(cfg, st, after, id, e)
    ensures StoreOk(cfg, after) && Grows(st, after)
  {
    hide Legal, LegalHistory, FoldTicket, ApplyEvent;
    assert EntryOk(cfg, st, id);
    AdvancedEntry(cfg, st.events[id], e);
    ApplyKeepsId(st.tickets[id], e);
    assert EntryOk(cfg, after, id);
    forall i | i in after.tickets ensures EntryOk(cfg, after, i) {
      if i != id { assert EntryOk(cfg, st, i); }
    }
  }

  lemma AdvancedEntry(cfg: Config, es: seq<AuditEvent>, e: AuditEvent)
    requires cfg.Valid() && LegalHistory(cfg, es) && FoldTicket(es).Success? && Legal(cfg, FoldTicket(es).value, e)
    ensures LegalHistory(cfg, es + [e]) && FoldTicket(es + [e]) == ApplyEvent(FoldTicket(es).value, e)
  {
    hide Legal, ApplyEvent, TicketOk, SameFrozen, LegalCreation;
    LegalHistoryFolds(cfg, es);
    LegalExtension(cfg, es, e);
    FoldAppend(es, e);
  }

  lemma ApplyKeepsId(t: Ticket, e: AuditEvent)
    requires ApplyEvent(t, e).Success?
    ensures var u := ApplyEvent(t, e).value;
            u.ticketId == t.ticketId && u.lineageRootId == t.lineageRootId && u.assignee == t.assignee
            && u.supersedes == t.supersedes && u.idempotencyKey == t.idempotencyKey
            && u.actionDetails == t.actionDetails && u.proposedBy == t.proposedBy
  {
  }

  lemma AdvanceKeepsIdem(cfg: Config, st: State, after: State, id: Id, e: AuditEvent)
    requires IdemOk(st) && Advanced(cfg, st, after, id, e)
    ensures IdemOk(after)
  {
    hide Legal, ApplyEvent;
    ApplyKeepsId(st.tickets[id], e);
    forall k | k in after.byIdem ensures IdemEntryOk(after, k) { assert IdemEntryOk(st, k); }
    forall i | i in after.tickets ensures IdemTicketOk(after, i) { assert IdemTicketOk(st, i); }
  }

  /** An event that is no link leaves every chain as it is. */
  lemma AdvanceKeepsChains(cfg: Config, st: State, after: State, id: Id, e: AuditEvent, chains: map<Id, seq<Id>>)
    requires cfg.Valid() && StoreOk(cfg, st) && ChainsOk(st, chains) && Advanced(cfg, st, after, id, e)
    requires e.kind !in {TicketDeprecated, TicketSuperseded}
    ensures ChainsOk(after, chains)
  {
    hide Legal, ApplyEvent, StoreOk;
    ApplyKeepsId(st.tickets[id], e);
    LinkUntouched(cfg, st, id, e);
    forall root | root in chains ensures ChainOk(after, root, chains[root]) {
      assert ChainOk(st, root, chains[root]);
      forall i | 0 <= i < |chains[root]| ensures Node(after, root, chains[root], i) {
        assert Node(st, root, chains[root], i);
      }
    }
    forall i | i in after.tickets ensures OnChain(chains, after.tickets[i].lineageRootId, i) {
      assert OnChain(chains, st.tickets[i].lineageRootId, i);
    }
  }

  lemma LinkUntouched(cfg: Config, st: State, id: Id, e: AuditEvent)
    requires cfg.Valid() && StoreOk(cfg, st) && id in st.tickets && Legal(cfg, st.tickets[id], e)
    requires e.kind !in {TicketDeprecated, TicketSuperseded} && ApplyEvent(st.tickets[id], e).Success?
    ensures ApplyEvent(st.tickets[id], e).value.supersededBy == st.tickets[id].supersededBy
  {
    hide Legal, ApplyEvent, TicketOk, LegalHistory, FoldTicket, SameFrozen, LegalCreation;
    CurrentTicket(cfg, st, id);
    LegalStep(cfg, st.tickets[id], e);
  }

  /** A created ticket enters the maps. */
  ghost predicate Entered(cfg: Config, st: State, after: State, t: Ticket, created: AuditEvent) {
    LegalCreation(cfg, created) && created.details.ticket == t
    && t.ticketId !in st.tickets
    && !IdemTaken(st, t)
    && ApplyToState(st, created) == Success(after)
  }

  lemma EnterKeepsStore(cfg: Config, st: State, after: State, t: Ticket, created: AuditEvent)
    requires cfg.Valid() && StoreOk(cfg, st) && Entered(cfg, st, after, t, created)
    ensures StoreOk(cfg, after) && Grows(st, after)
    ensures after.tickets == st.tickets[t.ticketId := t] && after.events == st.events[t.ticketId := [created]]
  {
    EnteredMaps(cfg, st, after, t, created);
    CreationFolds(cfg, created);
    hide LegalCreation, TicketOk, Entered, LegalHistory, FoldTicket;
    assert EntryOk(cfg, after, t.ticketId);
    EntriesEnter(cfg, st, after, t.ticketId, t, [created]);
  }

  /** A new entry leaves the other entries alone. */
  lemma EntriesEnter(cfg: Config, st: State, after: State, id: Id, t: Ticket, es: seq<AuditEvent>)
    requires StoreOk(cfg, st) && id !in st.tickets
    requires after.tickets == st.tickets[id := t] && after.events == st.events[id := es] && EntryOk(cfg, after, id)
    ensures StoreOk(cfg, after) && Grows(st, after)
  {
    hide LegalHistory, FoldTicket;
    forall i | i in after.tickets ensures i in after.events && EntryOk(cfg, after, i) {
      if i != id { assert EntryOk(cfg, st, i); }
    }
    assert after.tickets.Keys == st.tickets.Keys + {id};
    assert after.events.Keys == st.events.Keys + {id};
  }

  lemma EnteredMaps(cfg: Config, st: State, after: State, t: Ticket, created: AuditEvent)
    requires st.tickets.Keys == st.events.Keys && Entered(cfg, st, after, t, created)
    ensures after.tickets == st.tickets[t.ticketId := t] && after.events == st.events[t.ticketId := [created]]
    ensures LegalCreation(cfg, created) && t == created.details.ticket && LegalHistory(cfg, [created])
  {
    hide Fresh, IdemTaken;
    assert [] + [created] == [created];
  }

  lemma EnterKeepsIdem(cfg: Config, st: State, after: State, t: Ticket, created: AuditEvent)
    requires IdemOk(st) && Entered(cfg, st, after, t, created)
    ensures IdemOk(after)
  {
    hide Fresh;
    forall k | k in after.byIdem ensures IdemEntryOk(after, k) {
      if k in st.byIdem { assert IdemEntryOk(st, k); }
    }
    forall i | i in after.tickets ensures IdemTicketOk(after, i) {
      if i != t.ticketId {
        assert IdemTicketOk(st, i);
        if Truthy(st.tickets[i].idempotencyKey) {
          assert IdemEntryOk(st, (st.tickets[i].assignee, st.tickets[i].idempotencyKey.value));
        }
      }
    }
  }

  ghost predicate Carried(st: State, after: State, c: seq<Id>) {
    forall i :: 0 <= i < |c| ==> c[i] in st.tickets && c[i] in after.tickets && after.tickets[c[i]] == st.tickets[c[i]]
  }

  /** A chain survives when none of its tickets, nor their links, change. */
  lemma ChainFrame(st: State, after: State, root: Id, c: seq<Id>)
    requires ChainOk(st, root, c)
    requires Carried(st, after, c)
    ensures ChainOk(after, root, c)
  {
    forall i | 0 <= i < |c| ensures Node(after, root, c, i) { assert Node(st, root, c, i); }
  }

  lemma CreateKeepsChains(cfg: Config, st: State, after: State, t: Ticket, created: AuditEvent, chains: map<Id, seq<Id>>)
    requires ChainsOk(st, chains) && Entered(cfg, st, after, t, created) && t.supersedes.None?
    requires after.tickets == st.tickets[t.ticketId := t]
    ensures ChainsOk(after, chains[t.ticketId := [t.ticketId]])
  {
    hide LegalCreation, ApplyToState, IdemTaken;
    var now := chains[t.ticketId := [t.ticketId]];
    RootIsFree(st, chains, t.ticketId);
    RootOfFresh(cfg, created);
    forall root | root in now ensures ChainOk(after, root, now[root]) {
      if root == t.ticketId {
        assert Node(after, root, [root], 0);
      } else {
        assert ChainOk(st, root, chains[root]);
        assert Carried(st, after, chains[root]) by {
          forall i | 0 <= i < |chains[root]| ensures chains[root][i] in st.tickets { assert Node(st, root, chains[root], i); }
        }
        ChainFrame(st, after, root, chains[root]);
      }
    }
    forall i | i in after.tickets ensures OnChain(now, after.tickets[i].lineageRootId, i) {
      if i != t.ticketId {
        assert OnChain(chains, st.tickets[i].lineageRootId, i);
        assert st.tickets[i].lineageRootId != t.ticketId;
      }
    }
  }

  lemma RootOfFresh(cfg: Config, created: AuditEvent)
    requires LegalCreation(cfg, created) && created.details.ticket.supersedes.None?
    ensures var t := created.details.ticket; t.lineageRootId == t.ticketId && t.supersededBy.None?
  {
  }

  lemma RootIsFree(st: State, chains: map<Id, seq<Id>>, id: Id)
    requires ChainsOk(st, chains) && id !in st.tickets
    ensures id !in chains
  {
    forall root | root in chains ensures root in st.tickets {
      assert ChainOk(st, root, chains[root]);
      assert Node(st, root, chains[root], 0);
    }
  }

  /** The ticket being superseded is the tip of its chain, because it carries no
      link yet; the new ticket becomes the tip. */
  lemma LinkKeepsChains(st: State, after: State, oldId: Id, t: Ticket, chains: map<Id, seq<Id>>)
    requires ChainsOk(st, chains) && oldId in st.tickets && t.ticketId !in st.tickets
    requires st.tickets[oldId].supersededBy.None?
    requires t.supersedes == Some(oldId) && t.supersededBy.None?
    requires t.lineageRootId == st.tickets[oldId].lineageRootId && t.assignee == st.tickets[oldId].assignee
    requires after.tickets.Keys == st.tickets.Keys + {t.ticketId}
    requires after.tickets[t.ticketId] == t
    requires forall id :: id in st.tickets && id != oldId ==> after.tickets[id] == st.tickets[id]
    requires var u := after.tickets[oldId]; var o := st.tickets[oldId];
             u.lineageRootId == o.lineageRootId && u.assignee == o.assignee && u.supersedes == o.supersedes
             && u.supersededBy == Some(t.ticketId)
    ensures t.lineageRootId in chains
    ensures ChainsOk(after, chains[t.lineageRootId := chains[t.lineageRootId] + [t.ticketId]])
  {
    var root := t.lineageRootId;
    assert OnChain(chains, st.tickets[oldId].lineageRootId, oldId);
    var c := chains[root];
    var d := c + [t.ticketId];
    var now := chains[root := d];
    assert ChainOk(st, root, c);
    var k :| 0 <= k < |c| && c[k] == oldId;
    assert Node(st, root, c, k);
    assert k == |c| - 1;
    NewTip(st, after, oldId, t, root, c);
    forall r | r in now ensures ChainOk(after, r, now[r]) {
      if r != root {
        assert ChainOk(st, r, chains[r]);
        OffChain(st, oldId, r, chains[r]);
        ChainFrame(st, after, r, chains[r]);
      }
    }
    forall i | i in after.tickets ensures OnChain(now, after.tickets[i].lineageRootId, i) {
      if i == t.ticketId {
        assert d[|c|] == i;
      } else {
        assert OnChain(chains, st.tickets[i].lineageRootId, i);
        if st.tickets[i].lineageRootId == root {
          var j :| 0 <= j < |c| && c[j] == i;
          assert d[j] == i;
        }
      }
    }
  }

  /** A ticket of one lineage is on no other lineage's chain. */
  lemma OffChain(st: State, id: Id, r: Id, c: seq<Id>)
    requires ChainOk(st, r, c) && id in st.tickets && st.tickets[id].lineageRootId != r
    ensures forall i :: 0 <= i < |c| ==> c[i] in st.tickets && c[i] != id
  {
    forall i | 0 <= i < |c| ensures c[i] in st.tickets && c[i] != id { assert Node(st, r, c, i); }
  }

  lemma NewTip(st: State, after: State, oldId: Id, t: Ticket, root: Id, c: seq<Id>)
    requires ChainOk(st, root, c) && c[|c| - 1] == oldId && t.ticketId !in st.tickets
    requires t.supersedes == Some(oldId) && t.supersededBy.None? && t.lineageRootId == root
    requires oldId in st.tickets && t.assignee == st.tickets[oldId].assignee
    requires after.tickets.Keys == st.tickets.Keys + {t.ticketId}
    requires after.tickets[t.ticketId] == t
    requires forall id :: id in st.tickets && id != oldId ==> after.tickets[id] == st.tickets[id]
    requires var u := after.tickets[oldId]; var o := st.tickets[oldId];
             u.lineageRootId == o.lineageRootId && u.assignee == o.assignee && u.supersedes == o.supersedes
             && u.supersededBy == Some(t.ticketId)
    ensures ChainOk(after, root, c + [t.ticketId])
  {
    var d := c + [t.ticketId];
    var n := |c|;
    forall i | 0 <= i < n ensures c[i] in st.tickets && d[i] == c[i] && d[i] != t.ticketId { assert Node(st, root, c, i); }
    assert Node(st, root, c, 0) && Node(st, root, c, n - 1);
    forall i | 0 <= i <= n ensures Node(after, root, d, i) {
      if i < n {
        assert Node(st, root, c, i);
        if i < n - 1 { assert c[i] != c[n - 1]; }
      }
    }
  }

  // ---------------------------------------------------- every legal write

  lemma AppendKeepsSound(cfg: Config, st: State, w: Write, chains: map<Id, seq<Id>>)
    requires cfg.Valid() && Sound(cfg, st, chains) && w.Append? && w.id in st.tickets
    requires LegalWrite(cfg, Some(st.tickets[w.id]), w) && Do(st, w).Success?
    ensures Sound(cfg, Do(st, w).value, chains) && Grows(st, Do(st, w).value)
  {
    hide Legal, ApplyEvent, StoreOk, ChainsOk, IdemOk;
    var after := Do(st, w).value;
    AdvanceKeepsStore(cfg, st, after, w.id, w.event);
    AdvanceKeepsIdem(cfg, st, after, w.id, w.event);
    AdvanceKeepsChains(cfg, st, after, w.id, w.event, chains);
  }

  lemma CreateKeepsSound(cfg: Config, st: State, w: Write, chains: map<Id, seq<Id>>)
    requires cfg.Valid() && Sound(cfg, st, chains) && w.Create?
    requires LegalWrite(cfg, None, w) && Do(st, w).Success?
    ensures Sound(cfg, Do(st, w).value, ChainsAfter(chains, w)) && Grows(st, Do(st, w).value)
  {
    hide LegalCreation, ApplyToState, StoreOk, ChainsOk, IdemOk;
    var after := Do(st, w).value;
    EnterKeepsStore(cfg, st, after, w.ticket, w.created);
    EnterKeepsIdem(cfg, st, after, w.ticket, w.created);
    CreateKeepsChains(cfg, st, after, w.ticket, w.created, chains);
  }

  /** The store halfway through a supersede: linked, successor not yet created. */
  function HalfDone(st: State, w: Write): State
    requires w.Supersede?
  {
    if w.oldId in st.tickets && w.oldId in st.events && ApplyEvent(st.tickets[w.oldId], w.link).Success?
    then st.(tickets := st.tickets[w.oldId := ApplyEvent(st.tickets[w.oldId], w.link).value],
             events := st.events[w.oldId := st.events[w.oldId] + [w.link]])
    else st
  }

  lemma SupersedeInTwoSteps(st: State, w: Write)
    requires w.Supersede? && Do(st, w).Success?
    ensures w.oldId in st.tickets && w.oldId in st.events && ApplyEvent(st.tickets[w.oldId], w.link).Success?
    ensures w.ticket.ticketId !in st.tickets && w.oldId != w.ticket.ticketId
    ensures ApplyToState(HalfDone(st, w), w.created) == Do(st, w)
  {
    hide ApplyEvent, ApplyToState;
  }

  lemma SupersedeKeepsSound(cfg: Config, st: State, w: Write, chains: map<Id, seq<Id>>)
    requires cfg.Valid() && Sound(cfg, st, chains) && w.Supersede? && w.oldId in st.tickets
    requires LegalWrite(cfg, Some(st.tickets[w.oldId]), w) && Do(st, w).Success?
    ensures Sound(cfg, Do(st, w).value, ChainsAfter(chains, w)) && Grows(st, Do(st, w).value)
  {
    hide Do, Legal, LegalCreation, ApplyEvent, StoreOk, ChainsOk, IdemOk, TicketOk, SameFrozen;
    var after := Do(st, w).value;
    SupersedeInTwoSteps(st, w);
    SupersedeKeepsMaps(cfg, st, w);
    FreshSuccessor(cfg, w.created);
    CurrentTicket(cfg, st, w.oldId);
    ApplyKeepsId(st.tickets[w.oldId], w.link);
    LinkedTicket(cfg, st.tickets[w.oldId], w.link);
    LinkKeepsChains(st, after, w.oldId, w.ticket, chains);
  }

  lemma HalfIsAdvanced(cfg: Config, st: State, w: Write)
    requires w.Supersede? && w.oldId in st.tickets && w.oldId in st.events
    requires LegalWrite(cfg, Some(st.tickets[w.oldId]), w) && ApplyEvent(st.tickets[w.oldId], w.link).Success?
    ensures Advanced(cfg, st, HalfDone(st, w), w.oldId, w.link)
  {
    hide Legal, LegalCreation, ApplyEvent;
  }

  lemma SuccessorEnters(cfg: Config, st: State, w: Write)
    requires w.Supersede? && Do(st, w).Success? && w.oldId in st.tickets
    requires LegalWrite(cfg, Some(st.tickets[w.oldId]), w)
    ensures Entered(cfg, HalfDone(st, w), Do(st, w).value, w.ticket, w.created)
  {
    hide Do, Legal, LegalCreation, ApplyEvent, ApplyToState;
    SupersedeInTwoSteps(st, w);
    FreshSuccessor(cfg, w.created);
  }

  lemma SupersedeKeepsMaps(cfg: Config, st: State, w: Write)
    requires cfg.Valid() && StoreOk(cfg, st) && IdemOk(st) && w.Supersede? && w.oldId in st.tickets
    requires LegalWrite(cfg, Some(st.tickets[w.oldId]), w) && Do(st, w).Success?
    ensures StoreOk(cfg, Do(st, w).value) && IdemOk(Do(st, w).value) && Grows(st, Do(st, w).value)
    ensures StoreOk(cfg, HalfDone(st, w)) && Advanced(cfg, st, HalfDone(st, w), w.oldId, w.link)
    ensures Do(st, w).value.tickets == HalfDone(st, w).tickets[w.ticket.ticketId := w.ticket]
  {
    hide Do, HalfDone, LegalWrite, Advanced, Entered, StoreOk, IdemOk, Grows;
    var half, after := HalfDone(st, w), Do(st, w).value;
    SupersedeInTwoSteps(st, w);
    HalfIsAdvanced(cfg, st, w);
    SuccessorEnters(cfg, st, w);
    AdvanceKeepsStore(cfg, st, half, w.oldId, w.link);
    AdvanceKeepsIdem(cfg, st, half, w.oldId, w.link);
    EnterKeepsStore(cfg, half, after, w.ticket, w.created);
    EnterKeepsIdem(cfg, half, after, w.ticket, w.created);
    GrowsTwice(st, half, after);
  }

  lemma FreshSuccessor(cfg: Config, created: AuditEvent)
    requires LegalCreation(cfg, created) && created.details.ticket.supersedes.Some?
    ensures created.details.ticket.supersededBy.None? && created.details.ticket.idempotencyKey.None?
    ensures created.kind == TicketCreated
  {
  }

  lemma LinkedTicket(cfg: Config, t: Ticket, link: AuditEvent)
    requires cfg.Valid() && TicketOk(cfg, t) && Legal(cfg, t, link)
    requires link.kind in {TicketDeprecated, TicketSuperseded}
    ensures t.supersededBy.None? && link.details.LinkDetails?
    ensures ApplyEvent(t, link).Success?
    ensures ApplyEvent(t, link).value.supersededBy == Some(link.details.supersededBy)
  {
  }

  lemma GrowsTwice(a: State, b: State, c: State)
    requires Grows(a, b) && Grows(b, c)
    ensures Grows(a, c)
  {
    forall id | id in a.events ensures id in c.events && a.events[id] <= c.events[id] {
      assert id in b.events && a.events[id] <= b.events[id];
    }
  }

  /** Every write that is legal for the current ticket keeps the store sound. */
  lemma WriteKeepsSound(cfg: Config, st: State, snap: Option<Ticket>, w: Write, chains: map<Id, seq<Id>>)
    requires cfg.Valid() && Sound(cfg, st, chains) && LegalWrite(cfg, snap, w) && Do(st, w).Success?
    requires snap.Some? && !w.Create? ==> Historic(st, snap.value)
    ensures Sound(cfg, Do(st, w).value, ChainsAfter(chains, w)) && Grows(st, Do(st, w).value)
    ensures !w.Create? ==> snap.value.ticketId in st.tickets && snap.value == st.tickets[snap.value.ticketId]
  {
    hide Legal, LegalCreation, ApplyToState, ApplyEvent, StoreOk, ChainsOk, IdemOk, Historic;
    match w
    case Create(_, _) => CreateKeepsSound(cfg, st, w, chains);
    case Append(id, _, _) =>
      EqualVersionMeansCurrent(cfg, st, snap.value);
      AppendKeepsSound(cfg, st, w, chains);
    case Supersede(oldId, _, _, _, _) =>
      EqualVersionMeansCurrent(cfg, st, snap.value);
      SupersedeKeepsSound(cfg, st, w, chains);
  }
}
