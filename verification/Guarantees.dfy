/** What holds in every run of the gate, whatever the clients do and however
    their steps interleave. Each theorem is about `Run(cfg, steps)` for an
    arbitrary list of steps. */
module Guarantees {
  import opened Wrappers
  import opened Models
  import opened StatusMachine
  import opened Fold
  import opened Store
  import opened Service
  import opened Legality
  import opened StoreInvariants
  import opened Protocol
  import opened CanonicalJson

  // ------------------------------------------------------- writes are legal

  /** A write that lands was decided from the ticket as it is at that moment,
      however long ago its client read it; and it is legal there. */
  lemma LandingIsLegal(cfg: Config, steps: seq<Step>, client: nat, stamp: Stamp)
    requires cfg.Valid()
    requires Answer(cfg, Run(cfg, steps), client, stamp).Success?
    requires Answer(cfg, Run(cfg, steps), client, stamp).value.Perform?
    ensures var g := Run(cfg, steps); var w := Answer(cfg, g, client, stamp).value.write;
            match w
            case Create(t, created) =>
              LegalCreation(cfg, created) && created.details.ticket == t && t.ticketId !in g.store.tickets
            case Append(id, _, e) => id in g.store.tickets && Legal(cfg, g.store.tickets[id], e)
            case Supersede(oldId, _, link, t, created) =>
              oldId in g.store.tickets && Legal(cfg, g.store.tickets[oldId], link)
              && LegalCreation(cfg, created) && t.ticketId !in g.store.tickets
  {
    hide Run, Inv, Answer, Legal, LegalCreation;
    RunKeepsInv(cfg, steps);
    WriteStepIsLegal(cfg, Run(cfg, steps), client, stamp);
  }

  // ---------------------------------------------------- every single ticket

  lemma TicketOfRun(cfg: Config, steps: seq<Step>, id: Id)
    requires cfg.Valid() && id in Run(cfg, steps).store.tickets
    ensures var st := Run(cfg, steps).store;
            id in st.events && LegalHistory(cfg, st.events[id]) && FoldTicket(st.events[id]) == Success(st.tickets[id])
            && st.tickets[id].ticketId == id && TicketOk(cfg, st.tickets[id])
  {
    hide Run, TicketOk, LegalHistory, FoldTicket, LogOk, ChainsOk, IdemOk;
    RunKeepsInv(cfg, steps);
    assert EntryOk(cfg, Run(cfg, steps).store, id);
    CurrentTicket(cfg, Run(cfg, steps).store, id);
  }

  /** No ticket is started twice or given two results. */
  lemma ExecutedAtMostOnce(cfg: Config, steps: seq<Step>, id: Id)
    requires cfg.Valid() && id in Run(cfg, steps).store.events
    ensures Count(Run(cfg, steps).store.events[id], {ExecutionStarted}) <= 1
    ensures Count(Run(cfg, steps).store.events[id], RESULTS) <= Count(Run(cfg, steps).store.events[id], {ExecutionStarted})
  {
    hide Run, Count, TicketOk, LegalHistory, Inv;
    InvKeys(cfg, steps);
    TicketOfRun(cfg, steps, id);
    StartedOnce(cfg, Run(cfg, steps).store.events[id]);
  }

  lemma InvKeys(cfg: Config, steps: seq<Step>)
    requires cfg.Valid()
    ensures Run(cfg, steps).store.tickets.Keys == Run(cfg, steps).store.events.Keys
  {
    hide Run, LogOk;
    RunKeepsInv(cfg, steps);
  }

  /** Four eyes: a ticket that is approved, running or has ever run carries
      exactly the required number of approvals, from different people, none of
      them its proposer unless self-approval is on; a pending one carries fewer. */
  lemma ApprovalSafety(cfg: Config, steps: seq<Step>, id: Id)
    requires cfg.Valid() && id in Run(cfg, steps).store.tickets
    ensures var t := Run(cfg, steps).store.tickets[id];
            (t.status in {Approved, Executing} || t.execution.Some? ==> |t.approvals| == cfg.requiredApprovals)
            && (t.status == Pending ==> |t.approvals| < cfg.requiredApprovals)
            && (forall i, j :: 0 <= i < j < |t.approvals| ==>
                  cfg.lower(t.approvals[i].approvedBy) != cfg.lower(t.approvals[j].approvedBy))
            && (!cfg.allowSelfApproval ==>
                  forall i :: 0 <= i < |t.approvals| ==> cfg.lower(t.approvals[i].approvedBy) != cfg.lower(t.proposedBy))
  {
    hide Run, LegalHistory, FoldTicket, OutcomeOk, LinkOk;
    TicketOfRun(cfg, steps, id);
  }

  /** Status and execution record agree in every reachable store, and a
      superseded ticket never ends anywhere but DEPRECATED, FAILED or CLOSED. */
  lemma OutcomesAreConsistent(cfg: Config, steps: seq<Step>, id: Id)
    requires cfg.Valid() && id in Run(cfg, steps).store.tickets
    ensures var t := Run(cfg, steps).store.tickets[id];
            (t.status == Executing <==> t.execution.Some? && t.execution.value.outcome.None?)
            && (t.status == Failed ==> t.execution.Some? && t.execution.value.outcome == Some(Broke))
            && (t.status == Closed && t.execution.Some? ==> t.execution.value.outcome == Some(Succeeded))
            && (t.status in {Rejected, Expired, Deprecated} ==> t.execution.None?)
            && (t.supersededBy.Some? ==> t.status in {Deprecated, Failed, Closed})
  {
    hide Run, LegalHistory, FoldTicket, ApprovalsOk;
    TicketOfRun(cfg, steps, id);
  }

  /** Every stored event states the status before and after it truthfully, and
      every move of a ticket is one the status machine grants to its actor. */
  lemma AuditLogIsTrue(cfg: Config, steps: seq<Step>, id: Id, i: nat)
    requires cfg.Valid() && id in Run(cfg, steps).store.events
    requires i < |Run(cfg, steps).store.events[id]|
    ensures var es := Run(cfg, steps).store.events[id]; var e := es[i];
            e.ticketId == id && e.version == i + 1
            && FoldTicket(es[..i + 1]).Success? && e.toStatus == Some(FoldTicket(es[..i + 1]).value.status)
            && (i == 0 ==> e.kind == TicketCreated && e.fromStatus.None?)
            && (i > 0 ==> FoldTicket(es[..i]).Success? && e.kind != TicketCreated
                          && e.fromStatus == Some(FoldTicket(es[..i]).value.status)
                          && (Moves(e.kind) ==> CanTransition(e.fromStatus.value, e.toStatus.value, e.actor.kind))
                          && (!Moves(e.kind) ==> e.toStatus == e.fromStatus))
  {
    InvKeys(cfg, steps);
    TicketOfRun(cfg, steps, id);
    hide Run, TicketOk, FoldTicket, CanTransition, ApplyEvent;
    var es := Run(cfg, steps).store.events[id];
    EventPlace(cfg, es, i);
    LegalHistoryFolds(cfg, es);
    if i > 0 {
      AuditTrailIsTrue(cfg, es, i);
    } else {
      CreationFolds(cfg, es[0]);
      assert es[..1] == [es[0]];
    }
  }

  /** An event's sequence number is its place in its ticket's list. */
  lemma EventPlace(cfg: Config, es: seq<AuditEvent>, i: nat)
    requires cfg.Valid() && LegalHistory(cfg, es) && i < |es|
    ensures FoldTicket(es).Success? && es[i].version == i + 1 && es[i].ticketId == FoldTicket(es).value.ticketId
  {
    hide TicketOk, ApplyEvent, LegalDetails, Fresh;
    LegalPrefix(cfg, es, i + 1);
    LegalHistoryFolds(cfg, es);
    assert es[..i + 1][i] == es[i];
    if i > 0 {
      assert es[..i + 1][..i] == es[..i];
      LegalHistoryFolds(cfg, es[..i]);
      assert es[..i][0] == es[0];
    } else {
      assert es[..1] == [es[0]];
    }
  }

  // ------------------------------------------------------ across time

  lemma NextGrows(cfg: Config, g: Gate, step: Step)
    requires cfg.Valid() && Inv(cfg, g)
    ensures Grows(g.store, Next(cfg, g, step).store)
  {
    hide Answer, Inv, Boot, Text, Do, Sound, LogOk;
    match step
    case ReadStep(_, _) =>
    case WriteStep(client, stamp) =>
      if Answer(cfg, g, client, stamp).Success? && Answer(cfg, g, client, stamp).value.Perform? {
        WriteStepIsLegal(cfg, g, client, stamp);
      }
    case Restart =>
      InvParts(cfg, g);
      BootIsIdentity(cfg, g);
  }

  lemma InvParts(cfg: Config, g: Gate)
    requires Inv(cfg, g)
    ensures Sound(cfg, g.store, g.chains) && LogOk(g.store, g.log)
  {
  }

  lemma {:induction false} RunGrows(cfg: Config, steps: seq<Step>, more: seq<Step>)
    requires cfg.Valid()
    ensures Grows(Run(cfg, steps).store, Run(cfg, steps + more).store)
    decreases |more|
  {
    hide Next, Inv, Grows;
    if more == [] {
      assert steps + more == steps;
      GrowsSame(Run(cfg, steps).store);
    } else {
      var n := |more| - 1;
      RunGrows(cfg, steps, more[..n]);
      RunKeepsInv(cfg, steps + more[..n]);
      assert (steps + more)[..|steps + more| - 1] == steps + more[..n];
      NextGrows(cfg, Run(cfg, steps + more[..n]), more[n]);
      GrowsTwice(Run(cfg, steps).store, Run(cfg, steps + more[..n]).store, Run(cfg, steps + more).store);
    }
  }

  lemma GrowsSame(st: State)
    ensures Grows(st, st)
  {
  }

  /** What was once decided stays decided: whatever happens later, a ticket keeps
      every frozen field, a terminal ticket keeps its status and its execution
      record, and a link to a successor is never moved. */
  lemma NothingIsRewritten(cfg: Config, steps: seq<Step>, more: seq<Step>, id: Id)
    requires cfg.Valid() && id in Run(cfg, steps).store.tickets
    ensures id in Run(cfg, steps + more).store.tickets
    ensures var t, u := Run(cfg, steps).store.tickets[id], Run(cfg, steps + more).store.tickets[id];
            SameFrozen(t, u)
            && (t.status in {Rejected, Deprecated, Expired, Closed, Failed} ==>
                  u.status == t.status && u.execution == t.execution)
            && (t.supersededBy.Some? ==> u.supersededBy == t.supersededBy)
  {
    hide Run, TicketOk, LegalHistory, FoldTicket, SameFrozen;
    RunGrows(cfg, steps, more);
    InvKeys(cfg, steps + more);
    TicketOfRun(cfg, steps, id);
    TicketOfRun(cfg, steps + more, id);
    var es, fs := Run(cfg, steps).store.events[id], Run(cfg, steps + more).store.events[id];
    LegalHistoryFolds(cfg, es);
    assert fs[..|es|] == es;
    OutcomeIsPermanent(cfg, fs, |es|);
  }

  /** What was approved cannot drift: in every reachable store a ticket's hash is
      the hash of its parameters, those are the requested ones with its own
      creation tags merged in, and its two gate tags name it and its proposer
      after any sequence of tag edits. */
  lemma ApprovedActionIsFixed(cfg: Config, steps: seq<Step>, id: Id)
    requires cfg.Valid() && id in Run(cfg, steps).store.tickets
    ensures var es := Run(cfg, steps).store.events;
            id in es && es[id] != [] && es[id][0].kind == TicketCreated && es[id][0].details.TicketDetails?
    ensures var st := Run(cfg, steps).store; var t := st.tickets[id]; var born := st.events[id][0].details.ticket;
            SameFrozen(born, t)
            && t.actionDetails.parametersHash == cfg.hash(Canonical(t.actionDetails.parameters))
            && (exists requested :: Merged(cfg, born, requested))
            && "gateTicketId" in t.tags && t.tags["gateTicketId"] == id
            && "owner" in t.tags && t.tags["owner"] == t.proposedBy
  {
    hide Run, LegalHistory, FoldTicket, Canonical, Merged, ApprovalsOk, OutcomeOk;
    TicketOfRun(cfg, steps, id);
    LegalHistoryFolds(cfg, Run(cfg, steps).store.events[id]);
  }

  // ----------------------------------------------------------------- lineage

  lemma ChainOfRun(cfg: Config, steps: seq<Step>, id: Id) returns (c: seq<Id>, i: nat)
    requires cfg.Valid() && id in Run(cfg, steps).store.tickets
    ensures var g := Run(cfg, steps); var root := g.store.tickets[id].lineageRootId;
            root in g.chains && c == g.chains[root] && ChainOk(g.store, root, c) && i < |c| && c[i] == id
  {
    hide Run, StoreOk, LogOk, IdemOk;
    RunKeepsInv(cfg, steps);
    var g := Run(cfg, steps);
    assert OnChain(g.chains, g.store.tickets[id].lineageRootId, id);
    c := g.chains[g.store.tickets[id].lineageRootId];
    i :| 0 <= i < |c| && c[i] == id;
  }

  /** Every lineage is one simple chain from its root to its only unsuperseded
      ticket: it holds exactly the tickets of that root, without repetition, each
      linked to the next in both directions, all for one assignee. */
  lemma LineagesAreChains(cfg: Config, steps: seq<Step>, id: Id)
    requires cfg.Valid() && id in Run(cfg, steps).store.tickets
    ensures var st := Run(cfg, steps).store; var root := st.tickets[id].lineageRootId;
            exists c: seq<Id> ::
              ChainOk(st, root, c) && (forall x :: x in c <==> x in st.tickets && st.tickets[x].lineageRootId == root)
  {
    hide Run;
    var g := Run(cfg, steps);
    var root := g.store.tickets[id].lineageRootId;
    var c, i := ChainOfRun(cfg, steps, id);
    forall x | x in c ensures x in g.store.tickets && g.store.tickets[x].lineageRootId == root {
      var j :| 0 <= j < |c| && c[j] == x;
      assert Node(g.store, root, c, j);
    }
    forall x | x in g.store.tickets && g.store.tickets[x].lineageRootId == root ensures x in c {
      var d, j := ChainOfRun(cfg, steps, x);
    }
    assert ChainOk(g.store, root, c);
  }

  /** Links are mutual: `supersedes` and `superseded_by` are inverse to each
      other, and never point outside the store. */
  lemma LinksAreInverse(cfg: Config, steps: seq<Step>, a: Id, b: Id)
    requires cfg.Valid() && a in Run(cfg, steps).store.tickets
    ensures var ts := Run(cfg, steps).store.tickets;
            (ts[a].supersededBy == Some(b) ==> b in ts && ts[b].supersedes == Some(a))
            && (ts[a].supersedes == Some(b) ==> b in ts && ts[b].supersededBy == Some(a))
  {
    hide Run;
    var st := Run(cfg, steps).store;
    var root := st.tickets[a].lineageRootId;
    var c, i := ChainOfRun(cfg, steps, a);
    assert Node(st, root, c, i);
    if i < |c| - 1 { assert Node(st, root, c, i + 1); }
    if i > 0 { assert Node(st, root, c, i - 1); }
  }

  /** Tickets on which something can still happen. */
  predicate Live(s: Status) { s in {Pending, Approved, Executing} }

  /** At most one ticket of a lineage is unsuperseded, hence at most one is ever
      pending, approved or executing. */
  lemma OneLiveTicketPerLineage(cfg: Config, steps: seq<Step>, a: Id, b: Id)
    requires cfg.Valid() && a in Run(cfg, steps).store.tickets && b in Run(cfg, steps).store.tickets
    requires Run(cfg, steps).store.tickets[a].lineageRootId == Run(cfg, steps).store.tickets[b].lineageRootId
    ensures var ts := Run(cfg, steps).store.tickets;
            (ts[a].supersededBy.None? && ts[b].supersededBy.None? ==> a == b)
            && (Live(ts[a].status) && Live(ts[b].status) ==> a == b)
  {
    hide Run;
    var st := Run(cfg, steps).store;
    var root := st.tickets[a].lineageRootId;
    var c, i := ChainOfRun(cfg, steps, a);
    var d, j := ChainOfRun(cfg, steps, b);
    assert Node(st, root, c, i) && Node(st, root, c, j);
    OutcomesAreConsistent(cfg, steps, a);
    OutcomesAreConsistent(cfg, steps, b);
  }

  /** Following `superseded_by` `n` times. */
  function Follow(st: State, id: Id, n: nat): Option<Id>
    decreases n
  {
    if n == 0 then Some(id)
    else if id in st.tickets && st.tickets[id].supersededBy.Some?
    then Follow(st, st.tickets[id].supersededBy.value, n - 1)
    else None
  }

  lemma {:induction false} FollowChain(st: State, root: Id, c: seq<Id>, i: nat, n: nat)
    requires ChainOk(st, root, c) && i < |c|
    ensures Follow(st, c[i], n) == if i + n < |c| then Some(c[i + n]) else None
    decreases n
  {
    assert Node(st, root, c, i);
    if n > 0 && i + 1 < |c| { FollowChain(st, root, c, i + 1, n - 1); }
  }

  /** A client that follows the links from any ticket arrives, after finitely many
      steps, at the one ticket of the lineage that is not superseded. */
  lemma FollowingLinksEnds(cfg: Config, steps: seq<Step>, id: Id)
    requires cfg.Valid() && id in Run(cfg, steps).store.tickets
    ensures var st := Run(cfg, steps).store;
            exists n: nat :: Follow(st, id, n).Some? && Follow(st, id, n).value in st.tickets
                             && st.tickets[Follow(st, id, n).value].supersededBy.None?
                             && st.tickets[Follow(st, id, n).value].lineageRootId == st.tickets[id].lineageRootId
  {
    hide Run;
    var st := Run(cfg, steps).store;
    var c, i := ChainOfRun(cfg, steps, id);
    var n := |c| - 1 - i;
    FollowChain(st, st.tickets[id].lineageRootId, c, i, n);
    assert Node(st, st.tickets[id].lineageRootId, c, |c| - 1);
    assert Follow(st, id, n) == Some(c[|c| - 1]);
  }

  /** Following `supersedes` `n` times. */
  function FollowBack(st: State, id: Id, n: nat): Option<Id>
    decreases n
  {
    if n == 0 then Some(id)
    else if id in st.tickets && st.tickets[id].supersedes.Some?
    then FollowBack(st, st.tickets[id].supersedes.value, n - 1)
    else None
  }

  lemma {:induction false} FollowChainBack(st: State, root: Id, c: seq<Id>, i: nat, n: nat)
    requires ChainOk(st, root, c) && i < |c|
    ensures FollowBack(st, c[i], n) == if n <= i then Some(c[i - n]) else None
    decreases n
  {
    assert Node(st, root, c, i);
    if n > 0 && i > 0 { FollowChainBack(st, root, c, i - 1, n - 1); }
  }

  /** Nor does a client get lost on the way back: following what a ticket
      supersedes ends at the root of its lineage, which supersedes nothing. */
  lemma FollowingBackEnds(cfg: Config, steps: seq<Step>, id: Id)
    requires cfg.Valid() && id in Run(cfg, steps).store.tickets
    ensures var st := Run(cfg, steps).store; var root := st.tickets[id].lineageRootId;
            root in st.tickets && st.tickets[root].supersedes.None?
            && exists n: nat :: FollowBack(st, id, n) == Some(root) && FollowBack(st, id, n + 1).None?
  {
    hide Run;
    var st := Run(cfg, steps).store;
    var c, i := ChainOfRun(cfg, steps, id);
    FollowChainBack(st, st.tickets[id].lineageRootId, c, i, i);
    FollowChainBack(st, st.tickets[id].lineageRootId, c, i, i + 1);
    assert Node(st, st.tickets[id].lineageRootId, c, 0);
  }

  // ------------------------------------------------------------- idempotency

  /** The index is exact: it holds precisely the (assignee, key) pairs of the
      stored tickets, each leading to its one ticket. */
  lemma IndexIsExact(cfg: Config, steps: seq<Step>, assignee: string, key: string, id: Id)
    requires cfg.Valid()
    ensures var st := Run(cfg, steps).store;
            ((assignee, key) in st.byIdem && st.byIdem[(assignee, key)] == id) <==>
            (key != "" && id in st.tickets && st.tickets[id].assignee == assignee
             && st.tickets[id].idempotencyKey == Some(key))
  {
    hide Run, StoreOk, LogOk, ChainsOk;
    RunKeepsInv(cfg, steps);
    var st := Run(cfg, steps).store;
    if (assignee, key) in st.byIdem { assert IdemEntryOk(st, (assignee, key)); }
    if id in st.tickets { assert IdemTicketOk(st, id); }
  }

  /** Once a pair is taken, no create for it adds a ticket: whether its read came
      before or after, it is answered with the existing ticket or refused as a
      duplicate (or fails for its own parameters). */
  lemma CreateIsIdempotent(cfg: Config, steps: seq<Step>, client: nat, stamp: Stamp)
    requires cfg.Valid() && client in Run(cfg, steps).inFlight
    requires IsCreate(Run(cfg, steps).inFlight[client].req)
    requires var g := Run(cfg, steps); var k := KeyOf(g.inFlight[client].req); k.Some? && k.value in g.store.byIdem
    ensures var g := Run(cfg, steps); var k := KeyOf(g.inFlight[client].req).value;
            Next(cfg, g, WriteStep(client, stamp)).store == g.store
            && (Answer(cfg, g, client, stamp).Success? ==>
                  Answer(cfg, g, client, stamp).value.Existing?
                  && Answer(cfg, g, client, stamp).value.ticket.ticketId == g.store.byIdem[k])
  {
    hide Run, Sound, LogOk, BuildTicket, Historic, Do;
    RunKeepsInv(cfg, steps);
    var g := Run(cfg, steps);
    var f := g.inFlight[client];
    assert SnapshotOk(g.store, f);
    if f.snapshot.None? && GoodStamp(stamp) && Decide(cfg, f.req, f.snapshot, stamp).Success? {
      CreateKeepsKey(cfg, f.req, stamp);
      TakenKeyIsRefused(g.store, Decide(cfg, f.req, f.snapshot, stamp).value.write);
    }
  }

  lemma CreateKeepsKey(cfg: Config, req: Request, stamp: Stamp)
    requires IsCreate(req) && KeyOf(req).Some? && GoodStamp(stamp) && Decide(cfg, req, None, stamp).Success?
    ensures var d := Decide(cfg, req, None, stamp).value;
            d.Perform? && d.write.Create? && Truthy(d.write.ticket.idempotencyKey)
            && (d.write.ticket.assignee, d.write.ticket.idempotencyKey.value) == KeyOf(req).value
  {
    hide BuildTicket, LegalCreation;
    match req
    case AgentCreate(p, principal, key, session) => BuiltIsFresh(cfg, p, principal, principal, key, None, session, stamp);
    case HumanCreate(p, email, executor, key) => BuiltIsFresh(cfg, p, executor, email, key, None, None, stamp);
  }

  lemma TakenKeyIsRefused(st: State, w: Write)
    requires w.Create? && IdemTaken(st, w.ticket)
    ensures Do(st, w) == Failure(Duplicate)
  {
  }

  // ---------------------------------------------------------------- the log

  /** The cache equals the log: in every run, replaying the log gives exactly the
      live maps with nothing to repair, and each ticket's event list is the log's
      projection onto it. */
  lemma CacheEqualsLog(cfg: Config, steps: seq<Step>)
    requires cfg.Valid()
    ensures var g := Run(cfg, steps);
            Boot(Text(g.log)) == Success(g.store)
            && Replay(EMPTY, g.log) == Success(g.store) && Repair(g.store) == Success(g.store)
            && forall id :: Project(g.log, id) == if id in g.store.events then g.store.events[id] else []
  {
    hide Run, Boot, Text, Repair, Replay, Sound;
    RunKeepsInv(cfg, steps);
    var g := Run(cfg, steps);
    BootIsIdentity(cfg, g);
    SoundHasNoDangling(cfg, g.store, g.chains);
    RepairNothing(g.store);
  }
}
