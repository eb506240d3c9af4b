/** An independent statement of which events may follow which ticket, and of
    what a ticket's history guarantees. Nothing here mentions an operation: that
    the operations only ever write legal events is `DecisionIsLegal`. */
module Legality {
  import opened Wrappers
  import opened Models
  import opened StatusMachine
  import opened Fold
  import opened Store
  import opened Service
  import opened Json
  import opened CanonicalJson
  import GateTags

  // ------------------------------------------------------- the legal events

  ghost predicate Legal(cfg: Config, t: Ticket, e: AuditEvent) {
    e.ticketId == t.ticketId && e.version == t.version + 1
    && e.fromStatus == Some(t.status) && e.toStatus.Some?
    && (Moves(e.kind) ==> CanTransition(t.status, e.toStatus.value, e.actor.kind))
    && (!Moves(e.kind) ==> e.toStatus.value == t.status && e.actor.kind == Human)
    && LegalDetails(cfg, t, e)
  }

  /** Every event is a move of the status machine, except links to a follow-up,
      tag edits and comments (and creation, which never follows anything). */
  predicate Moves(kind: EventType) {
    kind !in {TicketSuperseded, TagsUpdated, CommentAdded}
  }

  ghost predicate LegalDetails(cfg: Config, t: Ticket, e: AuditEvent) {
    match e.kind
    case TicketCreated => false
    case ApprovalAdded => LegalApproval(cfg, t, e) && e.toStatus == Some(Pending) && |t.approvals| + 1 < cfg.requiredApprovals
    case TicketApproved => LegalApproval(cfg, t, e) && e.toStatus == Some(Approved) && |t.approvals| + 1 >= cfg.requiredApprovals
    case TicketRejected =>
      e.toStatus == Some(Rejected) && (cfg.allowSelfApproval || cfg.lower(e.actor.id) != cfg.lower(t.proposedBy))
    case TicketDeprecated => e.toStatus == Some(Deprecated) && LegalLink(t, e)
    case TicketSuperseded => t.status in {Failed, Closed} && LegalLink(t, e)
    case TicketExpired => e.toStatus == Some(Expired) && Overdue(cfg, t, e.timestamp)
    case TicketClosed => e.toStatus == Some(Closed) && t.status in {Pending, Approved}
    case ExecutionStarted => e.toStatus == Some(Executing)
    case ExecutionCompleted =>
      e.toStatus == Some(Closed) && t.status == Executing && e.details.ResultDetails? && e.details.outcome == Succeeded
    case ExecutionFailed =>
      e.toStatus == Some(Failed) && t.status == Executing && e.details.ResultDetails? && e.details.outcome == Broke
    case TagsUpdated => !Truthy(t.supersededBy) && e.details.TagDetails? && GateTagged(t, e.details.tags)
    case CommentAdded => true
  }

  ghost predicate LegalApproval(cfg: Config, t: Ticket, e: AuditEvent) {
    t.status == Pending && e.details.ApprovalDetails? && e.details.approval.approvedBy == e.actor.id
    && (cfg.allowSelfApproval || cfg.lower(e.actor.id) != cfg.lower(t.proposedBy))
    && NewApprover(cfg, t, e.actor.id)
  }

  /** None of the approvals is by that person, up to case. */
  predicate NewApprover(cfg: Config, t: Ticket, email: string) {
    forall i :: 0 <= i < |t.approvals| ==> cfg.lower(t.approvals[i].approvedBy) != cfg.lower(email)
  }

  /** Waiting for at least the TTL: a pending ticket since it was made, an approved
      one since each of its approvals. */
  predicate Overdue(cfg: Config, t: Ticket, now: int) {
    if t.status == Approved && t.approvals != []
    then forall i :: 0 <= i < |t.approvals| ==> now - t.approvals[i].approvedAt >= cfg.ttl
    else t.status in {Pending, Approved} && now - t.ticketDate >= cfg.ttl
  }

  ghost predicate LegalLink(t: Ticket, e: AuditEvent) {
    !Truthy(t.supersededBy) && e.details.LinkDetails? && e.details.supersededBy != ""
  }

  ghost predicate GateTagged(t: Ticket, tags: map<string, string>) {
    GATE_ID in tags && OWNER in tags && tags[GATE_ID] == t.ticketId && tags[OWNER] == t.proposedBy
  }

  /** A freshly built ticket: pending, untouched, its parameters carrying its own
      tags and its hash taken over exactly those parameters. */
  ghost predicate Fresh(cfg: Config, t: Ticket) {
    t.status == Pending && t.approvals == [] && t.execution.None? && t.supersededBy.None? && t.version == 1
    && t.rejectedBy.None? && t.ticketId != ""
    && GateTagged(t, t.tags)
    && t.actionDetails.parametersHash == cfg.hash(Canonical(t.actionDetails.parameters))
    && (exists ps :: Merged(cfg, t, ps))
    && (t.supersedes.None? ==> t.lineageRootId == t.ticketId)
    && (t.supersedes.Some? ==> t.idempotencyKey.None?)
  }

  /** The ticket's parameters are the requested ones with its tags merged in. */
  ghost predicate Merged(cfg: Config, t: Ticket, requested: seq<Field>) {
    t.actionDetails.parameters.Object?
    && GateTags.WithGateTags(t.actionDetails.service, t.actionDetails.operation, requested, t.tags,
                             cfg.taggable(t.actionDetails.service, t.actionDetails.operation))
       == Some(t.actionDetails.parameters.fields)
  }

  ghost predicate LegalCreation(cfg: Config, e: AuditEvent) {
    e.details.TicketDetails? && CreationOf(e, e.details.ticket) && Fresh(cfg, e.details.ticket)
    && e.version == 1 && e.fromStatus.None? && e.toStatus == Some(Pending)
  }

  // -------------------------------------------- the operations obey the rules

  /** A ticket id is never empty. */
  predicate GoodStamp(s: Stamp) { s.ticketId != "" }

  lemma BuiltIsFresh(cfg: Config, p: Payload, assignee: string, proposedBy: string, key: Option<string>,
                     supersedes: Option<Ticket>, session: Option<string>, s: Stamp)
    requires GoodStamp(s) && (supersedes.Some? ==> key.None?)
    requires BuildTicket(cfg, p, assignee, proposedBy, key, supersedes, session, s).Success?
    ensures var (t, e) := BuildTicket(cfg, p, assignee, proposedBy, key, supersedes, session, s).value;
            LegalCreation(cfg, e) && e.details.ticket == t && t.ticketId == s.ticketId
            && t.assignee == assignee && t.proposedBy == proposedBy && t.idempotencyKey == key
            && t.supersedes == (if supersedes.Some? then Some(supersedes.value.ticketId) else None)
            && t.lineageRootId == (if supersedes.Some? then supersedes.value.lineageRootId else t.ticketId)
  {
    hide Canonical, GateTags.WithGateTags;
    var t := BuildTicket(cfg, p, assignee, proposedBy, key, supersedes, session, s).value.0;
    assert Merged(cfg, t, p.parameters);
  }

  /** What a write decided from snapshot `snap` looks like. */
  ghost predicate LegalWrite(cfg: Config, snap: Option<Ticket>, w: Write) {
    match w
    case Create(t, created) => LegalCreation(cfg, created) && created.details.ticket == t && t.supersedes.None?
    case Append(id, expected, e) =>
      snap.Some? && id == snap.value.ticketId && expected == snap.value.version && Legal(cfg, snap.value, e)
      && e.kind !in {TicketDeprecated, TicketSuperseded}
    case Supersede(oldId, expected, link, t, created) =>
      snap.Some? && oldId == snap.value.ticketId && expected == snap.value.version && Legal(cfg, snap.value, link)
      && link.kind in {TicketDeprecated, TicketSuperseded} && link.details == LinkDetails(t.ticketId)
      && LegalCreation(cfg, created) && created.details.ticket == t
      && t.supersedes == Some(oldId) && t.lineageRootId == snap.value.lineageRootId && t.assignee == snap.value.assignee
  }

  lemma CreateIsLegal(cfg: Config, p: Payload, assignee: string, proposedBy: string, key: Option<string>,
                      session: Option<string>, snap: Option<Ticket>, s: Stamp)
    requires GoodStamp(s)
    requires DecideCreate(cfg, p, assignee, proposedBy, key, session, snap, s).Success?
    ensures var d := DecideCreate(cfg, p, assignee, proposedBy, key, session, snap, s).value;
            d.Perform? ==> LegalWrite(cfg, snap, d.write) && d.write.Create? && d.write.ticket.ticketId == s.ticketId
  {
    hide BuildTicket, LegalCreation;
    if !(Truthy(key) && snap.Some?) {
      BuiltIsFresh(cfg, p, assignee, proposedBy, key, None, session, s);
    }
  }

  lemma SupersedeIsLegal(cfg: Config, t: Ticket, email: string, p: Payload, s: Stamp)
    requires GoodStamp(s) && DecideSupersede(cfg, t, email, p, s).Success?
    ensures var d := DecideSupersede(cfg, t, email, p, s).value;
            d.Perform? && LegalWrite(cfg, Some(t), d.write) && d.write.Supersede? && d.write.ticket.ticketId == s.ticketId
  {
    hide BuildTicket, LegalCreation;
    BuiltIsFresh(cfg, p, t.assignee, email, None, Some(t), None, s);
  }

  lemma HasApprovedMeans(cfg: Config, t: Ticket, email: string)
    ensures HasApproved(cfg, t, email) <==> !NewApprover(cfg, t, email)
  {
  }

  lemma {:induction false} LatestIsLast(xs: seq<Approval>)
    requires xs != []
    ensures exists i :: 0 <= i < |xs| && xs[i].approvedAt == Latest(xs)
    ensures forall i :: 0 <= i < |xs| ==> xs[i].approvedAt <= Latest(xs)
  {
    var n := |xs| - 1;
    if n == 0 {
      assert xs[0].approvedAt == Latest(xs);
    } else {
      LatestIsLast(xs[..n]);
      var i :| 0 <= i < n && xs[..n][i].approvedAt == Latest(xs[..n]);
      assert xs[i].approvedAt == Latest(xs[..n]);
      assert xs[n].approvedAt <= Latest(xs);
      forall j | 0 <= j < n ensures xs[j].approvedAt <= Latest(xs[..n]) { assert xs[..n][j] == xs[j]; }
    }
  }

  /** The sweep counts from the last approval. */
  lemma StaleMeans(cfg: Config, t: Ticket, now: int)
    ensures Stale(cfg, t, now) <==> Overdue(cfg, t, now)
  {
    if t.status == Approved && t.approvals != [] { LatestIsLast(t.approvals); }
  }

  lemma ApproveIsLegal(cfg: Config, t: Ticket, email: string, s: Stamp)
    requires DecideApprove(cfg, t, email, s).Success?
    ensures var d := DecideApprove(cfg, t, email, s).value;
            d.Perform? && d.write.Append? && LegalWrite(cfg, Some(t), d.write)
  {
    hide HasApproved, NewApprover;
    HasApprovedMeans(cfg, t, email);
  }

  lemma AppendIsLegal(cfg: Config, req: Request, t: Ticket, s: Stamp)
    requires req.Start? || req.Report? || req.Reject? || req.Close? || req.Comment? || req.UpdateTags?
    requires DecideOn(cfg, req, t, s).Success?
    ensures var d := DecideOn(cfg, req, t, s).value;
            d.Perform? && d.write.Append? && LegalWrite(cfg, Some(t), d.write)
  {
    hide HasApproved, NewApprover;
  }

  lemma ExpireIsLegal(cfg: Config, t: Ticket, eventId: string, now: int)
    requires Stale(cfg, t, now)
    ensures Legal(cfg, t, ExpiredEvent(cfg, t, eventId, now))
  {
    hide Overdue;
    StaleMeans(cfg, t, now);
  }

  /** Whatever an operation decides to write is legal for the snapshot it
      decided from. */
  lemma DecisionIsLegal(cfg: Config, req: Request, snap: Option<Ticket>, s: Stamp)
    requires GoodStamp(s)
    requires Decide(cfg, req, snap, s).Success? && Decide(cfg, req, snap, s).value.Perform?
    ensures LegalWrite(cfg, snap, Decide(cfg, req, snap, s).value.write)
  {
    hide DecideCreate, DecideOn, Legal, LegalCreation, Stale, ExpiredEvent;
    match req
    case AgentCreate(p, principal, key, session) =>
      CreateIsLegal(cfg, p, principal, principal, key, session, snap, s);
    case HumanCreate(p, email, executor, key) =>
      CreateIsLegal(cfg, p, executor, email, key, None, snap, s);
    case Expire(_) =>
      ExpireIsLegal(cfg, snap.value, s.eventId, s.now);
      ExpiredShape(cfg, snap.value, s.eventId, s.now);
    case _ => DecideOnIsLegal(cfg, req, snap.value, s);
  }

  lemma ExpiredShape(cfg: Config, t: Ticket, eventId: string, now: int)
    ensures ExpiredEvent(cfg, t, eventId, now).kind == TicketExpired
  {
  }

  lemma DecideOnIsLegal(cfg: Config, req: Request, t: Ticket, s: Stamp)
    requires GoodStamp(s) && !req.AgentCreate? && !req.HumanCreate? && !req.Expire?
    requires DecideOn(cfg, req, t, s).Success?
    ensures var d := DecideOn(cfg, req, t, s).value; d.Perform? && LegalWrite(cfg, Some(t), d.write)
  {
    hide DecideStart, DecideReport, DecideApprove, DecideReject, DecideSupersede, DecideClose, DecideComment,
         DecideTags, LegalWrite;
    match req
    case Approve(_, email) => ApproveIsLegal(cfg, t, email, s);
    case Supersede(_, email, p) => SupersedeIsLegal(cfg, t, email, p, s);
    case _ => AppendIsLegal(cfg, req, t, s);
  }

  lemma LegalIsCoherent(cfg: Config, snap: Option<Ticket>, w: Write)
    requires LegalWrite(cfg, snap, w)
    ensures Coherent(w)
  {
  }

  // ------------------------------------------------- what one ticket promises

  ghost predicate TicketOk(cfg: Config, t: Ticket) {
    t.version >= 1 && t.ticketId != ""
    && ApprovalsOk(cfg, t) && OutcomeOk(t) && LinkOk(t) && GateTagged(t, t.tags)
  }

  /** Exactly as many approvals as required from the moment of approval on, by
      distinct people other than the proposer. */
  ghost predicate ApprovalsOk(cfg: Config, t: Ticket) {
    (t.status == Pending ==> |t.approvals| < cfg.requiredApprovals)
    && (t.status in {Approved, Executing} || t.execution.Some? ==> |t.approvals| == cfg.requiredApprovals)
    && (forall i, j :: 0 <= i < j < |t.approvals| ==>
          cfg.lower(t.approvals[i].approvedBy) != cfg.lower(t.approvals[j].approvedBy))
    && (!cfg.allowSelfApproval ==>
          forall i :: 0 <= i < |t.approvals| ==> cfg.lower(t.approvals[i].approvedBy) != cfg.lower(t.proposedBy))
  }

  /** The status and the execution record tell one story. */
  ghost predicate OutcomeOk(t: Ticket) {
    (t.status == Executing <==> t.execution.Some? && t.execution.value.finishedAt.None?)
    && (t.execution.Some? ==> (t.execution.value.finishedAt.None? <==> t.execution.value.outcome.None?))
    && (t.status == Failed ==> t.execution.Some? && t.execution.value.outcome == Some(Broke))
    && (t.status == Closed && t.execution.Some? ==> t.execution.value.outcome == Some(Succeeded))
    && (t.status in {Pending, Approved, Rejected, Expired, Deprecated} ==> t.execution.None?)
  }

  ghost predicate LinkOk(t: Ticket) {
    (t.supersededBy.Some? ==> t.supersededBy.value != "" && t.status in {Deprecated, Failed, Closed})
    && (t.status == Deprecated ==> t.supersededBy.Some?)
  }

  lemma FreshIsOk(cfg: Config, t: Ticket)
    requires cfg.Valid() && Fresh(cfg, t)
    ensures TicketOk(cfg, t)
  {
  }

  /** A ticket's own account of one legal step. */
  ghost predicate StepOk(t: Ticket, e: AuditEvent, u: Ticket) {
    SameFrozen(t, u) && u.version == t.version + 1
    && e.toStatus == Some(u.status)
    && (Terminal(t.status) ==> u.status == t.status && u.execution == t.execution)
    && (t.execution.Some? ==> u.execution.Some? && u.execution.value.startedAt == t.execution.value.startedAt)
    && (e.kind == ExecutionStarted ==> t.execution.None? && u.execution.Some?)
    && (Finished(t) ==> u.execution == t.execution)
    && (u.execution.Some? && t.execution.None? ==> e.kind == ExecutionStarted)
    && (e.kind in {ExecutionCompleted, ExecutionFailed} <==> Finished(u) && !Finished(t))
    && (t.supersededBy.Some? ==> u.supersededBy == t.supersededBy)
    && (u.supersededBy != t.supersededBy ==> e.kind in {TicketDeprecated, TicketSuperseded} && t.supersededBy.None?)
    && (e.kind in {TicketDeprecated, TicketSuperseded} ==>
          e.details.LinkDetails? && u.supersededBy == Some(e.details.supersededBy))
  }

  predicate Finished(t: Ticket) {
    t.execution.Some? && t.execution.value.outcome.Some?
  }

  /** A legal event always applies, and keeps every promise. */
  lemma LegalStep(cfg: Config, t: Ticket, e: AuditEvent)
    requires cfg.Valid() && TicketOk(cfg, t) && Legal(cfg, t, e)
    ensures ApplyEvent(t, e).Success?
    ensures TicketOk(cfg, ApplyEvent(t, e).value) && StepOk(t, e, ApplyEvent(t, e).value)
  {
    hide TicketOk, Legal, ApplyEvent, StepOk;
    PromisesKept(cfg, t, e);
    StepTold(cfg, t, e);
  }

  lemma PromisesKept(cfg: Config, t: Ticket, e: AuditEvent)
    requires cfg.Valid() && TicketOk(cfg, t) && Legal(cfg, t, e)
    ensures ApplyEvent(t, e).Success? && TicketOk(cfg, ApplyEvent(t, e).value)
  {
    hide Legal, ApplyEvent, ApprovalsOk, OutcomeOk, LinkOk, GateTagged;
    StoryKept(cfg, t, e);
    ApprovalsKept(cfg, t, e);
  }

  lemma StoryKept(cfg: Config, t: Ticket, e: AuditEvent)
    requires TicketOk(cfg, t) && Legal(cfg, t, e)
    ensures ApplyEvent(t, e).Success?
    ensures var u := ApplyEvent(t, e).value;
            OutcomeOk(u) && LinkOk(u) && GateTagged(u, u.tags) && u.version == t.version + 1 && u.ticketId == t.ticketId
  {
    hide Overdue, NewApprover, ApprovalsOk, LinkOk, GateTagged;
    LinkKept(cfg, t, e);
  }

  lemma LinkKept(cfg: Config, t: Ticket, e: AuditEvent)
    requires TicketOk(cfg, t) && Legal(cfg, t, e) && ApplyEvent(t, e).Success?
    ensures var u := ApplyEvent(t, e).value; LinkOk(u) && GateTagged(u, u.tags)
  {
    hide Overdue, NewApprover, ApprovalsOk;
  }

  lemma ApprovalsKept(cfg: Config, t: Ticket, e: AuditEvent)
    requires cfg.Valid() && TicketOk(cfg, t) && Legal(cfg, t, e) && ApplyEvent(t, e).Success?
    ensures ApprovalsOk(cfg, ApplyEvent(t, e).value)
  {
    hide Overdue, NewApprover, LinkOk, GateTagged;
    if e.kind in {ApprovalAdded, TicketApproved} {
      ApprovalStep(cfg, t, e);
    }
  }

  lemma StepTold(cfg: Config, t: Ticket, e: AuditEvent)
    requires TicketOk(cfg, t) && Legal(cfg, t, e) && ApplyEvent(t, e).Success?
    ensures StepOk(t, e, ApplyEvent(t, e).value)
  {
    hide Overdue, NewApprover, ApprovalsOk, GateTagged, SameFrozen;
    ApplyKeepsFrozen(t, e);
  }

  lemma ApprovalStep(cfg: Config, t: Ticket, e: AuditEvent)
    requires cfg.Valid() && TicketOk(cfg, t) && Legal(cfg, t, e) && e.kind in {ApprovalAdded, TicketApproved}
    ensures ApplyEvent(t, e).Success? && ApprovalsOk(cfg, ApplyEvent(t, e).value)
  {
    var u := ApplyEvent(t, e).value;
    var n := |t.approvals|;
    assert u.approvals[n] == e.details.approval;
    assert forall i :: 0 <= i < n ==> u.approvals[i] == t.approvals[i];
    forall i | 0 <= i < n ensures cfg.lower(u.approvals[i].approvedBy) != cfg.lower(u.approvals[n].approvedBy) {
      assert NewApprover(cfg, t, e.actor.id);
    }
  }

  // ---------------------------------------------------------------- histories

  /** An event list in which every event was legal when it was written. */
  ghost predicate LegalHistory(cfg: Config, es: seq<AuditEvent>) {
    es != []
    && if |es| == 1 then LegalCreation(cfg, es[0])
       else
         var n := |es| - 1;
         LegalHistory(cfg, es[..n]) && FoldTicket(es[..n]).Success? && Legal(cfg, FoldTicket(es[..n]).value, es[n])
  }

  lemma {:induction false} LegalHistoryFolds(cfg: Config, es: seq<AuditEvent>)
    requires cfg.Valid() && LegalHistory(cfg, es)
    ensures es != [] && FoldTicket(es).Success? && TicketOk(cfg, FoldTicket(es).value)
    ensures LegalCreation(cfg, es[0]) && SameFrozen(es[0].details.ticket, FoldTicket(es).value)
    ensures FoldTicket(es).value.version == |es|
  {
    hide Legal, LegalCreation, ApplyEvent, TicketOk, StepOk;
    if |es| == 1 {
      CreationFolds(cfg, es[0]);
    } else {
      var n := |es| - 1;
      LegalHistoryFolds(cfg, es[..n]);
      LegalStep(cfg, FoldTicket(es[..n]).value, es[n]);
      ApplyKeepsFrozen(FoldTicket(es[..n]).value, es[n]);
      assert es[..n][0] == es[0];
    }
  }

  lemma CreationFolds(cfg: Config, e: AuditEvent)
    requires cfg.Valid() && LegalCreation(cfg, e)
    ensures FoldTicket([e]) == Success(e.details.ticket) && e.details.TicketDetails?
    ensures TicketOk(cfg, e.details.ticket) && e.details.ticket.version == 1
  {
    FreshIsOk(cfg, e.details.ticket);
  }

  lemma {:induction false} LegalPrefix(cfg: Config, es: seq<AuditEvent>, n: nat)
    requires LegalHistory(cfg, es) && 1 <= n <= |es|
    ensures LegalHistory(cfg, es[..n])
  {
    if n < |es| {
      assert es[..|es| - 1][..n] == es[..n];
      LegalPrefix(cfg, es[..|es| - 1], n);
    } else {
      assert es[..n] == es;
    }
  }

  lemma LegalExtension(cfg: Config, es: seq<AuditEvent>, e: AuditEvent)
    requires cfg.Valid() && LegalHistory(cfg, es) && FoldTicket(es).Success? && Legal(cfg, FoldTicket(es).value, e)
    ensures LegalHistory(cfg, es + [e])
  {
    assert (es + [e])[..|es|] == es;
  }

  // ----------------------------------------------- what histories guarantee

  /** The audit trail tells the truth: each event's `fromStatus` and `toStatus`
      are the folded status just before and just after it, and a status-moving
      event is a transition the table grants to its actor. */
  lemma AuditTrailIsTrue(cfg: Config, es: seq<AuditEvent>, i: nat)
    requires cfg.Valid() && LegalHistory(cfg, es) && 1 <= i < |es|
    ensures FoldTicket(es[..i]).Success? && FoldTicket(es[..i + 1]).Success?
    ensures var t, u := FoldTicket(es[..i]).value, FoldTicket(es[..i + 1]).value;
            es[i].kind != TicketCreated
            && es[i].fromStatus == Some(t.status) && es[i].toStatus == Some(u.status)
            && (Moves(es[i].kind) ==> CanTransition(t.status, u.status, es[i].actor.kind))
            && (!Moves(es[i].kind) ==> u.status == t.status)
  {
    hide TicketOk, ApplyEvent, LegalDetails, LegalCreation, SameFrozen, CanTransition, Moves;
    LegalPrefix(cfg, es, i + 1);
    assert es[..i + 1][..i] == es[..i] && es[..i + 1][i] == es[i];
    LegalHistoryFolds(cfg, es[..i]);
    LegalStep(cfg, FoldTicket(es[..i]).value, es[i]);
    NotACreation(cfg, FoldTicket(es[..i]).value, es[i]);
  }

  lemma NotACreation(cfg: Config, t: Ticket, e: AuditEvent)
    requires Legal(cfg, t, e)
    ensures e.kind != TicketCreated
  {
  }

  /** How often events of the given types occur. */
  function Count(es: seq<AuditEvent>, kinds: set<EventType>): nat {
    if es == [] then 0
    else Count(es[..|es| - 1], kinds) + if es[|es| - 1].kind in kinds then 1 else 0
  }

  const RESULTS := {ExecutionCompleted, ExecutionFailed}

  /** One start at most, one result at most, and no result without a start: the
      counts can be read off the execution record. */
  lemma {:induction false} StartedOnce(cfg: Config, es: seq<AuditEvent>)
    requires cfg.Valid() && LegalHistory(cfg, es)
    ensures FoldTicket(es).Success?
    ensures Count(es, {ExecutionStarted}) == if FoldTicket(es).value.execution.Some? then 1 else 0
    ensures Count(es, RESULTS) == if Finished(FoldTicket(es).value) then 1 else 0
  {
    hide TicketOk, ApplyEvent, Legal, LegalCreation, SameFrozen, CreationOf, CanTransition, RESULTS;
    LegalHistoryFolds(cfg, es);
    if |es| == 1 {
      BornUnstarted(cfg, es);
    } else {
      var n := |es| - 1;
      StartedOnce(cfg, es[..n]);
      LegalHistoryFolds(cfg, es[..n]);
      LegalStep(cfg, FoldTicket(es[..n]).value, es[n]);
      CountStep(es, FoldTicket(es[..n]).value, FoldTicket(es).value);
    }
  }

  lemma BornUnstarted(cfg: Config, es: seq<AuditEvent>)
    requires |es| == 1 && LegalCreation(cfg, es[0])
    ensures FoldTicket(es).Success? && FoldTicket(es).value.execution.None?
    ensures Count(es, {ExecutionStarted}) == 0 && Count(es, RESULTS) == 0
  {
    assert es[..0] == [];
  }

  lemma CountStep(es: seq<AuditEvent>, t: Ticket, u: Ticket)
    requires es != [] && StepOk(t, es[|es| - 1], u)
    requires var before := es[..|es| - 1];
             Count(before, {ExecutionStarted}) == (if t.execution.Some? then 1 else 0)
             && Count(before, RESULTS) == (if Finished(t) then 1 else 0)
    ensures Count(es, {ExecutionStarted}) == (if u.execution.Some? then 1 else 0)
    ensures Count(es, RESULTS) == (if Finished(u) then 1 else 0)
  {
    hide SameFrozen;
  }

  /** Once an outcome is reached, status and execution record never change. */
  lemma {:induction false} OutcomeIsPermanent(cfg: Config, es: seq<AuditEvent>, n: nat)
    requires cfg.Valid() && LegalHistory(cfg, es) && 1 <= n <= |es|
    ensures FoldTicket(es[..n]).Success? && FoldTicket(es).Success?
    ensures var t, u := FoldTicket(es[..n]).value, FoldTicket(es).value;
            (t.status in {Rejected, Deprecated, Expired, Closed, Failed} ==>
               u.status == t.status && u.execution == t.execution)
            && SameFrozen(t, u) && (t.supersededBy.Some? ==> u.supersededBy == t.supersededBy)
    decreases |es|
  {
    hide TicketOk, ApplyEvent, Legal, LegalCreation;
    LegalPrefix(cfg, es, n);
    LegalHistoryFolds(cfg, es[..n]);
    LegalHistoryFolds(cfg, es);
    if n < |es| {
      var m := |es| - 1;
      assert es[..m][..n] == es[..n];
      OutcomeIsPermanent(cfg, es[..m], n);
      LegalHistoryFolds(cfg, es[..m]);
      LegalStep(cfg, FoldTicket(es[..m]).value, es[m]);
    } else {
      assert es[..n] == es;
    }
  }
}
