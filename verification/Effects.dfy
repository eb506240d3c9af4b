/** What each operation does to the store, from end to end: request and ticket in,
    tickets and log out. The statements mention neither decisions nor the fold, so
    they tie together everything in between. */
module Effects {
  import opened Wrappers
  import opened Models
  import opened StatusMachine
  import opened Fold
  import opened Store
  import opened Service
  import opened Legality
  import opened StoreInvariants
  import opened Protocol
  import opened Json
  import opened CanonicalJson
  import GateTags

  /** Ticket `t` after operation `req`, stamped `s`. */
  function Outgrown(cfg: Config, req: Request, s: Stamp, t: Ticket): Ticket
    requires !IsCreate(req)
  {
    var next := t.(version := t.version + 1);
    match req
    case Start(_, _, _, _) => next.(status := Executing, execution := Some(Execution(s.later, None, None, None, [], [])))
    case Report(_, _, outcome, message, ids, resources, _) =>
      var startedAt := if t.execution.Some? then t.execution.value.startedAt else s.later;
      next.(status := if outcome == Succeeded then Closed else Failed,
            execution := Some(Execution(startedAt, Some(s.later), Some(outcome), message, ids, resources)))
    case Approve(_, email) =>
      next.(approvals := t.approvals + [Approval(email, s.now)],
            status := if |t.approvals| + 1 < cfg.requiredApprovals then Pending else Approved)
    case Reject(_, email, why) =>
      next.(status := Rejected, rejectedBy := Some(email), rejectedAt := Some(s.later), rejectionReason := Some(why))
    case Supersede(_, _, _) =>
      next.(supersededBy := Some(s.ticketId), status := if t.status in {Failed, Closed} then t.status else Deprecated)
    case Close(_, _, _) => next.(status := Closed)
    case Comment(_, _, _) => next
    case UpdateTags(_, _, tags) => next.(tags := tags["gateTicketId" := t.ticketId]["owner" := t.proposedBy])
    case Expire(_) => next.(status := Expired)
  }

  /** When an operation goes ahead. */
  predicate Grants(cfg: Config, req: Request, s: Stamp, t: Ticket)
    requires !IsCreate(req)
  {
    match req
    case Start(_, principal, hash, _) =>
      t.assignee == principal && t.status == Approved && hash == t.actionDetails.parametersHash
    case Report(_, principal, _, _, _, _, _) => t.assignee == principal && t.status == Executing
    case Approve(_, email) => t.status == Pending && MayDecide(cfg, t, email) && NewApprover(cfg, t, email)
    case Reject(_, email, _) => t.status == Pending && MayDecide(cfg, t, email)
    case Supersede(_, _, p) =>
      t.supersededBy.None? && t.status in {Pending, Approved, Failed, Closed}
      && cfg.accepted(p.service, p.operation, Object(p.parameters))
    case Close(_, _, _) => t.status in {Pending, Approved}
    case Comment(_, _, _) => true
    case UpdateTags(_, _, _) => t.supersededBy.None?
    case Expire(_) => Overdue(cfg, t, s.now)
  }

  predicate MayDecide(cfg: Config, t: Ticket, email: string) {
    t.supersededBy.None? && (cfg.allowSelfApproval || cfg.lower(t.proposedBy) != cfg.lower(email))
  }

  /** Who the audit trail will name. */
  function Named(req: Request): string {
    match req
    case AgentCreate(_, principal, _, session) => if session.None? || session == Some("") then principal else session.value
    case HumanCreate(_, email, _, _) => email
    case Start(_, principal, _, session) => if session.None? || session == Some("") then principal else session.value
    case Report(_, principal, _, _, _, _, session) => if session.None? || session == Some("") then principal else session.value
    case Expire(_) => "gate"
    case _ => req.email
  }

  /** A new ticket holds what was asked for, and nothing has happened to it yet. */
  ghost predicate Born(cfg: Config, p: Payload, assignee: string, proposer: string, key: Option<string>,
                       before: Option<Ticket>, s: Stamp, t: Ticket) {
    var a := t.actionDetails;
    t == Ticket(s.ticketId, p.subject, s.now, Pending, p.plannedDate, p.plannedAction, a,
                p.tags["gateTicketId" := s.ticketId]["owner" := proposer], assignee, proposer, [], None, None, None,
                if before.Some? then Some(before.value.ticketId) else None, None,
                if before.Some? then before.value.lineageRootId else s.ticketId, key, None, 1)
    && a.service == p.service && a.operation == p.operation && a.region == p.region
    && a.resourceArns == p.resourceArns && a.reason == p.reason
    && Merged(cfg, t, p.parameters) && a.parametersHash == cfg.hash(Canonical(a.parameters))
  }

  // ------------------------------------------------------- the audit trail

  /** What the audit trail says of an operation on ticket `t`. */
  function Recorded(cfg: Config, req: Request, s: Stamp, t: Ticket): AuditEvent
    requires !IsCreate(req)
  {
    var role := if req.Start? || req.Report? then Agent else if req.Expire? then System else Human;
    AuditEvent(if req.Supersede? then s.linkId else s.eventId, t.ticketId, t.version + 1,
               if req.Expire? then s.now else s.later, KindOf(cfg, req, t), Actor(role, Named(req)),
               Some(t.status), Some(Outgrown(cfg, req, s, t).status), DetailsOf(cfg, req, s, t))
  }

  function KindOf(cfg: Config, req: Request, t: Ticket): EventType
    requires !IsCreate(req)
  {
    match req
    case Start(_, _, _, _) => ExecutionStarted
    case Report(_, _, outcome, _, _, _, _) => if outcome == Broke then ExecutionFailed else ExecutionCompleted
    case Approve(_, _) => if |t.approvals| + 1 < cfg.requiredApprovals then ApprovalAdded else TicketApproved
    case Reject(_, _, _) => TicketRejected
    case Supersede(_, _, _) => if t.status in {Pending, Approved} then TicketDeprecated else TicketSuperseded
    case Close(_, _, _) => TicketClosed
    case Comment(_, _, _) => CommentAdded
    case UpdateTags(_, _, _) => TagsUpdated
    case Expire(_) => TicketExpired
  }

  function DetailsOf(cfg: Config, req: Request, s: Stamp, t: Ticket): Details
    requires !IsCreate(req)
  {
    match req
    case Start(_, _, _, _) => NoDetails
    case Report(_, _, outcome, message, ids, resources, _) => ResultDetails(outcome, message, ids, resources)
    case Approve(_, email) => ApprovalDetails(Approval(email, s.now))
    case Reject(_, _, why) => ReasonDetails(why)
    case Supersede(_, _, _) => LinkDetails(s.ticketId)
    case Close(_, _, note) => if note.None? || note == Some("") then NoDetails else ReasonDetails(note.value)
    case Comment(_, _, text) => CommentDetails(text)
    case UpdateTags(_, _, tags) => TagDetails(t.tags, tags["gateTicketId" := t.ticketId]["owner" := t.proposedBy])
    case Expire(_) => TtlDetails(cfg.ttl)
  }

  /** What it says of a new ticket. */
  function BirthEntry(t: Ticket, author: string, s: Stamp): AuditEvent {
    AuditEvent(s.eventId, s.ticketId, 1, s.later, TicketCreated,
               Actor(if t.proposedBy == t.assignee then Agent else Human, author), None, Some(Pending), TicketDetails(t))
  }

  // ---------------------------------------------------------- one decision

  /** The event a decision on a ticket comes down to. */
  ghost predicate Outcome(cfg: Config, req: Request, s: Stamp, t: Ticket, e: AuditEvent) {
    !IsCreate(req) && e == Recorded(cfg, req, s, t) && ApplyEvent(t, e) == Success(Outgrown(cfg, req, s, t))
  }

  /** Every operation on one ticket but supersede goes ahead exactly when ... */
  lemma OneGrant(cfg: Config, req: Request, t: Ticket, s: Stamp)
    requires cfg.Valid() && TicketOk(cfg, t) && !IsCreate(req) && !req.Supersede? && !req.Expire?
    ensures DecideOn(cfg, req, t, s).Success? <==> Grants(cfg, req, s, t)
  {
    hide HasApproved, NewApprover, ApprovalsOk, OutcomeOk, GateTagged;
    if req.Approve? { HasApprovedMeans(cfg, t, req.email); }
  }

  /** ... and this is what comes of it. */
  ghost predicate Comes(cfg: Config, req: Request, t: Ticket, s: Stamp)
    requires !IsCreate(req) && !req.Supersede? && !req.Expire? && DecideOn(cfg, req, t, s).Success?
  {
    var d := DecideOn(cfg, req, t, s).value;
    d.Perform? && d.write.Append? && d.write.id == t.ticketId && Outcome(cfg, req, s, t, d.write.event)
  }

  lemma ExecutorsOutcome(cfg: Config, req: Request, t: Ticket, s: Stamp)
    requires TicketOk(cfg, t) && (req.Start? || req.Report?) && DecideOn(cfg, req, t, s).Success?
    ensures Comes(cfg, req, t, s)
  {
    hide HasApproved, ApprovalsOk, GateTagged, LinkOk, CanTransition;
  }

  lemma ApproversOutcome(cfg: Config, req: Request, t: Ticket, s: Stamp)
    requires TicketOk(cfg, t) && (req.Approve? || req.Reject?) && DecideOn(cfg, req, t, s).Success?
    ensures Comes(cfg, req, t, s)
  {
    hide HasApproved, ApprovalsOk, GateTagged, LinkOk, OutcomeOk, Actionable, CanTransition;
  }

  lemma UsersOutcome(cfg: Config, req: Request, t: Ticket, s: Stamp)
    requires TicketOk(cfg, t) && (req.Close? || req.Comment? || req.UpdateTags?) && DecideOn(cfg, req, t, s).Success?
    ensures Comes(cfg, req, t, s)
  {
    hide ApprovalsOk, GateTagged, LinkOk, OutcomeOk, CanTransition;
  }

  lemma OneTicket(cfg: Config, req: Request, t: Ticket, s: Stamp)
    requires TicketOk(cfg, t) && !IsCreate(req) && !req.Supersede? && !req.Expire? && DecideOn(cfg, req, t, s).Success?
    ensures Comes(cfg, req, t, s)
  {
    hide Comes, TicketOk, DecideOn;
    if req.Start? || req.Report? {
      ExecutorsOutcome(cfg, req, t, s);
    } else if req.Approve? || req.Reject? {
      ApproversOutcome(cfg, req, t, s);
    } else {
      UsersOutcome(cfg, req, t, s);
    }
  }

  lemma OneExpiry(cfg: Config, req: Request, t: Ticket, s: Stamp)
    requires req.Expire?
    ensures var d := Decide(cfg, req, Some(t), s);
            d.Success? && (d.value.Perform? <==> Grants(cfg, req, s, t))
            && (d.value.Perform? ==>
                  d.value.write.Append? && d.value.write.id == t.ticketId && Outcome(cfg, req, s, t, d.value.write.event))
  {
    hide Stale, Overdue;
    StaleMeans(cfg, t, s.now);
  }

  lemma OneBirth(cfg: Config, p: Payload, assignee: string, proposer: string, key: Option<string>,
                 before: Option<Ticket>, session: Option<string>, s: Stamp)
    requires BuildTicket(cfg, p, assignee, proposer, key, before, session, s).Success?
    ensures var (t, e) := BuildTicket(cfg, p, assignee, proposer, key, before, session, s).value;
            Born(cfg, p, assignee, proposer, key, before, s, t)
            && e == BirthEntry(t, if session.None? || session == Some("") then proposer else session.value, s)
            && cfg.accepted(p.service, p.operation, Object(p.parameters))
  {
    hide Canonical, GateTags.WithGateTags;
    assert Merged(cfg, BuildTicket(cfg, p, assignee, proposer, key, before, session, s).value.0, p.parameters);
  }

  lemma OneSupersede(cfg: Config, req: Request, t: Ticket, s: Stamp)
    requires req.Supersede? && TicketOk(cfg, t) && DecideOn(cfg, req, t, s).Success?
    ensures var d := DecideOn(cfg, req, t, s).value;
            d.Perform? && d.write.Supersede? && d.write.oldId == t.ticketId && Outcome(cfg, req, s, t, d.write.link)
            && Grants(cfg, req, s, t)
            && Born(cfg, req.payload, t.assignee, req.email, None, Some(t), s, d.write.ticket)
            && d.write.created == BirthEntry(d.write.ticket, req.email, s)
  {
    hide BuildTicket, ApprovalsOk, GateTagged, Born;
    OneBirth(cfg, req.payload, t.assignee, req.email, None, Some(t), None, s);
    BornId(cfg, req.payload, t.assignee, req.email, None, Some(t), s,
           BuildTicket(cfg, req.payload, t.assignee, req.email, None, Some(t), None, s).value.0);
  }

  lemma BornId(cfg: Config, p: Payload, assignee: string, proposer: string, key: Option<string>,
               before: Option<Ticket>, s: Stamp, t: Ticket)
    requires Born(cfg, p, assignee, proposer, key, before, s, t)
    ensures t.ticketId == s.ticketId
  {
  }

  // -------------------------------------------------------- in every run

  /** An operation on a ticket that lands was entitled to, changes that ticket to
      exactly `Outgrown`, records its actor, and leaves every other ticket alone
      (a supersede adds the one it asks for). */
  lemma RequestsDoWhatTheySay(cfg: Config, steps: seq<Step>, client: nat, stamp: Stamp)
    requires cfg.Valid()
    requires Answer(cfg, Run(cfg, steps), client, stamp).Success?
    requires Answer(cfg, Run(cfg, steps), client, stamp).value.Perform?
    requires !IsCreate(Run(cfg, steps).inFlight[client].req)
    ensures var g := Run(cfg, steps); var req := g.inFlight[client].req;
            var after := Next(cfg, g, WriteStep(client, stamp));
            req.id in g.store.tickets
            && var t := g.store.tickets[req.id];
               Grants(cfg, req, stamp, t) && |after.log| > |g.log| && after.log[..|g.log|] == g.log
               && Outcome(cfg, req, stamp, t, after.log[|g.log|])
               && if req.Supersede?
                  then |after.log| == |g.log| + 2 && stamp.ticketId !in g.store.tickets
                       && stamp.ticketId in after.store.tickets
                       && after.log[|g.log| + 1] == BirthEntry(after.store.tickets[stamp.ticketId], req.email, stamp)
                       && Born(cfg, req.payload, t.assignee, req.email, None, Some(t), stamp,
                               after.store.tickets[stamp.ticketId])
                       && after.store.tickets
                          == g.store.tickets[req.id := Outgrown(cfg, req, stamp, t)]
                                            [stamp.ticketId := after.store.tickets[stamp.ticketId]]
                  else |after.log| == |g.log| + 1
                       && after.store.tickets == g.store.tickets[req.id := Outgrown(cfg, req, stamp, t)]
  {
    hide Run, Inv, Decide, DecideOn, Do, LegalWrite, Sound, Grows, LogOk, Born, Outcome, Grants, Outgrown, TicketOk;
    RunKeepsInv(cfg, steps);
    var g := Run(cfg, steps);
    var f := g.inFlight[client];
    var w := Answer(cfg, g, client, stamp).value.write;
    WriteStepIsLegal(cfg, g, client, stamp);
    LandedOnTicket(cfg, g, client, stamp);
    LandedLog(cfg, g, client, stamp, w);
    EffectOnMaps(cfg, g.store, f.req, stamp, w, g.store.tickets[f.req.id]);
  }

  /** What was decided, with the snapshot known to be the current ticket. */
  ghost predicate Planned(cfg: Config, req: Request, s: Stamp, t: Ticket, w: Write) {
    !IsCreate(req) && Grants(cfg, req, s, t)
    && if req.Supersede?
       then w.Supersede? && w.oldId == t.ticketId && Outcome(cfg, req, s, t, w.link)
            && Born(cfg, req.payload, t.assignee, req.email, None, Some(t), s, w.ticket)
            && w.created == BirthEntry(w.ticket, req.email, s)
       else w.Append? && w.id == t.ticketId && Outcome(cfg, req, s, t, w.event)
  }

  lemma LandedOnTicket(cfg: Config, g: Gate, client: nat, stamp: Stamp)
    requires cfg.Valid() && Inv(cfg, g)
    requires Answer(cfg, g, client, stamp).Success? && Answer(cfg, g, client, stamp).value.Perform?
    requires client in g.inFlight && !IsCreate(g.inFlight[client].req)
    ensures var f := g.inFlight[client]; var w := Answer(cfg, g, client, stamp).value.write;
            f.req.id in g.store.tickets && g.store.tickets[f.req.id].ticketId == f.req.id
            && Planned(cfg, f.req, stamp, g.store.tickets[f.req.id], w) && Coherent(w)
  {
    hide Sound, LogOk, Do, LegalWrite, DecideOn, Historic, Born, Outcome, Grants, Outgrown, TicketOk, StoreOk, Grows,
         ChainsAfter, Coherent;
    var f := g.inFlight[client];
    assert SnapshotOk(g.store, f);
    WriteStepIsLegal(cfg, g, client, stamp);
    var w := Answer(cfg, g, client, stamp).value.write;
    LegalIsCoherent(cfg, f.snapshot, w);
    NotACreate(cfg, f.req, f.snapshot, stamp, w);
    WrittenSnapshot(cfg, f.snapshot, w);
    PlanOf(cfg, g, f, stamp, w);
  }

  lemma NotACreate(cfg: Config, req: Request, snap: Option<Ticket>, s: Stamp, w: Write)
    requires !IsCreate(req) && Decide(cfg, req, snap, s) == Success(Perform(w))
    ensures !w.Create?
  {
    hide BuildTicket, HasApproved, Actionable, CanTransition, Stale;
  }

  lemma PlanOf(cfg: Config, g: Gate, f: InFlight, stamp: Stamp, w: Write)
    requires cfg.Valid() && Inv(cfg, g) && SnapshotOk(g.store, f) && !IsCreate(f.req)
    requires Decide(cfg, f.req, f.snapshot, stamp) == Success(Perform(w))
    requires f.snapshot.Some? ==> f.snapshot.value.ticketId in g.store.tickets
                                  && f.snapshot.value == g.store.tickets[f.snapshot.value.ticketId]
    ensures f.req.id in g.store.tickets && g.store.tickets[f.req.id].ticketId == f.req.id
    ensures Planned(cfg, f.req, stamp, g.store.tickets[f.req.id], w)
  {
    hide LogOk, ChainsOk, IdemOk, DecideOn, Historic, Born, Outcome, Grants, Outgrown, TicketOk, StoreOk, ExpiredEvent, Stale;
    var t := f.snapshot.value;
    CurrentTicket(cfg, g.store, t.ticketId);
    if f.req.Supersede? {
      OneSupersede(cfg, f.req, t, stamp);
    } else if f.req.Expire? {
      OneExpiry(cfg, f.req, t, stamp);
    } else {
      OneGrant(cfg, f.req, t, stamp);
      OneTicket(cfg, f.req, t, stamp);
    }
  }

  lemma LandedLog(cfg: Config, g: Gate, client: nat, stamp: Stamp, w: Write)
    requires Answer(cfg, g, client, stamp) == Success(Perform(w)) && Do(g.store, w).Success?
    ensures var after := Next(cfg, g, WriteStep(client, stamp));
            after.log == g.log + Lines(w) && after.store == Do(g.store, w).value
  {
    hide Answer, Do, Lines;
  }

  lemma EffectOnMaps(cfg: Config, st: State, req: Request, s: Stamp, w: Write, t: Ticket)
    requires Planned(cfg, req, s, t, w) && Coherent(w) && Do(st, w).Success?
    requires t.ticketId in st.tickets && st.tickets[t.ticketId] == t
    ensures var after := Do(st, w).value.tickets;
            |Lines(w)| == (if req.Supersede? then 2 else 1) && Outcome(cfg, req, s, t, Lines(w)[0])
            && if req.Supersede?
               then s.ticketId !in st.tickets && s.ticketId in after
                    && Lines(w)[1] == BirthEntry(after[s.ticketId], req.email, s)
                    && Born(cfg, req.payload, t.assignee, req.email, None, Some(t), s, after[s.ticketId])
                    && after == st.tickets[t.ticketId := Outgrown(cfg, req, s, t)][s.ticketId := after[s.ticketId]]
               else after == st.tickets[t.ticketId := Outgrown(cfg, req, s, t)]
  {
    hide ApplyEvent, Grants, Born, Outgrown, BuildTicket;
    if req.Supersede? { BornId(cfg, req.payload, t.assignee, req.email, None, Some(t), s, w.ticket); }
  }

  /** The ticket asked for can be built: its parameters are accepted, and merging
      its tags into them does not raise. */
  predicate Buildable(cfg: Config, p: Payload, id: Id, proposer: string) {
    cfg.accepted(p.service, p.operation, Object(p.parameters))
    && GateTags.WithGateTags(p.service, p.operation, p.parameters, OwnTags(p.tags, id, proposer),
                             cfg.taggable(p.service, p.operation)).Some?
  }

  function Proposer(req: Request): string
    requires IsCreate(req)
  {
    if req.AgentCreate? then req.principal else req.email
  }

  /** When an operation lands that nobody disturbs. */
  predicate MayLand(cfg: Config, req: Request, s: Stamp, st: State) {
    if IsCreate(req) then
      (KeyOf(req).Some? ==> KeyOf(req).value !in st.byIdem)
      && Buildable(cfg, req.payload, s.ticketId, Proposer(req)) && s.ticketId !in st.tickets
    else
      req.id in st.tickets && Grants(cfg, req, s, st.tickets[req.id])
      && (req.Supersede? ==> Buildable(cfg, req.payload, s.ticketId, req.email) && s.ticketId !in st.tickets)
  }

  /** With nobody in between its read and its write, an operation lands if and only
      if: on a ticket, the ticket exists and grants it; for a new ticket, it can be
      built, its id is new, and its key, if any, is not taken. */
  lemma UndisturbedIsDecided(cfg: Config, steps: seq<Step>, client: nat, req: Request, stamp: Stamp)
    requires cfg.Valid() && GoodStamp(stamp)
    ensures var g := Run(cfg, steps + [ReadStep(client, req)]); var d := Answer(cfg, g, client, stamp);
            d.Success? && d.value.Perform? <==> MayLand(cfg, req, stamp, g.store)
  {
    hide Run, Inv, Decide, DecideOn, Do, Sound, LogOk, Outcome, Grants, Outgrown, TicketOk, StoreOk, Answer, GoodStamp,
         Buildable;
    RunKeepsInv(cfg, steps);
    var before := Run(cfg, steps);
    ReadLast(cfg, steps, client, req);
    if IsCreate(req) {
      KeyFacts(cfg, before, req);
      AloneCreates(cfg, before, client, req, stamp);
    } else {
      if req.id in before.store.tickets { TicketFacts(cfg, before, req.id); }
      if req.Supersede? {
        AloneSupersedes(cfg, before, client, req, stamp);
      } else {
        AloneDecides(cfg, before, client, req, stamp);
      }
    }
  }

  /** A create whose key is taken is answered with the ticket that has it. */
  lemma TakenKeyIsAnswered(cfg: Config, steps: seq<Step>, client: nat, req: Request, stamp: Stamp)
    requires cfg.Valid() && GoodStamp(stamp) && IsCreate(req)
    requires KeyOf(req).Some? && KeyOf(req).value in Run(cfg, steps).store.byIdem
    ensures var g := Run(cfg, steps + [ReadStep(client, req)]); var id := g.store.byIdem[KeyOf(req).value];
            id in g.store.tickets && Answer(cfg, g, client, stamp) == Success(Existing(g.store.tickets[id]))
            && g.store.tickets[id].assignee == KeyOf(req).value.0
            && g.store.tickets[id].idempotencyKey == Some(KeyOf(req).value.1)
  {
    hide Run, Inv, Do, BuildTicket;
    RunKeepsInv(cfg, steps);
    ReadLast(cfg, steps, client, req);
    KeyFacts(cfg, Run(cfg, steps), req);
  }

  /** What the index says of a create request's key. */
  lemma KeyFacts(cfg: Config, g: Gate, req: Request)
    requires cfg.Valid() && Inv(cfg, g) && IsCreate(req)
    ensures g.store.tickets.Keys == g.store.events.Keys
    ensures KeyOf(req).Some? && KeyOf(req).value in g.store.byIdem ==>
              var id := g.store.byIdem[KeyOf(req).value];
              id in g.store.tickets && Read(g.store, req) == Some(g.store.tickets[id])
              && (g.store.tickets[id].assignee, g.store.tickets[id].idempotencyKey)
                 == (KeyOf(req).value.0, Some(KeyOf(req).value.1))
    ensures !(KeyOf(req).Some? && KeyOf(req).value in g.store.byIdem) ==> Read(g.store, req).None?
  {
    hide LogOk, ChainsOk, LegalHistory, FoldTicket, TicketOk;
    if KeyOf(req).Some? && KeyOf(req).value in g.store.byIdem {
      var id := g.store.byIdem[KeyOf(req).value];
      assert IdemEntryOk(g.store, KeyOf(req).value);
      TicketFacts(cfg, g, id);
      NamedTicket(cfg, g.store.tickets[id]);
    }
  }

  lemma NamedTicket(cfg: Config, t: Ticket)
    requires TicketOk(cfg, t)
    ensures t.ticketId != ""
  {
  }

  lemma BuildIff(cfg: Config, p: Payload, assignee: string, proposer: string, key: Option<string>,
                 before: Option<Ticket>, session: Option<string>, s: Stamp)
    ensures BuildTicket(cfg, p, assignee, proposer, key, before, session, s).Success?
            <==> Buildable(cfg, p, s.ticketId, proposer)
  {
    hide CanonicalJson.Canonical, GateTags.WithGateTags;
  }

  /** The answer to a call that is not disturbed. */
  function Undisturbed(cfg: Config, st: State, req: Request, stamp: Stamp): Result<Decision, Error> {
    var d :- Decide(cfg, req, Read(st, req), stamp);
    if d.Perform? && Do(st, d.write).Failure? then Failure(Do(st, d.write).error) else Success(d)
  }

  lemma AnswerAlone(cfg: Config, g: Gate, client: nat, req: Request, stamp: Stamp)
    requires GoodStamp(stamp)
    ensures Answer(cfg, Next(cfg, g, ReadStep(client, req)), client, stamp) == Undisturbed(cfg, g.store, req, stamp)
  {
    hide Decide, Do, Read, GoodStamp;
  }

  lemma AloneCreates(cfg: Config, g: Gate, client: nat, req: Request, stamp: Stamp)
    requires cfg.Valid() && GoodStamp(stamp) && IsCreate(req)
    requires KeyOf(req).Some? && KeyOf(req).value in g.store.byIdem <==> Read(g.store, req).Some?
    ensures var d := Answer(cfg, Next(cfg, g, ReadStep(client, req)), client, stamp);
            d.Success? && d.value.Perform? <==> MayLand(cfg, req, stamp, g.store)
  {
    hide Answer, Next, BuildTicket, Buildable, Read, Coherent;
    AnswerAlone(cfg, g, client, req, stamp);
    var assignee := if req.AgentCreate? then req.principal else req.executor;
    var session := if req.AgentCreate? then req.session else None;
    BuildIff(cfg, req.payload, assignee, Proposer(req), req.key, None, session, stamp);
    if Buildable(cfg, req.payload, stamp.ticketId, Proposer(req)) {
      BuiltFor(cfg, req.payload, assignee, Proposer(req), req.key, None, session, stamp);
    }
  }

  lemma BuiltFor(cfg: Config, p: Payload, assignee: string, proposer: string, key: Option<string>,
                 before: Option<Ticket>, session: Option<string>, s: Stamp)
    requires BuildTicket(cfg, p, assignee, proposer, key, before, session, s).Success?
    ensures var (t, e) := BuildTicket(cfg, p, assignee, proposer, key, before, session, s).value;
            t.ticketId == s.ticketId && t.assignee == assignee && t.idempotencyKey == key
            && e.kind == TicketCreated && e.details == TicketDetails(t)
  {
    hide CanonicalJson.Canonical, GateTags.WithGateTags;
  }

  lemma AloneSupersedes(cfg: Config, g: Gate, client: nat, req: Request, stamp: Stamp)
    requires cfg.Valid() && GoodStamp(stamp) && req.Supersede?
    requires req.id in g.store.tickets ==>
               req.id in g.store.events && g.store.tickets[req.id].ticketId == req.id && TicketOk(cfg, g.store.tickets[req.id])
    ensures var d := Answer(cfg, Next(cfg, g, ReadStep(client, req)), client, stamp);
            d.Success? && d.value.Perform? <==> MayLand(cfg, req, stamp, g.store)
  {
    hide Answer, Next, DecideOn, Outgrown, TicketOk, Buildable, Grants;
    AnswerAlone(cfg, g, client, req, stamp);
    if req.id in g.store.tickets {
      var t := g.store.tickets[req.id];
      SupersedeIff(cfg, req, t, stamp);
      if DecideOn(cfg, req, t, stamp).Success? { SupersedeComesTo(cfg, req, t, stamp); }
    }
  }

  lemma SupersedeIff(cfg: Config, req: Request, t: Ticket, s: Stamp)
    requires req.Supersede? && TicketOk(cfg, t)
    ensures DecideOn(cfg, req, t, s).Success? <==> Grants(cfg, req, s, t) && Buildable(cfg, req.payload, s.ticketId, req.email)
  {
    hide BuildTicket, ApprovalsOk, OutcomeOk, GateTagged, Buildable;
    BuildIff(cfg, req.payload, t.assignee, req.email, None, Some(t), None, s);
    BuildNeedsAccepted(cfg, req.payload, s.ticketId, req.email);
  }

  lemma BuildNeedsAccepted(cfg: Config, p: Payload, id: Id, proposer: string)
    ensures Buildable(cfg, p, id, proposer) ==> cfg.accepted(p.service, p.operation, Object(p.parameters))
  {
  }

  lemma SupersedeComesTo(cfg: Config, req: Request, t: Ticket, s: Stamp)
    requires req.Supersede? && TicketOk(cfg, t) && DecideOn(cfg, req, t, s).Success?
    ensures var d := DecideOn(cfg, req, t, s).value;
            d.Perform? && d.write.Supersede? && d.write.oldId == t.ticketId && d.write.expected == t.version
            && ApplyEvent(t, d.write.link).Success? && d.write.ticket.ticketId == s.ticketId
            && d.write.created.kind == TicketCreated && d.write.created.details == TicketDetails(d.write.ticket)
  {
    hide BuildTicket, ApprovalsOk, OutcomeOk, GateTagged, Born, Outgrown;
    OneSupersede(cfg, req, t, s);
    BuiltFor(cfg, req.payload, t.assignee, req.email, None, Some(t), None, s);
  }

  lemma ReadLast(cfg: Config, steps: seq<Step>, client: nat, req: Request)
    ensures Run(cfg, steps + [ReadStep(client, req)]) == Next(cfg, Run(cfg, steps), ReadStep(client, req))
  {
    hide Next;
    assert (steps + [ReadStep(client, req)])[..|steps|] == steps;
  }

  lemma TicketFacts(cfg: Config, g: Gate, id: Id)
    requires cfg.Valid() && Inv(cfg, g) && id in g.store.tickets
    ensures id in g.store.events && g.store.tickets[id].ticketId == id && TicketOk(cfg, g.store.tickets[id])
  {
    hide LegalHistory, FoldTicket, LogOk, ChainsOk, IdemOk, TicketOk, SameFrozen, LegalCreation;
    CurrentTicket(cfg, g.store, id);
    assert EntryOk(cfg, g.store, id);
  }

  lemma AloneDecides(cfg: Config, g: Gate, client: nat, req: Request, stamp: Stamp)
    requires cfg.Valid() && GoodStamp(stamp) && !IsCreate(req) && !req.Supersede?
    requires req.id in g.store.tickets ==>
               req.id in g.store.events && g.store.tickets[req.id].ticketId == req.id && TicketOk(cfg, g.store.tickets[req.id])
    ensures var d := Answer(cfg, Next(cfg, g, ReadStep(client, req)), client, stamp);
            d.Success? && d.value.Perform? <==> MayLand(cfg, req, stamp, g.store)
  {
    hide Answer, Next, DecideOn, Outgrown, TicketOk, Stale, ExpiredEvent, Comes;
    AnswerAlone(cfg, g, client, req, stamp);
    if req.id in g.store.tickets {
      var t := g.store.tickets[req.id];
      if req.Expire? {
        OneExpiry(cfg, req, t, stamp);
      } else {
        OneGrant(cfg, req, t, stamp);
        if DecideOn(cfg, req, t, stamp).Success? {
          OneTicket(cfg, req, t, stamp);
          ComesTo(cfg, req, t, stamp);
        }
      }
    }
  }

  lemma ComesTo(cfg: Config, req: Request, t: Ticket, s: Stamp)
    requires !IsCreate(req) && !req.Supersede? && !req.Expire? && DecideOn(cfg, req, t, s).Success? && Comes(cfg, req, t, s)
    ensures var d := DecideOn(cfg, req, t, s).value;
            d.Perform? && d.write.Append? && d.write.id == t.ticketId && d.write.expected == t.version
            && ApplyEvent(t, d.write.event).Success?
  {
    hide ApplyEvent, HasApproved, Actionable, CanTransition;
  }

  /** A create that lands enters exactly the ticket that was asked for. */
  lemma CreatesAddWhatWasAsked(cfg: Config, steps: seq<Step>, client: nat, stamp: Stamp)
    requires cfg.Valid()
    requires Answer(cfg, Run(cfg, steps), client, stamp).Success?
    requires Answer(cfg, Run(cfg, steps), client, stamp).value.Perform?
    requires IsCreate(Run(cfg, steps).inFlight[client].req)
    ensures var g := Run(cfg, steps); var req := g.inFlight[client].req;
            var after := Next(cfg, g, WriteStep(client, stamp));
            stamp.ticketId !in g.store.tickets && stamp.ticketId in after.store.tickets
            && after.store.tickets == g.store.tickets[stamp.ticketId := after.store.tickets[stamp.ticketId]]
            && Born(cfg, req.payload, if req.AgentCreate? then req.principal else req.executor,
                    if req.AgentCreate? then req.principal else req.email, req.key, None, stamp,
                    after.store.tickets[stamp.ticketId])
            && after.log == g.log + [BirthEntry(after.store.tickets[stamp.ticketId], Named(req), stamp)]
  {
    hide Run, Inv, Decide, Do, LegalWrite, Sound, Grows, LogOk, Born;
    RunKeepsInv(cfg, steps);
    var g := Run(cfg, steps);
    var f := g.inFlight[client];
    var w := Answer(cfg, g, client, stamp).value.write;
    WriteStepIsLegal(cfg, g, client, stamp);
    LegalIsCoherent(cfg, f.snapshot, w);
    CreatePlan(cfg, f.req, f.snapshot, stamp, w);
    LandedLog(cfg, g, client, stamp, w);
    EnteredOnly(g.store, w);
  }

  lemma CreatePlan(cfg: Config, req: Request, snap: Option<Ticket>, s: Stamp, w: Write)
    requires IsCreate(req) && Decide(cfg, req, snap, s) == Success(Perform(w))
    ensures w.Create? && w.ticket.ticketId == s.ticketId
    ensures Born(cfg, req.payload, if req.AgentCreate? then req.principal else req.executor,
                 if req.AgentCreate? then req.principal else req.email, req.key, None, s, w.ticket)
    ensures w.created == BirthEntry(w.ticket, Named(req), s)
  {
    hide BuildTicket;
    match req
    case AgentCreate(p, principal, key, session) => OneBirth(cfg, p, principal, principal, key, None, session, s);
    case HumanCreate(p, email, executor, key) => OneBirth(cfg, p, executor, email, key, None, None, s);
  }

  lemma EnteredOnly(st: State, w: Write)
    requires w.Create? && Coherent(w) && Do(st, w).Success?
    ensures w.ticket.ticketId !in st.tickets && Do(st, w).value.tickets == st.tickets[w.ticket.ticketId := w.ticket]
    ensures Lines(w) == [w.created]
  {
  }
}
