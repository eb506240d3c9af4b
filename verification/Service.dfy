/** The business rules (`core/service.py`), split where the source may be
    interrupted: what an operation reads, and what it decides from that snapshot.
    The write it decides on is carried out later, by `Store.Do`. */
module Service {
  import opened Wrappers
  import opened Models
  import opened StatusMachine
  import opened Store
  import opened Json
  import opened CanonicalJson
  import GateTags

  /** `TicketCreateRequest` */
  datatype Payload = Payload(
    subject: string,
    plannedDate: int,
    plannedAction: string,
    service: string,
    operation: string,
    region: string,
    parameters: seq<Field>,
    resourceArns: seq<string>,
    reason: Option<string>,
    tags: map<string, string>)

  /** One call of an operation with its arguments. `session` is the caller's
      session ARN, `key` the idempotency key. */
  datatype Request =
    | AgentCreate(payload: Payload, principal: string, key: Option<string>, session: Option<string>)
    | HumanCreate(payload: Payload, email: string, executor: string, key: Option<string>)
    | Start(id: Id, principal: string, echoedHash: string, session: Option<string>)
    | Report(id: Id, principal: string, outcome: Outcome, message: Option<string>, awsRequestIds: seq<string>,
             createdResources: seq<CreatedResource>, session: Option<string>)
    | Approve(id: Id, email: string)
    | Reject(id: Id, email: string, why: string)
    | Supersede(id: Id, email: string, payload: Payload)
    | Close(id: Id, email: string, note: Option<string>)
    | Comment(id: Id, email: string, text: string)
    | UpdateTags(id: Id, email: string, newTags: map<string, string>)
    | Expire(id: Id)   // one ticket on a page of the expiry sweep

  /** What an operation draws from outside: fresh ids and two clock readings. */
  datatype Stamp = Stamp(ticketId: Id, eventId: string, linkId: string, now: int, later: int)

  datatype Decision =
    | Existing(ticket: Ticket)   // an idempotent create answered with the ticket it made before
    | Nothing                    // the sweep leaves this ticket alone
    | Perform(write: Write)

  // ------------------------------------------------------------- the read

  /** `find_by_idempotency_key` */
  function FindByKey(st: State, assignee: string, key: string): Option<Ticket> {
    if (assignee, key) in st.byIdem && st.byIdem[(assignee, key)] != "" && st.byIdem[(assignee, key)] in st.tickets
    then Some(st.tickets[st.byIdem[(assignee, key)]])
    else None
  }

  function Lookup(st: State, id: Id): Option<Ticket> {
    if id in st.tickets then Some(st.tickets[id]) else None
  }

  /** The snapshot an operation takes of the store. */
  function Read(st: State, req: Request): Option<Ticket> {
    match req
    case AgentCreate(_, principal, key, _) => if Truthy(key) then FindByKey(st, principal, key.value) else None
    case HumanCreate(_, _, executor, key) => if Truthy(key) then FindByKey(st, executor, key.value) else None
    case _ => Lookup(st, req.id)
  }

  // ------------------------------------------------------------ the pieces

  /** `_event` on a ticket */
  function Event(t: Ticket, eventId: string, at: int, kind: EventType, actor: Actor, to: Status, details: Details)
    : AuditEvent
  {
    AuditEvent(eventId, t.ticketId, t.version + 1, at, kind, actor, Some(t.status), Some(to), details)
  }

  function Or(o: Option<string>, otherwise: string): string {
    if Truthy(o) then o.value else otherwise
  }

  const GATE_ID := "gateTicketId"
  const OWNER := "owner"

  /** The caller's tags with the two the gate sets itself, which always win. */
  function OwnTags(tags: map<string, string>, id: Id, owner: string): map<string, string> {
    tags[GATE_ID := id][OWNER := owner]
  }

  /** `build_ticket` */
  function BuildTicket(cfg: Config, p: Payload, assignee: string, proposedBy: string, key: Option<string>,
                       supersedes: Option<Ticket>, session: Option<string>, s: Stamp)
    : Result<(Ticket, AuditEvent), Error>
  {
    if !cfg.accepted(p.service, p.operation, Object(p.parameters)) then Failure(InvalidParameters)
    else
      var tags := OwnTags(p.tags, s.ticketId, proposedBy);
      match GateTags.WithGateTags(p.service, p.operation, p.parameters, tags, cfg.taggable(p.service, p.operation))
      case None => Failure(Malformed)
      case Some(parameters) =>
        var action := ActionDetails(p.service, p.operation, p.region, Object(parameters),
                                    cfg.hash(Canonical(Object(parameters))), p.resourceArns, p.reason);
        var t := Ticket(s.ticketId, p.subject, s.now, Pending, p.plannedDate, p.plannedAction, action, tags, assignee,
                        proposedBy, [], None, None, None,
                        if supersedes.Some? then Some(supersedes.value.ticketId) else None, None,
                        if supersedes.Some? then supersedes.value.lineageRootId else s.ticketId, key, None, 1);
        var actor := Actor(if proposedBy == assignee then Agent else Human, Or(session, proposedBy));
        Success((t, AuditEvent(s.eventId, t.ticketId, 1, s.later, TicketCreated, actor, None, Some(Pending),
                               TicketDetails(t))))
  }

  /** `_assert_actionable_by` */
  function Actionable(cfg: Config, t: Ticket, email: string): Result<(), Error> {
    if Truthy(t.supersededBy) then Failure(AlreadySuperseded)
    else if !cfg.allowSelfApproval && cfg.lower(t.proposedBy) == cfg.lower(email) then Failure(ApproverIsProposer)
    else Success(())
  }

  /** `assert_transition` */
  function AssertTransition(from: Status, to: Status, kind: ActorKind): Result<(), Error> {
    if CanTransition(from, to, kind) then Success(()) else Failure(TransitionRefused)
  }

  predicate HasApproved(cfg: Config, t: Ticket, email: string) {
    exists i :: 0 <= i < |t.approvals| && cfg.lower(t.approvals[i].approvedBy) == cfg.lower(email)
  }

  predicate Supersedable(s: Status) {
    s in {Pending, Approved, Failed, Closed}
  }

  function AppendTo(t: Ticket, e: AuditEvent): Decision {
    Perform(Append(t.ticketId, t.version, e))
  }

  // ------------------------------------------------------------ operations

  function DecideCreate(cfg: Config, p: Payload, assignee: string, proposedBy: string, key: Option<string>,
                        session: Option<string>, existing: Option<Ticket>, s: Stamp): Result<Decision, Error>
  {
    if Truthy(key) && existing.Some? then Success(Existing(existing.value))
    else
      var built :- BuildTicket(cfg, p, assignee, proposedBy, key, None, session, s);
      Success(Perform(Write.Create(built.0, built.1)))
  }

  function DecideStart(t: Ticket, principal: string, echoedHash: string, session: Option<string>, s: Stamp)
    : Result<Decision, Error>
  {
    if t.assignee != principal then Failure(NotAssignee)
    else if t.status != Approved then Failure(InvalidState)
    else if echoedHash != t.actionDetails.parametersHash then Failure(HashMismatch)
    else
      var _ :- AssertTransition(t.status, Executing, Agent);
      Success(AppendTo(t, Event(t, s.eventId, s.later, ExecutionStarted, Actor(Agent, Or(session, principal)),
                                Executing, NoDetails)))
  }

  function DecideReport(t: Ticket, req: Request, s: Stamp): Result<Decision, Error>
    requires req.Report?
  {
    if t.assignee != req.principal then Failure(NotAssignee)
    else if t.status != Executing then Failure(InvalidState)
    else
      var to := if req.outcome == Succeeded then Closed else Failed;
      var _ :- AssertTransition(t.status, to, Agent);
      Success(AppendTo(t, Event(t, s.eventId, s.later,
                                if req.outcome == Succeeded then ExecutionCompleted else ExecutionFailed,
                                Actor(Agent, Or(req.session, req.principal)), to,
                                ResultDetails(req.outcome, req.message, req.awsRequestIds, req.createdResources))))
  }

  function DecideApprove(cfg: Config, t: Ticket, email: string, s: Stamp): Result<Decision, Error> {
    if t.status != Pending then Failure(InvalidState)
    else
      var _ :- Actionable(cfg, t, email);
      if HasApproved(cfg, t, email) then Failure(DuplicateApprover)
      else
        var to := StatusAfterApproval(|t.approvals| + 1, cfg.requiredApprovals);
        var _ :- AssertTransition(t.status, to, Human);
        Success(AppendTo(t, Event(t, s.eventId, s.later, if to == Approved then TicketApproved else ApprovalAdded,
                                  Actor(Human, email), to, ApprovalDetails(Approval(email, s.now)))))
  }

  function DecideReject(cfg: Config, t: Ticket, email: string, why: string, s: Stamp): Result<Decision, Error> {
    if t.status != Pending then Failure(InvalidState)
    else
      var _ :- Actionable(cfg, t, email);
      var _ :- AssertTransition(t.status, Rejected, Human);
      Success(AppendTo(t, Event(t, s.eventId, s.later, TicketRejected, Actor(Human, email), Rejected,
                                ReasonDetails(why))))
  }

  function DecideSupersede(cfg: Config, t: Ticket, email: string, p: Payload, s: Stamp): Result<Decision, Error> {
    if Truthy(t.supersededBy) then Failure(AlreadySuperseded)
    else if !Supersedable(t.status) then Failure(InvalidState)
    else
      var followUp := Terminal(t.status);
      var _ :- if followUp then Success(()) else AssertTransition(t.status, Deprecated, Human);
      var built :- BuildTicket(cfg, p, t.assignee, email, None, Some(t), None, s);
      var link := Event(t, s.linkId, s.later, if followUp then TicketSuperseded else TicketDeprecated,
                        Actor(Human, email), if followUp then t.status else Deprecated,
                        LinkDetails(built.0.ticketId));
      Success(Perform(Write.Supersede(t.ticketId, t.version, link, built.0, built.1)))
  }

  function DecideClose(t: Ticket, email: string, note: Option<string>, s: Stamp): Result<Decision, Error> {
    if t.status != Pending && t.status != Approved then Failure(InvalidState)
    else
      var _ :- AssertTransition(t.status, Closed, Human);
      Success(AppendTo(t, Event(t, s.eventId, s.later, TicketClosed, Actor(Human, email), Closed,
                                if Truthy(note) then ReasonDetails(note.value) else NoDetails)))
  }

  function DecideComment(t: Ticket, email: string, text: string, s: Stamp): Result<Decision, Error> {
    Success(AppendTo(t, Event(t, s.eventId, s.later, CommentAdded, Actor(Human, email), t.status,
                              CommentDetails(text))))
  }

  function DecideTags(t: Ticket, email: string, newTags: map<string, string>, s: Stamp): Result<Decision, Error> {
    if Truthy(t.supersededBy) then Failure(AlreadySuperseded)
    else
      Success(AppendTo(t, Event(t, s.eventId, s.later, TagsUpdated, Actor(Human, email), t.status,
                                TagDetails(t.tags, OwnTags(newTags, t.ticketId, t.proposedBy)))))
  }

  // ------------------------------------------------------------ the sweep

  function Latest(xs: seq<Approval>): int
    requires xs != []
  {
    var n := |xs| - 1;
    if n == 0 then xs[0].approvedAt
    else
      var before := Latest(xs[..n]);
      if xs[n].approvedAt > before then xs[n].approvedAt else before
  }

  /** `_expiry_start` */
  function ExpiryStart(t: Ticket): int {
    if t.status == Approved && t.approvals != [] then Latest(t.approvals) else t.ticketDate
  }

  /** Waiting for a decision or for its execution, for at least the TTL. */
  predicate Stale(cfg: Config, t: Ticket, now: int) {
    (t.status == Pending || t.status == Approved) && now - ExpiryStart(t) >= cfg.ttl
  }

  function ExpiredEvent(cfg: Config, t: Ticket, eventId: string, now: int): AuditEvent {
    Event(t, eventId, now, TicketExpired, Actor(System, "gate"), Expired, TtlDetails(cfg.ttl))
  }

  // ---------------------------------------------------------- the decision

  function Decide(cfg: Config, req: Request, snapshot: Option<Ticket>, s: Stamp): Result<Decision, Error> {
    match req
    case AgentCreate(p, principal, key, session) =>
      DecideCreate(cfg, p, principal, principal, key, session, snapshot, s)
    case HumanCreate(p, email, executor, key) =>
      DecideCreate(cfg, p, executor, email, key, None, snapshot, s)
    case Expire(_) =>
      if snapshot.Some? && Stale(cfg, snapshot.value, s.now)
      then Success(AppendTo(snapshot.value, ExpiredEvent(cfg, snapshot.value, s.eventId, s.now)))
      else Success(Nothing)
    case _ =>
      if snapshot.None? then Failure(NotFound) else DecideOn(cfg, req, snapshot.value, s)
  }

  function DecideOn(cfg: Config, req: Request, t: Ticket, s: Stamp): Result<Decision, Error>
    requires !req.AgentCreate? && !req.HumanCreate? && !req.Expire?
  {
    match req
    case Start(_, principal, echoedHash, session) => DecideStart(t, principal, echoedHash, session, s)
    case Report(_, _, _, _, _, _, _) => DecideReport(t, req, s)
    case Approve(_, email) => DecideApprove(cfg, t, email, s)
    case Reject(_, email, why) => DecideReject(cfg, t, email, why, s)
    case Supersede(_, email, p) => DecideSupersede(cfg, t, email, p, s)
    case Close(_, email, note) => DecideClose(t, email, note, s)
    case Comment(_, email, text) => DecideComment(t, email, text, s)
    case UpdateTags(_, email, newTags) => DecideTags(t, email, newTags, s)
  }
}
