/** Approving and rejecting from a mailed link (`api/approval_link_actions.py`).
    The preview guesses whether acting will work by repeating the guards of the
    service; the theorem is that it never guesses wrong. */
module ApprovalLinks {
  import opened Wrappers
  import opened Models
  import opened Fold
  import opened Store
  import opened Service
  import opened Legality
  import opened Protocol
  import Guarantees

  datatype Action = ToApprove | ToReject

  /** What a verified link token says. */
  datatype Link = Link(ticketId: Id, email: string, action: Action)

  datatype Blocked = AlreadyActioned | NotApprover | SelfApproval | DuplicateApproval

  /** `_blocked_reason` */
  function BlockedReason(cfg: Config, t: Ticket, link: Link): Option<Blocked> {
    if Truthy(t.supersededBy) || t.status != Pending then Some(AlreadyActioned)
    else if cfg.lower(link.email) !in cfg.approvers then Some(NotApprover)
    else if !cfg.allowSelfApproval && cfg.lower(t.proposedBy) == cfg.lower(link.email) then Some(SelfApproval)
    else if link.action == ToApprove
            && exists i :: 0 <= i < |t.approvals| && cfg.lower(t.approvals[i].approvedBy) == cfg.lower(link.email)
    then Some(DuplicateApproval)
    else None
  }

  /** The service call behind a link; `trimmed` is the given reason without the
      blanks around it. */
  function CallOf(link: Link, trimmed: string): Request {
    match link.action
    case ToApprove => Approve(link.ticketId, link.email)
    case ToReject => Reject(link.ticketId, link.email, trimmed)
  }

  /** `act`, undisturbed: the new store, or why not. */
  function Act(cfg: Config, st: State, link: Link, trimmed: string, s: Stamp): Result<State, Error> {
    if cfg.lower(link.email) !in cfg.approvers then Failure(InvalidLink)
    else if link.action == ToReject && |trimmed| < 5 then Failure(MissingReason)
    else
      var req := CallOf(link, trimmed);
      var d :- Decide(cfg, req, Read(st, req), s);
      if d.Perform? then Do(st, d.write) else Success(st)
  }

  /** The ticket after a link was acted on. */
  function Acted(cfg: Config, t: Ticket, link: Link, trimmed: string, s: Stamp): Ticket {
    match link.action
    case ToApprove =>
      t.(version := t.version + 1, approvals := t.approvals + [Approval(link.email, s.now)],
         status := if |t.approvals| + 1 >= cfg.requiredApprovals then Approved else Pending)
    case ToReject =>
      t.(version := t.version + 1, status := Rejected, rejectedBy := Some(link.email), rejectedAt := Some(s.later),
         rejectionReason := Some(trimmed))
  }

  /** What `act` answers to a link the preview would block. */
  predicate Explains(why: Blocked, cfg: Config, link: Link, err: Error) {
    if cfg.lower(link.email) !in cfg.approvers then err == InvalidLink
    else match why
      case AlreadyActioned => err == InvalidState
      case NotApprover => false
      case SelfApproval => err == ApproverIsProposer
      case DuplicateApproval => err == DuplicateApprover
  }

  /** In every reachable store, for every link on an existing ticket: the preview
      offers the action if and only if taking it there succeeds; and when it does
      not, the answer is the error the preview's explanation stands for. */
  lemma PreviewIsExact(cfg: Config, steps: seq<Protocol.Step>, link: Link, trimmed: string, s: Stamp)
    requires cfg.Valid() && link.ticketId in Run(cfg, steps).store.tickets
    requires link.action == ToReject ==> |trimmed| >= 5
    ensures var st := Run(cfg, steps).store; var t := st.tickets[link.ticketId];
            match BlockedReason(cfg, t, link)
            case None => Act(cfg, st, link, trimmed, s).Success?
            case Some(why) =>
              Act(cfg, st, link, trimmed, s).Failure? && Explains(why, cfg, link, Act(cfg, st, link, trimmed, s).error)
  {
    hide Run, LegalHistory, FoldTicket, ApprovalsOk, OutcomeOk, GateTagged, HasApproved;
    Guarantees.TicketOfRun(cfg, steps, link.ticketId);
    PreviewOf(cfg, Run(cfg, steps).store, link, trimmed, s);
  }

  lemma PreviewOf(cfg: Config, st: State, link: Link, trimmed: string, s: Stamp)
    requires cfg.Valid() && link.ticketId in st.tickets && link.ticketId in st.events
    requires st.tickets[link.ticketId].ticketId == link.ticketId && TicketOk(cfg, st.tickets[link.ticketId])
    requires link.action == ToReject ==> |trimmed| >= 5
    ensures var t := st.tickets[link.ticketId];
            match BlockedReason(cfg, t, link)
            case None => Act(cfg, st, link, trimmed, s).Success?
            case Some(why) =>
              Act(cfg, st, link, trimmed, s).Failure? && Explains(why, cfg, link, Act(cfg, st, link, trimmed, s).error)
  {
    hide ApplyEvent, ApprovalsOk, OutcomeOk, GateTagged, HasApproved;
    var t := st.tickets[link.ticketId];
    HasApprovedMeans(cfg, t, link.email);
    if BlockedReason(cfg, t, link).None? {
      match link.action
      case ToApprove =>
        ApproveIsLegal(cfg, t, link.email, s);
        ApproveApplies(cfg, t, link.email, s);
      case ToReject => RejectApplies(t, link.email, trimmed, s);
    }
  }

  lemma ApproveApplies(cfg: Config, t: Ticket, email: string, s: Stamp)
    requires t.status == Pending && DecideApprove(cfg, t, email, s).Success?
    ensures var d := DecideApprove(cfg, t, email, s).value;
            d.Perform? && d.write.Append? && d.write.id == t.ticketId && d.write.expected == t.version
            && ApplyEvent(t, d.write.event).Success?
  {
    hide HasApproved, Actionable;
  }

  lemma RejectApplies(t: Ticket, email: string, why: string, s: Stamp)
    ensures var e := Event(t, s.eventId, s.later, TicketRejected, Actor(Human, email), Rejected, ReasonDetails(why));
            ApplyEvent(t, e).Success?
  {
  }

  /** The link's ticket, pending before, is as acted on and has one more event;
      nothing else is different. */
  ghost predicate Changed(cfg: Config, st: State, after: State, link: Link, trimmed: string, s: Stamp) {
    var id := link.ticketId;
    id in st.tickets && st.tickets[id].status == Pending && cfg.lower(link.email) in cfg.approvers
    && after.tickets == st.tickets[id := Acted(cfg, st.tickets[id], link, trimmed, s)]
    && after.byIdem == st.byIdem && after.events.Keys == st.events.Keys
    && (forall x :: x in st.events && x != id ==> after.events[x] == st.events[x])
    && id in st.events && |after.events[id]| == |st.events[id]| + 1 && after.events[id][..|st.events[id]|] == st.events[id]
  }

  /** In every reachable store, acting on a link changes exactly its ticket, adds one
      event to exactly that ticket's list, and does what the link says. */
  lemma ActDoesWhatItSays(cfg: Config, steps: seq<Protocol.Step>, link: Link, trimmed: string, s: Stamp)
    requires cfg.Valid() && Act(cfg, Run(cfg, steps).store, link, trimmed, s).Success?
    ensures Changed(cfg, Run(cfg, steps).store, Act(cfg, Run(cfg, steps).store, link, trimmed, s).value, link, trimmed, s)
  {
    hide Run, LegalHistory, FoldTicket, TicketOk;
    var st := Run(cfg, steps).store;
    if link.ticketId in st.tickets { Guarantees.TicketOfRun(cfg, steps, link.ticketId); }
    ActOn(cfg, st, link, trimmed, s);
  }

  lemma ActOn(cfg: Config, st: State, link: Link, trimmed: string, s: Stamp)
    requires cfg.Valid() && Act(cfg, st, link, trimmed, s).Success?
    requires link.ticketId in st.tickets ==> st.tickets[link.ticketId].ticketId == link.ticketId && link.ticketId in st.events
    ensures Changed(cfg, st, Act(cfg, st, link, trimmed, s).value, link, trimmed, s)
  {
    hide HasApproved, Actionable;
  }

  /** A reject link without a reason of five characters does nothing. */
  lemma ReasonIsRequired(cfg: Config, st: State, link: Link, trimmed: string, s: Stamp)
    requires link.action == ToReject && |trimmed| < 5
    ensures Act(cfg, st, link, trimmed, s)
            == Failure(if cfg.lower(link.email) in cfg.approvers then MissingReason else InvalidLink)
  {
  }

  /** And a link to a ticket that does not exist is told so. */
  lemma TicketIsRequired(cfg: Config, st: State, link: Link, trimmed: string, s: Stamp)
    requires link.ticketId !in st.tickets && (link.action == ToReject ==> |trimmed| >= 5)
    ensures Act(cfg, st, link, trimmed, s)
            == Failure(if cfg.lower(link.email) in cfg.approvers then NotFound else InvalidLink)
  {
  }
}
