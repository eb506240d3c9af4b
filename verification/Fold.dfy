/** `apply_event`: the fold every store shares, and a ticket as the fold of its
    event list. */
module Fold {
  import opened Wrappers
  import opened Models

  function ApplyEvent(t: Ticket, e: AuditEvent): Result<Ticket, Error> {
    if e.version != t.version + 1 then Failure(Conflict)
    else
      var u := t.(version := e.version);
      match e.kind
      case ApprovalAdded => AddApproval(u, e)
      case TicketApproved => AddApproval(u, e)
      case TicketRejected =>
        Success(u.(status := Rejected, rejectedBy := Some(e.actor.id), rejectedAt := Some(e.timestamp),
                   rejectionReason := if e.details.ReasonDetails? then Some(e.details.reason) else None))
      case TicketDeprecated =>
        if e.details.LinkDetails?
        then Success(u.(status := Deprecated, supersededBy := Some(e.details.supersededBy)))
        else Failure(Malformed)
      case TicketSuperseded =>
        if e.details.LinkDetails? then Success(u.(supersededBy := Some(e.details.supersededBy))) else Failure(Malformed)
      case TicketExpired => Success(u.(status := Expired))
      case TicketClosed => Success(u.(status := Closed))
      case ExecutionStarted =>
        Success(u.(status := Executing, execution := Some(Execution(e.timestamp, None, None, None, [], []))))
      case ExecutionCompleted => FinishExecution(u, e, Closed)
      case ExecutionFailed => FinishExecution(u, e, Failed)
      case TagsUpdated =>
        if e.details.TagDetails? then Success(u.(tags := e.details.tags)) else Failure(Malformed)
      case CommentAdded => Success(u)
      case TicketCreated => Failure(Conflict)
  }

  function AddApproval(u: Ticket, e: AuditEvent): Result<Ticket, Error> {
    if e.details.ApprovalDetails? && e.toStatus.Some?
    then Success(u.(approvals := u.approvals + [e.details.approval], status := e.toStatus.value))
    else Failure(Malformed)
  }

  function FinishExecution(u: Ticket, e: AuditEvent, to: Status): Result<Ticket, Error> {
    if u.execution.None? then Failure(Conflict)
    else
      var finished := u.execution.value.(finishedAt := Some(e.timestamp));
      Success(u.(status := to, execution := Some(
        if e.details.ResultDetails?
        then finished.(outcome := Some(e.details.outcome), message := e.details.message,
                       awsRequestIds := e.details.awsRequestIds, createdResources := e.details.createdResources)
        else finished.(outcome := None, message := None, awsRequestIds := [], createdResources := []))))
  }

  /** The ticket an event list describes: the creation event's embedded ticket,
      with every later event applied. */
  function FoldTicket(es: seq<AuditEvent>): Result<Ticket, Error> {
    if es == [] then Failure(Malformed)
    else if |es| == 1 then
      if es[0].details.TicketDetails? then Success(es[0].details.ticket) else Failure(Malformed)
    else
      var t :- FoldTicket(es[..|es| - 1]);
      ApplyEvent(t, es[|es| - 1])
  }

  lemma FoldAppend(es: seq<AuditEvent>, e: AuditEvent)
    requires es != []
    ensures FoldTicket(es + [e]) ==
            match FoldTicket(es) case Success(t) => ApplyEvent(t, e) case Failure(err) => Failure(err)
  {
    assert (es + [e])[..|es + [e]| - 1] == es;
  }

  /** No event rewrites a frozen field, whatever its payload says. */
  lemma ApplyKeepsFrozen(t: Ticket, e: AuditEvent)
    requires ApplyEvent(t, e).Success?
    ensures SameFrozen(t, ApplyEvent(t, e).value) && ApplyEvent(t, e).value.version == t.version + 1
  {
  }

  lemma {:induction false} FoldKeepsFrozen(es: seq<AuditEvent>)
    requires FoldTicket(es).Success?
    ensures es[0].details.TicketDetails?
    ensures SameFrozen(es[0].details.ticket, FoldTicket(es).value)
    ensures FoldTicket(es).value.version == es[0].details.ticket.version + |es| - 1
  {
    if |es| > 1 {
      var prefix := es[..|es| - 1];
      FoldKeepsFrozen(prefix);
      ApplyKeepsFrozen(FoldTicket(prefix).value, es[|es| - 1]);
    }
  }

  /** Once the fold has raised, it has raised. */
  lemma {:induction false} FoldFailureStays(es: seq<AuditEvent>, n: nat)
    requires 1 <= n <= |es| && FoldTicket(es[..n]).Failure?
    ensures FoldTicket(es) == FoldTicket(es[..n])
    decreases |es|
  {
    hide ApplyEvent;
    if n < |es| {
      assert es[..|es| - 1][..n] == es[..n];
      FoldFailureStays(es[..|es| - 1], n);
    } else {
      assert es[..n] == es;
    }
  }

  // ------------------------------------------------- field by field, for any event

  /** Whose writing the status is. */
  function StatusAfter(t: Ticket, e: AuditEvent): Status {
    match e.kind
    case ApprovalAdded => if e.toStatus.Some? then e.toStatus.value else t.status
    case TicketApproved => if e.toStatus.Some? then e.toStatus.value else t.status
    case TicketRejected => Rejected
    case TicketDeprecated => Deprecated
    case TicketExpired => Expired
    case TicketClosed => Closed
    case ExecutionStarted => Executing
    case ExecutionCompleted => Closed
    case ExecutionFailed => Failed
    case _ => t.status
  }

  /** Each mutable field, and the events that write it; reasons and results missing
      from an event are missing from the ticket. */
  lemma AppliedFields(t: Ticket, e: AuditEvent)
    requires ApplyEvent(t, e).Success?
    ensures var u := ApplyEvent(t, e).value; var rejected := e.kind == TicketRejected;
            u.status == StatusAfter(t, e)
            && u.approvals == t.approvals + (if e.kind in {ApprovalAdded, TicketApproved} then [e.details.approval] else [])
            && u.rejectedBy == (if rejected then Some(e.actor.id) else t.rejectedBy)
            && u.rejectedAt == (if rejected then Some(e.timestamp) else t.rejectedAt)
            && u.rejectionReason == (if !rejected then t.rejectionReason
                                     else if e.details.ReasonDetails? then Some(e.details.reason) else None)
            && u.supersededBy == (if e.kind in {TicketDeprecated, TicketSuperseded} then Some(e.details.supersededBy)
                                  else t.supersededBy)
            && u.tags == (if e.kind == TagsUpdated then e.details.tags else t.tags)
    ensures var u := ApplyEvent(t, e).value; var d := e.details;
            u.execution == if e.kind == ExecutionStarted then Some(Execution(e.timestamp, None, None, None, [], []))
                           else if e.kind !in {ExecutionCompleted, ExecutionFailed} then t.execution
                           else if d.ResultDetails?
                           then Some(Execution(t.execution.value.startedAt, Some(e.timestamp), Some(d.outcome), d.message,
                                               d.awsRequestIds, d.createdResources))
                           else Some(Execution(t.execution.value.startedAt, Some(e.timestamp), None, None, [], []))
  {
  }

  /** Which events do not apply, and with which error. */
  lemma AppliesIff(t: Ticket, e: AuditEvent)
    ensures ApplyEvent(t, e) == Failure(Conflict)
            <==> e.version != t.version + 1 || e.kind == TicketCreated
                 || (e.kind in {ExecutionCompleted, ExecutionFailed} && t.execution.None?)
    ensures ApplyEvent(t, e) == Failure(Malformed)
            <==> e.version == t.version + 1
                 && ((e.kind in {ApprovalAdded, TicketApproved} && (!e.details.ApprovalDetails? || e.toStatus.None?))
                     || (e.kind in {TicketDeprecated, TicketSuperseded} && !e.details.LinkDetails?)
                     || (e.kind == TagsUpdated && !e.details.TagDetails?))
    ensures ApplyEvent(t, e).Failure? ==> ApplyEvent(t, e).error in {Conflict, Malformed}
  {
  }
}
