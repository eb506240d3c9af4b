/** The gate's records: tickets, audit events and what they are made of.

    Times are integers on one clock; the statuses and event types keep the
    source's names up to capitalisation. */
module Models {
  import opened Wrappers
  import opened Json

  datatype Status =
    | Pending        // PENDING_APPROVAL
    | Approved
    | Rejected
    | Deprecated
    | Expired
    | Executing
    | Closed
    | Failed

  predicate Terminal(s: Status) {
    s in {Rejected, Deprecated, Expired, Closed, Failed}
  }

  datatype EventType =
    | TicketCreated
    | ApprovalAdded
    | TicketApproved       // APPROVED
    | TicketRejected       // REJECTED
    | TicketDeprecated     // DEPRECATED
    | TicketExpired        // EXPIRED
    | ExecutionStarted
    | ExecutionCompleted
    | ExecutionFailed
    | TagsUpdated
    | CommentAdded
    | TicketClosed         // CLOSED
    | TicketSuperseded     // SUPERSEDED

  datatype ActorKind = Agent | Human | System

  datatype Actor = Actor(kind: ActorKind, id: string)

  datatype ActionDetails = ActionDetails(
    service: string,
    operation: string,
    region: string,
    parameters: Value,
    parametersHash: string,
    resourceArns: seq<string>,
    reason: Option<string>)

  datatype Approval = Approval(approvedBy: string, approvedAt: int)

  datatype CreatedResource = CreatedResource(kind: string, id: string, arn: Option<string>)

  datatype Outcome = Succeeded | Broke   // "success" | "failure"

  datatype Execution = Execution(
    startedAt: int,
    finishedAt: Option<int>,
    outcome: Option<Outcome>,
    message: Option<string>,
    awsRequestIds: seq<string>,
    createdResources: seq<CreatedResource>)

  datatype Ticket = Ticket(
    ticketId: string,
    subject: string,
    ticketDate: int,
    status: Status,
    plannedDate: int,
    plannedAction: string,
    actionDetails: ActionDetails,
    tags: map<string, string>,
    assignee: string,
    proposedBy: string,
    approvals: seq<Approval>,
    rejectedBy: Option<string>,
    rejectedAt: Option<int>,
    rejectionReason: Option<string>,
    supersedes: Option<string>,
    supersededBy: Option<string>,
    lineageRootId: string,
    idempotencyKey: Option<string>,
    execution: Option<Execution>,
    version: int)   // `seq`: the number of events, and the compare-and-swap token

  /** The `details` dictionary of an event, one constructor per shape written. */
  datatype Details =
    | NoDetails
    | TicketDetails(ticket: Ticket)
    | ApprovalDetails(approval: Approval)
    | ReasonDetails(reason: string)
    | LinkDetails(supersededBy: string)
    | ResultDetails(outcome: Outcome, message: Option<string>, awsRequestIds: seq<string>,
                    createdResources: seq<CreatedResource>)
    | TtlDetails(ttlHours: int)
    | TagDetails(oldTags: map<string, string>, tags: map<string, string>)
    | CommentDetails(text: string)

  datatype AuditEvent = AuditEvent(
    eventId: string,
    ticketId: string,
    version: int,   // `seq`
    timestamp: int,
    kind: EventType,
    actor: Actor,
    fromStatus: Option<Status>,
    toStatus: Option<Status>,
    details: Details)

  /** Equal in every field outside `MUTABLE_FIELDS`. */
  predicate SameFrozen(a: Ticket, b: Ticket) {
    b.(status := a.status, approvals := a.approvals, rejectedBy := a.rejectedBy, rejectedAt := a.rejectedAt,
       rejectionReason := a.rejectionReason, supersededBy := a.supersededBy, execution := a.execution,
       version := a.version, tags := a.tags)
    == a
  }

  /** Python's truth of an optional string: neither `None` nor empty. */
  predicate Truthy(o: Option<string>) {
    o.Some? && o.value != ""
  }

  /** Every exception the modelled code raises. */
  datatype Error =
    | NotFound
    | NotAssignee
    | InvalidState
    | HashMismatch
    | ApproverIsProposer
    | DuplicateApprover
    | AlreadySuperseded
    | InvalidParameters
    | TransitionRefused
    | Conflict
    | Duplicate
    | Malformed               // a missing key or a value of the wrong type
    | Corrupt(line: nat)      // unreadable log line, counted from 1
    | Undecodable             // a log line that is not UTF-8
    | InvalidLink
    | MissingReason

  /** Settings, fixed for a run, and the library functions the rules use:
      lower-casing, the hash of a canonical text, parameter validation, and
      whether an operation accepts TagSpecifications. */
  datatype Config = Config(
    requiredApprovals: nat,
    allowSelfApproval: bool,
    ttl: int,
    approvers: set<string>,
    lower: string -> string,
    hash: string -> string,
    accepted: (string, string, Value) -> bool,
    taggable: (string, string) -> bool)
  {
    /** `required_approvals` is validated to be 1 or 2 at start-up. */
    ghost predicate Valid() { 1 <= requiredApprovals <= 2 }
  }
}
