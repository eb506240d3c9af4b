/** One audit event as one line of the log (`_dump`) and back
    (`AuditEvent.model_validate` of `json.loads`).

    A model is dumped with its fields in declaration order, all of them present,
    `None` as `null`; reading expects exactly that layout. */
module EventCodec {
  import opened Wrappers
  import opened Json
  import opened Models
  import opened CanonicalJson

  // ------------------------------------------------------------ small pieces

  function EncodeText(o: Option<string>): Value {
    if o.Some? then Str(o.value) else Null
  }

  function DecodeText(v: Value): Option<Option<string>> {
    match v
    case Null => Some(None)
    case Str(s) => Some(Some(s))
    case _ => None
  }

  function EncodeNumber(o: Option<int>): Value {
    if o.Some? then Int(o.value) else Null
  }

  function DecodeNumber(v: Value): Option<Option<int>> {
    match v
    case Null => Some(None)
    case Int(n) => Some(Some(n))
    case _ => None
  }

  function AsString(v: Value): Option<string> {
    if v.Str? then Some(v.s) else None
  }

  function AsInt(v: Value): Option<int> {
    if v.Int? then Some(v.n) else None
  }

  function EncodeStrings(ss: seq<string>): seq<Value> {
    if ss == [] then [] else [Str(ss[0])] + EncodeStrings(ss[1..])
  }

  function DecodeStrings(vs: seq<Value>): Option<seq<string>> {
    if vs == [] then Some([])
    else
      var s :- AsString(vs[0]);
      var ss :- DecodeStrings(vs[1..]);
      Some([s] + ss)
  }

  function AsStrings(v: Value): Option<seq<string>> {
    if v.List? then DecodeStrings(v.items) else None
  }

  function Values(m: map<string, string>): (r: map<string, Value>)
    ensures r.Keys == m.Keys && forall k :: k in m ==> r[k] == Str(m[k])
  {
    map k | k in m :: Str(m[k])
  }

  /** The string dictionary a meaning stands for, if all its values are strings. */
  function Texts(d: map<string, Meaning>): (r: Option<map<string, string>>)
    ensures (forall k :: k in d ==> d[k].MStr?) <==> r.Some?
    ensures r.Some? ==> r.value.Keys == d.Keys && forall k :: k in d ==> d[k] == MStr(r.value[k])
  {
    if forall k :: k in d.Keys ==> d[k].MStr? then Some(map k | k in d :: d[k].s) else None
  }

  function EncodeTags(m: map<string, string>): Value {
    Object(InKeyOrder(Values(m)))
  }

  function DecodeTags(v: Value): Option<map<string, string>> {
    if v.Object? then Texts(DenoteFields(v.fields)) else None
  }

  // ---------------------------------------------------------- enumerations

  function StatusName(s: Status): string {
    match s
    case Pending => "PENDING_APPROVAL"
    case Approved => "APPROVED"
    case Rejected => "REJECTED"
    case Deprecated => "DEPRECATED"
    case Expired => "EXPIRED"
    case Executing => "EXECUTING"
    case Closed => "CLOSED"
    case Failed => "FAILED"
  }

  function StatusOf(v: Value): Option<Status> {
    if !v.Str? then None
    else match v.s
      case "PENDING_APPROVAL" => Some(Pending)
      case "APPROVED" => Some(Approved)
      case "REJECTED" => Some(Rejected)
      case "DEPRECATED" => Some(Deprecated)
      case "EXPIRED" => Some(Expired)
      case "EXECUTING" => Some(Executing)
      case "CLOSED" => Some(Closed)
      case "FAILED" => Some(Failed)
      case _ => None
  }

  function EncodeStatus(o: Option<Status>): Value {
    if o.Some? then Str(StatusName(o.value)) else Null
  }

  function DecodeStatus(v: Value): Option<Option<Status>> {
    if v.Null? then Some(None) else var s :- StatusOf(v); Some(Some(s))
  }

  function TypeName(t: EventType): string {
    match t
    case TicketCreated => "TICKET_CREATED"
    case ApprovalAdded => "APPROVAL_ADDED"
    case TicketApproved => "APPROVED"
    case TicketRejected => "REJECTED"
    case TicketDeprecated => "DEPRECATED"
    case TicketExpired => "EXPIRED"
    case ExecutionStarted => "EXECUTION_STARTED"
    case ExecutionCompleted => "EXECUTION_COMPLETED"
    case ExecutionFailed => "EXECUTION_FAILED"
    case TagsUpdated => "TAGS_UPDATED"
    case CommentAdded => "COMMENT_ADDED"
    case TicketClosed => "CLOSED"
    case TicketSuperseded => "SUPERSEDED"
  }

  function TypeOf(v: Value): Option<EventType> {
    if !v.Str? then None
    else match v.s
      case "TICKET_CREATED" => Some(TicketCreated)
      case "APPROVAL_ADDED" => Some(ApprovalAdded)
      case "APPROVED" => Some(TicketApproved)
      case "REJECTED" => Some(TicketRejected)
      case "DEPRECATED" => Some(TicketDeprecated)
      case "EXPIRED" => Some(TicketExpired)
      case "EXECUTION_STARTED" => Some(ExecutionStarted)
      case "EXECUTION_COMPLETED" => Some(ExecutionCompleted)
      case "EXECUTION_FAILED" => Some(ExecutionFailed)
      case "TAGS_UPDATED" => Some(TagsUpdated)
      case "COMMENT_ADDED" => Some(CommentAdded)
      case "CLOSED" => Some(TicketClosed)
      case "SUPERSEDED" => Some(TicketSuperseded)
      case _ => None
  }

  function EncodeActor(a: Actor): Value {
    Object([Field("kind", Str(match a.kind case Agent => "agent" case Human => "human" case System => "system")),
            Field("id", Str(a.id))])
  }

  predicate ActorShape(v: Value) {
    v.Object? && |v.fields| == 2
    && v.fields[0].key == "kind" && v.fields[1].key == "id"
  }

  function DecodeActor(v: Value): Option<Actor> {
    if !ActorShape(v) then None
    else
      var kind :- AsString(v.fields[0].val);
      var id :- AsString(v.fields[1].val);
      if kind == "agent" then Some(Actor(Agent, id))
      else if kind == "human" then Some(Actor(Human, id))
      else if kind == "system" then Some(Actor(System, id))
      else None
  }

  function EncodeOutcome(o: Option<Outcome>): Value {
    match o
    case None => Null
    case Some(Succeeded) => Str("success")
    case Some(Broke) => Str("failure")
  }

  function DecodeOutcome(v: Value): Option<Option<Outcome>> {
    if v.Null? then Some(None)
    else if v == Str("success") then Some(Some(Succeeded))
    else if v == Str("failure") then Some(Some(Broke))
    else None
  }

  // --------------------------------------------------------------- records

  function EncodeAction(a: ActionDetails): Value {
    Object([Field("service", Str(a.service)),
            Field("operation", Str(a.operation)),
            Field("region", Str(a.region)),
            Field("parameters", a.parameters),
            Field("parametersHash", Str(a.parametersHash)),
            Field("resourceArns", List(EncodeStrings(a.resourceArns))),
            Field("reason", EncodeText(a.reason))])
  }

  predicate ActionShape(v: Value) {
    v.Object? && |v.fields| == 7
    && v.fields[0].key == "service" && v.fields[1].key == "operation"
    && v.fields[2].key == "region" && v.fields[3].key == "parameters"
    && v.fields[4].key == "parametersHash" && v.fields[5].key == "resourceArns"
    && v.fields[6].key == "reason"
  }

  function DecodeAction(v: Value): Option<ActionDetails> {
    if !ActionShape(v) then None
    else
      var service :- AsString(v.fields[0].val);
      var operation :- AsString(v.fields[1].val);
      var region :- AsString(v.fields[2].val);
      var hash :- AsString(v.fields[4].val);
      var arns :- AsStrings(v.fields[5].val);
      var reason :- DecodeText(v.fields[6].val);
      Some(ActionDetails(service, operation, region, v.fields[3].val, hash, arns, reason))
  }

  function EncodeApproval(a: Approval): Value {
    Object([Field("approvedBy", Str(a.approvedBy)), Field("approvedAt", Int(a.approvedAt))])
  }

  predicate ApprovalShape(v: Value) {
    v.Object? && |v.fields| == 2
    && v.fields[0].key == "approvedBy" && v.fields[1].key == "approvedAt"
  }

  function DecodeApproval(v: Value): Option<Approval> {
    if !ApprovalShape(v) then None
    else
      var approver :- AsString(v.fields[0].val);
      var at :- AsInt(v.fields[1].val);
      Some(Approval(approver, at))
  }

  function EncodeApprovals(xs: seq<Approval>): seq<Value> {
    if xs == [] then [] else [EncodeApproval(xs[0])] + EncodeApprovals(xs[1..])
  }

  function DecodeApprovals(vs: seq<Value>): Option<seq<Approval>> {
    if vs == [] then Some([])
    else
      var x :- DecodeApproval(vs[0]);
      var xs :- DecodeApprovals(vs[1..]);
      Some([x] + xs)
  }

  function AsApprovals(v: Value): Option<seq<Approval>> {
    if v.List? then DecodeApprovals(v.items) else None
  }

  function EncodeResource(r: CreatedResource): Value {
    Object([Field("type", Str(r.kind)), Field("id", Str(r.id)), Field("arn", EncodeText(r.arn))])
  }

  predicate ResourceShape(v: Value) {
    v.Object? && |v.fields| == 3
    && v.fields[0].key == "type" && v.fields[1].key == "id"
    && v.fields[2].key == "arn"
  }

  function DecodeResource(v: Value): Option<CreatedResource> {
    if !ResourceShape(v) then None
    else
      var kind :- AsString(v.fields[0].val);
      var id :- AsString(v.fields[1].val);
      var arn :- DecodeText(v.fields[2].val);
      Some(CreatedResource(kind, id, arn))
  }

  function EncodeResources(xs: seq<CreatedResource>): seq<Value> {
    if xs == [] then [] else [EncodeResource(xs[0])] + EncodeResources(xs[1..])
  }

  function DecodeResources(vs: seq<Value>): Option<seq<CreatedResource>> {
    if vs == [] then Some([])
    else
      var x :- DecodeResource(vs[0]);
      var xs :- DecodeResources(vs[1..]);
      Some([x] + xs)
  }

  function AsResources(v: Value): Option<seq<CreatedResource>> {
    if v.List? then DecodeResources(v.items) else None
  }

  function EncodeExecution(o: Option<Execution>): Value {
    match o
    case None => Null
    case Some(x) =>
      Object([Field("startedAt", Int(x.startedAt)),
              Field("finishedAt", EncodeNumber(x.finishedAt)),
              Field("outcome", EncodeOutcome(x.outcome)),
              Field("message", EncodeText(x.message)),
              Field("awsRequestIds", List(EncodeStrings(x.awsRequestIds))),
              Field("createdResources", List(EncodeResources(x.createdResources)))])
  }

  predicate ExecutionShape(v: Value) {
    v.Object? && |v.fields| == 6
    && v.fields[0].key == "startedAt" && v.fields[1].key == "finishedAt"
    && v.fields[2].key == "outcome" && v.fields[3].key == "message"
    && v.fields[4].key == "awsRequestIds" && v.fields[5].key == "createdResources"
  }

  function DecodeExecution(v: Value): Option<Option<Execution>> {
    if v.Null? then Some(None)
    else if !ExecutionShape(v) then None
    else
      var started :- AsInt(v.fields[0].val);
      var finished :- DecodeNumber(v.fields[1].val);
      var outcome :- DecodeOutcome(v.fields[2].val);
      var message :- DecodeText(v.fields[3].val);
      var requests :- AsStrings(v.fields[4].val);
      var created :- AsResources(v.fields[5].val);
      Some(Some(Execution(started, finished, outcome, message, requests, created)))
  }

  function EncodeTicket(t: Ticket): Value {
    Object([Field("ticketId", Str(t.ticketId)),
            Field("subject", Str(t.subject)),
            Field("ticketDate", Int(t.ticketDate)),
            Field("status", Str(StatusName(t.status))),
            Field("plannedDate", Int(t.plannedDate)),
            Field("plannedAction", Str(t.plannedAction)),
            Field("actionDetails", EncodeAction(t.actionDetails)),
            Field("tags", EncodeTags(t.tags)),
            Field("assignee", Str(t.assignee)),
            Field("proposedBy", Str(t.proposedBy)),
            Field("approvals", List(EncodeApprovals(t.approvals))),
            Field("rejectedBy", EncodeText(t.rejectedBy)),
            Field("rejectedAt", EncodeNumber(t.rejectedAt)),
            Field("rejectionReason", EncodeText(t.rejectionReason)),
            Field("supersedes", EncodeText(t.supersedes)),
            Field("supersededBy", EncodeText(t.supersededBy)),
            Field("lineageRootId", Str(t.lineageRootId)),
            Field("idempotencyKey", EncodeText(t.idempotencyKey)),
            Field("execution", EncodeExecution(t.execution)),
            Field("seq", Int(t.version))])
  }

  predicate TicketShape(v: Value) {
    v.Object? && |v.fields| == 20
    && v.fields[0].key == "ticketId" && v.fields[1].key == "subject"
    && v.fields[2].key == "ticketDate" && v.fields[3].key == "status"
    && v.fields[4].key == "plannedDate" && v.fields[5].key == "plannedAction"
    && v.fields[6].key == "actionDetails" && v.fields[7].key == "tags"
    && v.fields[8].key == "assignee" && v.fields[9].key == "proposedBy"
    && v.fields[10].key == "approvals" && v.fields[11].key == "rejectedBy"
    && v.fields[12].key == "rejectedAt" && v.fields[13].key == "rejectionReason"
    && v.fields[14].key == "supersedes" && v.fields[15].key == "supersededBy"
    && v.fields[16].key == "lineageRootId" && v.fields[17].key == "idempotencyKey"
    && v.fields[18].key == "execution" && v.fields[19].key == "seq"
  }

  function DecodeTicket(v: Value): Option<Ticket> {
    if !TicketShape(v) then None
    else
      var ticketId := AsString(v.fields[0].val);
      var subject := AsString(v.fields[1].val);
      var ticketDate := AsInt(v.fields[2].val);
      var status := StatusOf(v.fields[3].val);
      var plannedDate := AsInt(v.fields[4].val);
      var plannedAction := AsString(v.fields[5].val);
      var actionDetails := DecodeAction(v.fields[6].val);
      var tags := DecodeTags(v.fields[7].val);
      var assignee := AsString(v.fields[8].val);
      var proposedBy := AsString(v.fields[9].val);
      var approvals := AsApprovals(v.fields[10].val);
      var rejectedBy := DecodeText(v.fields[11].val);
      var rejectedAt := DecodeNumber(v.fields[12].val);
      var rejectionReason := DecodeText(v.fields[13].val);
      var supersedes := DecodeText(v.fields[14].val);
      var supersededBy := DecodeText(v.fields[15].val);
      var lineageRootId := AsString(v.fields[16].val);
      var idempotencyKey := DecodeText(v.fields[17].val);
      var execution := DecodeExecution(v.fields[18].val);
      var version := AsInt(v.fields[19].val);
      if ticketId.Some? && subject.Some? && ticketDate.Some? && status.Some? && plannedDate.Some? &&
         plannedAction.Some? && actionDetails.Some? && tags.Some? && assignee.Some? && proposedBy.Some? &&
         approvals.Some? && rejectedBy.Some? && rejectedAt.Some? && rejectionReason.Some? &&
         supersedes.Some? && supersededBy.Some? && lineageRootId.Some? && idempotencyKey.Some? &&
         execution.Some? && version.Some?
      then Some(Ticket(ticketId.value, subject.value, ticketDate.value, status.value, plannedDate.value,
                       plannedAction.value, actionDetails.value, tags.value, assignee.value, proposedBy.value,
                       approvals.value, rejectedBy.value, rejectedAt.value, rejectionReason.value,
                       supersedes.value, supersededBy.value, lineageRootId.value, idempotencyKey.value,
                       execution.value, version.value))
      else None
  }

  function EncodeDetails(d: Details): Value {
    match d
    case NoDetails => Null
    case TicketDetails(t) => Object([Field("ticket", EncodeTicket(t))])
    case ApprovalDetails(a) => Object([Field("approval", EncodeApproval(a))])
    case ReasonDetails(r) => Object([Field("reason", Str(r))])
    case LinkDetails(s) => Object([Field("supersededBy", Str(s))])
    case ResultDetails(outcome, message, requests, created) =>
      Object([Field("outcome", EncodeOutcome(Some(outcome))),
              Field("message", EncodeText(message)),
              Field("awsRequestIds", List(EncodeStrings(requests))),
              Field("createdResources", List(EncodeResources(created)))])
    case TtlDetails(h) => Object([Field("ttlHours", Int(h))])
    case TagDetails(oldTags, tags) => Object([Field("oldTags", EncodeTags(oldTags)), Field("tags", EncodeTags(tags))])
    case CommentDetails(text) => Object([Field("text", Str(text))])
  }

  /** The first key tells which shape it is. */
  function DecodeDetails(v: Value): Option<Details> {
    if v.Null? then Some(NoDetails)
    else if !v.Object? || v.fields == [] then None
    else if |v.fields| == 1 then
      var only := v.fields[0].val;
      match v.fields[0].key
      case "ticket" => var t :- DecodeTicket(only); Some(TicketDetails(t))
      case "approval" => var a :- DecodeApproval(only); Some(ApprovalDetails(a))
      case "reason" => var r :- AsString(only); Some(ReasonDetails(r))
      case "supersededBy" => var s :- AsString(only); Some(LinkDetails(s))
      case "ttlHours" => var h :- AsInt(only); Some(TtlDetails(h))
      case "text" => var s :- AsString(only); Some(CommentDetails(s))
      case _ => None
    else if |v.fields| == 2 && v.fields[0].key == "oldTags" && v.fields[1].key == "tags" then
      var oldTags :- DecodeTags(v.fields[0].val);
      var tags :- DecodeTags(v.fields[1].val);
      Some(TagDetails(oldTags, tags))
    else if ResultShape(v) then
      var outcome :- DecodeOutcome(v.fields[0].val);
      var message :- DecodeText(v.fields[1].val);
      var requests :- AsStrings(v.fields[2].val);
      var created :- AsResources(v.fields[3].val);
      if outcome.Some? then Some(ResultDetails(outcome.value, message, requests, created)) else None
    else None
  }

  predicate ResultShape(v: Value) {
    v.Object? && |v.fields| == 4
    && v.fields[0].key == "outcome" && v.fields[1].key == "message"
    && v.fields[2].key == "awsRequestIds" && v.fields[3].key == "createdResources"
  }

  function EncodeEvent(e: AuditEvent): (v: Value)
    ensures v.Object?
  {
    Object([Field("eventId", Str(e.eventId)),
            Field("ticketId", Str(e.ticketId)),
            Field("seq", Int(e.version)),
            Field("timestamp", Int(e.timestamp)),
            Field("type", Str(TypeName(e.kind))),
            Field("actor", EncodeActor(e.actor)),
            Field("fromStatus", EncodeStatus(e.fromStatus)),
            Field("toStatus", EncodeStatus(e.toStatus)),
            Field("details", EncodeDetails(e.details))])
  }

  predicate EventShape(v: Value) {
    v.Object? && |v.fields| == 9
    && v.fields[0].key == "eventId" && v.fields[1].key == "ticketId"
    && v.fields[2].key == "seq" && v.fields[3].key == "timestamp"
    && v.fields[4].key == "type" && v.fields[5].key == "actor"
    && v.fields[6].key == "fromStatus" && v.fields[7].key == "toStatus"
    && v.fields[8].key == "details"
  }

  function DecodeEvent(v: Value): Option<AuditEvent> {
    if !EventShape(v) then None
    else
      var eventId :- AsString(v.fields[0].val);
      var ticketId :- AsString(v.fields[1].val);
      var version :- AsInt(v.fields[2].val);
      var timestamp :- AsInt(v.fields[3].val);
      var kind :- TypeOf(v.fields[4].val);
      var actor :- DecodeActor(v.fields[5].val);
      var fromStatus :- DecodeStatus(v.fields[6].val);
      var toStatus :- DecodeStatus(v.fields[7].val);
      var details :- DecodeDetails(v.fields[8].val);
      Some(AuditEvent(eventId, ticketId, version, timestamp, kind, actor, fromStatus, toStatus, details))
  }

  /** The text of one log line, without its newline. */
  function Line(e: AuditEvent): string {
    Print(EncodeEvent(e), " ")
  }

  /** `_dump` */
  function Dump(e: AuditEvent): string {
    Line(e) + "\n"
  }

  // ------------------------------------------------------------ round trips

  lemma {:induction false} StringsRoundTrip(ss: seq<string>)
    ensures DecodeStrings(EncodeStrings(ss)) == Some(ss)
  {
    if ss != [] {
      StringsRoundTrip(ss[1..]);
      assert EncodeStrings(ss)[1..] == EncodeStrings(ss[1..]);
      assert ss == [ss[0]] + ss[1..];
    }
  }

  lemma {:induction false} ApprovalsRoundTrip(xs: seq<Approval>)
    ensures DecodeApprovals(EncodeApprovals(xs)) == Some(xs)
  {
    if xs != [] {
      ApprovalsRoundTrip(xs[1..]);
      assert EncodeApprovals(xs)[1..] == EncodeApprovals(xs[1..]);
      assert xs == [xs[0]] + xs[1..];
    }
  }

  lemma ResourceRoundTrip(x: CreatedResource)
    ensures DecodeResource(EncodeResource(x)) == Some(x)
  {
  }

  lemma {:induction false} ResourcesRoundTrip(xs: seq<CreatedResource>)
    ensures DecodeResources(EncodeResources(xs)) == Some(xs)
  {
    hide EncodeResource, DecodeResource;
    if xs != [] {
      ResourceRoundTrip(xs[0]);
      ResourcesRoundTrip(xs[1..]);
      assert EncodeResources(xs)[1..] == EncodeResources(xs[1..]);
      assert xs == [xs[0]] + xs[1..];
    }
  }

  lemma TextRoundTrip(o: Option<string>)
    ensures DecodeText(EncodeText(o)) == Some(o)
  {
  }

  lemma NumberRoundTrip(o: Option<int>)
    ensures DecodeNumber(EncodeNumber(o)) == Some(o)
  {
  }

  lemma OutcomeRoundTrip(o: Option<Outcome>)
    ensures DecodeOutcome(EncodeOutcome(o)) == Some(o)
  {
  }

  lemma ActorRoundTrip(a: Actor)
    ensures DecodeActor(EncodeActor(a)) == Some(a)
  {
  }

  lemma TagsRoundTrip(m: map<string, string>)
    ensures DecodeTags(EncodeTags(m)) == Some(m)
  {
    MeaningOfInKeyOrder(Values(m));
    hide InKeyOrder, DenoteFields, Values, Texts;
    var d := DenoteFields(InKeyOrder(Values(m)));
    assert forall k :: k in m ==> d[k] == MStr(m[k]);
    assert d.Keys == m.Keys;
    assert Texts(d).value == m;
  }

  lemma StatusRoundTrip(o: Option<Status>)
    ensures DecodeStatus(EncodeStatus(o)) == Some(o)
    ensures o.Some? ==> StatusOf(Str(StatusName(o.value))) == o
  {
  }

  lemma TypeRoundTrip(t: EventType)
    ensures TypeOf(Str(TypeName(t))) == Some(t)
  {
  }

  lemma ActionRoundTrip(a: ActionDetails)
    ensures DecodeAction(EncodeAction(a)) == Some(a)
  {
    StringsRoundTrip(a.resourceArns);
    TextRoundTrip(a.reason);
    hide EncodeStrings, DecodeStrings, EncodeText, DecodeText;
  }

  lemma ExecutionRoundTrip(o: Option<Execution>)
    ensures DecodeExecution(EncodeExecution(o)) == Some(o)
  {
    hide EncodeStrings, DecodeStrings, EncodeResources, DecodeResources, EncodeText, DecodeText, EncodeNumber,
         DecodeNumber, EncodeOutcome, DecodeOutcome;
    if o.Some? {
      NumberRoundTrip(o.value.finishedAt);
      OutcomeRoundTrip(o.value.outcome);
      TextRoundTrip(o.value.message);
      StringsRoundTrip(o.value.awsRequestIds);
      ResourcesRoundTrip(o.value.createdResources);
    }
  }

  lemma TicketFieldsRoundTrip(t: Ticket)
    ensures DecodeAction(EncodeAction(t.actionDetails)) == Some(t.actionDetails)
    ensures DecodeTags(EncodeTags(t.tags)) == Some(t.tags)
    ensures AsApprovals(List(EncodeApprovals(t.approvals))) == Some(t.approvals)
    ensures DecodeExecution(EncodeExecution(t.execution)) == Some(t.execution)
    ensures StatusOf(Str(StatusName(t.status))) == Some(t.status)
    ensures DecodeNumber(EncodeNumber(t.rejectedAt)) == Some(t.rejectedAt)
    ensures DecodeText(EncodeText(t.rejectedBy)) == Some(t.rejectedBy)
    ensures DecodeText(EncodeText(t.rejectionReason)) == Some(t.rejectionReason)
    ensures DecodeText(EncodeText(t.supersedes)) == Some(t.supersedes)
    ensures DecodeText(EncodeText(t.supersededBy)) == Some(t.supersededBy)
    ensures DecodeText(EncodeText(t.idempotencyKey)) == Some(t.idempotencyKey)
  {
    hide StatusOf, StatusName, DecodeAction, EncodeAction, DecodeTags, EncodeTags, DecodeApprovals, EncodeApprovals,
         DecodeExecution, EncodeExecution, DecodeNumber, EncodeNumber;
    StatusRoundTrip(Some(t.status));
    ActionRoundTrip(t.actionDetails);
    TagsRoundTrip(t.tags);
    ApprovalsRoundTrip(t.approvals);
    ExecutionRoundTrip(t.execution);
    NumberRoundTrip(t.rejectedAt);
  }

  lemma TicketHasShape(t: Ticket)
    ensures TicketShape(EncodeTicket(t))
  {
    hide EncodeTags, EncodeAction, EncodeApprovals, EncodeExecution, StatusName, EncodeNumber, EncodeText;
  }

  lemma TicketRoundTrip(t: Ticket)
    ensures DecodeTicket(EncodeTicket(t)) == Some(t)
  {
    hide EncodeTags, DecodeTags, EncodeAction, DecodeAction, EncodeApprovals, AsApprovals, EncodeExecution,
         DecodeExecution, StatusOf, StatusName, EncodeNumber, DecodeNumber, EncodeText, DecodeText;
    TicketFieldsRoundTrip(t);
    TicketHasShape(t);
    hide TicketShape;
  }

  lemma TagDetailsRoundTrip(oldTags: map<string, string>, tags: map<string, string>)
    ensures DecodeDetails(EncodeDetails(TagDetails(oldTags, tags))) == Some(TagDetails(oldTags, tags))
  {
    hide EncodeTags, DecodeTags;
    TagsRoundTrip(oldTags);
    TagsRoundTrip(tags);
  }

  lemma ResultDetailsRoundTrip(d: Details)
    requires d.ResultDetails?
    ensures DecodeDetails(EncodeDetails(d)) == Some(d)
  {
    hide EncodeStrings, DecodeStrings, EncodeResources, DecodeResources, EncodeText, DecodeText, EncodeOutcome,
         DecodeOutcome;
    OutcomeRoundTrip(Some(d.outcome));
    TextRoundTrip(d.message);
    StringsRoundTrip(d.awsRequestIds);
    ResourcesRoundTrip(d.createdResources);
  }

  lemma TicketDetailsRoundTrip(t: Ticket)
    ensures DecodeDetails(EncodeDetails(TicketDetails(t))) == Some(TicketDetails(t))
  {
    hide EncodeTicket, DecodeTicket;
    TicketRoundTrip(t);
  }

  lemma PlainDetailsRoundTrip(d: Details)
    requires !d.TicketDetails? && !d.TagDetails? && !d.ResultDetails?
    ensures DecodeDetails(EncodeDetails(d)) == Some(d)
  {
    hide EncodeTicket, DecodeTicket;
  }

  lemma DetailsRoundTrip(d: Details)
    ensures DecodeDetails(EncodeDetails(d)) == Some(d)
  {
    hide EncodeDetails, DecodeDetails;
    match d
    case TicketDetails(t) => TicketDetailsRoundTrip(t);
    case TagDetails(oldTags, tags) => TagDetailsRoundTrip(oldTags, tags);
    case ResultDetails(_, _, _, _) => ResultDetailsRoundTrip(d);
    case _ => PlainDetailsRoundTrip(d);
  }

  lemma EventRoundTrip(e: AuditEvent)
    ensures DecodeEvent(EncodeEvent(e)) == Some(e)
  {
    hide TypeOf, TypeName, EncodeStatus, DecodeStatus, EncodeDetails, DecodeDetails, EncodeActor, DecodeActor;
    TypeRoundTrip(e.kind);
    ActorRoundTrip(e.actor);
    StatusRoundTrip(e.fromStatus);
    StatusRoundTrip(e.toStatus);
    DetailsRoundTrip(e.details);
  }

  /** A written line reads back as its event; cut anywhere before its end, it
      does not read at all; and it holds no newline of its own. */
  lemma LineFacts(e: AuditEvent)
    ensures Loads(Line(e)) == Ok(EncodeEvent(e), "") && DecodeEvent(EncodeEvent(e)) == Some(e)
    ensures forall k :: 0 <= k < |Line(e)| ==> Loads(Line(e)[..k]).Bad?
    ensures OneLine(Line(e))
    ensures Line(e) != "" && Line(e)[0] == '{'
  {
    hide EncodeEvent, DecodeEvent, Print, Loads;
    LoadsPrint(EncodeEvent(e), " ");
    EventRoundTrip(e);
    PrintOneLine(EncodeEvent(e), " ");
    PrintStart(EncodeEvent(e), " ");
    forall k | 0 <= k < |Line(e)| ensures Loads(Line(e)[..k]).Bad? {
      ProperPrefixIsBad(EncodeEvent(e), " ", k);
    }
  }
}
