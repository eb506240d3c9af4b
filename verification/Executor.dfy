/** The executor (`executor/app/main.py`) together with the gate: any number of
    replicas that start, crash and restart, requests and replies that get lost or
    arrive late, retried reports, a gate that restarts, and other clients doing
    what they please. The trace of AWS calls is part of the state. */
module Executor {
  import opened Wrappers
  import opened Models
  import opened Fold
  import opened Store
  import opened Service
  import opened Legality
  import opened StoreInvariants
  import opened Protocol

  const REPORT_ATTEMPTS := 4

  /** Where one replica is in `process_ticket`. `rid` numbers its request. */
  datatype Phase =
    | Idle
    | Asking(id: Id, rid: nat)                            // execution/start sent
    | Armed(id: Id, rid: nat, details: ActionDetails)     // start confirmed, about to call AWS
    | Telling(report: Request, attempt: nat, rid: nat)    // execution/result sent

  datatype Call = Call(id: Id, rid: nat, details: ActionDetails, outcome: Outcome)

  datatype World = World(
    gate: Gate,
    replicas: map<nat, Phase>,
    sent: map<nat, Request>,
    replies: map<nat, Result<Ticket, Error>>,
    calls: seq<Call>)

  const BEGIN := World(Protocol.START, map[], map[], map[], [])

  datatype Event =
    | Ask(p: nat, id: Id, hash: string, session: Option<string>, rid: nat)
    | HearStart(p: nat)
    | MissStart(p: nat)
    | CallAws(p: nat, report: Request, rid: nat)
    | HearResult(p: nat, rid: nat)
    | MissResult(p: nat, rid: nat)
    | Crash(p: nat)
    | Arrive(rid: nat)
    | Foreign(client: nat, req: Request)
    | Land(client: nat, stamp: Stamp)
    | GateRestart

  function PhaseOf(w: World, p: nat): Phase {
    if p in w.replicas then w.replicas[p] else Idle
  }

  predicate FreshRid(w: World, rid: nat) {
    rid !in w.sent && rid !in w.gate.inFlight
  }

  /** Only the executor holds the credentials of its own identity `me`. */
  predicate IsForeign(me: string, req: Request) {
    (req.Start? || req.Report?) ==> req.principal != me
  }

  /** The gate's answer to a request is the ticket after its write. */
  function Reply(cfg: Config, g: Gate, client: nat, stamp: Stamp): Result<Ticket, Error>
    requires client in g.inFlight
  {
    match Answer(cfg, g, client, stamp)
    case Failure(err) => Failure(err)
    case Success(d) =>
      var req, after := g.inFlight[client].req, Next(cfg, g, WriteStep(client, stamp)).store;
      if !IsCreate(req) && req.id in after.tickets then Success(after.tickets[req.id]) else Failure(NotFound)
  }

  /** What an attempt to report may hear that makes another one pointless. */
  predicate Settled(heard: Option<Result<Ticket, Error>>) {
    heard.Some? && (heard.value.Success? || heard.value.error == InvalidState)
  }

  predicate TryAgain(attempt: nat, heard: Option<Result<Ticket, Error>>) {
    attempt < REPORT_ATTEMPTS && !Settled(heard)
  }

  /** `_report`, given what each attempt would hear (nothing, when the request or
      its answer is lost): it never raises, and sends until an attempt settles the
      matter, four times at most. */
  method Report(heard: seq<Option<Result<Ticket, Error>>>) returns (sent: nat, landed: bool)
    requires |heard| == 4
    ensures 1 <= sent <= 4
    ensures forall k :: 0 <= k < sent - 1 ==>
              heard[k] == None || (heard[k].value.Failure? && heard[k].value.error != InvalidState)
    ensures sent < 4 ==> heard[sent - 1].Some?
                         && (heard[sent - 1].value.Success? || heard[sent - 1].value.error == InvalidState)
    ensures landed <==> heard[sent - 1].Some? && heard[sent - 1].value.Success?
  {
    sent, landed := 0, false;
    while sent < REPORT_ATTEMPTS
      invariant sent <= REPORT_ATTEMPTS && !landed
      invariant forall k :: 0 <= k < sent ==> !Settled(heard[k])
    {
      sent := sent + 1;
      match heard[sent - 1] {
        case Some(Success(_)) =>
          landed := true;
          return;
        case Some(Failure(err)) =>
          if err == InvalidState { return; }
        case None =>
      }
    }
  }

  function AfterAttempt(w: World, p: nat, heard: Option<Result<Ticket, Error>>, rid: nat): World
    requires PhaseOf(w, p).Telling?
  {
    var t := PhaseOf(w, p);
    if TryAgain(t.attempt, heard)
    then w.(replicas := w.replicas[p := Telling(t.report, t.attempt + 1, rid)], sent := w.sent[rid := t.report])
    else w.(replicas := w.replicas[p := Idle])
  }

  /** One step; a step that is not enabled changes nothing. */
  function Step(cfg: Config, me: string, w: World, e: Event): World {
    match e
    case Ask(p, id, hash, session, rid) =>
      if PhaseOf(w, p).Idle? && FreshRid(w, rid)
      then w.(replicas := w.replicas[p := Asking(id, rid)], sent := w.sent[rid := Start(id, me, hash, session)])
      else w
    case HearStart(p) =>
      var a := PhaseOf(w, p);
      if a.Asking? && a.rid in w.replies
      then w.(replicas := w.replicas[p := match w.replies[a.rid]
                                          case Success(t) => Armed(a.id, a.rid, t.actionDetails)
                                          case Failure(_) => Idle])
      else w
    case MissStart(p) => if PhaseOf(w, p).Asking? then w.(replicas := w.replicas[p := Idle]) else w
    case CallAws(p, report, rid) =>
      var a := PhaseOf(w, p);
      if a.Armed? && FreshRid(w, rid) && report.Report? && report.id == a.id && report.principal == me
      then w.(calls := w.calls + [Call(a.id, a.rid, a.details, report.outcome)],
              replicas := w.replicas[p := Telling(report, 1, rid)], sent := w.sent[rid := report])
      else w
    case HearResult(p, rid) =>
      var a := PhaseOf(w, p);
      if a.Telling? && a.rid in w.replies && FreshRid(w, rid) then AfterAttempt(w, p, Some(w.replies[a.rid]), rid) else w
    case MissResult(p, rid) =>
      if PhaseOf(w, p).Telling? && FreshRid(w, rid) then AfterAttempt(w, p, None, rid) else w
    case Crash(p) => w.(replicas := w.replicas - {p})
    case Arrive(rid) =>
      if rid in w.sent && rid !in w.replies then w.(gate := Next(cfg, w.gate, ReadStep(rid, w.sent[rid]))) else w
    case Foreign(client, req) =>
      if client !in w.sent && IsForeign(me, req) then w.(gate := Next(cfg, w.gate, ReadStep(client, req))) else w
    case Land(client, stamp) =>
      if client in w.gate.inFlight
      then w.(gate := Next(cfg, w.gate, WriteStep(client, stamp)),
              replies := if client in w.sent then w.replies[client := Reply(cfg, w.gate, client, stamp)] else w.replies)
      else w
    case GateRestart => w.(gate := Next(cfg, w.gate, Restart))
  }

  function Play(cfg: Config, me: string, events: seq<Event>): World {
    if events == [] then BEGIN else Step(cfg, me, Play(cfg, me, events[..|events| - 1]), events[|events| - 1])
  }

  // --------------------------------------------------------- what a gate step does

  /** What the event of a write is, for the ticket it changes. */
  function Changing(w: Write): AuditEvent {
    match w
    case Create(_, created) => created
    case Append(_, _, e) => e
    case Supersede(_, _, link, _, _) => link
  }

  lemma OthersUntouched(st: State, w: Write, id: Id)
    requires Coherent(w) && Do(st, w).Success? && id in st.tickets
    ensures id in Do(st, w).value.tickets
    ensures if Target(w) == Some(id)
            then ApplyEvent(st.tickets[id], Changing(w)) == Success(Do(st, w).value.tickets[id])
            else Do(st, w).value.tickets[id] == st.tickets[id]
  {
    hide ApplyEvent;
  }

  /** Only a report brings a result, only the assignee's, and only its own. */
  lemma ResultsComeFromReports(cfg: Config, req: Request, snap: Option<Ticket>, s: Stamp)
    requires Decide(cfg, req, snap, s).Success? && Decide(cfg, req, snap, s).value.Perform?
    requires Changing(Decide(cfg, req, snap, s).value.write).kind in RESULTS
    ensures var e := Changing(Decide(cfg, req, snap, s).value.write);
            req.Report? && snap.Some? && snap.value.assignee == req.principal
            && e.details.ResultDetails? && e.details.outcome == req.outcome
  {
    hide BuildTicket, HasApproved, Actionable, Stale;
    match req
    case AgentCreate(p, principal, key, session) => CreatesOnly(cfg, p, principal, principal, key, session, snap, s);
    case HumanCreate(p, email, executor, key) => CreatesOnly(cfg, p, executor, email, key, None, snap, s);
    case _ =>
  }

  lemma CreatesOnly(cfg: Config, p: Payload, assignee: string, proposedBy: string, key: Option<string>,
                    session: Option<string>, snap: Option<Ticket>, s: Stamp)
    requires DecideCreate(cfg, p, assignee, proposedBy, key, session, snap, s).Success?
    requires DecideCreate(cfg, p, assignee, proposedBy, key, session, snap, s).value.Perform?
    ensures Changing(DecideCreate(cfg, p, assignee, proposedBy, key, session, snap, s).value.write).kind == TicketCreated
  {
  }

  lemma ResultOutcome(t: Ticket, e: AuditEvent)
    requires e.kind in RESULTS && e.details.ResultDetails? && ApplyEvent(t, e).Success?
    ensures var u := ApplyEvent(t, e).value; Finished(u) && u.execution.value.outcome == Some(e.details.outcome)
  {
  }

  /** What any gate step leaves of a ticket; a result appears only when a report
      of the ticket's assignee lands, and is that report's. */
  ghost predicate Evolves(g: Gate, step: Protocol.Step, id: Id, t: Ticket, u: Ticket) {
    SameFrozen(t, u)
    && (t.execution.Some? ==> u.execution.Some?)
    && (Finished(t) ==> u.execution == t.execution)
    && (Finished(u) && !Finished(t) ==>
          step.WriteStep? && step.client in g.inFlight && g.inFlight[step.client].req.Report?
          && g.inFlight[step.client].req.id == id && g.inFlight[step.client].req.principal == t.assignee
          && u.execution.value.outcome == Some(g.inFlight[step.client].req.outcome))
  }

  lemma TicketEvolves(cfg: Config, g: Gate, step: Protocol.Step, id: Id)
    requires cfg.Valid() && Inv(cfg, g) && id in g.store.tickets
    ensures id in Next(cfg, g, step).store.tickets
    ensures Evolves(g, step, id, g.store.tickets[id], Next(cfg, g, step).store.tickets[id])
  {
    hide Answer, Inv, Boot, Text, Sound, LogOk, Evolves, SnapshotOk, Do;
    var t := g.store.tickets[id];
    UnchangedEvolves(g, step, id, t);
    match step
    case ReadStep(_, _) =>
    case WriteStep(client, stamp) =>
      if Answer(cfg, g, client, stamp).Success? && Answer(cfg, g, client, stamp).value.Perform? {
        WriteEvolves(cfg, g, client, stamp, id);
      }
    case Restart =>
      InvGives(cfg, g);
      BootIsIdentity(cfg, g);
  }

  lemma InvGives(cfg: Config, g: Gate)
    requires Inv(cfg, g)
    ensures Sound(cfg, g.store, g.chains) && LogOk(g.store, g.log) && StoreOk(cfg, g.store)
  {
  }

  lemma UnchangedEvolves(g: Gate, step: Protocol.Step, id: Id, t: Ticket)
    ensures Evolves(g, step, id, t, t)
  {
  }

  lemma WriteEvolves(cfg: Config, g: Gate, client: nat, stamp: Stamp, id: Id)
    requires cfg.Valid() && Inv(cfg, g) && id in g.store.tickets
    requires Answer(cfg, g, client, stamp).Success? && Answer(cfg, g, client, stamp).value.Perform?
    ensures Do(g.store, Answer(cfg, g, client, stamp).value.write).Success?
    ensures var after := Do(g.store, Answer(cfg, g, client, stamp).value.write).value;
            id in after.tickets && Evolves(g, WriteStep(client, stamp), id, g.store.tickets[id], after.tickets[id])
  {
    hide Inv, Sound, LogOk, Legal, LegalCreation, TicketOk, ApplyEvent, Decide, Do, Evolves, StepOk, StoreOk, ChainsAfter,
         Grows, SameFrozen;
    var w := Answer(cfg, g, client, stamp).value.write;
    var f := g.inFlight[client];
    var t := g.store.tickets[id];
    WriteStepIsLegal(cfg, g, client, stamp);
    LegalIsCoherent(cfg, f.snapshot, w);
    hide Coherent;
    OthersUntouched(g.store, w, id);
    if Target(w) == Some(id) {
      InvGives(cfg, g);
      CurrentTicket(cfg, g.store, id);
      LegalStep(cfg, t, Changing(w));
      FromRequest(cfg, g, client, stamp, id);
      StepEvolves(g, client, stamp, id, t, Changing(w), Do(g.store, w).value.tickets[id], cfg);
    } else {
      UnchangedEvolves(g, WriteStep(client, stamp), id, t);
    }
  }

  /** A result event that lands on a ticket comes from a report on that ticket. */
  lemma FromRequest(cfg: Config, g: Gate, client: nat, stamp: Stamp, id: Id)
    requires cfg.Valid() && Inv(cfg, g)
    requires Answer(cfg, g, client, stamp).Success? && Answer(cfg, g, client, stamp).value.Perform?
    requires Target(Answer(cfg, g, client, stamp).value.write) == Some(id)
    requires var f := g.inFlight[client]; id in g.store.tickets && f.snapshot == Some(g.store.tickets[id])
    requires g.store.tickets[id].ticketId == id
    ensures var e := Changing(Answer(cfg, g, client, stamp).value.write);
            e.kind in RESULTS ==> ReportFor(g, client, id, g.store.tickets[id], e)
  {
    hide Sound, LogOk, Decide, Do;
    var f := g.inFlight[client];
    assert SnapshotOk(g.store, f);
    if Changing(Answer(cfg, g, client, stamp).value.write).kind in RESULTS {
      ResultsComeFromReports(cfg, f.req, f.snapshot, stamp);
    }
  }

  ghost predicate ReportFor(g: Gate, client: nat, id: Id, t: Ticket, e: AuditEvent) {
    client in g.inFlight && g.inFlight[client].req.Report? && g.inFlight[client].req.id == id
    && g.inFlight[client].req.principal == t.assignee
    && e.details.ResultDetails? && e.details.outcome == g.inFlight[client].req.outcome
  }

  lemma StepEvolves(g: Gate, client: nat, stamp: Stamp, id: Id, t: Ticket, e: AuditEvent, u: Ticket, cfg: Config)
    requires TicketOk(cfg, t) && ApplyEvent(t, e) == Success(u) && StepOk(t, e, u)
    requires e.kind in RESULTS ==> ReportFor(g, client, id, t, e)
    ensures Evolves(g, WriteStep(client, stamp), id, t, u)
  {
    hide ApplyEvent, ApprovalsOk, SameFrozen, GateTagged;
    if e.kind in RESULTS { ResultOutcome(t, e); }
  }

  /** A start that is granted: the ticket was approved for this caller and had
      never run; now it runs, and the answer is that ticket. */
  lemma StartLands(cfg: Config, g: Gate, client: nat, stamp: Stamp)
    requires cfg.Valid() && Inv(cfg, g) && client in g.inFlight && g.inFlight[client].req.Start?
    requires Reply(cfg, g, client, stamp).Success?
    ensures var req := g.inFlight[client].req; var after := Next(cfg, g, WriteStep(client, stamp)).store.tickets;
            req.id in g.store.tickets && req.id in after
            && g.store.tickets[req.id].execution.None? && g.store.tickets[req.id].assignee == req.principal
            && after[req.id].execution.Some? && after[req.id].assignee == req.principal
            && Reply(cfg, g, client, stamp) == Success(after[req.id])
  {
    hide Sound, LogOk, Legal, LegalCreation, TicketOk, Decide, Do, StoreOk, ChainsAfter, Grows, SameFrozen, ApplyEvent;
    var f := g.inFlight[client];
    var t := f.snapshot;
    assert SnapshotOk(g.store, f);
    StartDecision(cfg, f.req, t, stamp);
    WriteStepIsLegal(cfg, g, client, stamp);
    var w := Answer(cfg, g, client, stamp).value.write;
    LegalIsCoherent(cfg, f.snapshot, w);
    OthersUntouched(g.store, w, f.req.id);
    ApplyKeepsId(t.value, Changing(w));
    StartedTicket(t.value, Changing(w));
    InvGives(cfg, g);
    CurrentTicket(cfg, g.store, f.req.id);
    ApprovedHasNotRun(cfg, t.value);
  }

  lemma StartDecision(cfg: Config, req: Request, snap: Option<Ticket>, s: Stamp)
    requires req.Start? && Decide(cfg, req, snap, s).Success?
    ensures snap.Some? && snap.value.assignee == req.principal && snap.value.status == Approved
    ensures Decide(cfg, req, snap, s).value.Perform?
    ensures var w := Decide(cfg, req, snap, s).value.write;
            w.Append? && w.id == snap.value.ticketId && w.event.kind == ExecutionStarted
  {
  }

  lemma StartedTicket(t: Ticket, e: AuditEvent)
    requires e.kind == ExecutionStarted && ApplyEvent(t, e).Success?
    ensures ApplyEvent(t, e).value.execution.Some?
  {
  }

  lemma ApprovedHasNotRun(cfg: Config, t: Ticket)
    requires TicketOk(cfg, t) && t.status == Approved
    ensures t.execution.None?
  {
  }

  // ---------------------------------------------------------------- the invariant

  ghost predicate Called(calls: seq<Call>, id: Id, outcome: Outcome) {
    exists i :: 0 <= i < |calls| && calls[i].id == id && calls[i].outcome == outcome
  }

  /** The executor sends nothing but starts, and reports of calls it made. */
  ghost predicate SentOk(me: string, calls: seq<Call>, req: Request) {
    (req.Start? || req.Report?) && req.principal == me && (req.Report? ==> Called(calls, req.id, req.outcome))
  }

  ghost predicate TrafficOk(me: string, w: World) {
    (forall c :: c in w.gate.inFlight ==>
       if c in w.sent then w.gate.inFlight[c].req == w.sent[c] && c !in w.replies
       else IsForeign(me, w.gate.inFlight[c].req))
    && (forall r :: r in w.replies ==> r in w.sent)
    && (forall r :: r in w.sent ==> SentOk(me, w.calls, w.sent[r]))
  }

  /** Request `r` is a start the gate granted. */
  ghost predicate Won(w: World, r: nat) {
    r in w.sent && r in w.replies && w.replies[r].Success? && w.sent[r].Start?
  }

  ghost predicate WonOk(me: string, w: World, r: nat)
    requires Won(w, r)
  {
    var id := w.sent[r].id;
    id in w.gate.store.tickets
    && var t := w.gate.store.tickets[id];
       t.execution.Some? && t.assignee == me && t.actionDetails == w.replies[r].value.actionDetails
  }

  /** Of all starts for one ticket, at most one is ever granted. */
  ghost predicate WinsOk(me: string, w: World) {
    (forall r :: Won(w, r) ==> WonOk(me, w, r))
    && (forall r, q :: Won(w, r) && Won(w, q) && w.sent[r].id == w.sent[q].id ==> r == q)
  }

  /** The start a replica is about to use up. */
  function Claim(f: Phase): Option<nat> {
    if f.Asking? || f.Armed? then Some(f.rid) else None
  }

  ghost predicate PhaseOk(me: string, w: World, f: Phase) {
    match f
    case Idle => true
    case Asking(id, rid) => rid in w.sent && w.sent[rid].Start? && w.sent[rid].id == id
    case Armed(id, rid, details) => Won(w, rid) && w.sent[rid].id == id && details == w.replies[rid].value.actionDetails
    case Telling(report, attempt, rid) => SentOk(me, w.calls, report) && report.Report? && 1 <= attempt <= REPORT_ATTEMPTS
  }

  ghost predicate CallOk(w: World, c: Call) {
    Won(w, c.rid) && w.sent[c.rid].id == c.id && c.details == w.replies[c.rid].value.actionDetails
  }

  /** Every start is used up once at most: by one replica, for one call. */
  ghost predicate KeysOk(w: World) {
    (forall p, q :: p in w.replicas && q in w.replicas && p != q && Claim(w.replicas[p]).Some? ==>
       Claim(w.replicas[p]) != Claim(w.replicas[q]))
    && (forall p, i :: p in w.replicas && 0 <= i < |w.calls| ==> Claim(w.replicas[p]) != Some(w.calls[i].rid))
    && (forall i, j :: 0 <= i < j < |w.calls| ==> w.calls[i].rid != w.calls[j].rid)
  }

  ghost predicate ResultOk(me: string, w: World, t: Ticket) {
    t.assignee == me && Finished(t) ==> Called(w.calls, t.ticketId, t.execution.value.outcome.value)
  }

  ghost predicate WorldOk(cfg: Config, me: string, w: World) {
    Inv(cfg, w.gate) && TrafficOk(me, w) && WinsOk(me, w) && KeysOk(w)
    && (forall p :: p in w.replicas ==> PhaseOk(me, w, w.replicas[p]))
    && (forall i :: 0 <= i < |w.calls| ==> CallOk(w, w.calls[i]))
    && (forall id :: id in w.gate.store.tickets ==> ResultOk(me, w, w.gate.store.tickets[id]))
  }

  // ------------------------------------------------- steps of the replicas

  /** What a replica's step may change: its own phase, one new request, and the
      trace. */
  ghost predicate ReplicaStep(me: string, w: World, v: World, p: nat, f: Phase) {
    v.gate == w.gate && v.replies == w.replies && w.calls <= v.calls
    && v.replicas == w.replicas[p := f]
    && (forall r :: r in w.sent ==> r in v.sent && v.sent[r] == w.sent[r])
    && (forall r :: r in v.sent && r !in w.sent ==> r !in w.gate.inFlight && SentOk(me, v.calls, v.sent[r]))
  }

  lemma CalledStays(calls: seq<Call>, more: seq<Call>, id: Id, outcome: Outcome)
    requires Called(calls, id, outcome) && calls <= more
    ensures Called(more, id, outcome)
  {
    var i :| 0 <= i < |calls| && calls[i].id == id && calls[i].outcome == outcome;
    assert more[i] == calls[i];
  }

  lemma SentStays(me: string, calls: seq<Call>, more: seq<Call>, req: Request)
    requires SentOk(me, calls, req) && calls <= more
    ensures SentOk(me, more, req)
  {
    hide Called;
    if req.Report? { CalledStays(calls, more, req.id, req.outcome); }
  }

  lemma ReplicaTraffic(me: string, w: World, v: World, p: nat, f: Phase)
    requires TrafficOk(me, w) && ReplicaStep(me, w, v, p, f)
    ensures TrafficOk(me, v)
  {
    hide SentOk, IsForeign;
    forall r | r in v.sent ensures SentOk(me, v.calls, v.sent[r]) {
      if r in w.sent { SentStays(me, w.calls, v.calls, w.sent[r]); }
    }
  }

  lemma ReplicaWins(me: string, w: World, v: World, p: nat, f: Phase)
    requires TrafficOk(me, w) && WinsOk(me, w) && ReplicaStep(me, w, v, p, f)
    ensures WinsOk(me, v) && forall r :: Won(v, r) <==> Won(w, r)
  {
    hide SentOk, IsForeign;
    forall r ensures Won(v, r) <==> Won(w, r) { }
    forall r | Won(v, r) ensures WonOk(me, v, r) { assert WonOk(me, w, r); }
  }

  lemma PhaseStays(me: string, w: World, v: World, p: nat, f: Phase, g: Phase)
    requires ReplicaStep(me, w, v, p, f) && PhaseOk(me, w, g)
    ensures PhaseOk(me, v, g)
  {
    hide SentOk;
    if g.Telling? { SentStays(me, w.calls, v.calls, g.report); }
  }

  /** A replica's step that makes no call. */
  lemma QuietStep(cfg: Config, me: string, w: World, v: World, p: nat, f: Phase)
    requires WorldOk(cfg, me, w) && ReplicaStep(me, w, v, p, f) && v.calls == w.calls && PhaseOk(me, v, f)
    requires Claim(f).Some? ==> Claim(f) == Claim(PhaseOf(w, p)) || Claim(f).value !in w.sent
    ensures WorldOk(cfg, me, v)
  {
    hide Inv, TrafficOk, WinsOk, PhaseOk, CallOk, KeysOk, ResultOk, ReplicaStep;
    ReplicaTraffic(me, w, v, p, f);
    ReplicaWins(me, w, v, p, f);
    ReplicaParts(me, w, v, p, f);
    QuietKeys(me, w, v, p, f);
    forall q | q in v.replicas ensures PhaseOk(me, v, v.replicas[q]) {
      if q != p { PhaseStays(me, w, v, p, f, w.replicas[q]); }
    }
    forall i | 0 <= i < |v.calls| ensures CallOk(v, v.calls[i]) { CallStays(me, w, v, p, f, w.calls[i]); }
    forall id | id in v.gate.store.tickets ensures ResultOk(me, v, v.gate.store.tickets[id]) {
      ResultStays(me, w, v, w.gate.store.tickets[id]);
    }
  }

  lemma ReplicaParts(me: string, w: World, v: World, p: nat, f: Phase)
    requires ReplicaStep(me, w, v, p, f)
    ensures v.gate == w.gate && v.replicas == w.replicas[p := f] && w.calls <= v.calls
  {
  }

  lemma CallStays(me: string, w: World, v: World, p: nat, f: Phase, c: Call)
    requires ReplicaStep(me, w, v, p, f) && CallOk(w, c)
    ensures CallOk(v, c)
  {
    hide SentOk;
  }

  lemma ResultStays(me: string, w: World, v: World, t: Ticket)
    requires ResultOk(me, w, t) && w.calls <= v.calls
    ensures ResultOk(me, v, t)
  {
    hide Called;
    if t.assignee == me && Finished(t) { CalledStays(w.calls, v.calls, t.ticketId, t.execution.value.outcome.value); }
  }

  lemma QuietKeys(me: string, w: World, v: World, p: nat, f: Phase)
    requires KeysOk(w) && v.replicas == w.replicas[p := f] && v.calls == w.calls
    requires forall q :: q in w.replicas ==> PhaseOk(me, w, w.replicas[q])
    requires forall i :: 0 <= i < |w.calls| ==> CallOk(w, w.calls[i])
    requires Claim(f).Some? ==> Claim(f) == Claim(PhaseOf(w, p)) || Claim(f).value !in w.sent
    ensures KeysOk(v)
  {
    hide SentOk;
    forall q | q in w.replicas && Claim(w.replicas[q]).Some? ensures Claim(w.replicas[q]).value in w.sent {
      assert PhaseOk(me, w, w.replicas[q]);
    }
    forall i | 0 <= i < |w.calls| ensures w.calls[i].rid in w.sent { assert CallOk(w, w.calls[i]); }
  }

  /** The call itself: the replica gives up its claim, the trace gains it. */
  lemma CallStep(cfg: Config, me: string, w: World, p: nat, report: Request, rid: nat)
    requires WorldOk(cfg, me, w) && PhaseOf(w, p).Armed? && FreshRid(w, rid)
    requires report.Report? && report.id == PhaseOf(w, p).id && report.principal == me
    ensures WorldOk(cfg, me, Step(cfg, me, w, CallAws(p, report, rid)))
  {
    hide Inv, TrafficOk, WinsOk, KeysOk, ResultOk, Next, Reply, Answer;
    var a := PhaseOf(w, p);
    var c := Call(a.id, a.rid, a.details, report.outcome);
    var f := Telling(report, 1, rid);
    var v := w.(calls := w.calls + [c], replicas := w.replicas[p := f], sent := w.sent[rid := report]);
    assert v.calls[|w.calls|] == c;
    assert ReplicaStep(me, w, v, p, f);
    assert PhaseOk(me, w, a) && CallOk(w, c);
    hide PhaseOk, CallOk, ReplicaStep, SentOk, FreshRid;
    ReplicaTraffic(me, w, v, p, f);
    ReplicaWins(me, w, v, p, f);
    CallKeys(w, v, p, f, c);
    forall q | q in v.replicas ensures PhaseOk(me, v, v.replicas[q]) {
      if q != p { PhaseStays(me, w, v, p, f, w.replicas[q]); } else { TellingOk(me, v, f); }
    }
    forall i | 0 <= i < |v.calls| ensures CallOk(v, v.calls[i]) { CallStays(me, w, v, p, f, v.calls[i]); }
    forall id | id in v.gate.store.tickets ensures ResultOk(me, v, v.gate.store.tickets[id]) {
      ResultStays(me, w, v, w.gate.store.tickets[id]);
    }
  }

  lemma TellingOk(me: string, v: World, f: Phase)
    requires f.Telling? && f.attempt == 1 && f.report.Report? && f.report.principal == me
    requires exists i :: 0 <= i < |v.calls| && v.calls[i].id == f.report.id && v.calls[i].outcome == f.report.outcome
    ensures PhaseOk(me, v, f)
  {
  }

  lemma CallKeys(w: World, v: World, p: nat, f: Phase, c: Call)
    requires KeysOk(w) && p in w.replicas && Claim(w.replicas[p]) == Some(c.rid) && Claim(f).None?
    requires v.replicas == w.replicas[p := f] && v.calls == w.calls + [c]
    ensures KeysOk(v)
  {
  }

  // ---------------------------------------------------- steps of the gate

  /** The gate's side moves; the executor's side only gains answers. */
  ghost predicate GateSide(w: World, v: World) {
    v.replicas == w.replicas && v.sent == w.sent && v.calls == w.calls
    && forall r :: r in w.replies ==> r in v.replies && v.replies[r] == w.replies[r]
  }

  lemma GateSideKeeps(cfg: Config, me: string, w: World, v: World)
    requires WorldOk(cfg, me, w) && GateSide(w, v)
    requires Inv(cfg, v.gate) && TrafficOk(me, v) && WinsOk(me, v)
    requires forall id :: id in v.gate.store.tickets ==> ResultOk(me, v, v.gate.store.tickets[id])
    ensures WorldOk(cfg, me, v)
  {
    hide Inv, TrafficOk, WinsOk, ResultOk, SentOk;
    forall p | p in v.replicas ensures PhaseOk(me, v, v.replicas[p]) { assert PhaseOk(me, w, w.replicas[p]); }
    forall i | 0 <= i < |v.calls| ensures CallOk(v, v.calls[i]) { assert CallOk(w, w.calls[i]); }
  }

  /** A gate step with no new answer: the stores agree. */
  lemma StillGate(cfg: Config, me: string, w: World, gate: Gate)
    requires WorldOk(cfg, me, w) && Inv(cfg, gate) && gate.store == w.gate.store
    requires forall c :: c in gate.inFlight ==>
               (c in w.gate.inFlight && gate.inFlight[c] == w.gate.inFlight[c])
               || (if c in w.sent then gate.inFlight[c].req == w.sent[c] && c !in w.replies
                   else IsForeign(me, gate.inFlight[c].req))
    ensures WorldOk(cfg, me, w.(gate := gate))
  {
    hide Inv, SentOk, IsForeign, PhaseOk, CallOk, KeysOk;
    var v := w.(gate := gate);
    forall r | Won(v, r) ensures WonOk(me, v, r) { assert Won(w, r) && WonOk(me, w, r); }
    forall id | id in v.gate.store.tickets ensures ResultOk(me, v, v.gate.store.tickets[id]) {
      assert ResultOk(me, w, w.gate.store.tickets[id]);
    }
    GateSideKeeps(cfg, me, w, v);
  }

  lemma LandTraffic(cfg: Config, me: string, w: World, client: nat, stamp: Stamp)
    requires TrafficOk(me, w) && client in w.gate.inFlight
    ensures TrafficOk(me, Step(cfg, me, w, Land(client, stamp)))
    ensures GateSide(w, Step(cfg, me, w, Land(client, stamp)))
  {
    hide SentOk, IsForeign, Reply, Answer;
  }

  lemma LandWins(cfg: Config, me: string, w: World, client: nat, stamp: Stamp)
    requires cfg.Valid() && WorldOk(cfg, me, w) && client in w.gate.inFlight
    ensures WinsOk(me, Step(cfg, me, w, Land(client, stamp)))
  {
    hide Inv, Answer, Reply, Next, IsForeign, SameFrozen, ResultOk, PhaseOk, CallOk, KeysOk, Evolves;
    var v := Step(cfg, me, w, Land(client, stamp));
    forall r | Won(v, r) ensures WonOk(me, v, r) {
      if Won(w, r) {
        assert WonOk(me, w, r);
        TicketEvolves(cfg, w.gate, WriteStep(client, stamp), w.sent[r].id);
        var id := w.sent[r].id;
        EvolvesKeeps(w.gate, WriteStep(client, stamp), id, w.gate.store.tickets[id], v.gate.store.tickets[id]);
      } else {
        assert r == client;
        StartLands(cfg, w.gate, client, stamp);
        assert SentOk(me, w.calls, w.sent[r]);
      }
    }
    if Won(v, client) && !Won(w, client) {
      StartLands(cfg, w.gate, client, stamp);
      forall r | Won(w, r) ensures w.sent[r].id != w.sent[client].id { assert WonOk(me, w, r); }
    }
    assert forall r :: Won(v, r) ==> Won(w, r) || r == client;
  }

  lemma EvolvesKeeps(g: Gate, step: Protocol.Step, id: Id, t: Ticket, u: Ticket)
    requires Evolves(g, step, id, t, u)
    ensures u.assignee == t.assignee && u.actionDetails == t.actionDetails && u.ticketId == t.ticketId
    ensures t.execution.Some? ==> u.execution.Some?
  {
  }

  lemma NewTicketHasNotRun(cfg: Config, g: Gate, client: nat, stamp: Stamp, id: Id)
    requires cfg.Valid() && Inv(cfg, g) && id !in g.store.tickets
    requires id in Next(cfg, g, WriteStep(client, stamp)).store.tickets
    ensures Next(cfg, g, WriteStep(client, stamp)).store.tickets[id].execution.None?
  {
    hide Inv, Decide, Do, Sound, Legal, Grows, SameFrozen;
    WriteStepIsLegal(cfg, g, client, stamp);
    var w := Answer(cfg, g, client, stamp).value.write;
    LegalIsCoherent(cfg, g.inFlight[client].snapshot, w);
    NewTicket(g.store, w, id);
  }

  lemma NewTicket(st: State, w: Write, id: Id)
    requires Coherent(w) && Do(st, w).Success? && id !in st.tickets && id in Do(st, w).value.tickets
    ensures !w.Append? && Do(st, w).value.tickets[id] == w.ticket
  {
    hide ApplyEvent;
  }

  lemma LandResults(cfg: Config, me: string, w: World, client: nat, stamp: Stamp, id: Id)
    requires cfg.Valid() && WorldOk(cfg, me, w) && client in w.gate.inFlight
    requires id in Step(cfg, me, w, Land(client, stamp)).gate.store.tickets
    ensures var v := Step(cfg, me, w, Land(client, stamp)); ResultOk(me, v, v.gate.store.tickets[id])
  {
    hide Inv, Answer, Reply, Next, SameFrozen, PhaseOk, CallOk, KeysOk, Called, WinsOk, Evolves;
    var v := Step(cfg, me, w, Land(client, stamp));
    var step := WriteStep(client, stamp);
    if id in w.gate.store.tickets {
      TicketEvolves(cfg, w.gate, step, id);
      assert ResultOk(me, w, w.gate.store.tickets[id]);
      TicketNamed(cfg, w.gate, id);
      ResultEvolves(me, w, v, step, id, w.gate.store.tickets[id], v.gate.store.tickets[id]);
    } else {
      NewTicketHasNotRun(cfg, w.gate, client, stamp, id);
    }
  }

  lemma TicketNamed(cfg: Config, g: Gate, id: Id)
    requires Inv(cfg, g) && id in g.store.tickets
    ensures g.store.tickets[id].ticketId == id
  {
    hide LegalHistory, FoldTicket, ChainsOk, IdemOk, LogOk;
    assert EntryOk(cfg, g.store, id);
  }

  lemma ResultEvolves(me: string, w: World, v: World, step: Protocol.Step, id: Id, t: Ticket, u: Ticket)
    requires Evolves(w.gate, step, id, t, u) && TrafficOk(me, w) && ResultOk(me, w, t) && v.calls == w.calls
    requires t.ticketId == id
    ensures ResultOk(me, v, u)
  {
    hide Called;
    if u.assignee == me && Finished(u) && !Finished(t) {
      var c := step.client;
      assert c in w.sent by { assert !IsForeign(me, w.gate.inFlight[c].req); }
      assert SentOk(me, w.calls, w.sent[c]);
    }
  }

  lemma LandStep(cfg: Config, me: string, w: World, client: nat, stamp: Stamp)
    requires cfg.Valid() && WorldOk(cfg, me, w) && client in w.gate.inFlight
    ensures WorldOk(cfg, me, Step(cfg, me, w, Land(client, stamp)))
  {
    hide Inv, TrafficOk, WinsOk, ResultOk, PhaseOk, CallOk, KeysOk, Reply, Next, GateSide;
    LandTraffic(cfg, me, w, client, stamp);
    LandWins(cfg, me, w, client, stamp);
    var v := Step(cfg, me, w, Land(client, stamp));
    NextKeepsInv(cfg, w.gate, WriteStep(client, stamp));
    forall id | id in v.gate.store.tickets ensures ResultOk(me, v, v.gate.store.tickets[id]) {
      LandResults(cfg, me, w, client, stamp, id);
    }
    GateSideKeeps(cfg, me, w, v);
  }

  // ------------------------------------------------------------- every run

  lemma AskStep(cfg: Config, me: string, w: World, p: nat, id: Id, hash: string, session: Option<string>, rid: nat)
    requires WorldOk(cfg, me, w) && PhaseOf(w, p).Idle? && FreshRid(w, rid)
    ensures WorldOk(cfg, me, Step(cfg, me, w, Ask(p, id, hash, session, rid)))
  {
    hide Inv, TrafficOk, WinsOk, CallOk, KeysOk, ResultOk, Next, Reply, Answer;
    var req := Start(id, me, hash, session);
    var v := w.(replicas := w.replicas[p := Asking(id, rid)], sent := w.sent[rid := req]);
    QuietStep(cfg, me, w, v, p, Asking(id, rid));
  }

  /** A replica moves on without sending anything. */
  lemma PhaseStep(cfg: Config, me: string, w: World, p: nat, f: Phase)
    requires WorldOk(cfg, me, w) && PhaseOk(me, w, f) && (Claim(f).Some? ==> Claim(f) == Claim(PhaseOf(w, p)))
    ensures WorldOk(cfg, me, w.(replicas := w.replicas[p := f]))
  {
    hide Inv, TrafficOk, WinsOk, CallOk, KeysOk, ResultOk, SentOk;
    QuietStep(cfg, me, w, w.(replicas := w.replicas[p := f]), p, f);
  }

  lemma HearStartStep(cfg: Config, me: string, w: World, p: nat)
    requires WorldOk(cfg, me, w) && PhaseOf(w, p).Asking? && PhaseOf(w, p).rid in w.replies
    ensures WorldOk(cfg, me, Step(cfg, me, w, HearStart(p)))
  {
    hide Inv, TrafficOk, WinsOk, CallOk, KeysOk, ResultOk, Next, Reply, Answer, SentOk;
    var a := PhaseOf(w, p);
    assert PhaseOk(me, w, a);
    PhaseStep(cfg, me, w, p,
              match w.replies[a.rid] case Success(t) => Armed(a.id, a.rid, t.actionDetails) case Failure(_) => Idle);
  }

  lemma RetryStep(cfg: Config, me: string, w: World, p: nat, heard: Option<Result<Ticket, Error>>, rid: nat)
    requires WorldOk(cfg, me, w) && PhaseOf(w, p).Telling? && FreshRid(w, rid)
    ensures WorldOk(cfg, me, AfterAttempt(w, p, heard, rid))
  {
    hide Inv, TrafficOk, WinsOk, CallOk, KeysOk, ResultOk, SentOk;
    var t := PhaseOf(w, p);
    assert PhaseOk(me, w, t);
    if TryAgain(t.attempt, heard) {
      QuietStep(cfg, me, w, AfterAttempt(w, p, heard, rid), p, Telling(t.report, t.attempt + 1, rid));
    } else {
      PhaseStep(cfg, me, w, p, Idle);
    }
  }

  lemma CrashStep(cfg: Config, me: string, w: World, p: nat)
    requires WorldOk(cfg, me, w)
    ensures WorldOk(cfg, me, w.(replicas := w.replicas - {p}))
  {
    hide Inv, ResultOk, SentOk, IsForeign, Called;
    var v := w.(replicas := w.replicas - {p});
    forall r | Won(v, r) ensures WonOk(me, v, r) { assert Won(w, r) && WonOk(me, w, r); }
    forall q | q in v.replicas ensures PhaseOk(me, v, v.replicas[q]) { assert PhaseOk(me, w, w.replicas[q]); }
    forall i | 0 <= i < |v.calls| ensures CallOk(v, v.calls[i]) { assert CallOk(w, w.calls[i]); }
    forall id | id in v.gate.store.tickets ensures ResultOk(me, v, v.gate.store.tickets[id]) {
      ResultStays(me, w, v, w.gate.store.tickets[id]);
    }
  }

  /** A gate step that only reads, or restarts. */
  lemma GateOnly(cfg: Config, me: string, w: World, e: Event)
    requires cfg.Valid() && WorldOk(cfg, me, w) && (e.Arrive? || e.Foreign? || e.GateRestart?)
    ensures WorldOk(cfg, me, Step(cfg, me, w, e))
  {
    hide Inv, TrafficOk, WinsOk, CallOk, KeysOk, ResultOk, Reply, Answer, SentOk, IsForeign, Boot, Text, Read,
         PhaseOk, LogOk, Sound;
    match e
    case Arrive(rid) =>
      if rid in w.sent && rid !in w.replies {
        NextKeepsInv(cfg, w.gate, ReadStep(rid, w.sent[rid]));
        StillGate(cfg, me, w, Next(cfg, w.gate, ReadStep(rid, w.sent[rid])));
      }
    case Foreign(client, req) =>
      if client !in w.sent && IsForeign(me, req) {
        NextKeepsInv(cfg, w.gate, ReadStep(client, req));
        StillGate(cfg, me, w, Next(cfg, w.gate, ReadStep(client, req)));
      }
    case GateRestart =>
      NextKeepsInv(cfg, w.gate, Restart);
      InvGives(cfg, w.gate);
      BootIsIdentity(cfg, w.gate);
      StillGate(cfg, me, w, Next(cfg, w.gate, Restart));
  }

  lemma StepKeepsWorld(cfg: Config, me: string, w: World, e: Event)
    requires cfg.Valid() && WorldOk(cfg, me, w)
    ensures WorldOk(cfg, me, Step(cfg, me, w, e))
  {
    hide WorldOk, Next, Reply, Answer, AfterAttempt, FreshRid, IsForeign, PhaseOf;
    match e
    case Ask(p, id, hash, session, rid) =>
      if PhaseOf(w, p).Idle? && FreshRid(w, rid) { AskStep(cfg, me, w, p, id, hash, session, rid); }
    case HearStart(p) =>
      if PhaseOf(w, p).Asking? && PhaseOf(w, p).rid in w.replies { HearStartStep(cfg, me, w, p); }
    case MissStart(p) => if PhaseOf(w, p).Asking? { PhaseStep(cfg, me, w, p, Idle); }
    case CallAws(p, report, rid) =>
      if PhaseOf(w, p).Armed? && FreshRid(w, rid) && report.Report? && report.id == PhaseOf(w, p).id && report.principal == me {
        CallStep(cfg, me, w, p, report, rid);
      }
    case HearResult(p, rid) =>
      if PhaseOf(w, p).Telling? && PhaseOf(w, p).rid in w.replies && FreshRid(w, rid) {
        RetryStep(cfg, me, w, p, Some(w.replies[PhaseOf(w, p).rid]), rid);
      }
    case MissResult(p, rid) =>
      if PhaseOf(w, p).Telling? && FreshRid(w, rid) { RetryStep(cfg, me, w, p, None, rid); }
    case Crash(p) => CrashStep(cfg, me, w, p);
    case Land(client, stamp) => if client in w.gate.inFlight { LandStep(cfg, me, w, client, stamp); }
    case _ => GateOnly(cfg, me, w, e);
  }

  lemma {:induction false} PlayKeepsWorld(cfg: Config, me: string, events: seq<Event>)
    requires cfg.Valid()
    ensures WorldOk(cfg, me, Play(cfg, me, events))
  {
    hide WorldOk, Step;
    if events == [] {
      NothingYet(cfg, me);
    } else {
      PlayKeepsWorld(cfg, me, events[..|events| - 1]);
      StepKeepsWorld(cfg, me, Play(cfg, me, events[..|events| - 1]), events[|events| - 1]);
    }
  }

  lemma NothingYet(cfg: Config, me: string)
    ensures WorldOk(cfg, me, BEGIN)
  {
    hide Inv;
    StartIsOk(cfg);
  }

  // ----------------------------------------------------------------- theorems

  /** However many replicas run, crash and retry, and whatever is lost on the
      way: no ticket's action is ever sent to AWS twice. */
  lemma AtMostOneCall(cfg: Config, me: string, events: seq<Event>, i: nat, j: nat)
    requires cfg.Valid() && i < |Play(cfg, me, events).calls| && j < |Play(cfg, me, events).calls|
    requires Play(cfg, me, events).calls[i].id == Play(cfg, me, events).calls[j].id
    ensures i == j
  {
    hide Play, Inv, TrafficOk, PhaseOk, ResultOk;
    PlayKeepsWorld(cfg, me, events);
    var w := Play(cfg, me, events);
    assert CallOk(w, w.calls[i]) && CallOk(w, w.calls[j]);
  }

  /** Every call sends exactly the details the ticket was created with, and the
      ticket carries the approvals required and its EXECUTION_STARTED event. */
  lemma CallsAreApproved(cfg: Config, me: string, events: seq<Event>, i: nat)
    requires cfg.Valid() && i < |Play(cfg, me, events).calls|
    ensures var w := Play(cfg, me, events); var c := w.calls[i];
            c.id in w.gate.store.tickets && c.id in w.gate.store.events
            && var t := w.gate.store.tickets[c.id];
               c.details == t.actionDetails && t.execution.Some? && t.assignee == me
               && |t.approvals| == cfg.requiredApprovals
               && w.gate.store.events[c.id] != [] && w.gate.store.events[c.id][0].details.TicketDetails?
               && c.details == w.gate.store.events[c.id][0].details.ticket.actionDetails
               && Count(w.gate.store.events[c.id], {ExecutionStarted}) == 1
  {
    hide Play, TrafficOk, PhaseOk, ResultOk, KeysOk, LogOk, LegalHistory, FoldTicket, Count, ChainsOk, IdemOk, Fresh;
    PlayKeepsWorld(cfg, me, events);
    var w := Play(cfg, me, events);
    var c := w.calls[i];
    assert CallOk(w, c) && WonOk(me, w, c.rid);
    assert EntryOk(cfg, w.gate.store, c.id);
    CurrentTicket(cfg, w.gate.store, c.id);
    StartedOnce(cfg, w.gate.store.events[c.id]);
  }

  /** At the moment of a call its ticket is executing, and no result is recorded. */
  lemma CallWhileExecuting(cfg: Config, me: string, events: seq<Event>, p: nat, report: Request, rid: nat)
    requires cfg.Valid()
    requires Step(cfg, me, Play(cfg, me, events), CallAws(p, report, rid)).calls != Play(cfg, me, events).calls
    ensures var w := Play(cfg, me, events); var a := PhaseOf(w, p);
            a.Armed? && a.id in w.gate.store.tickets
            && w.gate.store.tickets[a.id].status == Executing && w.gate.store.tickets[a.id].actionDetails == a.details
  {
    hide Play, TrafficOk, Next, Reply, Answer, LogOk;
    PlayKeepsWorld(cfg, me, events);
    var w := Play(cfg, me, events);
    var a := PhaseOf(w, p);
    assert PhaseOk(me, w, a) && WonOk(me, w, a.rid);
    hide Inv;
    NotReportedBeforeCall(cfg, me, w, p);
    ExecutingTicket(cfg, w.gate, a.id);
  }

  lemma NotReportedBeforeCall(cfg: Config, me: string, w: World, p: nat)
    requires WorldOk(cfg, me, w) && PhaseOf(w, p).Armed?
    ensures var a := PhaseOf(w, p); a.id in w.gate.store.tickets && !Finished(w.gate.store.tickets[a.id])
  {
    hide TrafficOk, Inv, SentOk;
    var a := PhaseOf(w, p);
    assert PhaseOk(me, w, a) && WonOk(me, w, a.rid);
    TicketNamed(cfg, w.gate, a.id);
    assert ResultOk(me, w, w.gate.store.tickets[a.id]);
    forall i | 0 <= i < |w.calls| ensures w.calls[i].id != a.id { assert CallOk(w, w.calls[i]); }
  }

  lemma ExecutingTicket(cfg: Config, g: Gate, id: Id)
    requires cfg.Valid() && Inv(cfg, g) && id in g.store.tickets
    requires g.store.tickets[id].execution.Some? && !Finished(g.store.tickets[id])
    ensures g.store.tickets[id].status == Executing
  {
    InvGives(cfg, g);
    hide Inv, StoreOk;
    CurrentTicket(cfg, g.store, id);
  }

  /** A recorded result is the truth: the one call made for that ticket ended
      the way the ticket says. */
  lemma ResultsMatchCalls(cfg: Config, me: string, events: seq<Event>, id: Id)
    requires cfg.Valid() && id in Play(cfg, me, events).gate.store.tickets
    requires var t := Play(cfg, me, events).gate.store.tickets[id]; t.assignee == me && Finished(t)
    ensures var w := Play(cfg, me, events);
            exists i :: 0 <= i < |w.calls| && w.calls[i].id == id
                        && Some(w.calls[i].outcome) == w.gate.store.tickets[id].execution.value.outcome
                        && forall j :: 0 <= j < |w.calls| && w.calls[j].id == id ==> j == i
  {
    hide Play, TrafficOk, WinsOk, PhaseOk, KeysOk, Sound, LogOk;
    PlayKeepsWorld(cfg, me, events);
    var w := Play(cfg, me, events);
    var t := w.gate.store.tickets[id];
    TicketNamed(cfg, w.gate, id);
    hide Inv;
    assert ResultOk(me, w, t);
    var i :| 0 <= i < |w.calls| && w.calls[i].id == id && w.calls[i].outcome == t.execution.value.outcome.value;
    forall j | 0 <= j < |w.calls| && w.calls[j].id == id ensures j == i { AtMostOneCall(cfg, me, events, i, j); }
  }
}
