/** What an operation answers when nobody comes between its read and its write, in
    the ticket's own fields and for every error by name. Of an undisturbed call
    neither the status machine nor the compare-and-swap is ever the one to refuse. */
module Answers {
  import opened Wrappers
  import opened Models
  import opened Fold
  import opened Store
  import opened Service
  import opened Legality
  import opened StoreInvariants
  import opened Protocol
  import opened Json
  import opened Effects

  // ------------------------------------------------------------- the errors

  /** Why a ticket as asked for cannot be built. */
  predicate Unbuildable(cfg: Config, p: Payload, id: Id, proposer: string, err: Error) {
    match err
    case InvalidParameters => !cfg.accepted(p.service, p.operation, Object(p.parameters))
    case Malformed => cfg.accepted(p.service, p.operation, Object(p.parameters)) && !Buildable(cfg, p, id, proposer)
    case _ => false
  }

  predicate Superseded(t: Ticket) {
    t.supersededBy.Some? && t.supersededBy != Some("")
  }

  /** Why an operation is refused that has read ticket `t`. */
  predicate RefusedOn(cfg: Config, req: Request, s: Stamp, t: Ticket, err: Error)
    requires !IsCreate(req)
  {
    match err
    case NotAssignee => (req.Start? || req.Report?) && t.assignee != req.principal
    case InvalidState =>
      (match req
       case Start(_, principal, _, _) => t.assignee == principal && t.status != Approved
       case Report(_, principal, _, _, _, _, _) => t.assignee == principal && t.status != Executing
       case Approve(_, _) => t.status != Pending
       case Reject(_, _, _) => t.status != Pending
       case Supersede(_, _, _) => !Superseded(t) && t.status !in {Pending, Approved, Failed, Closed}
       case Close(_, _, _) => t.status !in {Pending, Approved}
       case _ => false)
    case HashMismatch =>
      req.Start? && t.assignee == req.principal && t.status == Approved
      && req.echoedHash != t.actionDetails.parametersHash
    case ApproverIsProposer =>
      (req.Approve? || req.Reject?) && t.status == Pending && !Superseded(t)
      && !cfg.allowSelfApproval && cfg.lower(t.proposedBy) == cfg.lower(req.email)
    case DuplicateApprover =>
      req.Approve? && t.status == Pending && !Superseded(t)
      && (cfg.allowSelfApproval || cfg.lower(t.proposedBy) != cfg.lower(req.email)) && !NewApprover(cfg, t, req.email)
    case AlreadySuperseded =>
      (req.Supersede? || req.UpdateTags? || ((req.Approve? || req.Reject?) && t.status == Pending)) && Superseded(t)
    case _ =>
      req.Supersede? && !Superseded(t) && t.status in {Pending, Approved, Failed, Closed}
      && Unbuildable(cfg, req.payload, s.ticketId, req.email, err)
  }

  /** Why an undisturbed operation is refused. */
  predicate Refused(cfg: Config, req: Request, s: Stamp, st: State, err: Error) {
    if IsCreate(req) then
      (KeyOf(req).Some? ==> KeyOf(req).value !in st.byIdem)
      && if Buildable(cfg, req.payload, s.ticketId, Proposer(req))
         then err == Duplicate && s.ticketId in st.tickets
         else Unbuildable(cfg, req.payload, s.ticketId, Proposer(req), err)
    else if req.Expire? then false
    else if req.id !in st.tickets then err == NotFound
    else
      RefusedOn(cfg, req, s, st.tickets[req.id], err)
      || (req.Supersede? && Grants(cfg, req, s, st.tickets[req.id])
          && Buildable(cfg, req.payload, s.ticketId, req.email) && err == Duplicate && s.ticketId in st.tickets)
  }

  lemma BuildRefused(cfg: Config, p: Payload, assignee: string, proposer: string, key: Option<string>,
                     before: Option<Ticket>, session: Option<string>, s: Stamp, err: Error)
    ensures BuildTicket(cfg, p, assignee, proposer, key, before, session, s) == Failure(err)
            <==> Unbuildable(cfg, p, s.ticketId, proposer, err)
  {
    hide GateTags.WithGateTags;
    BuildIff(cfg, p, assignee, proposer, key, before, session, s);
  }

  lemma ExecutorRefused(cfg: Config, req: Request, t: Ticket, s: Stamp, err: Error)
    requires (req.Start? || req.Report?)
    ensures DecideOn(cfg, req, t, s) == Failure(err) <==> RefusedOn(cfg, req, s, t, err)
  {
    hide NewApprover;
  }

  lemma ApproverRefused(cfg: Config, req: Request, t: Ticket, s: Stamp, err: Error)
    requires (req.Approve? || req.Reject?)
    ensures DecideOn(cfg, req, t, s) == Failure(err) <==> RefusedOn(cfg, req, s, t, err)
  {
    hide HasApproved, NewApprover;
    HasApprovedMeans(cfg, t, req.email);
  }

  lemma UserRefused(cfg: Config, req: Request, t: Ticket, s: Stamp, err: Error)
    requires (req.Close? || req.Comment? || req.UpdateTags?)
    ensures DecideOn(cfg, req, t, s) == Failure(err) <==> RefusedOn(cfg, req, s, t, err)
  {
    hide NewApprover;
  }

  lemma SupersedeRefused(cfg: Config, req: Request, t: Ticket, s: Stamp, err: Error)
    requires req.Supersede?
    ensures DecideOn(cfg, req, t, s) == Failure(err) <==> RefusedOn(cfg, req, s, t, err)
  {
    hide BuildTicket, Unbuildable, NewApprover;
    BuildRefused(cfg, req.payload, t.assignee, req.email, None, Some(t), None, s, err);
    UnbuildableOnly(cfg, req.payload, s.ticketId, req.email, err);
  }

  /** From whatever snapshot an operation has read, reachable or not: it refuses with
      an error if and only if that error's condition holds of the snapshot. */
  lemma RefusedIff(cfg: Config, req: Request, t: Ticket, s: Stamp, err: Error)
    requires !IsCreate(req) && !req.Expire?
    ensures Decide(cfg, req, Some(t), s) == Failure(err) <==> RefusedOn(cfg, req, s, t, err)
  {
    hide DecideOn, RefusedOn;
    if req.Start? || req.Report? {
      ExecutorRefused(cfg, req, t, s, err);
    } else if req.Approve? || req.Reject? {
      ApproverRefused(cfg, req, t, s, err);
    } else if req.Supersede? {
      SupersedeRefused(cfg, req, t, s, err);
    } else {
      UserRefused(cfg, req, t, s, err);
    }
  }

  lemma UnbuildableOnly(cfg: Config, p: Payload, id: Id, proposer: string, err: Error)
    ensures Unbuildable(cfg, p, id, proposer, err) ==> err in {InvalidParameters, Malformed} && !Buildable(cfg, p, id, proposer)
  {
  }

  // --------------------------------------------------- undisturbed, in any run

  lemma AloneOnTicket(cfg: Config, g: Gate, client: nat, req: Request, stamp: Stamp, err: Error)
    requires cfg.Valid() && GoodStamp(stamp) && !IsCreate(req) && !req.Supersede? && !req.Expire?
    requires req.id in g.store.tickets ==>
               req.id in g.store.events && g.store.tickets[req.id].ticketId == req.id && TicketOk(cfg, g.store.tickets[req.id])
    ensures Answer(cfg, Next(cfg, g, ReadStep(client, req)), client, stamp) == Failure(err)
            <==> Refused(cfg, req, stamp, g.store, err)
  {
    hide Answer, Next, DecideOn, Outgrown, TicketOk, Comes, RefusedOn, Unbuildable;
    AnswerAlone(cfg, g, client, req, stamp);
    if req.id in g.store.tickets {
      var t := g.store.tickets[req.id];
      RefusedIff(cfg, req, t, stamp, err);
      if DecideOn(cfg, req, t, stamp).Success? {
        OneTicket(cfg, req, t, stamp);
        ComesTo(cfg, req, t, stamp);
      }
    }
  }

  lemma AloneSupersede(cfg: Config, g: Gate, client: nat, req: Request, stamp: Stamp, err: Error)
    requires cfg.Valid() && GoodStamp(stamp) && req.Supersede?
    requires req.id in g.store.tickets ==>
               req.id in g.store.events && g.store.tickets[req.id].ticketId == req.id && TicketOk(cfg, g.store.tickets[req.id])
    ensures Answer(cfg, Next(cfg, g, ReadStep(client, req)), client, stamp) == Failure(err)
            <==> Refused(cfg, req, stamp, g.store, err)
  {
    hide Answer, Next, DecideOn, Outgrown, TicketOk, RefusedOn, Unbuildable, Buildable, Grants;
    AnswerAlone(cfg, g, client, req, stamp);
    if req.id in g.store.tickets {
      var t := g.store.tickets[req.id];
      SupersedeRefused(cfg, req, t, stamp, err);
      SupersedeIff(cfg, req, t, stamp);
      NeverBoth(cfg, req, t, stamp, err);
      if DecideOn(cfg, req, t, stamp).Success? { SupersedeComesTo(cfg, req, t, stamp); }
    }
  }

  lemma NeverBoth(cfg: Config, req: Request, t: Ticket, s: Stamp, err: Error)
    requires req.Supersede?
    ensures RefusedOn(cfg, req, s, t, err) ==> !(Grants(cfg, req, s, t) && Buildable(cfg, req.payload, s.ticketId, req.email))
  {
    hide Buildable;
    UnbuildableOnly(cfg, req.payload, s.ticketId, req.email, err);
  }

  lemma AloneCreate(cfg: Config, g: Gate, client: nat, req: Request, stamp: Stamp, err: Error)
    requires cfg.Valid() && GoodStamp(stamp) && IsCreate(req)
    requires KeyOf(req).Some? && KeyOf(req).value in g.store.byIdem <==> Read(g.store, req).Some?
    ensures Answer(cfg, Next(cfg, g, ReadStep(client, req)), client, stamp) == Failure(err)
            <==> Refused(cfg, req, stamp, g.store, err)
  {
    hide Answer, Next, BuildTicket, Buildable, Unbuildable, Read, Coherent;
    AnswerAlone(cfg, g, client, req, stamp);
    var assignee := if req.AgentCreate? then req.principal else req.executor;
    var session := if req.AgentCreate? then req.session else None;
    BuildRefused(cfg, req.payload, assignee, Proposer(req), req.key, None, session, stamp, err);
    BuildIff(cfg, req.payload, assignee, Proposer(req), req.key, None, session, stamp);
    UnbuildableOnly(cfg, req.payload, stamp.ticketId, Proposer(req), err);
    if Buildable(cfg, req.payload, stamp.ticketId, Proposer(req)) {
      BuiltFor(cfg, req.payload, assignee, Proposer(req), req.key, None, session, stamp);
    }
  }

  /** In any run, with nobody in between: an operation is refused with an error if
      and only if that error's own condition holds. */
  lemma UndisturbedErrors(cfg: Config, steps: seq<Step>, client: nat, req: Request, stamp: Stamp, err: Error)
    requires cfg.Valid() && GoodStamp(stamp)
    ensures var g := Run(cfg, steps + [ReadStep(client, req)]);
            Answer(cfg, g, client, stamp) == Failure(err) <==> Refused(cfg, req, stamp, g.store, err)
  {
    hide Run, Inv, Decide, DecideOn, Do, TicketOk, Answer, GoodStamp, Buildable, Refused;
    RunKeepsInv(cfg, steps);
    var before := Run(cfg, steps);
    ReadLast(cfg, steps, client, req);
    if IsCreate(req) {
      KeyFacts(cfg, before, req);
      AloneCreate(cfg, before, client, req, stamp, err);
    } else {
      if req.id in before.store.tickets { TicketFacts(cfg, before, req.id); }
      if req.Supersede? {
        AloneSupersede(cfg, before, client, req, stamp, err);
      } else if req.Expire? {
        AloneExpiry(cfg, before, client, req, stamp, err);
      } else {
        AloneOnTicket(cfg, before, client, req, stamp, err);
      }
    }
  }

  lemma AloneExpiry(cfg: Config, g: Gate, client: nat, req: Request, stamp: Stamp, err: Error)
    requires cfg.Valid() && GoodStamp(stamp) && req.Expire?
    requires req.id in g.store.tickets ==> req.id in g.store.events && g.store.tickets[req.id].ticketId == req.id
    ensures Answer(cfg, Next(cfg, g, ReadStep(client, req)), client, stamp) != Failure(err)
    ensures !Refused(cfg, req, stamp, g.store, err)
  {
    hide Answer, Next, Outgrown, Stale, ExpiredEvent, Grants;
    AnswerAlone(cfg, g, client, req, stamp);
    if req.id in g.store.tickets { OneExpiry(cfg, req, g.store.tickets[req.id], stamp); }
  }

  /** The compare-and-swap and the status machine never refuse an undisturbed call. */
  lemma UndisturbedNeverConflicts(cfg: Config, steps: seq<Step>, client: nat, req: Request, stamp: Stamp)
    requires cfg.Valid() && GoodStamp(stamp)
    ensures var a := Answer(cfg, Run(cfg, steps + [ReadStep(client, req)]), client, stamp);
            a.Success? || a.error !in {Conflict, TransitionRefused}
  {
    hide Run, Answer, GoodStamp, Buildable;
    var g := Run(cfg, steps + [ReadStep(client, req)]);
    UndisturbedErrors(cfg, steps, client, req, stamp, Conflict);
    UndisturbedErrors(cfg, steps, client, req, stamp, TransitionRefused);
  }

  /** In any run, whatever came in between: what was decided from a snapshot that is no
      longer the ticket is answered with a conflict. */
  lemma OutdatedConflicts(cfg: Config, steps: seq<Step>, client: nat, stamp: Stamp)
    requires cfg.Valid() && GoodStamp(stamp) && client in Run(cfg, steps).inFlight
    requires var f := Run(cfg, steps).inFlight[client];
             !IsCreate(f.req) && f.snapshot.Some?
             && (f.req.id in Run(cfg, steps).store.tickets ==> Run(cfg, steps).store.tickets[f.req.id] != f.snapshot.value)
             && Decide(cfg, f.req, f.snapshot, stamp).Success? && Decide(cfg, f.req, f.snapshot, stamp).value.Perform?
    ensures Answer(cfg, Run(cfg, steps), client, stamp) == Failure(Conflict)
  {
    hide Run, Sound, LogOk, Decide, Historic, ApplyEvent, LegalWrite, GoodStamp;
    RunKeepsInv(cfg, steps);
    var g := Run(cfg, steps);
    var f := g.inFlight[client];
    var w := Decide(cfg, f.req, f.snapshot, stamp).value.write;
    assert SnapshotOk(g.store, f);
    DecisionIsLegal(cfg, f.req, f.snapshot, stamp);
    Expected(cfg, f.req, f.snapshot, stamp, w);
    SnapshotIsOld(cfg, g.store, g.chains, f.snapshot.value);
  }

  lemma Expected(cfg: Config, req: Request, snap: Option<Ticket>, s: Stamp, w: Write)
    requires !IsCreate(req) && Decide(cfg, req, snap, s) == Success(Perform(w)) && LegalWrite(cfg, snap, w) && snap.Some?
    ensures Target(w) == Some(snap.value.ticketId)
    ensures w.Append? ==> w.expected == snap.value.version
    ensures w.Supersede? ==> w.expected == snap.value.version
  {
    hide Legal, LegalCreation;
    NotACreate(cfg, req, snap, s, w);
  }

  lemma SnapshotIsOld(cfg: Config, st: State, chains: map<Id, seq<Id>>, t: Ticket)
    requires cfg.Valid() && Sound(cfg, st, chains) && Historic(st, t)
    ensures t.ticketId in st.tickets && (st.tickets[t.ticketId].version == t.version ==> st.tickets[t.ticketId] == t)
  {
    hide ChainsOk, IdemOk, LegalHistory, FoldTicket;
    assert EntryOk(cfg, st, t.ticketId);
    if st.tickets[t.ticketId].version == t.version { EqualVersionMeansCurrent(cfg, st, t); }
  }

  // ------------------------------------------------------------- the effect

  /** A call that is granted and not disturbed lands, and does what it says. */
  lemma AloneLands(cfg: Config, g: Gate, client: nat, req: Request, stamp: Stamp)
    requires cfg.Valid() && Inv(cfg, g) && GoodStamp(stamp) && !IsCreate(req) && !req.Supersede? && !req.Expire?
    requires req.id in g.store.tickets && Grants(cfg, req, stamp, g.store.tickets[req.id])
    ensures var read := Next(cfg, g, ReadStep(client, req)); var after := Next(cfg, read, WriteStep(client, stamp));
            Answer(cfg, read, client, stamp).Success? && Answer(cfg, read, client, stamp).value.Perform?
            && after.store.tickets == g.store.tickets[req.id := Outgrown(cfg, req, stamp, g.store.tickets[req.id])]
            && Inv(cfg, read) && Inv(cfg, after)
            && read.store == g.store && read.inFlight == g.inFlight[client := InFlight(req, Read(g.store, req))]
            && after.inFlight == g.inFlight - {client}
  {
    hide Inv, Grants, Outgrown, TicketOk, Comes, DecideOn, ApplyEvent, Answer, GoodStamp;
    var t := g.store.tickets[req.id];
    TicketFacts(cfg, g, req.id);
    OneGrant(cfg, req, t, stamp);
    OneTicket(cfg, req, t, stamp);
    ComesTo(cfg, req, t, stamp);
    AnswerAlone(cfg, g, client, req, stamp);
    var read := Next(cfg, g, ReadStep(client, req));
    NextKeepsInv(cfg, g, ReadStep(client, req));
    NextKeepsInv(cfg, read, WriteStep(client, stamp));
    Appended(cfg, req, t, stamp);
    assert g.inFlight[client := InFlight(req, Read(g.store, req))] - {client} == g.inFlight - {client};
  }

  lemma Appended(cfg: Config, req: Request, t: Ticket, s: Stamp)
    requires !IsCreate(req) && !req.Supersede? && !req.Expire? && DecideOn(cfg, req, t, s).Success? && Comes(cfg, req, t, s)
    ensures ApplyEvent(t, DecideOn(cfg, req, t, s).value.write.event) == Success(Outgrown(cfg, req, s, t))
  {
    hide DecideOn, ApplyEvent, Outgrown, Recorded;
  }

  // ------------------------------------------------------------ approving

  /** An undisturbed approval, spelled out: it lands if and only if the ticket waits
      for approval and is not superseded, the caller may decide on it, and none of
      its approvals is the caller's, up to case. */
  lemma ApproveLandsIff(cfg: Config, steps: seq<Step>, client: nat, id: Id, email: string, stamp: Stamp)
    requires cfg.Valid() && GoodStamp(stamp)
    ensures var g := Run(cfg, steps + [ReadStep(client, Approve(id, email))]); var d := Answer(cfg, g, client, stamp);
            d.Success? && d.value.Perform?
            <==> id in g.store.tickets
                 && var t := g.store.tickets[id];
                    t.status == Pending && t.supersededBy.None?
                    && (cfg.allowSelfApproval || cfg.lower(t.proposedBy) != cfg.lower(email))
                    && forall i :: 0 <= i < |t.approvals| ==> cfg.lower(t.approvals[i].approvedBy) != cfg.lower(email)
  {
    hide Run, Answer, GoodStamp;
    UndisturbedIsDecided(cfg, steps, client, Approve(id, email), stamp);
  }

  /** An undisturbed expiry, spelled out: it lands if and only if the ticket has been
      pending for the TTL or longer, or approved with every approval that old. */
  lemma ExpireLandsIff(cfg: Config, steps: seq<Step>, client: nat, id: Id, stamp: Stamp)
    requires cfg.Valid() && GoodStamp(stamp)
    ensures var g := Run(cfg, steps + [ReadStep(client, Expire(id))]); var d := Answer(cfg, g, client, stamp);
            d.Success? && d.value.Perform?
            <==> id in g.store.tickets
                 && var t := g.store.tickets[id];
                    (t.status == Pending && stamp.now - t.ticketDate >= cfg.ttl)
                    || (t.status == Approved && forall a :: a in t.approvals ==> stamp.now - a.approvedAt >= cfg.ttl)
  {
    hide Run, Answer, GoodStamp;
    var req := Expire(id);
    UndisturbedIsDecided(cfg, steps, client, req, stamp);
    ReadLast(cfg, steps, client, req);
    var g := Run(cfg, steps + [ReadStep(client, req)]);
    if id in g.store.tickets { DueMeans(cfg, steps, id, stamp.now); }
  }

  /** In a reachable store an approved ticket has approvals, so that its creation
      date never counts. */
  lemma DueMeans(cfg: Config, steps: seq<Step>, id: Id, now: int)
    requires cfg.Valid() && id in Run(cfg, steps).store.tickets
    ensures var t := Run(cfg, steps).store.tickets[id];
            Overdue(cfg, t, now)
            <==> (t.status == Pending && now - t.ticketDate >= cfg.ttl)
                 || (t.status == Approved && forall a :: a in t.approvals ==> now - a.approvedAt >= cfg.ttl)
  {
    hide Run, OutcomeOk, LinkOk, GateTagged;
    RunKeepsInv(cfg, steps);
    TicketFacts(cfg, Run(cfg, steps), id);
  }

  // ------------------------------------------------------- two different people

  lemma RunTwo(cfg: Config, steps: seq<Step>, e: Step, f: Step)
    ensures Run(cfg, steps + [e, f]) == Next(cfg, Next(cfg, Run(cfg, steps), e), f)
  {
    hide Next;
    assert (steps + [e, f])[..|steps| + 1] == steps + [e] && (steps + [e])[..|steps|] == steps;
  }

  /** Where two approvals are required: in any run, a new ticket that two different
      people approve, neither of them its proposer, is APPROVED with their approvals. */
  lemma TwoPeopleApprove(cfg: Config, steps: seq<Step>, client: nat, id: Id, a: string, b: string, s: Stamp, u: Stamp)
    requires cfg.Valid() && cfg.requiredApprovals == 2 && GoodStamp(s) && GoodStamp(u) && cfg.lower(a) != cfg.lower(b)
    requires id in Run(cfg, steps).store.tickets
    requires var t := Run(cfg, steps).store.tickets[id];
             t.status == Pending && t.approvals == []
             && cfg.lower(t.proposedBy) != cfg.lower(a) && cfg.lower(t.proposedBy) != cfg.lower(b)
    ensures var t := Run(cfg, steps).store.tickets[id];
            var both := steps + [ReadStep(client, Approve(id, a)), WriteStep(client, s)]
                              + [ReadStep(client, Approve(id, b)), WriteStep(client, u)];
            id in Run(cfg, both).store.tickets
            && Run(cfg, both).store.tickets[id]
               == t.(status := Approved, approvals := [Approval(a, s.now), Approval(b, u.now)], version := t.version + 2)
  {
    hide Run, Next, Inv, GoodStamp;
    RunKeepsInv(cfg, steps);
    var g := Run(cfg, steps);
    TicketFacts(cfg, g, id);
    RunTwo(cfg, steps, ReadStep(client, Approve(id, a)), WriteStep(client, s));
    AloneLands(cfg, g, client, Approve(id, a), s);
    var once := steps + [ReadStep(client, Approve(id, a)), WriteStep(client, s)];
    RunTwo(cfg, once, ReadStep(client, Approve(id, b)), WriteStep(client, u));
    AloneLands(cfg, Run(cfg, once), client, Approve(id, b), u);
  }
}
