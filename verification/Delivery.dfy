/** The other side of the executor's safety: where nothing is lost and nobody gets in
    the way, an approved ticket is called once, with the details that were approved,
    and its outcome is recorded; and when every answer to the report is lost, the
    fourth attempt is the last. */
module Delivery {
  import opened Wrappers
  import opened Models
  import opened Store
  import opened Service
  import opened Legality
  import opened Protocol
  import opened Executor
  import Effects
  import Answers

  lemma Continued(cfg: Config, me: string, events: seq<Event>, e: Event)
    ensures Play(cfg, me, events + [e]) == Executor.Step(cfg, me, Play(cfg, me, events), e)
  {
    hide Executor.Step;
    assert (events + [e])[..|events|] == events;
  }

  lemma FourMore(cfg: Config, me: string, events: seq<Event>, a: Event, b: Event, c: Event, d: Event)
    ensures Play(cfg, me, events + [a, b, c, d])
            == var two := Executor.Step(cfg, me, Executor.Step(cfg, me, Play(cfg, me, events), a), b);
               Executor.Step(cfg, me, Executor.Step(cfg, me, two, c), d)
  {
    hide Executor.Step, Play;
    Continued(cfg, me, events, a);
    Continued(cfg, me, events + [a], b);
    Continued(cfg, me, events + [a] + [b], c);
    Continued(cfg, me, events + [a] + [b] + [c], d);
    assert events + [a] + [b] + [c] + [d] == events + [a, b, c, d];
  }

  /** Request `r` of world `w` was granted: its ticket is as the operation leaves it,
      and the answer, that ticket, waits to be heard. */
  ghost predicate Served(cfg: Config, w: World, r: nat, s: Stamp, v: World) {
    r in w.sent && !IsCreate(w.sent[r]) && w.sent[r].id in w.gate.store.tickets
    && var t := Effects.Outgrown(cfg, w.sent[r], s, w.gate.store.tickets[w.sent[r].id]);
       v == w.(gate := v.gate, replies := w.replies[r := Success(t)])
       && v.gate.store.tickets == w.gate.store.tickets[w.sent[r].id := t]
       && Inv(cfg, v.gate) && v.gate.inFlight == w.gate.inFlight
  }

  /** The request arrives, is granted, and is answered. */
  lemma RoundTrip(cfg: Config, me: string, w: World, r: nat, s: Stamp)
    requires cfg.Valid() && Inv(cfg, w.gate) && GoodStamp(s) && r in w.sent && r !in w.replies && r !in w.gate.inFlight
    requires (w.sent[r].Start? || w.sent[r].Report?) && w.sent[r].id in w.gate.store.tickets
    requires Effects.Grants(cfg, w.sent[r], s, w.gate.store.tickets[w.sent[r].id])
    ensures Served(cfg, w, r, s, Executor.Step(cfg, me, Executor.Step(cfg, me, w, Arrive(r)), Land(r, s)))
  {
    hide Inv, Effects.Grants, Effects.Outgrown, Next, Answer, GoodStamp, Read;
    Answers.AloneLands(cfg, w.gate, r, w.sent[r], s);
    assert w.gate.inFlight - {r} == w.gate.inFlight;
  }

  /** Up to the confirmed start. */
  function Begin(p: nat, id: Id, hash: string, session: Option<string>, r: nat, s: Stamp): seq<Event> {
    [Ask(p, id, hash, session, r), Arrive(r), Land(r, s), HearStart(p)]
  }

  /** From the call to the recorded outcome. */
  function Finish(p: nat, report: Request, r: nat, s: Stamp, next: nat): seq<Event> {
    [CallAws(p, report, r), Arrive(r), Land(r, s), HearResult(p, next)]
  }

  /** Requests of these numbers have not been heard of. */
  predicate Unused(w: World, r: nat) {
    FreshRid(w, r) && r !in w.replies
  }

  lemma AskSends(cfg: Config, me: string, w: World, p: nat, id: Id, hash: string, session: Option<string>, r: nat)
    requires PhaseOf(w, p).Idle? && FreshRid(w, r)
    ensures Executor.Step(cfg, me, w, Ask(p, id, hash, session, r))
            == w.(replicas := w.replicas[p := Asking(id, r)], sent := w.sent[r := Start(id, me, hash, session)])
  {
  }

  lemma HearArms(cfg: Config, me: string, w: World, p: nat)
    requires PhaseOf(w, p).Asking? && PhaseOf(w, p).rid in w.replies && w.replies[PhaseOf(w, p).rid].Success?
    ensures var a := PhaseOf(w, p);
            Executor.Step(cfg, me, w, HearStart(p))
            == w.(replicas := w.replicas[p := Armed(a.id, a.rid, w.replies[a.rid].value.actionDetails)])
  {
  }

  lemma CallSends(cfg: Config, me: string, w: World, p: nat, report: Request, r: nat)
    requires PhaseOf(w, p).Armed? && FreshRid(w, r) && report.Report? && report.id == PhaseOf(w, p).id && report.principal == me
    ensures var a := PhaseOf(w, p);
            Executor.Step(cfg, me, w, CallAws(p, report, r))
            == w.(calls := w.calls + [Call(a.id, a.rid, a.details, report.outcome)],
                  replicas := w.replicas[p := Telling(report, 1, r)], sent := w.sent[r := report])
  {
  }

  lemma HearSettles(cfg: Config, me: string, w: World, p: nat, next: nat)
    requires PhaseOf(w, p).Telling? && FreshRid(w, next)
    requires PhaseOf(w, p).rid in w.replies && w.replies[PhaseOf(w, p).rid].Success?
    ensures Executor.Step(cfg, me, w, HearResult(p, next)) == w.(replicas := w.replicas[p := Idle])
  {
  }

  /** An attempt whose answer is lost is repeated, up to the fourth. */
  lemma MissRepeats(cfg: Config, me: string, w: World, p: nat, next: nat)
    requires PhaseOf(w, p).Telling? && FreshRid(w, next)
    ensures var t := PhaseOf(w, p);
            Executor.Step(cfg, me, w, MissResult(p, next))
            == if t.attempt < 4
               then w.(replicas := w.replicas[p := Telling(t.report, t.attempt + 1, next)], sent := w.sent[next := t.report])
               else w.(replicas := w.replicas[p := Idle])
  {
  }

  /** The ticket's start is confirmed to replica `p`, and nothing else is different but
      that request `r` was sent and answered. */
  ghost predicate Ready(w: World, v: World, p: nat, id: Id, r: nat, s: Stamp) {
    id in w.gate.store.tickets
    && var t := w.gate.store.tickets[id];
       v.calls == w.calls && PhaseOf(v, p) == Armed(id, r, t.actionDetails)
       && id in v.gate.store.tickets
       && v.gate.store.tickets[id]
          == t.(status := Executing, version := t.version + 1,
                execution := Some(Execution(s.later, None, None, None, [], [])))
       && v.sent.Keys == w.sent.Keys + {r} && v.replies.Keys == w.replies.Keys + {r} && v.gate.inFlight == w.gate.inFlight
  }

  lemma StartSteps(cfg: Config, me: string, w: World, p: nat, id: Id, session: Option<string>, r: nat, s: Stamp)
    requires cfg.Valid() && GoodStamp(s) && Inv(cfg, w.gate) && Unused(w, r) && PhaseOf(w, p).Idle?
    requires id in w.gate.store.tickets
    requires w.gate.store.tickets[id].status == Approved && w.gate.store.tickets[id].assignee == me
    ensures var hash := w.gate.store.tickets[id].actionDetails.parametersHash;
            var asked := Executor.Step(cfg, me, w, Ask(p, id, hash, session, r));
            var served := Executor.Step(cfg, me, Executor.Step(cfg, me, asked, Arrive(r)), Land(r, s));
            Ready(w, Executor.Step(cfg, me, served, HearStart(p)), p, id, r, s)
  {
    hide Inv, GoodStamp, Executor.Step;
    var hash := w.gate.store.tickets[id].actionDetails.parametersHash;
    AskSends(cfg, me, w, p, id, hash, session, r);
    var asked := Executor.Step(cfg, me, w, Ask(p, id, hash, session, r));
    RoundTrip(cfg, me, asked, r, s);
    HearArms(cfg, me, Executor.Step(cfg, me, Executor.Step(cfg, me, asked, Arrive(r)), Land(r, s)), p);
  }

  lemma Started(cfg: Config, me: string, events: seq<Event>, p: nat, id: Id, session: Option<string>, r: nat, s: Stamp)
    requires cfg.Valid() && GoodStamp(s) && Unused(Play(cfg, me, events), r) && PhaseOf(Play(cfg, me, events), p).Idle?
    requires id in Play(cfg, me, events).gate.store.tickets
    requires var t := Play(cfg, me, events).gate.store.tickets[id]; t.status == Approved && t.assignee == me
    ensures var w := Play(cfg, me, events); var hash := w.gate.store.tickets[id].actionDetails.parametersHash;
            Ready(w, Play(cfg, me, events + Begin(p, id, hash, session, r, s)), p, id, r, s)
  {
    hide Play, Inv, GoodStamp, WorldOk, Executor.Step, Ready;
    PlayKeepsWorld(cfg, me, events);
    var w := Play(cfg, me, events);
    WorldHasInv(cfg, me, w);
    var hash := w.gate.store.tickets[id].actionDetails.parametersHash;
    FourMore(cfg, me, events, Ask(p, id, hash, session, r), Arrive(r), Land(r, s), HearStart(p));
    StartSteps(cfg, me, w, p, id, session, r, s);
  }

  lemma WorldHasInv(cfg: Config, me: string, w: World)
    requires WorldOk(cfg, me, w)
    ensures Inv(cfg, w.gate)
  {
  }

  lemma Reported(cfg: Config, me: string, events: seq<Event>, p: nat, report: Request, r: nat, s: Stamp, next: nat)
    requires cfg.Valid() && GoodStamp(s) && report.Report? && report.principal == me
    requires var w := Play(cfg, me, events);
             Unused(w, r) && FreshRid(w, next) && next != r && PhaseOf(w, p).Armed? && PhaseOf(w, p).id == report.id
             && report.id in w.gate.store.tickets
             && var t := w.gate.store.tickets[report.id]; t.status == Executing && t.assignee == me && t.execution.Some?
    ensures var w := Play(cfg, me, events); var t := w.gate.store.tickets[report.id];
            var v := Play(cfg, me, events + Finish(p, report, r, s, next));
            v.calls == w.calls + [Call(report.id, PhaseOf(w, p).rid, PhaseOf(w, p).details, report.outcome)]
            && PhaseOf(v, p).Idle? && report.id in v.gate.store.tickets
            && v.gate.store.tickets[report.id]
               == t.(status := if report.outcome == Succeeded then Closed else Failed, version := t.version + 1,
                     execution := Some(Execution(t.execution.value.startedAt, Some(s.later), Some(report.outcome),
                                                 report.message, report.awsRequestIds, report.createdResources)))
  {
    hide Play, Inv, GoodStamp, WorldOk, Executor.Step;
    PlayKeepsWorld(cfg, me, events);
    var w := Play(cfg, me, events);
    WorldHasInv(cfg, me, w);
    FourMore(cfg, me, events, CallAws(p, report, r), Arrive(r), Land(r, s), HearResult(p, next));
    CallSends(cfg, me, w, p, report, r);
    var called := Executor.Step(cfg, me, w, CallAws(p, report, r));
    RoundTrip(cfg, me, called, r, s);
    HearSettles(cfg, me, Executor.Step(cfg, me, Executor.Step(cfg, me, called, Arrive(r)), Land(r, s)), p, next);
  }

  /** From any world: an idle replica takes an approved ticket of its own through
      exactly one call, with the approved details, to the recorded outcome. */
  lemma ApprovedIsExecuted(cfg: Config, me: string, events: seq<Event>, p: nat, session: Option<string>, report: Request,
                           q: nat, r: nat, next: nat, s: Stamp, u: Stamp)
    requires cfg.Valid() && GoodStamp(s) && GoodStamp(u) && report.Report? && report.principal == me
    requires var w := Play(cfg, me, events);
             Unused(w, q) && Unused(w, r) && Unused(w, next) && q != r && q != next && r != next && PhaseOf(w, p).Idle?
             && report.id in w.gate.store.tickets
             && w.gate.store.tickets[report.id].status == Approved && w.gate.store.tickets[report.id].assignee == me
    ensures var w := Play(cfg, me, events); var id := report.id; var t := w.gate.store.tickets[id];
            var v := Play(cfg, me, events + Begin(p, id, t.actionDetails.parametersHash, session, q, s)
                                          + Finish(p, report, r, u, next));
            v.calls == w.calls + [Call(id, q, t.actionDetails, report.outcome)] && PhaseOf(v, p).Idle?
            && id in v.gate.store.tickets
            && v.gate.store.tickets[id]
               == t.(status := if report.outcome == Succeeded then Closed else Failed, version := t.version + 2,
                     execution := Some(Execution(s.later, Some(u.later), Some(report.outcome),
                                                 report.message, report.awsRequestIds, report.createdResources)))
  {
    hide Play, PhaseOf;
    var t := Play(cfg, me, events).gate.store.tickets[report.id];
    Started(cfg, me, events, p, report.id, session, q, s);
    var armed := events + Begin(p, report.id, t.actionDetails.parametersHash, session, q, s);
    Reported(cfg, me, armed, p, report, r, u, next);
  }

  /** When no answer to a report is ever heard, it is sent four times in all, and then
      the replica turns to other tickets. */
  lemma FourReportsAtMost(cfg: Config, me: string, events: seq<Event>, p: nat, r: seq<nat>)
    requires PhaseOf(Play(cfg, me, events), p).Telling? && PhaseOf(Play(cfg, me, events), p).attempt == 1
    requires |r| == 4 && forall i :: 0 <= i < 4 ==> FreshRid(Play(cfg, me, events), r[i])
    requires forall i, j :: 0 <= i < j < 4 ==> r[i] != r[j]
    ensures var w := Play(cfg, me, events); var report := PhaseOf(w, p).report;
            var lost := [MissResult(p, r[0]), MissResult(p, r[1]), MissResult(p, r[2]), MissResult(p, r[3])];
            var v := Play(cfg, me, events + lost);
            v.sent == w.sent[r[0] := report][r[1] := report][r[2] := report] && PhaseOf(v, p).Idle? && v.calls == w.calls
  {
    hide Play, Executor.Step;
    FourMore(cfg, me, events, MissResult(p, r[0]), MissResult(p, r[1]), MissResult(p, r[2]), MissResult(p, r[3]));
    var w := Play(cfg, me, events);
    MissRepeats(cfg, me, w, p, r[0]);
    var two := Executor.Step(cfg, me, w, MissResult(p, r[0]));
    MissRepeats(cfg, me, two, p, r[1]);
    var three := Executor.Step(cfg, me, two, MissResult(p, r[1]));
    MissRepeats(cfg, me, three, p, r[2]);
    MissRepeats(cfg, me, Executor.Step(cfg, me, three, MissResult(p, r[2])), p, r[3]);
  }
}
