/** What a supersede that takes over the old ticket's parameters makes of the old
    ticket's tags. The new ticket's own tags are merged in, but a tag the old
    ticket was created with, and the new one does not set, stays on the resources:
    the new ticket does not list it, and yet the approved call creates it. */
module SupersededTags {
  import opened Wrappers
  import opened Models
  import opened Store
  import opened Service
  import opened Legality
  import opened Protocol
  import opened Json
  import opened GateTags
  import opened TwoMerges
  import CanonicalJson
  import Effects
  import Guarantees

  /** The new ticket was asked for with the parameters of the old one. */
  predicate TakesOver(p: Payload, prior: Ticket) {
    p.service == prior.actionDetails.service && p.operation == prior.actionDetails.operation
    && Object(p.parameters) == prior.actionDetails.parameters
  }

  /** The operation creates resources the gate tags. */
  predicate CreatesTagged(cfg: Config, a: ActionDetails) {
    a.service == "ec2" && ResourceTypes(a.operation) != [] && cfg.taggable(a.service, a.operation)
  }

  /** A tag of the old ticket that the new one does not set is left over. */
  lemma OldTagStays(cfg: Config, prior: Ticket, requested: seq<Field>, p: Payload, t: Ticket, k: string)
    requires Merged(cfg, prior, requested) && TakesOver(p, prior) && Merged(cfg, t, p.parameters)
    requires t.actionDetails.service == p.service && t.actionDetails.operation == p.operation
    requires CreatesTagged(cfg, prior.actionDetails) && t.tags != map[]
    requires k in prior.tags && k !in t.tags
    ensures Carries(t.actionDetails.parameters.fields, ResourceTypes(p.operation), GateTag(k, prior.tags[k]))
  {
    hide WithGateTags, Carries, ResourceTypes, GateTag;
    LeftOverTagStays(p.service, p.operation, requested, prior.tags, t.tags, cfg.taggable(p.service, p.operation), k);
  }

  /** In any run: when a supersede lands that takes over the parameters of the
      ticket it replaces, every tag that ticket was created with and the new one
      does not set is still put on every resource of the new ticket's call. */
  lemma SupersedeKeepsOldTags(cfg: Config, steps: seq<Step>, client: nat, stamp: Stamp, k: string)
    requires cfg.Valid()
    requires Answer(cfg, Run(cfg, steps), client, stamp).Success?
    requires Answer(cfg, Run(cfg, steps), client, stamp).value.Perform?
    requires var req := Run(cfg, steps).inFlight[client].req; var st := Run(cfg, steps).store;
             req.Supersede? && req.id in st.tickets && TakesOver(req.payload, st.tickets[req.id])
             && CreatesTagged(cfg, st.tickets[req.id].actionDetails)
             && k in CreationTags(st, req.id) && k !in OwnTags(req.payload.tags, stamp.ticketId, req.email)
    ensures var g := Run(cfg, steps); var req := g.inFlight[client].req;
            var after := Next(cfg, g, WriteStep(client, stamp)).store;
            stamp.ticketId in after.tickets && k !in after.tickets[stamp.ticketId].tags
            && after.tickets[stamp.ticketId].actionDetails.parameters.Object?
            && Carries(after.tickets[stamp.ticketId].actionDetails.parameters.fields, ResourceTypes(req.payload.operation),
                       GateTag(k, CreationTags(g.store, req.id)[k]))
  {
    assert client in Run(cfg, steps).inFlight;
    hide Run, Next, Answer, Merged, Carries, ResourceTypes, GateTag, GateTagged, TakesOver, CreatesTagged, SameFrozen, OwnTags,
         Effects.Outcome, Effects.Grants, Effects.Outgrown, Effects.Born, CanonicalJson.Canonical;
    Effects.RequestsDoWhatTheySay(cfg, steps, client, stamp);
    var g := Run(cfg, steps);
    var req := g.inFlight[client].req;
    var t := Next(cfg, g, WriteStep(client, stamp)).store.tickets[stamp.ticketId];
    BornFacts(cfg, req, g.store.tickets[req.id], stamp, t);
    hide Next;
    Guarantees.ApprovedActionIsFixed(cfg, steps, req.id);
    var prior := g.store.events[req.id][0].details.ticket;
    var requested :| Merged(cfg, prior, requested);
    SameAction(prior, g.store.tickets[req.id], req.payload, cfg);
    OldTagStays(cfg, prior, requested, req.payload, t, k);
  }

  lemma BornFacts(cfg: Config, req: Request, was: Ticket, s: Stamp, t: Ticket)
    requires req.Supersede? && Effects.Born(cfg, req.payload, was.assignee, req.email, None, Some(was), s, t)
    ensures t.tags == OwnTags(req.payload.tags, s.ticketId, req.email) && t.tags != map[]
    ensures Merged(cfg, t, req.payload.parameters) && t.actionDetails.parameters.Object?
    ensures t.actionDetails.service == req.payload.service && t.actionDetails.operation == req.payload.operation
  {
    hide WithGateTags, CanonicalJson.Canonical;
    assert GATE_ID in t.tags;
  }

  /** The tags a ticket was created with, from its first event. */
  function CreationTags(st: State, id: Id): map<string, string> {
    if id in st.events && st.events[id] != [] && st.events[id][0].details.TicketDetails?
    then st.events[id][0].details.ticket.tags else map[]
  }

  lemma SameAction(a: Ticket, b: Ticket, p: Payload, cfg: Config)
    requires SameFrozen(a, b)
    ensures TakesOver(p, a) <==> TakesOver(p, b)
    ensures CreatesTagged(cfg, a.actionDetails) <==> CreatesTagged(cfg, b.actionDetails)
  {
    hide ResourceTypes;
  }

  // ----------------------------------------------------------- one input

  const SAMPLE := Config(1, false, 3600, {}, (s: string) => s, (s: string) => s,
                         (service: string, operation: string, parameters: Value) => true,
                         (service: string, operation: string) => true)

  function Volume(parameters: seq<Field>, tags: map<string, string>): Payload {
    Service.Payload("disk", 0, "create it", "ec2", "CreateVolume", "us-east-1", parameters, [], None, tags)
  }

  /** A volume tagged `team`, superseded with its own parameters and without that
      tag: the new ticket's tags do not have it, its call still sets it. */
  lemma LeftOverExample() returns (prior: Ticket, next: Ticket)
    ensures exists e :: BuildTicket(SAMPLE, Volume([], map["team" := "a"]), "agent", "ann", None, None, None,
                                    Stamp("T1", "e", "l", 0, 0)) == Success((prior, e))
    ensures prior.actionDetails.parameters.Object?
    ensures exists e :: BuildTicket(SAMPLE, Volume(prior.actionDetails.parameters.fields, map[]), "agent", "bob", None,
                                    Some(prior), None, Stamp("T2", "e", "l", 0, 0)) == Success((next, e))
    ensures "team" !in next.tags && next.actionDetails.parameters.Object?
    ensures Carries(next.actionDetails.parameters.fields, ["volume"], GateTag("team", "a"))
  {
    hide WithGateTags, Carries, GateTag, CanonicalJson.Canonical;
    var tags := OwnTags(map["team" := "a"], "T1", "ann");
    FirstMergeWorks(tags);
    var p := Volume([], map["team" := "a"]);
    var s := Stamp("T1", "e", "l", 0, 0);
    var built := BuildTicket(SAMPLE, p, "agent", "ann", None, None, None, s);
    assert built.Success?;
    prior := built.value.0;
    assert Merged(SAMPLE, prior, []);
    var tags2 := OwnTags(map[], "T2", "bob");
    assert GATE_ID in tags2;
    FirstMergeWorks(tags2);
    LeftOverTagStays("ec2", "CreateVolume", [], tags, tags2, true, "team");
    var q := Volume(prior.actionDetails.parameters.fields, map[]);
    var again := BuildTicket(SAMPLE, q, "agent", "bob", None, Some(prior), None, Stamp("T2", "e", "l", 0, 0));
    assert again.Success?;
    next := again.value.0;
    assert Merged(SAMPLE, next, prior.actionDetails.parameters.fields);
    assert again == Success((next, again.value.1));
  }

  lemma FirstMergeWorks(tags: map<string, string>)
    requires tags != map[]
    ensures Applies("ec2", "CreateVolume", tags, true)
    ensures WithGateTags("ec2", "CreateVolume", [], tags, true).Some?
  {
    hide GateTagList;
  }
}
