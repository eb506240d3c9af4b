/** The gate under any number of concurrent clients. Each operation is two
    separate steps, a read and a later guard-and-write, and steps of different
    clients interleave freely; a run is an arbitrary list of steps. */
module Protocol {
  import opened Wrappers
  import opened Models
  import opened Fold
  import opened Store
  import opened Service
  import opened Legality
  import opened StoreInvariants

  /** An operation between its read and its write. */
  datatype InFlight = InFlight(req: Request, snapshot: Option<Ticket>)

  /** `log` is what the file holds, line by line. `chains` is a history variable:
      the lineages in order of creation, which the store never records. */
  datatype Gate = Gate(store: State, log: seq<AuditEvent>, inFlight: map<nat, InFlight>, chains: map<Id, seq<Id>>)

  const START := Gate(EMPTY, [], map[], map[])

  datatype Step =
    | ReadStep(client: nat, req: Request)
    | WriteStep(client: nat, stamp: Stamp)
    | Restart

  /** What a client's second half does: the answer, and the write behind it. */
  function Answer(cfg: Config, g: Gate, client: nat, stamp: Stamp): Result<Decision, Error> {
    if client !in g.inFlight || !GoodStamp(stamp) then Failure(NotFound)
    else
      var f := g.inFlight[client];
      var d :- Decide(cfg, f.req, f.snapshot, stamp);
      match d
      case Perform(w) => (match Do(g.store, w) case Success(_) => Success(d) case Failure(err) => Failure(err))
      case _ => Success(d)
  }

  function Written(g: Gate, w: Write): Gate
    requires Do(g.store, w).Success?
  {
    g.(store := Do(g.store, w).value, log := g.log + Lines(w), chains := ChainsAfter(g.chains, w))
  }

  function Next(cfg: Config, g: Gate, step: Step): Gate {
    match step
    case ReadStep(client, req) => g.(inFlight := g.inFlight[client := InFlight(req, Read(g.store, req))])
    case WriteStep(client, stamp) =>
      var done := if Answer(cfg, g, client, stamp).Success? && Answer(cfg, g, client, stamp).value.Perform?
                  then Written(g, Answer(cfg, g, client, stamp).value.write) else g;
      done.(inFlight := g.inFlight - {client})
    case Restart =>
      match Boot(Text(g.log))
      case Success(st) => g.(store := st, inFlight := map[])
      case Failure(_) => g.(store := EMPTY, inFlight := map[])   // the process does not come up
  }

  function Run(cfg: Config, steps: seq<Step>): Gate {
    if steps == [] then START else Next(cfg, Run(cfg, steps[..|steps| - 1]), steps[|steps| - 1])
  }

  // -------------------------------------------------------------- invariant

  /** The event list of a ticket is the log's projection onto it. */
  function Project(log: seq<AuditEvent>, id: Id): seq<AuditEvent> {
    if log == [] then []
    else
      var n := |log| - 1;
      Project(log[..n], id) + if log[n].ticketId == id then [log[n]] else []
  }

  ghost predicate ProjectionOk(st: State, log: seq<AuditEvent>) {
    forall id :: Project(log, id) == if id in st.events then st.events[id] else []
  }

  ghost predicate LogOk(st: State, log: seq<AuditEvent>) {
    Replay(EMPTY, log) == Success(st) && ProjectionOk(st, log)
  }

  /** Who a create request is for, and under which key. */
  function KeyOf(req: Request): Option<(string, string)> {
    match req
    case AgentCreate(_, principal, key, _) => if Truthy(key) then Some((principal, key.value)) else None
    case HumanCreate(_, _, executor, key) => if Truthy(key) then Some((executor, key.value)) else None
    case _ => None
  }

  predicate IsCreate(req: Request) { req.AgentCreate? || req.HumanCreate? }

  ghost predicate SnapshotOk(st: State, f: InFlight) {
    f.snapshot.Some? ==>
      Historic(st, f.snapshot.value)
      && (!IsCreate(f.req) ==> f.snapshot.value.ticketId == f.req.id)
      && (IsCreate(f.req) ==> KeyOf(f.req).Some? && KeyOf(f.req).value in st.byIdem
                              && st.byIdem[KeyOf(f.req).value] == f.snapshot.value.ticketId)
  }

  ghost predicate Inv(cfg: Config, g: Gate) {
    Sound(cfg, g.store, g.chains)
    && LogOk(g.store, g.log)
    && forall c :: c in g.inFlight ==> SnapshotOk(g.store, g.inFlight[c])
  }

  // ------------------------------------------------------------ preservation

  lemma ReadIsHistoric(cfg: Config, st: State, chains: map<Id, seq<Id>>, req: Request)
    requires cfg.Valid() && Sound(cfg, st, chains)
    ensures SnapshotOk(st, InFlight(req, Read(st, req)))
  {
    hide LegalHistory, FoldTicket, ChainsOk, Historic;
    var snap := Read(st, req);
    if snap.Some? {
      var id := if IsCreate(req) then st.byIdem[KeyOf(req).value] else req.id;
      assert EntryOk(cfg, st, id);
      CurrentIsHistoric(cfg, st, id);
    }
  }

  lemma {:induction false} ProjectAppend(log: seq<AuditEvent>, more: seq<AuditEvent>, id: Id)
    ensures Project(log + more, id) == Project(log, id) + Project(more, id)
  {
    if more == [] {
      assert log + more == log;
    } else {
      var n := |more| - 1;
      assert (log + more)[..|log + more| - 1] == log + more[..n];
      ProjectAppend(log, more[..n], id);
    }
  }

  lemma ProjectOne(e: AuditEvent, id: Id)
    ensures Project([e], id) == if e.ticketId == id then [e] else []
  {
    assert [e][..0] == [];
  }

  lemma ProjectTwo(e: AuditEvent, f: AuditEvent, id: Id)
    ensures Project([e, f], id) == Project([e], id) + Project([f], id)
  {
    ProjectAppend([e], [f], id);
    assert [e] + [f] == [e, f];
  }

  lemma ProjectLines(st: State, w: Write, id: Id)
    requires Coherent(w) && Do(st, w).Success? && st.tickets.Keys == st.events.Keys
    ensures var es := Do(st, w).value.events;
            (if id in es then es[id] else []) == (if id in st.events then st.events[id] else []) + Project(Lines(w), id)
  {
    hide ApplyEvent, Project;
    match w
    case Create(_, created) => ProjectOne(created, id);
    case Append(_, _, e) => ProjectOne(e, id);
    case Supersede(_, _, link, _, created) =>
      hide Do;
      SupersedeInTwoSteps(st, w);
      ProjectTwo(link, created, id);
      ProjectOne(link, id);
      ProjectOne(created, id);
  }

  lemma WriteKeepsLog(st: State, log: seq<AuditEvent>, w: Write)
    requires LogOk(st, log) && Coherent(w) && Do(st, w).Success? && st.tickets.Keys == st.events.Keys
    ensures LogOk(Do(st, w).value, log + Lines(w))
  {
    hide Replay, Do, Lines, Coherent;
    ReplayAppend(EMPTY, log, Lines(w));
    WriteIsReplay(st, w);
    forall id
      ensures Project(log + Lines(w), id) == if id in Do(st, w).value.events then Do(st, w).value.events[id] else []
    {
      ProjectAppend(log, Lines(w), id);
      ProjectLines(st, w, id);
    }
  }

  /** A key never changes owner, so snapshots taken by key stay justified. */
  lemma KeysStay(st: State, w: Write)
    requires Coherent(w) && Do(st, w).Success?
    requires w.Supersede? ==> !Truthy(w.ticket.idempotencyKey)
    ensures forall k :: k in st.byIdem ==> k in Do(st, w).value.byIdem && Do(st, w).value.byIdem[k] == st.byIdem[k]
  {
    hide ApplyEvent;
  }

  lemma SupersedeHasNoKey(cfg: Config, snap: Option<Ticket>, w: Write)
    requires LegalWrite(cfg, snap, w) && w.Supersede?
    ensures !Truthy(w.ticket.idempotencyKey)
  {
    hide Legal;
    FreshSuccessor(cfg, w.created);
  }

  lemma SnapshotStays(st: State, after: State, f: InFlight)
    requires SnapshotOk(st, f) && Grows(st, after)
    requires forall k :: k in st.byIdem ==> k in after.byIdem && after.byIdem[k] == st.byIdem[k]
    ensures SnapshotOk(after, f)
  {
    hide Historic, Grows;
    if f.snapshot.Some? { HistoricStays(st, after, f.snapshot.value); }
  }

  /** The heart of the argument: a write that lands was decided from the very
      ticket it lands on, and leaves everything as it should be. */
  lemma WriteStepIsLegal(cfg: Config, g: Gate, client: nat, stamp: Stamp)
    requires cfg.Valid() && Inv(cfg, g)
    requires Answer(cfg, g, client, stamp).Success? && Answer(cfg, g, client, stamp).value.Perform?
    ensures client in g.inFlight && GoodStamp(stamp)
    ensures var w := Answer(cfg, g, client, stamp).value.write;
            var snap := g.inFlight[client].snapshot;
            Do(g.store, w).Success? && LegalWrite(cfg, snap, w)
            && (!w.Create? ==> snap.Some? && snap.value.ticketId in g.store.tickets
                               && snap.value == g.store.tickets[snap.value.ticketId])
            && Sound(cfg, Do(g.store, w).value, ChainsAfter(g.chains, w)) && Grows(g.store, Do(g.store, w).value)
  {
    hide Decide, Do, LegalWrite, Sound, LogOk, Historic, Grows;
    var f := g.inFlight[client];
    var w := Answer(cfg, g, client, stamp).value.write;
    DecisionIsLegal(cfg, f.req, f.snapshot, stamp);
    assert SnapshotOk(g.store, f);
    WriteKeepsSound(cfg, g.store, f.snapshot, w, g.chains);
    if !w.Create? { WrittenSnapshot(cfg, f.snapshot, w); }
  }

  lemma WrittenSnapshot(cfg: Config, snap: Option<Ticket>, w: Write)
    requires LegalWrite(cfg, snap, w) && !w.Create?
    ensures snap.Some?
  {
  }

  lemma WriteStepKeepsInv(cfg: Config, g: Gate, client: nat, stamp: Stamp)
    requires cfg.Valid() && Inv(cfg, g)
    ensures Inv(cfg, Next(cfg, g, WriteStep(client, stamp)))
  {
    hide Decide, Do, LegalWrite, Sound, LogOk, SnapshotOk, Grows, Lines, ChainsAfter;
    if Answer(cfg, g, client, stamp).Success? && Answer(cfg, g, client, stamp).value.Perform? {
      var w := Answer(cfg, g, client, stamp).value.write;
      var after := Do(g.store, w).value;
      WriteStepIsLegal(cfg, g, client, stamp);
      LegalIsCoherent(cfg, g.inFlight[client].snapshot, w);
      SoundKeys(cfg, g.store, g.chains);
      WriteKeepsLog(g.store, g.log, w);
      if w.Supersede? { SupersedeHasNoKey(cfg, g.inFlight[client].snapshot, w); }
      KeysStay(g.store, w);
      forall c | c in g.inFlight ensures SnapshotOk(after, g.inFlight[c]) {
        SnapshotStays(g.store, after, g.inFlight[c]);
      }
    }
  }

  lemma SoundKeys(cfg: Config, st: State, chains: map<Id, seq<Id>>)
    requires Sound(cfg, st, chains)
    ensures st.tickets.Keys == st.events.Keys
  {
  }

  // ----------------------------------------------------------------- restart

  ghost predicate NoDangling(st: State) {
    forall id :: id in st.tickets ==> !Dangling(st, id)
  }

  lemma RepairNothing(st: State)
    requires NoDangling(st)
    ensures Repair(st) == Success(st)
  {
    hide FoldTicket;
    assert Repair(st).value.tickets == st.tickets;
    assert Repair(st).value.events == st.events;
  }

  lemma SoundHasNoDangling(cfg: Config, st: State, chains: map<Id, seq<Id>>)
    requires Sound(cfg, st, chains)
    ensures NoDangling(st)
  {
    hide StoreOk, IdemOk;
    forall id | id in st.tickets ensures !Dangling(st, id) {
      assert OnChain(chains, st.tickets[id].lineageRootId, id);
      var c := chains[st.tickets[id].lineageRootId];
      assert ChainOk(st, st.tickets[id].lineageRootId, c);
      var i :| 0 <= i < |c| && c[i] == id;
      assert Node(st, st.tickets[id].lineageRootId, c, i);
      if i < |c| - 1 { assert Node(st, st.tickets[id].lineageRootId, c, i + 1); }
    }
  }

  /** Booting from a clean log gives exactly the live maps, and repairs nothing. */
  lemma BootIsIdentity(cfg: Config, g: Gate)
    requires Sound(cfg, g.store, g.chains) && LogOk(g.store, g.log)
    ensures Boot(Text(g.log)) == Success(g.store)
  {
    hide Boot, Text, Repair, Replay, Sound, ProjectionOk;
    SoundHasNoDangling(cfg, g.store, g.chains);
    RepairNothing(g.store);
    BootText(g.log);
  }

  // --------------------------------------------------------------- every run

  lemma NextKeepsInv(cfg: Config, g: Gate, step: Step)
    requires cfg.Valid() && Inv(cfg, g)
    ensures Inv(cfg, Next(cfg, g, step))
  {
    hide Sound, LogOk, SnapshotOk, Boot, Text;
    match step
    case ReadStep(client, req) => ReadIsHistoric(cfg, g.store, g.chains, req);
    case WriteStep(client, stamp) => WriteStepKeepsInv(cfg, g, client, stamp);
    case Restart => BootIsIdentity(cfg, g);
  }

  lemma StartIsOk(cfg: Config)
    ensures Inv(cfg, START)
  {
  }

  lemma {:induction false} RunKeepsInv(cfg: Config, steps: seq<Step>)
    requires cfg.Valid()
    ensures Inv(cfg, Run(cfg, steps))
  {
    hide Inv, Next;
    if steps == [] {
      StartIsOk(cfg);
    } else {
      RunKeepsInv(cfg, steps[..|steps| - 1]);
      NextKeepsInv(cfg, Run(cfg, steps[..|steps| - 1]), steps[|steps| - 1]);
    }
  }
}
