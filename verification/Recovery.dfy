/** Crashes. A crash cuts the last write of a process at an arbitrary character;
    the next boot reads what is left of the file. */
module Recovery {
  import opened Wrappers
  import opened Models
  import opened Fold
  import opened Store
  import opened Service
  import opened Legality
  import opened StoreInvariants
  import opened Protocol
  import opened EventCodec

  /** Cutting the write of one line: torn, it counts for nothing; complete, even
      without its newline, it counts. */
  lemma CutLine(log: seq<AuditEvent>, st: State, e: AuditEvent, k: nat)
    requires Replay(EMPTY, log) == Success(st) && k <= |Dump(e)|
    requires k >= |Line(e)| ==> ApplyToState(st, e).Success?
    ensures Boot(Text(log) + Dump(e)[..k]) ==
            if k < |Line(e)| then Repair(st) else Repair(ApplyToState(st, e).value)
  {
    hide Boot, Text, Repair, Replay, Line, ApplyToState, ReplayLine;
    LineFacts(e);
    if k <= |Line(e)| {
      assert Dump(e)[..k] == Line(e)[..k];
      BootWithTail(log, Line(e)[..k]);
      if k < |Line(e)| {
        ReplayTornLine(st, e, k, |log| + 1);
      } else {
        assert Line(e)[..k] == Line(e);
        ReplayFullLine(st, e, |log| + 1, true);
      }
    } else {
      assert Dump(e)[..k] == Dump(e);
      TextSnoc(log, e);
      ReplayAppend(EMPTY, log, [e]);
      ReplayOne(st, e);
      BootText(log + [e]);
    }
  }

  /** Repairing a store whose only fault is one link too many at the end of one
      ticket's list takes that link off again. */
  lemma RepairOne(st: State, half: State, id: Id, link: AuditEvent)
    requires NoDangling(st) && st.tickets.Keys == st.events.Keys && id in st.tickets
    requires FoldTicket(st.events[id]) == Success(st.tickets[id])
    requires half.tickets.Keys == st.tickets.Keys && half.byIdem == st.byIdem
    requires half.events == st.events[id := st.events[id] + [link]]
    requires forall i :: i in st.tickets && i != id ==> half.tickets[i] == st.tickets[i]
    requires Dangling(half, id)
    ensures Repair(half) == Success(st)
  {
    hide FoldTicket;
    UpdateKeepsKeys(st.events, id, st.events[id] + [link]);
    forall i | i in half.tickets && i != id ensures !Dangling(half, i) { assert !Dangling(st, i); }
    assert WithoutLast(half.events[id]) == st.events[id];
    assert Repairable(half, id);
    hide NoDangling, Dangling, WithoutLast, Repairable;
    var r := Repair(half).value;
    forall i | i in st.tickets ensures r.tickets[i] == st.tickets[i] && r.events[i] == st.events[i] { }
    assert r.tickets == st.tickets;
    assert r.events == st.events;
  }

  /** The repair undoes exactly the first half of a supersede. */
  lemma RepairHalf(cfg: Config, st: State, w: Write, chains: map<Id, seq<Id>>)
    requires cfg.Valid() && Sound(cfg, st, chains) && w.Supersede? && w.oldId in st.tickets
    requires LegalWrite(cfg, Some(st.tickets[w.oldId]), w) && Do(st, w).Success?
    ensures Repair(HalfDone(st, w)) == Success(st)
  {
    hide ApplyEvent, HalfDone, Do, Sound, LegalWrite, FoldTicket, Repair, Replay, ApplyToState, NoDangling;
    HalfShape(cfg, st, w, chains);
    SoundHasNoDangling(cfg, st, chains);
    SoundKeys(cfg, st, chains);
    RepairOne(st, HalfDone(st, w), w.oldId, w.link);
  }

  lemma HalfShape(cfg: Config, st: State, w: Write, chains: map<Id, seq<Id>>)
    requires cfg.Valid() && Sound(cfg, st, chains) && w.Supersede? && w.oldId in st.tickets
    requires LegalWrite(cfg, Some(st.tickets[w.oldId]), w) && Do(st, w).Success?
    ensures var half := HalfDone(st, w);
            w.oldId in st.events && w.ticket.ticketId !in st.tickets && w.oldId != w.ticket.ticketId
            && half.tickets.Keys == st.tickets.Keys && half.byIdem == st.byIdem
            && half.events == st.events[w.oldId := st.events[w.oldId] + [w.link]]
            && (forall id :: id in st.tickets && id != w.oldId ==> half.tickets[id] == st.tickets[id])
            && half.tickets[w.oldId].supersededBy == Some(w.ticket.ticketId)
            && FoldTicket(st.events[w.oldId]) == Success(st.tickets[w.oldId])
            && Replay(st, [w.link]) == Success(half) && ApplyToState(half, w.created) == Do(st, w)
            && half.tickets.Keys == half.events.Keys
  {
    hide Do, Legal, LegalCreation, TicketOk, ChainsOk, IdemOk, LegalHistory, SameFrozen, ApplyEvent, FoldTicket, HalfDone,
         ApplyToState;
    SupersedeInTwoSteps(st, w);
    CurrentTicket(cfg, st, w.oldId);
    LinkedTicket(cfg, st.tickets[w.oldId], w.link);
    LinkNames(cfg, st.tickets[w.oldId], w.link);
    assert EntryOk(cfg, st, w.oldId);
    HalfMaps(st, w);
  }

  lemma HalfMaps(st: State, w: Write)
    requires w.Supersede? && w.oldId in st.tickets && w.oldId in st.events && w.link.ticketId == w.oldId
    requires w.link.kind != TicketCreated && ApplyEvent(st.tickets[w.oldId], w.link).Success?
    requires st.tickets.Keys == st.events.Keys
    ensures var half := HalfDone(st, w);
            half.tickets.Keys == st.tickets.Keys == half.events.Keys && half.byIdem == st.byIdem
            && half.events == st.events[w.oldId := st.events[w.oldId] + [w.link]]
            && (forall id :: id in st.tickets && id != w.oldId ==> half.tickets[id] == st.tickets[id])
            && half.tickets[w.oldId] == ApplyEvent(st.tickets[w.oldId], w.link).value
            && Replay(st, [w.link]) == Success(half)
  {
    hide ApplyEvent;
    ReplayOne(st, w.link);
    hide Replay;
  }

  lemma LinkNames(cfg: Config, t: Ticket, link: AuditEvent)
    requires Legal(cfg, t, link)
    ensures link.ticketId == t.ticketId && link.kind != TicketCreated
  {
  }

  /** The write was decided from the ticket as it is. */
  ghost predicate CurrentSnapshot(st: State, snap: Option<Ticket>, w: Write) {
    !w.Create? ==> snap.Some? && snap.value.ticketId in st.tickets && snap.value == st.tickets[snap.value.ticketId]
  }

  /** Crash atomicity, for one write that is legal where it lands: whatever the
      cut, the boot finds the store from before the write or the one from after
      it, and it finds the latter exactly when nothing but the final newline may
      be missing. */
  lemma CutWrite(cfg: Config, st: State, log: seq<AuditEvent>, snap: Option<Ticket>, w: Write,
                 chains: map<Id, seq<Id>>, k: nat)
    requires cfg.Valid() && Sound(cfg, st, chains) && Replay(EMPTY, log) == Success(st)
    requires LegalWrite(cfg, snap, w) && Do(st, w).Success? && CurrentSnapshot(st, snap, w)
    requires k <= |WriteText(w)|
    ensures Boot(Text(log) + WriteText(w)[..k]) == if k < |WriteText(w)| - 1 then Success(st) else Do(st, w)
  {
    hide Boot, Text, Repair, Replay, Line, Do, LegalWrite, Sound, HalfDone, ApplyToState;
    SoundHasNoDangling(cfg, st, chains);
    RepairNothing(st);
    SoundAfter(cfg, st, snap, w, chains);
    WriteIsReplay(st, w);
    match w
    case Create(_, e) =>
      OneLineWrite(st, w, e);
      CutLine(log, st, e, k);
    case Append(_, _, e) =>
      OneLineWrite(st, w, e);
      CutLine(log, st, e, k);
    case Supersede(oldId, _, link, _, created) =>
      SupersedeSnapshot(cfg, snap, w);
      CutSupersede(cfg, st, log, w, chains, k);
  }

  lemma CutSupersede(cfg: Config, st: State, log: seq<AuditEvent>, w: Write, chains: map<Id, seq<Id>>, k: nat)
    requires cfg.Valid() && Sound(cfg, st, chains) && Replay(EMPTY, log) == Success(st) && Repair(st) == Success(st)
    requires w.Supersede? && w.oldId in st.tickets && LegalWrite(cfg, Some(st.tickets[w.oldId]), w)
    requires Do(st, w).Success? && Repair(Do(st, w).value) == Do(st, w)
    requires k <= |WriteText(w)|
    ensures Boot(Text(log) + WriteText(w)[..k]) == if k < |WriteText(w)| - 1 then Success(st) else Do(st, w)
  {
    hide Boot, Text, Repair, Replay, Line, Dump, Do, LegalWrite, Sound, HalfDone, ApplyToState;
    var link, created := w.link, w.created;
    HalfShape(cfg, st, w, chains);
    RepairHalf(cfg, st, w, chains);
    ReplayOne(st, link);
    DumpLength(link);
    DumpLength(created);
    if k <= |Dump(link)| {
      assert WriteText(w)[..k] == Dump(link)[..k];
      CutLine(log, st, link, k);
    } else {
      var j := k - |Dump(link)|;
      assert WriteText(w)[..k] == Dump(link) + Dump(created)[..j];
      CutSecondLine(log, st, link, HalfDone(st, w), created, j);
    }
  }

  lemma DumpLength(e: AuditEvent)
    ensures |Dump(e)| == |Line(e)| + 1 && |Line(e)| > 0
  {
    hide Line;
    LineFacts(e);
  }

  lemma CutSecondLine(log: seq<AuditEvent>, st: State, link: AuditEvent, half: State, created: AuditEvent, j: nat)
    requires Replay(EMPTY, log) == Success(st) && Replay(st, [link]) == Success(half) && j <= |Dump(created)|
    requires ApplyToState(half, created).Success?
    ensures Boot(Text(log) + (Dump(link) + Dump(created)[..j])) ==
            if j < |Line(created)| then Repair(half) else Repair(ApplyToState(half, created).value)
  {
    hide Boot, Text, Repair, Replay, Line, Dump, ApplyToState;
    TextSnoc(log, link);
    assert Text(log) + (Dump(link) + Dump(created)[..j]) == Text(log + [link]) + Dump(created)[..j];
    ReplayAppend(EMPTY, log, [link]);
    CutLine(log + [link], half, created, j);
  }

  lemma SupersedeSnapshot(cfg: Config, snap: Option<Ticket>, w: Write)
    requires LegalWrite(cfg, snap, w) && w.Supersede?
    ensures snap.Some? && snap.value.ticketId == w.oldId && LegalWrite(cfg, Some(snap.value), w)
  {
  }

  lemma OneLineWrite(st: State, w: Write, e: AuditEvent)
    requires Lines(w) == [e]
    ensures Replay(st, Lines(w)) == ApplyToState(st, e)
  {
    ReplayOne(st, e);
  }

  lemma SoundAfter(cfg: Config, st: State, snap: Option<Ticket>, w: Write, chains: map<Id, seq<Id>>)
    requires cfg.Valid() && Sound(cfg, st, chains) && LegalWrite(cfg, snap, w) && Do(st, w).Success?
    requires CurrentSnapshot(st, snap, w)
    ensures Sound(cfg, Do(st, w).value, ChainsAfter(chains, w)) && Repair(Do(st, w).value) == Do(st, w)
    ensures Coherent(w)
  {
    hide Do, LegalWrite, Repair, ChainsAfter, ChainsOk, IdemOk, StoreOk;
    if !w.Create? { CurrentIsHistoric(cfg, st, snap.value.ticketId); }
    LegalIsCoherent(cfg, snap, w);
    hide Coherent, Sound;
    WriteKeepsSound(cfg, st, snap, w, chains);
    SoundHasNoDangling(cfg, Do(st, w).value, ChainsAfter(chains, w));
    RepairNothing(Do(st, w).value);
  }

  /** Crash atomicity in every run: cut any write of any client at any character,
      and the next boot finds the tickets, event lists and index exactly as they
      were before that write, or exactly as they are after it. */
  lemma CrashAtomicity(cfg: Config, steps: seq<Step>, client: nat, stamp: Stamp, k: nat)
    requires cfg.Valid()
    requires Answer(cfg, Run(cfg, steps), client, stamp).Success?
    requires Answer(cfg, Run(cfg, steps), client, stamp).value.Perform?
    requires k <= |WriteText(Answer(cfg, Run(cfg, steps), client, stamp).value.write)|
    ensures var g := Run(cfg, steps); var w := Answer(cfg, g, client, stamp).value.write;
            var after := Next(cfg, g, WriteStep(client, stamp));
            Boot(Text(g.log) + WriteText(w)[..k]) == Success(if k < |WriteText(w)| - 1 then g.store else after.store)
            && Text(g.log) + WriteText(w) == Text(after.log)
  {
    hide Run, Inv, Answer, Boot, Text, WriteText, Do, Sound, LegalWrite, LogOk, Lines;
    RunKeepsInv(cfg, steps);
    var g := Run(cfg, steps);
    InvGives(cfg, g);
    var w := Answer(cfg, g, client, stamp).value.write;
    WriteStepIsLegal(cfg, g, client, stamp);
    CutWrite(cfg, g.store, g.log, g.inFlight[client].snapshot, w, g.chains, k);
    WriteTextIsLines(g.log, w);
  }

  lemma InvGives(cfg: Config, g: Gate)
    requires Inv(cfg, g)
    ensures Sound(cfg, g.store, g.chains) && LogOk(g.store, g.log)
  {
  }
}
