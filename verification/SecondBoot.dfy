/** Crashing, coming up again, and going on: when does the boot after that find
    what the process believed?

    Recovery never touches the file. A torn line stays where it is and the next
    line is glued to it; a link undone in memory is still in the log. So the
    natural expectation, that a recovered gate can simply carry on, is false, and
    `SecondLife` says exactly when it holds. */
module SecondBoot {
  import opened Wrappers
  import opened Models
  import opened Fold
  import opened Store
  import opened Service
  import opened Legality
  import opened StoreInvariants
  import opened Protocol
  import opened Recovery
  import opened EventCodec
  import opened Json
  import opened TornText
  import opened CanonicalJson

  // ------------------------------------------------------ glued to a torn line

  lemma LineIsGlued(e: AuditEvent)
    ensures Glued(Line(e))
  {
    hide Print;
    GluedObject(EncodeEvent(e), " ");
  }

  lemma GluedObject(v: Value, gap: string)
    requires v.Object? && v.fields != [] && v.fields[0].key != "" && v.fields[0].key[0] == 'e' && Blank(gap)
    ensures Glued(Print(v, gap))
  {
    hide ParseValue, PrintFields, PrintField, Escape;
    QuoteStart(v.fields[0].key);
    FieldsBeginWith(v.fields, gap);
    ParsePrint(v, gap, "");
    assert Print(v, gap) + "" == Print(v, gap);
  }

  lemma FieldsBeginWith(fields: seq<Field>, gap: string)
    requires fields != []
    ensures Quote(fields[0].key) <= PrintFields(fields, gap)
  {
    hide Quote, Print;
  }

  lemma QuoteStart(s: string)
    requires s != "" && s[0] == 'e'
    ensures |Quote(s)| > 2 && Quote(s)[0] == '"' && Quote(s)[1] == 'e'
  {
    assert EscapeChar('e') == "e";
  }

  /** A write after an unterminated line: the boot aborts on the glued line. */
  lemma GluedBootFails(log: seq<AuditEvent>, e: AuditEvent, k: nat, f: AuditEvent, more: string)
    requires Replay(EMPTY, log).Success? && 0 < k <= |Line(e)|
    ensures Boot(Text(log) + Line(e)[..k] + (Dump(f) + more)).Failure?
  {
    hide Line, ReplayLine, Replay, Text, Repair;
    var glued := Line(e)[..k] + Line(f);
    LineFacts(e);
    LineFacts(f);
    assert Text(log) + Line(e)[..k] + (Dump(f) + more) == Text(log) + (glued + "\n" + more);
    SplitText(log, glued + "\n" + more);
    SplitLine(glued, more);
    var lines := LinesOf(log) + ([glued] + Split(more));
    assert lines[..|log|] == LinesOf(log) && lines[|log|] == glued && |lines| > |log| + 1;
    ReplayLinesOf(log, lines);
    GluedLineFails(Replay(EMPTY, log).value, e, k, f, |log| + 1);
    FailureStays(lines, |log| + 1, |lines|);
  }

  lemma GluedLineFails(st: State, e: AuditEvent, k: nat, f: AuditEvent, number: nat)
    requires 0 < k <= |Line(e)|
    ensures ReplayLine(st, Line(e)[..k] + Line(f), number, false) == Failure(Corrupt(number))
  {
    LineIsGlued(f);
    LineFacts(e);
    GluedToTornIsBad(EncodeEvent(e), " ", k, Line(f));
    assert (Line(e)[..k] + Line(f))[0] == '{';
    assert '{' in Line(e)[..k] + Line(f);
    hide Line, Loads, Glued, DecodeEvent;
  }

  /** When replaying whole lines fails, so does the boot. */
  lemma FailedReplay(log: seq<AuditEvent>)
    requires Replay(EMPTY, log).Failure?
    ensures Boot(Text(log)).Failure?
  {
    hide ReplayLine, Replay, Text, Repair, Line, LinesOf;
    SplitText(log, "");
    SplitTail("");
    assert Text(log) + "" == Text(log);
    ReplayLinesWithTail(log, "");
  }

  // ----------------------------------------------------- after an undone link

  /** A store in which only ticket `id` is one event further. */
  function Overlay(st: State, id: Id, t: Ticket, link: AuditEvent): State
    requires id in st.events
  {
    st.(tickets := st.tickets[id := t], events := st.events[id := st.events[id] + [link]])
  }

  /** The ticket an event is about, as the fold sees it. */
  function Subject(e: AuditEvent): Id {
    if e.kind == TicketCreated && e.details.TicketDetails? then e.details.ticket.ticketId else e.ticketId
  }

  /** Events of other tickets do not notice. */
  lemma OverlayCommutes(st: State, id: Id, t: Ticket, link: AuditEvent, e: AuditEvent)
    requires id in st.events && id in st.tickets && Subject(e) != id
    ensures ApplyToState(Overlay(st, id, t, link), e) ==
            match ApplyToState(st, e)
            case Success(next) => (assert id in next.events; Success(Overlay(next, id, t, link)))
            case Failure(err) => Failure(err)
  {
    hide ApplyEvent;
    var o := Overlay(st, id, t, link);
    if ApplyToState(st, e).Success? {
      var next := ApplyToState(st, e).value;
      assert ApplyToState(o, e).value.tickets == Overlay(next, id, t, link).tickets;
      assert ApplyToState(o, e).value.events == Overlay(next, id, t, link).events;
    }
  }

  lemma OverlayCommutesWithWrite(st: State, id: Id, t: Ticket, link: AuditEvent, w: Write)
    requires id in st.events && id in st.tickets && Coherent(w) && Do(st, w).Success?
    requires Target(w) != Some(id) && Added(w) != Some(id)
    ensures id in Do(st, w).value.events
    ensures Replay(Overlay(st, id, t, link), Lines(w)) == Success(Overlay(Do(st, w).value, id, t, link))
  {
    hide ApplyToState, Overlay, ApplyEvent;
    WriteIsReplay(st, w);
    var o := Overlay(st, id, t, link);
    match w
    case Create(_, created) =>
      ReplayOne(o, created); ReplayOne(st, created);
      OverlayCommutes(st, id, t, link, created);
      StillThere(st, id, created);
    case Append(_, _, e) =>
      ReplayOne(o, e); ReplayOne(st, e);
      OverlayCommutes(st, id, t, link, e);
      StillThere(st, id, e);
    case Supersede(_, _, l, _, created) =>
      ReplayTwo(o, l, created); ReplayTwo(st, l, created);
      OverlayCommutes(st, id, t, link, l);
      StillThere(st, id, l);
      OverlayCommutes(ApplyToState(st, l).value, id, t, link, created);
      StillThere(ApplyToState(st, l).value, id, created);
  }

  lemma StillThere(st: State, id: Id, e: AuditEvent)
    requires id in st.events && id in st.tickets && ApplyToState(st, e).Success?
    ensures id in ApplyToState(st, e).value.events && id in ApplyToState(st, e).value.tickets
    ensures Subject(e) != id ==>
              ApplyToState(st, e).value.events[id] == st.events[id] && ApplyToState(st, e).value.tickets[id] == st.tickets[id]
  {
    hide ApplyEvent;
  }

  lemma UntouchedByWrite(st: State, id: Id, w: Write)
    requires id in st.events && id in st.tickets && Coherent(w) && Do(st, w).Success?
    requires Target(w) != Some(id) && Added(w) != Some(id)
    ensures var after := Do(st, w).value;
            id in after.events && id in after.tickets && after.events[id] == st.events[id] && after.tickets[id] == st.tickets[id]
            && (forall x :: x in after.tickets ==> x in st.tickets || Some(x) == Added(w))
  {
    hide ApplyEvent;
  }

  lemma OverlayShape(st: State, id: Id, t: Ticket, link: AuditEvent)
    requires id in st.events && id in st.tickets && t.supersededBy.Some? && t.supersededBy.value !in st.tickets
    ensures var o := Overlay(st, id, t, link);
            o.tickets.Keys == st.tickets.Keys && o.byIdem == st.byIdem
            && o.events == st.events[id := st.events[id] + [link]]
            && (forall i :: i in st.tickets && i != id ==> o.tickets[i] == st.tickets[i])
            && Dangling(o, id)
  {
  }

  lemma EntryFolds(cfg: Config, st: State, chains: map<Id, seq<Id>>, id: Id)
    requires Sound(cfg, st, chains) && id in st.tickets
    ensures id in st.events && FoldTicket(st.events[id]) == Success(st.tickets[id])
  {
    hide LegalHistory, FoldTicket, ChainsOk, IdemOk;
    assert EntryOk(cfg, st, id);
  }

  lemma NewIsNew(st: State, w: Write)
    requires Do(st, w).Success?
    ensures Added(w).Some? ==> Added(w).value !in st.tickets
  {
    hide ApplyToState, ApplyEvent;
  }

  lemma ReusedVersion(st: State, e: AuditEvent)
    requires e.kind != TicketCreated && e.ticketId in st.tickets && st.tickets[e.ticketId].version == e.version
    ensures ApplyToState(st, e).Failure?
  {
  }

  // ------------------------------------------------------- the exact condition

  /** The file ends where a line ends. */
  predicate EndsLine(text: string) {
    text == "" || text[|text| - 1] == '\n'
  }

  /** The boot undid a link on ticket `id` (it logs a warning when it does). */
  ghost predicate Repaired(text: string, id: Id) {
    var lines := Split(text);
    var raw := ReplayLines(lines, |lines|);
    raw.Success? && id in raw.value.tickets && Dangling(raw.value, id)
  }

  lemma {:induction false} TextEndsLine(log: seq<AuditEvent>)
    ensures EndsLine(Text(log))
  {
  }

  lemma TornEnd(log: seq<AuditEvent>, e: AuditEvent, k: nat)
    requires 0 < k <= |Line(e)|
    ensures !EndsLine(Text(log) + Line(e)[..k])
  {
    hide Line, Text;
    LineFacts(e);
    var text := Text(log) + Line(e)[..k];
    assert text[|text| - 1] == Line(e)[k - 1];
    assert Line(e)[k - 1] in Line(e);
  }

  lemma RepairedText(log: seq<AuditEvent>, id: Id)
    requires Replay(EMPTY, log).Success?
    ensures var st := Replay(EMPTY, log).value;
            Repaired(Text(log), id) <==> id in st.tickets && Dangling(st, id)
  {
    hide Replay, Text, Split, LinesOf, Dangling, ReplayLines;
    SplitText(log, "");
    SplitTail("");
    assert Text(log) + "" == Text(log);
    ReplayLinesWithTail(log, "");
    BlankReplay(log);
  }

  lemma BlankReplay(log: seq<AuditEvent>)
    requires Replay(EMPTY, log).Success?
    ensures ReplayLine(Replay(EMPTY, log).value, "", |log| + 1, true) == Replay(EMPTY, log)
  {
  }

  lemma HalfIsOverlay(cfg: Config, st: State, w: Write, chains: map<Id, seq<Id>>)
    requires cfg.Valid() && Sound(cfg, st, chains) && w.Supersede? && w.oldId in st.tickets
    requires LegalWrite(cfg, Some(st.tickets[w.oldId]), w) && Do(st, w).Success?
    ensures var half := HalfDone(st, w);
            w.oldId in half.tickets && w.oldId in st.events && half == Overlay(st, w.oldId, half.tickets[w.oldId], w.link)
            && half.tickets[w.oldId].version == st.tickets[w.oldId].version + 1
  {
    hide Do, Sound, LegalWrite, ApplyEvent, ApplyToState;
    SupersedeInTwoSteps(st, w);
    ApplyKeepsVersion(st.tickets[w.oldId], w.link);
  }

  lemma ApplyKeepsVersion(t: Ticket, e: AuditEvent)
    requires ApplyEvent(t, e).Success?
    ensures ApplyEvent(t, e).value.version == t.version + 1
  {
  }

  // ------------------------------------------------------------ the second life

  ghost function Snapshot(st: State, w: Write): Option<Ticket> {
    if Target(w).Some? then Lookup(st, Target(w).value) else None
  }

  /** `w` is decided from the store as it is, and succeeds. */
  ghost predicate Lands(cfg: Config, st: State, w: Write) {
    Do(st, w).Success? && LegalWrite(cfg, Snapshot(st, w), w)
  }

  /** The store after a list of successful writes. */
  function After(st: State, ws: seq<Write>): State {
    if ws == [] then st
    else
      var before := After(st, ws[..|ws| - 1]);
      if Do(before, ws[|ws| - 1]).Success? then Do(before, ws[|ws| - 1]).value else before
  }

  ghost predicate AllLand(cfg: Config, st: State, ws: seq<Write>) {
    ws == [] || (AllLand(cfg, st, ws[..|ws| - 1]) && Lands(cfg, After(st, ws[..|ws| - 1]), ws[|ws| - 1]))
  }

  function Events(ws: seq<Write>): seq<AuditEvent> {
    if ws == [] then [] else Events(ws[..|ws| - 1]) + Lines(ws[|ws| - 1])
  }

  function ChainsAfterAll(chains: map<Id, seq<Id>>, ws: seq<Write>): map<Id, seq<Id>> {
    if ws == [] then chains else ChainsAfter(ChainsAfterAll(chains, ws[..|ws| - 1]), ws[|ws| - 1])
  }

  lemma LandsFacts(cfg: Config, st: State, w: Write, chains: map<Id, seq<Id>>)
    requires cfg.Valid() && Sound(cfg, st, chains) && Lands(cfg, st, w)
    ensures CurrentSnapshot(st, Snapshot(st, w), w) && Coherent(w)
    ensures Sound(cfg, Do(st, w).value, ChainsAfter(chains, w))
    ensures Target(w).Some? ==> Target(w).value in st.tickets
  {
    hide LegalHistory, FoldTicket, Legal, LegalCreation, ChainsOk, IdemOk, Do, ChainsAfter;
    if Snapshot(st, w).Some? { assert EntryOk(cfg, st, Target(w).value); }
    SoundAfter(cfg, st, Snapshot(st, w), w, chains);
  }

  lemma {:induction false} StaysSound(cfg: Config, st: State, ws: seq<Write>, chains: map<Id, seq<Id>>)
    requires cfg.Valid() && Sound(cfg, st, chains) && AllLand(cfg, st, ws)
    ensures Sound(cfg, After(st, ws), ChainsAfterAll(chains, ws))
  {
    hide Sound, Lands, Do, ChainsAfter;
    if ws != [] {
      var n := |ws| - 1;
      StaysSound(cfg, st, ws[..n], chains);
      LandsSucceeds(cfg, After(st, ws[..n]), ws[n]);
      LandsFacts(cfg, After(st, ws[..n]), ws[n], ChainsAfterAll(chains, ws[..n]));
    }
  }

  lemma LandsSucceeds(cfg: Config, st: State, w: Write)
    requires Lands(cfg, st, w)
    ensures Do(st, w).Success?
  {
  }

  /** Going on with a clean file: log and maps stay in step. */
  lemma {:induction false} GoOnClean(cfg: Config, st: State, log: seq<AuditEvent>, ws: seq<Write>, chains: map<Id, seq<Id>>)
    requires cfg.Valid() && Sound(cfg, st, chains) && AllLand(cfg, st, ws) && Replay(EMPTY, log) == Success(st)
    ensures Replay(EMPTY, log + Events(ws)) == Success(After(st, ws))
  {
    hide Sound, Lands, Do, Replay, Lines;
    if ws == [] {
      assert log + Events(ws) == log;
    } else {
      var n := |ws| - 1;
      var before := After(st, ws[..n]);
      GoOnClean(cfg, st, log, ws[..n], chains);
      StaysSound(cfg, st, ws[..n], chains);
      LandsFacts(cfg, before, ws[n], ChainsAfterAll(chains, ws[..n]));
      LandsSucceeds(cfg, before, ws[n]);
      WriteIsReplay(before, ws[n]);
      ReplayAppend(EMPTY, log + Events(ws[..n]), Lines(ws[n]));
      assert log + Events(ws) == log + Events(ws[..n]) + Lines(ws[n]);
    }
  }

  /** None of these writes changes ticket `id` or adds ticket `lost`. */
  ghost predicate Elsewhere(ws: seq<Write>, id: Id, lost: Id) {
    forall i :: 0 <= i < |ws| ==> Target(ws[i]) != Some(id) && Added(ws[i]) != Some(lost)
  }

  /** Going on elsewhere while an undone link is still in the log: the link
      stays undone, one event ahead of the maps. */
  lemma {:induction false} GoOnElsewhere(cfg: Config, st: State, log: seq<AuditEvent>, ws: seq<Write>,
                                         chains: map<Id, seq<Id>>, id: Id, t: Ticket, link: AuditEvent)
    requires cfg.Valid() && Sound(cfg, st, chains) && AllLand(cfg, st, ws) && id in st.tickets && id in st.events
    requires Replay(EMPTY, log) == Success(Overlay(st, id, t, link))
    requires t.supersededBy.Some? && t.supersededBy.value !in st.tickets && Elsewhere(ws, id, t.supersededBy.value)
    ensures var now := After(st, ws);
            id in now.tickets && id in now.events && now.tickets[id] == st.tickets[id]
            && t.supersededBy.value !in now.tickets
            && Replay(EMPTY, log + Events(ws)) == Success(Overlay(now, id, t, link))
  {
    hide Sound, Lands, Do, Replay, Lines, Target, Added, Overlay;
    if ws == [] {
      assert log + Events(ws) == log;
    } else {
      var n := |ws| - 1;
      var before := After(st, ws[..n]);
      GoOnElsewhere(cfg, st, log, ws[..n], chains, id, t, link);
      StaysSound(cfg, st, ws[..n], chains);
      LandsFacts(cfg, before, ws[n], ChainsAfterAll(chains, ws[..n]));
      LandsSucceeds(cfg, before, ws[n]);
      NewIsNew(before, ws[n]);
      UntouchedByWrite(before, id, ws[n]);
      OverlayCommutesWithWrite(before, id, t, link, ws[n]);
      ReplayAppend(EMPTY, log + Events(ws[..n]), Lines(ws[n]));
      assert log + Events(ws) == log + Events(ws[..n]) + Lines(ws[n]);
    }
  }

  /** Boot on such a log undoes the link once more. */
  lemma ElsewhereBoots(cfg: Config, st: State, log: seq<AuditEvent>, chains: map<Id, seq<Id>>, id: Id, t: Ticket,
                       link: AuditEvent)
    requires cfg.Valid() && Sound(cfg, st, chains) && id in st.tickets && id in st.events
    requires Replay(EMPTY, log) == Success(Overlay(st, id, t, link))
    requires t.supersededBy.Some? && t.supersededBy.value !in st.tickets
    ensures Boot(Text(log)) == Success(st)
  {
    hide Sound, Replay, Boot, Text, Repair, Overlay, FoldTicket;
    BootText(log);
    SoundHasNoDangling(cfg, st, chains);
    SoundKeys(cfg, st, chains);
    EntryFolds(cfg, st, chains, id);
    OverlayShape(st, id, t, link);
    RepairOne(st, Overlay(st, id, t, link), id, link);
  }

  lemma FirstTouch(ws: seq<Write>, id: Id) returns (n: nat)
    requires exists i :: 0 <= i < |ws| && Target(ws[i]) == Some(id)
    ensures n < |ws| && Target(ws[n]) == Some(id) && forall i :: 0 <= i < n ==> Target(ws[i]) != Some(id)
  {
    n := 0;
    while Target(ws[n]) != Some(id)
      invariant n < |ws| && forall i :: 0 <= i < n ==> Target(ws[i]) != Some(id)
      decreases |ws| - n
    {
      n := n + 1;
    }
  }

  lemma {:induction false} AllLandPrefix(cfg: Config, st: State, ws: seq<Write>, n: nat)
    requires AllLand(cfg, st, ws) && n <= |ws|
    ensures AllLand(cfg, st, ws[..n])
    ensures n < |ws| ==> Lands(cfg, After(st, ws[..n]), ws[n])
    decreases |ws|
  {
    hide Lands;
    if n < |ws| {
      var m := |ws| - 1;
      assert ws[..m][..n] == ws[..n];
      AllLandPrefix(cfg, st, ws[..m], n);
    } else {
      assert ws[..n] == ws;
    }
  }

  /** The first write to the repaired ticket reuses the sequence number of the
      undone link, and every later boot refuses the log. */
  lemma GoOnThere(cfg: Config, st: State, log: seq<AuditEvent>, ws: seq<Write>, chains: map<Id, seq<Id>>, id: Id,
                  t: Ticket, link: AuditEvent)
    requires cfg.Valid() && Sound(cfg, st, chains) && AllLand(cfg, st, ws) && id in st.tickets && id in st.events
    requires Replay(EMPTY, log) == Success(Overlay(st, id, t, link)) && t.version == st.tickets[id].version + 1
    requires t.supersededBy.Some? && t.supersededBy.value !in st.tickets
    requires forall i :: 0 <= i < |ws| ==> Added(ws[i]) != t.supersededBy
    requires exists i :: 0 <= i < |ws| && Target(ws[i]) == Some(id)
    ensures Boot(Text(log + Events(ws))).Failure?
  {
    hide Sound, Lands, Replay, Lines, Target, Added, Overlay, Boot, Text, AllLand, After, Events;
    var n := FirstTouch(ws, id);
    AllLandPrefix(cfg, st, ws, n);
    GoOnElsewhere(cfg, st, log, ws[..n], chains, id, t, link);
    TouchFails(cfg, After(st, ws[..n]), id, t, link, ws[n]);
    FailedAtWrite(log, ws, n, Overlay(After(st, ws[..n]), id, t, link));
  }

  lemma FailedAtWrite(log: seq<AuditEvent>, ws: seq<Write>, n: nat, st: State)
    requires n < |ws| && Replay(EMPTY, log + Events(ws[..n])) == Success(st) && Replay(st, Lines(ws[n])).Failure?
    ensures Boot(Text(log + Events(ws))).Failure?
  {
    hide Replay, Lines, Boot, Text, Events;
    var more := EventsAround(ws, n);
    ReplayAppend(EMPTY, log + Events(ws[..n]), Lines(ws[n]));
    ReplayAppend(EMPTY, log + Events(ws[..n]) + Lines(ws[n]), more);
    assert log + Events(ws) == log + Events(ws[..n]) + Lines(ws[n]) + more;
    FailedReplay(log + Events(ws));
  }

  lemma {:induction false} EventsAround(ws: seq<Write>, n: nat) returns (more: seq<AuditEvent>)
    requires n < |ws|
    ensures Events(ws) == Events(ws[..n]) + Lines(ws[n]) + more
    decreases |ws|
  {
    hide Lines;
    var m := |ws| - 1;
    if n < m {
      assert ws[..m][..n] == ws[..n];
      var before := EventsAround(ws[..m], n);
      more := before + Lines(ws[m]);
    } else {
      more := [];
    }
  }

  lemma TouchFails(cfg: Config, st: State, id: Id, t: Ticket, link: AuditEvent, w: Write)
    requires id in st.tickets && id in st.events && t.version == st.tickets[id].version + 1
    requires Lands(cfg, st, w) && Target(w) == Some(id)
    ensures Replay(Overlay(st, id, t, link), Lines(w)).Failure?
  {
    hide ApplyToState, Replay, Do;
    var o := Overlay(st, id, t, link);
    match w
    case Append(_, _, e) => ReplayOne(o, e); ReusedVersion(o, e);
    case Supersede(_, _, l, _, created) => ReplayTwo(o, l, created); ReusedVersion(o, l);
  }

  // ---------------------------------------------------------- the exact condition

  /** The recovered gate may go on with these writes: the file ends a line, and
      none of them concerns a ticket whose link the boot undid. */
  ghost predicate MayGoOn(text: string, ws: seq<Write>) {
    ws == []
    || (EndsLine(text)
        && forall i :: 0 <= i < |ws| ==> Target(ws[i]).Some? ==> !Repaired(text, Target(ws[i]).value))
  }

  /** The store a boot finds after `k` characters of write `w`. */
  function Found(st: State, w: Write, k: nat): State {
    if k < |WriteText(w)| - 1 || Do(st, w).Failure? then st else Do(st, w).value
  }

  lemma {:induction false} TextAppend(a: seq<AuditEvent>, b: seq<AuditEvent>)
    ensures Text(a + b) == Text(a) + Text(b)
  {
    hide Dump;
    if b == [] {
      assert a + b == a && Text(a) + "" == Text(a);
    } else {
      var n := |b| - 1;
      assert (a + b)[..|a + b| - 1] == a + b[..n];
      TextAppend(a, b[..n]);
    }
  }

  lemma TextHead(log: seq<AuditEvent>)
    requires log != []
    ensures Text(log) == Dump(log[0]) + Text(log[1..])
  {
    hide Dump;
    assert [log[0]] + log[1..] == log;
    TextAppend([log[0]], log[1..]);
    assert [] + [log[0]] == [log[0]];
    TextSnoc([], log[0]);
  }

  lemma {:induction false} EventsNotEmpty(ws: seq<Write>)
    requires ws != []
    ensures Events(ws) != []
  {
  }

  lemma TornLife(log: seq<AuditEvent>, e: AuditEvent, k: nat, ws: seq<Write>)
    requires Replay(EMPTY, log).Success? && 0 < k <= |Line(e)| && ws != []
    ensures Boot(Text(log) + Line(e)[..k] + Text(Events(ws))).Failure? && !MayGoOn(Text(log) + Line(e)[..k], ws)
  {
    hide Boot, Text, Replay, Line, Dump, Repaired, EndsLine;
    EventsNotEmpty(ws);
    TextHead(Events(ws));
    GluedBootFails(log, e, k, Events(ws)[0], Text(Events(ws)[1..]));
    TornEnd(log, e, k);
  }

  lemma CleanLife(cfg: Config, st: State, log: seq<AuditEvent>, ws: seq<Write>, chains: map<Id, seq<Id>>)
    requires cfg.Valid() && Sound(cfg, st, chains) && AllLand(cfg, st, ws) && Replay(EMPTY, log) == Success(st)
    ensures Boot(Text(log) + Text(Events(ws))) == Success(After(st, ws)) && MayGoOn(Text(log), ws)
  {
    hide Boot, Text, Replay, Repaired, EndsLine, Sound, AllLand, After, Events, Dangling;
    GoOnClean(cfg, st, log, ws, chains);
    StaysSound(cfg, st, ws, chains);
    SoundHasNoDangling(cfg, After(st, ws), ChainsAfterAll(chains, ws));
    RepairNothing(After(st, ws));
    TextAppend(log, Events(ws));
    BootText(log + Events(ws));
    TextEndsLine(log);
    SoundHasNoDangling(cfg, st, chains);
    forall i | 0 <= i < |ws| && Target(ws[i]).Some? ensures !Repaired(Text(log), Target(ws[i]).value) {
      RepairedText(log, Target(ws[i]).value);
    }
  }

  /** After a supersede of which only the link survived. */
  lemma RepairedLife(cfg: Config, st: State, log: seq<AuditEvent>, w: Write, chains: map<Id, seq<Id>>, ws: seq<Write>)
    requires cfg.Valid() && Sound(cfg, st, chains) && Replay(EMPTY, log) == Success(st)
    requires w.Supersede? && Lands(cfg, st, w) && AllLand(cfg, st, ws)
    requires forall i :: 0 <= i < |ws| ==> Added(ws[i]) != Some(w.ticket.ticketId)
    ensures var text := Text(log + [w.link]);
            if MayGoOn(text, ws) then Boot(text + Text(Events(ws))) == Success(After(st, ws))
            else Boot(text + Text(Events(ws))).Failure?
  {
    hide Boot, Text, Replay, LegalWrite, Do, Sound, Repaired, EndsLine, ApplyToState, Overlay, HalfDone, AllLand, After,
         Events, Added, ChainsAfterAll;
    LandsFacts(cfg, st, w, chains);
    SupersedeSnapshot(cfg, Snapshot(st, w), w);
    HalfShape(cfg, st, w, chains);
    HalfIsOverlay(cfg, st, w, chains);
    var id, t := w.oldId, HalfDone(st, w).tickets[w.oldId];
    ReplayAppend(EMPTY, log, [w.link]);
    TextAppend(log + [w.link], Events(ws));
    RepairedOnly(cfg, st, log + [w.link], chains, id, t, w.link, ws);
    if exists i :: 0 <= i < |ws| && Target(ws[i]) == Some(id) {
      GoOnThere(cfg, st, log + [w.link], ws, chains, id, t, w.link);
    } else {
      GoOnElsewhere(cfg, st, log + [w.link], ws, chains, id, t, w.link);
      StaysSound(cfg, st, ws, chains);
      ElsewhereBoots(cfg, After(st, ws), log + [w.link] + Events(ws), ChainsAfterAll(chains, ws), id, t, w.link);
    }
  }

  lemma RepairedOnly(cfg: Config, st: State, log: seq<AuditEvent>, chains: map<Id, seq<Id>>, id: Id, t: Ticket,
                     link: AuditEvent, ws: seq<Write>)
    requires cfg.Valid() && Sound(cfg, st, chains) && id in st.tickets && id in st.events
    requires Replay(EMPTY, log) == Success(Overlay(st, id, t, link))
    requires t.supersededBy.Some? && t.supersededBy.value !in st.tickets
    ensures MayGoOn(Text(log), ws) <==> !exists i :: 0 <= i < |ws| && Target(ws[i]) == Some(id)
  {
    hide Sound, Replay, Text, Repaired, EndsLine, Overlay, Target;
    TextEndsLine(log);
    SoundHasNoDangling(cfg, st, chains);
    OverlayShape(st, id, t, link);
    forall i | 0 <= i < |ws| && Target(ws[i]).Some?
      ensures Repaired(Text(log), Target(ws[i]).value) <==> Target(ws[i]).value == id
    {
      RepairedText(log, Target(ws[i]).value);
    }
  }

  /** The exact condition. Cut one write anywhere, boot, and let the gate go on
      with any number of further writes: the boot after that finds what the gate
      believed if the file ended a line when it came up and no write concerned a
      ticket whose link that boot undid; otherwise it refuses the log. */
  lemma SecondLife(cfg: Config, st: State, log: seq<AuditEvent>, w: Write, chains: map<Id, seq<Id>>, k: nat, ws: seq<Write>)
    requires cfg.Valid() && Sound(cfg, st, chains) && Replay(EMPTY, log) == Success(st)
    requires Lands(cfg, st, w) && k <= |WriteText(w)| && AllLand(cfg, Found(st, w, k), ws)
    requires forall i :: 0 <= i < |ws| ==> Added(ws[i]).Some? ==> Added(ws[i]) != Added(w)
    ensures var text := Text(log) + WriteText(w)[..k];
            Boot(text) == Success(Found(st, w, k))
            && if MayGoOn(text, ws) then Boot(text + Text(Events(ws))) == Success(After(Found(st, w, k), ws))
               else Boot(text + Text(Events(ws))).Failure?
  {
    hide Boot, Text, Replay, LegalWrite, Do, Sound, AllLand, After, Events, Line, Dump, Lands, WriteText, MayGoOn;
    LandsFacts(cfg, st, w, chains);
    LandsSucceeds(cfg, st, w);
    FirstBoot(cfg, st, log, w, chains, k);
    var text := Text(log) + WriteText(w)[..k];
    if ws == [] {
      NothingMore(text);
    } else if k == 0 {
      assert text == Text(log);
      FoundNothing(st, w);
      CleanLife(cfg, st, log, ws, chains);
    } else if k == |WriteText(w)| {
      WriteTextIsLines(log, w);
      assert text == Text(log + Lines(w));
      WriteIsReplay(st, w);
      ReplayAppend(EMPTY, log, Lines(w));
      CleanLife(cfg, Do(st, w).value, log + Lines(w), ws, ChainsAfter(chains, w));
    } else if w.Supersede? {
      CutSupersedeLife(cfg, st, log, w, chains, k, ws);
    } else {
      var e := Lines(w)[0];
      OneLineText(w, k);
      assert text == Text(log) + Line(e)[..k];
      TornLife(log, e, k, ws);
    }
  }

  lemma FirstBoot(cfg: Config, st: State, log: seq<AuditEvent>, w: Write, chains: map<Id, seq<Id>>, k: nat)
    requires cfg.Valid() && Sound(cfg, st, chains) && Replay(EMPTY, log) == Success(st)
    requires Lands(cfg, st, w) && k <= |WriteText(w)|
    ensures Boot(Text(log) + WriteText(w)[..k]) == Success(Found(st, w, k))
  {
    hide Boot, Text, Replay, LegalWrite, Do, Sound, WriteText;
    LandsFacts(cfg, st, w, chains);
    CutWrite(cfg, st, log, Snapshot(st, w), w, chains, k);
  }

  lemma NothingMore(text: string)
    ensures text + Text(Events([])) == text && MayGoOn(text, []) && forall st :: After(st, []) == st
  {
  }

  lemma FoundNothing(st: State, w: Write)
    ensures Found(st, w, 0) == st
  {
    hide Dump;
    match w
    case Create(_, e) => DumpLength(e);
    case Append(_, _, e) => DumpLength(e);
    case Supersede(_, _, link, _, created) => DumpLength(link); DumpLength(created);
  }

  lemma OneLineText(w: Write, k: nat)
    requires !w.Supersede? && k < |WriteText(w)|
    ensures |Lines(w)| == 1 && k <= |Line(Lines(w)[0])| && WriteText(w)[..k] == Line(Lines(w)[0])[..k]
  {
    hide Line;
  }

  lemma CutSupersedeLife(cfg: Config, st: State, log: seq<AuditEvent>, w: Write, chains: map<Id, seq<Id>>, k: nat,
                         ws: seq<Write>)
    requires cfg.Valid() && Sound(cfg, st, chains) && Replay(EMPTY, log) == Success(st)
    requires w.Supersede? && Lands(cfg, st, w) && 0 < k < |WriteText(w)| && AllLand(cfg, Found(st, w, k), ws) && ws != []
    requires forall i :: 0 <= i < |ws| ==> Added(ws[i]).Some? ==> Added(ws[i]) != Added(w)
    ensures var text := Text(log) + WriteText(w)[..k];
            if MayGoOn(text, ws) then Boot(text + Text(Events(ws))) == Success(After(Found(st, w, k), ws))
            else Boot(text + Text(Events(ws))).Failure?
  {
    hide Boot, Text, Replay, LegalWrite, Do, Sound, AllLand, After, Events, Line, Dump, Lands, MayGoOn, HalfDone;
    var link, created := w.link, w.created;
    var text := Text(log) + WriteText(w)[..k];
    DumpShape(link);
    DumpShape(created);
    if k <= |Line(link)| {
      assert WriteText(w)[..k] == Line(link)[..k];
      TornLife(log, link, k, ws);
    } else {
      TextSnoc(log, link);
      LinkReplays(cfg, st, log, w, chains);
      var j := k - |Dump(link)|;
      if j == 0 {
        assert WriteText(w)[..k] == Dump(link);
        RepairedLife(cfg, st, log, w, chains, ws);
      } else {
        assert WriteText(w)[..k] == Dump(link) + Line(created)[..j];
        assert text == Text(log + [link]) + Line(created)[..j];
        TornLife(log + [link], created, j, ws);
      }
    }
  }

  lemma DumpShape(e: AuditEvent)
    ensures Dump(e) == Line(e) + "\n" && |Dump(e)| == |Line(e)| + 1 && |Line(e)| > 0
  {
    hide Line;
    LineFacts(e);
  }

  lemma LinkReplays(cfg: Config, st: State, log: seq<AuditEvent>, w: Write, chains: map<Id, seq<Id>>)
    requires cfg.Valid() && Sound(cfg, st, chains) && Replay(EMPTY, log) == Success(st)
    requires w.Supersede? && Lands(cfg, st, w)
    ensures Replay(EMPTY, log + [w.link]).Success?
  {
    hide Replay, LegalWrite, Do, Sound, ApplyToState, HalfDone;
    LandsFacts(cfg, st, w, chains);
    SupersedeSnapshot(cfg, Snapshot(st, w), w);
    HalfShape(cfg, st, w, chains);
    ReplayAppend(EMPTY, log, [w.link]);
  }

  // ------------------------------------------------------ both ways it goes wrong

  const SAMPLE := Config(1, false, 3600, {}, (s: string) => s, (s: string) => s,
                         (service: string, operation: string, parameters: Value) => true,
                         (service: string, operation: string) => false)

  const ACTION := Service.Payload("start", 0, "start it", "ec2", "StartInstances", "us-east-1", [], [], None, map[])

  const CREATE := AgentCreate(ACTION, "agent", None, None)

  function StampOf(id: Id): Stamp { Stamp(id, "e", "l", 0, 0) }

  lemma SampleCreate(id: Id, st: State) returns (w: Write)
    requires id != "" && id !in st.tickets
    ensures w.Create? && w.ticket.ticketId == id && w.ticket.supersededBy.None? && w.ticket.status == Pending
    ensures Decide(SAMPLE, CREATE, None, StampOf(id)) == Success(Perform(w)) && Lands(SAMPLE, st, w)
    ensures LegalCreation(SAMPLE, w.created) && id in Do(st, w).value.tickets && Do(st, w).value.tickets[id] == w.ticket
  {
    hide Canonical;
    assert BuildTicket(SAMPLE, ACTION, "agent", "agent", None, None, None, StampOf(id)).Success?;
    w := Decide(SAMPLE, CREATE, None, StampOf(id)).value.write;
    DecisionIsLegal(SAMPLE, CREATE, None, StampOf(id));
    hide Fresh, BuildTicket;
  }

  lemma StartIsSound(cfg: Config)
    ensures Sound(cfg, EMPTY, map[]) && Replay(EMPTY, []) == Success(EMPTY) && Text([]) == ""
  {
  }

  lemma TextOfOne(w: Write)
    ensures Text(Events([w])) == WriteText(w)
  {
    hide Dump, Text;
    StartIsSound(SAMPLE);
    assert [w][..0] == [];
    assert Events([w]) == [] + Lines(w) == Lines(w);
    WriteTextIsLines([], w);
    assert Text([]) + WriteText(w) == WriteText(w);
  }

  lemma AllLandOne(cfg: Config, st: State, w: Write)
    requires Lands(cfg, st, w)
    ensures AllLand(cfg, st, [w])
  {
    hide Lands;
    assert [w][..0] == [];
  }

  lemma CreateText(w: Write)
    requires w.Create?
    ensures WriteText(w) == Line(w.created) + "\n" && |Line(w.created)| > 2
  {
    hide Line;
    LineIsGlued(w.created);
  }

  /** One torn character is enough: the gate comes up, accepts the next ticket,
      and never comes up again. */
  lemma TornTailExample() returns (first: Write, second: Write)
    ensures Lands(SAMPLE, EMPTY, first) && Lands(SAMPLE, EMPTY, second)
    ensures |WriteText(first)| > 1 && Boot(WriteText(first)[..1]) == Success(EMPTY)
    ensures Boot(WriteText(first)[..1] + WriteText(second)).Failure?
  {
    assert EMPTY.tickets == map[] && SAMPLE.Valid();
    hide *;
    first := SampleCreate("T1", EMPTY);
    second := SampleCreate("T2", EMPTY);
    TornStart(SAMPLE, first, second);
  }

  lemma TornStart(cfg: Config, first: Write, second: Write)
    requires cfg.Valid() && first.Create? && Lands(cfg, EMPTY, first)
    ensures |WriteText(first)| > 1 && Boot(WriteText(first)[..1]) == Success(EMPTY)
    ensures Boot(WriteText(first)[..1] + WriteText(second)).Failure?
  {
    hide Boot, WriteText, Lands, EndsLine, Do, Line, Text, Replay, Events;
    StartIsSound(cfg);
    CreateText(first);
    var start := WriteText(first)[..1];
    assert start == Line(first.created)[..1] && Text([]) + start == start;
    FirstBoot(cfg, EMPTY, [], first, map[], 1);
    TornLife([], first.created, 1, [second]);
    TextOfOne(second);
  }

  /** And one undone link: a comment on the ticket whose supersede was lost. */
  lemma UndoneLinkExample() returns (st: State, log: seq<AuditEvent>, lost: Write, next: Write)
    ensures Boot(Text(log)) == Success(st) && lost.Supersede? && Lands(SAMPLE, st, lost) && Lands(SAMPLE, st, next)
    ensures Boot(Text(log) + Dump(lost.link)) == Success(st)
    ensures Boot(Text(log) + Dump(lost.link) + WriteText(next)).Failure?
  {
    assert "T1" !in EMPTY.tickets;
    hide *;
    var first := SampleCreate("T1", EMPTY);
    log := [first.created];
    st := SampleStore(first);
    lost := SampleSupersede(st);
    next := SampleComment(st);
    UndoneLinkIsFatal(SAMPLE, st, log, lost, map["T1" := ["T1"]], next);
  }

  lemma SampleStore(first: Write) returns (st: State)
    requires first.Create? && Lands(SAMPLE, EMPTY, first) && first.ticket.ticketId == "T1"
    requires first.ticket.supersededBy.None? && first.ticket.status == Pending
    ensures SAMPLE.Valid() && Sound(SAMPLE, st, map["T1" := ["T1"]]) && Replay(EMPTY, [first.created]) == Success(st)
    ensures "T1" in st.tickets && "T1" in st.events && "T2" !in st.tickets && st.tickets["T1"] == first.ticket
  {
    hide Lands, Do, Sound, Coherent;
    LandsSucceeds(SAMPLE, EMPTY, first);
    StartIsSound(SAMPLE);
    LandsFacts(SAMPLE, EMPTY, first, map[]);
    WriteIsReplay(EMPTY, first);
    assert map[]["T1" := ["T1"]] == map["T1" := ["T1"]];
    st := Do(EMPTY, first).value;
    SampleMaps(first);
  }

  lemma SampleMaps(first: Write)
    requires first.Create? && Lands(SAMPLE, EMPTY, first)
    ensures var st := Do(EMPTY, first).value;
            st.tickets == map[first.ticket.ticketId := first.ticket] && st.events.Keys == {first.ticket.ticketId}
  {
    hide Fresh, Merged;
  }

  lemma SampleSupersede(st: State) returns (w: Write)
    requires "T1" in st.tickets && "T1" in st.events && "T2" !in st.tickets && st.tickets["T1"].ticketId == "T1"
    requires st.tickets["T1"].status == Pending && st.tickets["T1"].supersededBy.None?
    ensures w.Supersede? && w.oldId == "T1" && Lands(SAMPLE, st, w)
  {
    hide Canonical;
    var t := st.tickets["T1"];
    var req := Request.Supersede("T1", "bob", ACTION);
    assert BuildTicket(SAMPLE, ACTION, t.assignee, "bob", None, Some(t), None, StampOf("T2")).Success?;
    w := Decide(SAMPLE, req, Some(t), StampOf("T2")).value.write;
    DecisionIsLegal(SAMPLE, req, Some(t), StampOf("T2"));
    hide BuildTicket, LegalWrite;
  }

  lemma SampleComment(st: State) returns (w: Write)
    requires "T1" in st.tickets && "T1" in st.events && st.tickets["T1"].ticketId == "T1"
    ensures Target(w) == Some("T1") && Added(w) == None && Lands(SAMPLE, st, w)
  {
    var t := st.tickets["T1"];
    var req := Comment("T1", "bob", "why?");
    w := Decide(SAMPLE, req, Some(t), StampOf("T3")).value.write;
    DecisionIsLegal(SAMPLE, req, Some(t), StampOf("T3"));
    hide LegalWrite;
  }

  lemma UndoneLinkIsFatal(cfg: Config, st: State, log: seq<AuditEvent>, lost: Write, chains: map<Id, seq<Id>>, next: Write)
    requires cfg.Valid() && Sound(cfg, st, chains) && Replay(EMPTY, log) == Success(st)
    requires lost.Supersede? && Lands(cfg, st, lost) && Lands(cfg, st, next)
    requires Target(next) == Some(lost.oldId) && Added(next) != Some(lost.ticket.ticketId)
    ensures Boot(Text(log)) == Success(st) && Boot(Text(log) + Dump(lost.link)) == Success(st)
    ensures Boot(Text(log) + Dump(lost.link) + WriteText(next)).Failure?
  {
    hide Boot, Text, Replay, LegalWrite, Do, Sound, ApplyToState, Overlay, HalfDone, AllLand, After, Events, WriteText, Dump;
    LandsFacts(cfg, st, lost, chains);
    SupersedeSnapshot(cfg, Snapshot(st, lost), lost);
    HalfShape(cfg, st, lost, chains);
    HalfIsOverlay(cfg, st, lost, chains);
    ReplayAppend(EMPTY, log, [lost.link]);
    AllLandOne(cfg, st, next);
    assert Target([next][0]) == Some(lost.oldId);
    GoOnThere(cfg, st, log + [lost.link], [next], chains, lost.oldId, HalfDone(st, lost).tickets[lost.oldId], lost.link);
    TextAppend(log + [lost.link], Events([next]));
    TextOfOne(next);
    TextSnoc(log, lost.link);
    LinkOnly(cfg, st, log, lost, chains);
  }

  lemma LinkOnly(cfg: Config, st: State, log: seq<AuditEvent>, w: Write, chains: map<Id, seq<Id>>)
    requires cfg.Valid() && Sound(cfg, st, chains) && Replay(EMPTY, log) == Success(st)
    requires w.Supersede? && Lands(cfg, st, w)
    ensures Boot(Text(log)) == Success(st) && Boot(Text(log) + Dump(w.link)) == Success(st)
  {
    hide Sound, Replay, Lands, Boot, Text, Line, Dump;
    DumpLength(w.link);
    DumpLength(w.created);
    FirstBoot(cfg, st, log, w, chains, 0);
    assert Text(log) + WriteText(w)[..0] == Text(log);
    FirstBoot(cfg, st, log, w, chains, |Dump(w.link)|);
    assert WriteText(w)[..|Dump(w.link)|] == Dump(w.link);
  }
}
