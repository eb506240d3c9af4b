/** The event log and the three maps that cache it (`repo/jsonl_store.py`), as
    values: what each write does, what `_replay` rebuilds from the text of the
    log, and `_repair_partial_supersede`. The class in JsonlRepository.dfy does
    the same in place. */
module Store {
  import opened Wrappers
  import opened Models
  import opened Fold
  import opened EventCodec
  import opened Json

  type Id = string

  datatype State = State(
    tickets: map<Id, Ticket>,
    events: map<Id, seq<AuditEvent>>,
    byIdem: map<(string, string), Id>)

  const EMPTY := State(map[], map[], map[])

  // -------------------------------------------------------------- the maps

  /** `_apply_to_state` */
  function ApplyToState(st: State, e: AuditEvent): Result<State, Error> {
    if e.kind == TicketCreated then
      if !e.details.TicketDetails? then Failure(Malformed)
      else
        var t := e.details.ticket;
        var before := if t.ticketId in st.events then st.events[t.ticketId] else [];
        Success(State(st.tickets[t.ticketId := t],
                      st.events[t.ticketId := before + [e]],
                      if Truthy(t.idempotencyKey)
                      then st.byIdem[(t.assignee, t.idempotencyKey.value) := t.ticketId]
                      else st.byIdem))
    else if e.ticketId !in st.tickets || e.ticketId !in st.events then Failure(Malformed)
    else
      var t :- ApplyEvent(st.tickets[e.ticketId], e);
      Success(st.(tickets := st.tickets[e.ticketId := t],
                  events := st.events[e.ticketId := st.events[e.ticketId] + [e]]))
  }

  function Replay(st: State, log: seq<AuditEvent>): Result<State, Error> {
    if log == [] then Success(st)
    else
      var n := |log| - 1;
      var before :- Replay(st, log[..n]);
      ApplyToState(before, log[n])
  }

  // ---------------------------------------------------------------- repair

  /** A link to a successor whose creation never reached the log. */
  predicate Dangling(st: State, id: Id)
    requires id in st.tickets
  {
    st.tickets[id].supersededBy.Some? && st.tickets[id].supersededBy.value !in st.tickets
  }

  /** The list of a dangling ticket without its last event. */
  function WithoutLast(es: seq<AuditEvent>): seq<AuditEvent> {
    if es == [] then [] else es[..|es| - 1]
  }

  predicate Repairable(st: State, id: Id) {
    id in st.events && FoldTicket(WithoutLast(st.events[id])).Success?
  }

  /** `_repair_partial_supersede`: no repair of one ticket bears on another. */
  function Repair(st: State): Result<State, Error> {
    if forall id :: id in st.tickets.Keys && Dangling(st, id) ==> Repairable(st, id) then
      Success(State(
        map id | id in st.tickets ::
          if Dangling(st, id) then FoldTicket(WithoutLast(st.events[id])).value else st.tickets[id],
        map id | id in st.events ::
          if id in st.tickets && Dangling(st, id) then WithoutLast(st.events[id]) else st.events[id],
        st.byIdem))
    else Failure(Malformed)
  }

  // --------------------------------------------------------------- the text

  /** The log file after these events were written one by one. */
  function Text(log: seq<AuditEvent>): string {
    if log == [] then "" else Text(log[..|log| - 1]) + Dump(log[|log| - 1])
  }

  /** `split(b"\n")` */
  function Split(s: string): (r: seq<string>)
    ensures r != []
  {
    if s == "" then [""]
    else
      var rest := Split(s[1..]);
      if s[0] == '\n' then [""] + rest else [[s[0]] + rest[0]] + rest[1..]
  }

  /** `not raw.strip()` */
  predicate BlankLine(s: string) {
    forall c :: c in s ==> c == ' ' || c == '\t' || c == '\n' || c == '\r' || c as int == 11 || c as int == 12
  }

  /** One turn of the replay loop; `last` says whether the line is the final
      element of the split. */
  function ReplayLine(st: State, line: string, number: nat, last: bool): Result<State, Error> {
    if BlankLine(line) then Success(st)
    else match Loads(line)
      case Bad => if last then Success(st) else Failure(Corrupt(number))
      case Ok(v, _) =>
        match DecodeEvent(v)
        case None => Failure(Malformed)
        case Some(e) => ApplyToState(st, e)
  }

  /** The loop over the first `n` lines. */
  function ReplayLines(lines: seq<string>, n: nat): Result<State, Error>
    requires n <= |lines|
  {
    if n == 0 then Success(EMPTY)
    else
      var st :- ReplayLines(lines, n - 1);
      ReplayLine(st, lines[n - 1], n, n == |lines|)
  }

  /** What a boot makes of the file. */
  function Boot(text: string): Result<State, Error> {
    var lines := Split(text);
    var st :- ReplayLines(lines, |lines|);
    Repair(st)
  }

  // ------------------------------------------------------------- the writes

  /** One call of the repository, with the arguments the service passes. */
  datatype Write =
    | Create(ticket: Ticket, created: AuditEvent)
    | Append(id: Id, expected: int, event: AuditEvent)
    | Supersede(oldId: Id, expected: int, link: AuditEvent, ticket: Ticket, created: AuditEvent)

  /** The events a write puts into the log, in one `write` call. */
  function Lines(w: Write): seq<AuditEvent> {
    match w
    case Create(_, created) => [created]
    case Append(_, _, e) => [e]
    case Supersede(_, _, link, _, created) => [link, created]
  }

  /** The ticket a write changes, and the one it adds. */
  function Target(w: Write): Option<Id> {
    match w
    case Create(_, _) => None
    case Append(id, _, _) => Some(id)
    case Supersede(oldId, _, _, _, _) => Some(oldId)
  }

  function Added(w: Write): Option<Id> {
    match w
    case Create(t, _) => Some(t.ticketId)
    case Append(_, _, _) => None
    case Supersede(_, _, _, t, _) => Some(t.ticketId)
  }

  function IdemTaken(st: State, t: Ticket): bool {
    Truthy(t.idempotencyKey) && (t.assignee, t.idempotencyKey.value) in st.byIdem
  }

  /** `create_ticket` */
  function DoCreate(st: State, t: Ticket, created: AuditEvent): Result<State, Error> {
    if t.ticketId in st.tickets then Failure(Duplicate)
    else if IdemTaken(st, t) then Failure(Duplicate)
    else ApplyToState(st, created)
  }

  /** `append_event` */
  function DoAppend(st: State, id: Id, expected: int, e: AuditEvent): Result<State, Error> {
    if id !in st.tickets then Failure(NotFound)
    else if st.tickets[id].version != expected then Failure(Conflict)
    else
      var t :- ApplyEvent(st.tickets[id], e);
      if id !in st.events then Failure(Malformed)
      else Success(st.(tickets := st.tickets[id := t], events := st.events[id := st.events[id] + [e]]))
  }

  /** `transact_supersede` */
  function DoSupersede(st: State, oldId: Id, expected: int, link: AuditEvent, t: Ticket, created: AuditEvent)
    : Result<State, Error>
  {
    if oldId !in st.tickets then Failure(NotFound)
    else if st.tickets[oldId].version != expected then Failure(Conflict)
    else if t.ticketId in st.tickets then Failure(Duplicate)
    else
      var linked :- ApplyEvent(st.tickets[oldId], link);
      if oldId !in st.events then Failure(Malformed)
      else
        ApplyToState(st.(tickets := st.tickets[oldId := linked],
                         events := st.events[oldId := st.events[oldId] + [link]]), created)
  }

  function Do(st: State, w: Write): Result<State, Error> {
    match w
    case Create(t, created) => DoCreate(st, t, created)
    case Append(id, expected, e) => DoAppend(st, id, expected, e)
    case Supersede(oldId, expected, link, t, created) => DoSupersede(st, oldId, expected, link, t, created)
  }

  /** The arguments of a write agree with each other, as the service builds
      them: an event names the ticket it is appended to, and a creation event
      embeds the ticket. */
  ghost predicate Coherent(w: Write) {
    match w
    case Create(t, created) => CreationOf(created, t)
    case Append(id, _, e) => e.ticketId == id && e.kind != TicketCreated
    case Supersede(oldId, _, link, t, created) =>
      link.ticketId == oldId && link.kind != TicketCreated && CreationOf(created, t)
  }

  ghost predicate CreationOf(created: AuditEvent, t: Ticket) {
    created.kind == TicketCreated && created.details == TicketDetails(t) && created.ticketId == t.ticketId
  }

  // ------------------------------------------------------ replaying a write

  lemma {:induction false} ReplayAppend(st: State, log: seq<AuditEvent>, more: seq<AuditEvent>)
    ensures Replay(st, log + more) ==
            match Replay(st, log) case Success(mid) => Replay(mid, more) case Failure(err) => Failure(err)
  {
    if more == [] {
      assert log + more == log;
    } else {
      var n := |more| - 1;
      assert (log + more)[..|log + more| - 1] == log + more[..n];
      ReplayAppend(st, log, more[..n]);
    }
  }

  lemma ReplayOne(st: State, e: AuditEvent)
    ensures Replay(st, [e]) == ApplyToState(st, e)
  {
    assert [e][..0] == [];
  }

  lemma ReplayTwo(st: State, e: AuditEvent, f: AuditEvent)
    ensures Replay(st, [e, f]) ==
            match ApplyToState(st, e) case Success(mid) => ApplyToState(mid, f) case Failure(err) => Failure(err)
  {
    assert [e, f][..1] == [e];
    ReplayOne(st, e);
  }

  /** A successful write leaves the maps exactly as replaying its lines would:
      the writers and the boot share one fold. */
  lemma WriteIsReplay(st: State, w: Write)
    requires Coherent(w) && Do(st, w).Success?
    ensures Replay(st, Lines(w)) == Do(st, w)
  {
    match w
    case Create(t, created) => ReplayOne(st, created);
    case Append(id, _, e) => ReplayOne(st, e);
    case Supersede(oldId, _, link, t, created) => ReplayTwo(st, link, created);
  }

  // ------------------------------------------------------ reading the text

  lemma {:induction false} SplitLine(line: string, rest: string)
    requires OneLine(line)
    ensures Split(line + "\n" + rest) == [line] + Split(rest)
  {
    var s := line + "\n" + rest;
    if line == "" {
      assert s[1..] == rest;
    } else {
      assert s[0] == line[0] && s[1..] == line[1..] + "\n" + rest;
      SplitLine(line[1..], rest);
      assert [line[0]] + line[1..] == line;
    }
  }

  lemma {:induction false} SplitTail(line: string)
    requires OneLine(line)
    ensures Split(line) == [line]
  {
    if line != "" {
      SplitTail(line[1..]);
      assert [line[0]] + line[1..] == line;
    }
  }

  function LinesOf(log: seq<AuditEvent>): (r: seq<string>)
    ensures |r| == |log| && forall i :: 0 <= i < |log| ==> r[i] == Line(log[i])
  {
    if log == [] then [] else LinesOf(log[..|log| - 1]) + [Line(log[|log| - 1])]
  }

  lemma {:induction false} SplitText(log: seq<AuditEvent>, tail: string)
    ensures Split(Text(log) + tail) == LinesOf(log) + Split(tail)
  {
    if log == [] {
      assert Text(log) + tail == tail;
    } else {
      var n := |log| - 1;
      var line := Line(log[n]);
      assert Text(log) + tail == Text(log[..n]) + (line + "\n" + tail);
      LineFacts(log[n]);
      SplitLine(line, tail);
      SplitText(log[..n], line + "\n" + tail);
      assert LinesOf(log[..n]) + ([line] + Split(tail)) == LinesOf(log) + Split(tail);
    }
  }

  /** A complete line is applied, whether or not it is the last one. */
  lemma ReplayFullLine(st: State, e: AuditEvent, number: nat, last: bool)
    ensures ReplayLine(st, Line(e), number, last) == ApplyToState(st, e)
  {
    LineFacts(e);
    assert '{' in Line(e);
  }

  /** A torn one is skipped when it is the last. */
  lemma ReplayTornLine(st: State, e: AuditEvent, k: nat, number: nat)
    requires k < |Line(e)|
    ensures ReplayLine(st, Line(e)[..k], number, true) == Success(st)
  {
    LineFacts(e);
  }

  lemma {:induction false} ReplayLinesOf(log: seq<AuditEvent>, lines: seq<string>)
    requires |log| <= |lines| && LinesOf(log) == lines[..|log|]
    ensures ReplayLines(lines, |log|) == Replay(EMPTY, log)
  {
    hide Line, ReplayLine;
    if log != [] {
      var n := |log| - 1;
      assert LinesOf(log[..n]) == lines[..n] by { assert LinesOf(log)[..n] == lines[..|log|][..n]; }
      ReplayLinesOf(log[..n], lines);
      assert lines[n] == LinesOf(log)[n] == Line(log[n]);
      if Replay(EMPTY, log[..n]).Success? {
        ReplayFullLine(Replay(EMPTY, log[..n]).value, log[n], n + 1, n + 1 == |lines|);
      }
    }
  }

  lemma ReplayLinesWithTail(log: seq<AuditEvent>, tail: string)
    ensures ReplayLines(LinesOf(log) + [tail], |log| + 1) ==
            match Replay(EMPTY, log)
            case Success(st) => ReplayLine(st, tail, |log| + 1, true)
            case Failure(err) => Failure(err)
  {
    hide ReplayLine, Replay, LinesOf;
    assert (LinesOf(log) + [tail])[..|log|] == LinesOf(log);
    ReplayLinesOf(log, LinesOf(log) + [tail]);
  }

  /** Booting from whole lines and an unfinished rest. */
  lemma BootWithTail(log: seq<AuditEvent>, tail: string)
    requires OneLine(tail) && Replay(EMPTY, log).Success?
    ensures Boot(Text(log) + tail) ==
            match ReplayLine(Replay(EMPTY, log).value, tail, |log| + 1, true)
            case Success(st) => Repair(st)
            case Failure(err) => Failure(err)
  {
    hide ReplayLine, ReplayLines, Replay, Repair, Text, Split, LinesOf;
    SplitText(log, tail);
    SplitTail(tail);
    ReplayLinesWithTail(log, tail);
  }

  /** Booting from whole lines is replaying them. */
  lemma BootText(log: seq<AuditEvent>)
    requires Replay(EMPTY, log).Success?
    ensures Boot(Text(log)) == Repair(Replay(EMPTY, log).value)
  {
    hide Repair, Replay, Text, Boot;
    BootWithTail(log, "");
    assert Text(log) + "" == Text(log);
  }

  /** Once the replay has raised, it has raised. */
  lemma {:induction false} FailureStays(lines: seq<string>, m: nat, n: nat)
    requires m <= n <= |lines| && ReplayLines(lines, m).Failure?
    ensures ReplayLines(lines, n) == ReplayLines(lines, m)
    decreases n
  {
    hide ReplayLine;
    if m < n { FailureStays(lines, m, n - 1); }
  }

  // ------------------------------------------------------- writing the text

  /** The characters one write appends to the file. */
  function WriteText(w: Write): string {
    match w
    case Create(_, created) => Dump(created)
    case Append(_, _, e) => Dump(e)
    case Supersede(_, _, link, _, created) => Dump(link) + Dump(created)
  }

  lemma WriteTextIsLines(log: seq<AuditEvent>, w: Write)
    ensures Text(log) + WriteText(w) == Text(log + Lines(w))
  {
    hide Dump;
    match w
    case Create(_, created) => TextSnoc(log, created);
    case Append(_, _, e) => TextSnoc(log, e);
    case Supersede(_, _, link, _, created) =>
      TextSnoc(log, link);
      TextSnoc(log + [link], created);
      assert log + [link, created] == (log + [link]) + [created];
  }

  lemma TextSnoc(log: seq<AuditEvent>, e: AuditEvent)
    ensures Text(log + [e]) == Text(log) + Dump(e)
  {
    hide Dump;
    assert (log + [e])[..|log|] == log;
  }
}
