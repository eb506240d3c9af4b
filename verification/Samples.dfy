/** Two short runs, step by step: a comment whose write is cut inside a character,
    after which the gate does not come up, and an approval that is executed long
    after its time to live. */
module Samples {
  import opened Wrappers
  import opened Models
  import opened Store
  import opened Service
  import opened Legality
  import opened Protocol
  import opened Json
  import opened CanonicalJson
  import opened EventCodec
  import opened SecondBoot
  import opened ByteLog

  // ------------------------------------------------------- one call after another

  function Call(req: Request, s: Stamp): seq<Step> {
    [ReadStep(0, req), WriteStep(0, s)]
  }

  lemma RunOn(cfg: Config, steps: seq<Step>, e: Step)
    ensures Run(cfg, steps + [e]) == Next(cfg, Run(cfg, steps), e)
  {
    hide Next;
    assert (steps + [e])[..|steps|] == steps;
  }

  /** Nobody writes between the two steps of a call. */
  lemma CallLands(cfg: Config, steps: seq<Step>, req: Request, s: Stamp, w: Write)
    requires GoodStamp(s) && Decide(cfg, req, Read(Run(cfg, steps).store, req), s) == Success(Perform(w))
    requires Do(Run(cfg, steps).store, w).Success?
    ensures Answer(cfg, Run(cfg, steps + [ReadStep(0, req)]), 0, s) == Success(Perform(w))
    ensures Run(cfg, steps + Call(req, s)).store == Do(Run(cfg, steps).store, w).value
  {
    hide Decide, Do, Read, Run, Lines;
    RunOn(cfg, steps, ReadStep(0, req));
    RunOn(cfg, steps + [ReadStep(0, req)], WriteStep(0, s));
    assert steps + [ReadStep(0, req)] + [WriteStep(0, s)] == steps + Call(req, s);
  }

  const OPENED := Call(CREATE, StampOf("T1"))

  const APPROVED := OPENED + Call(Approve("T1", "bob"), StampOf("T1"))

  /** The ticket the sample runs are about. */
  ghost predicate Holds(st: State, status: Status, approvals: seq<Approval>, version: int) {
    "T1" in st.tickets && "T1" in st.events
    && var t := st.tickets["T1"];
       t.ticketId == "T1" && t.status == status && t.approvals == approvals && t.version == version
       && t.assignee == "agent" && t.proposedBy == "agent" && t.supersededBy.None?
       && t.actionDetails.parametersHash == "{}"
  }

  lemma OpenedHolds()
    ensures Holds(Run(SAMPLE, OPENED).store, Pending, [], 1)
  {
    hide Next;
    assert [] + OPENED == OPENED && Run(SAMPLE, []) == START;
    hide Run;
    var w := SampleCreate("T1", EMPTY);
    CallLands(SAMPLE, [], CREATE, StampOf("T1"), w);
    SampleTicket(w);
  }

  lemma SampleTicket(w: Write)
    requires Decide(SAMPLE, CREATE, None, StampOf("T1")) == Success(Perform(w)) && Do(EMPTY, w).Success?
    ensures Holds(Do(EMPTY, w).value, Pending, [], 1)
  {
    assert Canonical(Object([])) == "{}";
  }

  lemma ApprovedHolds()
    ensures Holds(Run(SAMPLE, APPROVED).store, Approved, [Approval("bob", 0)], 2)
  {
    hide Run, Next;
    OpenedHolds();
    var st := Run(SAMPLE, OPENED).store;
    var req, s := Approve("T1", "bob"), StampOf("T1");
    var w := Decide(SAMPLE, req, Read(st, req), s).value.write;
    CallLands(SAMPLE, OPENED, req, s, w);
  }

  /** However long ago the approval was, the executor may start: at any time from
      the end of its time to live on the ticket is stale, and is executed. */
  lemma StaleStartExample(now: int)
    requires now >= SAMPLE.ttl
    ensures var before := Run(SAMPLE, APPROVED).store;
            "T1" in before.tickets && before.tickets["T1"].status == Approved && Overdue(SAMPLE, before.tickets["T1"], now)
    ensures var after := Run(SAMPLE, APPROVED + Call(Start("T1", "agent", "{}", None), Stamp("T1", "e", "l", now, now))).store;
            "T1" in after.tickets && after.tickets["T1"].status == Executing
  {
    hide Run, Next;
    ApprovedHolds();
    var st := Run(SAMPLE, APPROVED).store;
    var req, s := Start("T1", "agent", "{}", None), Stamp("T1", "e", "l", now, now);
    var w := Decide(SAMPLE, req, Read(st, req), s).value.write;
    CallLands(SAMPLE, APPROVED, req, s, w);
  }

  // ------------------------------------------------------ a character cut in two

  lemma {:induction false} EscapeKeeps(s: string, i: nat)
    requires i < |s| && s[i] as int >= 0x80
    ensures s[i] in Escape(s)
  {
    if i > 0 { EscapeKeeps(s[1..], i - 1); }
  }

  lemma {:induction false} FieldIsPrinted(fields: seq<Field>, i: nat, gap: string, c: char)
    requires i < |fields| && c in Print(fields[i].val, gap)
    ensures c in PrintFields(fields, gap)
  {
    hide Print;
    if i > 0 { FieldIsPrinted(fields[1..], i - 1, gap, c); }
  }

  /** The log is written with `ensure_ascii=False`: a character of a comment stands
      in its line as it is. */
  lemma CommentIsPrinted(e: AuditEvent, i: nat)
    requires e.details.CommentDetails? && i < |e.details.text| && e.details.text[i] as int >= 0x80
    ensures e.details.text[i] in Line(e)
  {
    hide PrintFields, Escape;
    var c := e.details.text[i];
    EscapeKeeps(e.details.text, i);
    var inner := EncodeDetails(e.details).fields;
    assert inner[0].val == Str(e.details.text);
    FieldIsPrinted(inner, 0, " ", c);
    FieldIsPrinted(EncodeEvent(e).fields, 8, " ", c);
  }

  /** In any run, a comment with a character outside ASCII can be cut so that the
      gate does not come up again. */
  lemma CommentCanBeTorn(cfg: Config, steps: seq<Step>, client: nat, stamp: Stamp, i: nat) returns (k: nat)
    requires cfg.Valid()
    requires Answer(cfg, Run(cfg, steps), client, stamp).Success?
    requires Answer(cfg, Run(cfg, steps), client, stamp).value.Perform?
    requires var w := Answer(cfg, Run(cfg, steps), client, stamp).value.write;
             w.Append? && w.event.details.CommentDetails? && i < |w.event.details.text| && w.event.details.text[i] as int >= 0x80
    ensures var g := Run(cfg, steps); var text := Encode(WriteText(Answer(cfg, g, client, stamp).value.write));
            k <= |text| && BootBytes(Encode(Text(g.log)) + text[..k]).Failure?
  {
    hide Run, Next, Answer, BootBytes, Text, Encode, AtBoundary, Line;
    var w := Answer(cfg, Run(cfg, steps), client, stamp).value.write;
    CommentIsPrinted(w.event, i);
    var text := WriteText(w);
    assert text == Line(w.event) + "\n";
    var j :| 0 <= j < |Line(w.event)| && Line(w.event)[j] == w.event.details.text[i];
    assert text[j] as int >= 0x80;
    SafeIffAscii(text);
    k :| k <= |Encode(text)| && !AtBoundary(text, k);
    CrashAtAnyByte(cfg, steps, client, stamp, k);
  }

  const REMARK := Comment("T1", "bob", "\U{E9}")

  /** A ticket, a comment of one accented letter, and a power cut inside it. */
  lemma TornCommentExample() returns (k: nat)
    ensures var g := Run(SAMPLE, OPENED + [ReadStep(0, REMARK)]);
            Answer(SAMPLE, g, 0, StampOf("T1")).Success? && Answer(SAMPLE, g, 0, StampOf("T1")).value.Perform?
            && var text := Encode(WriteText(Answer(SAMPLE, g, 0, StampOf("T1")).value.write));
               k <= |text| && BootBytes(Encode(Text(g.log)) + text[..k]).Failure?
  {
    hide Run, Next, Answer, BootBytes, Text, Encode;
    OpenedHolds();
    var st := Run(SAMPLE, OPENED).store;
    var w := Decide(SAMPLE, REMARK, Read(st, REMARK), StampOf("T1")).value.write;
    CallLands(SAMPLE, OPENED, REMARK, StampOf("T1"), w);
    k := CommentCanBeTorn(SAMPLE, OPENED + [ReadStep(0, REMARK)], 0, StampOf("T1"), 0);
  }
}
