/** What the boot makes of lines no gate has written: a blank line among the others
    is as if it were not there, and any other stray line but the last stops the boot
    with its number. */
module LogLines {
  import opened Wrappers
  import opened Models
  import opened Store
  import opened EventCodec
  import opened Json

  /** The lines of a text with one line more in the middle. */
  lemma SplitAround(a: seq<AuditEvent>, line: string, rest: string)
    requires OneLine(line)
    ensures Split(Text(a) + line + "\n" + rest) == LinesOf(a) + [line] + Split(rest)
  {
    hide Text, Split, LinesOf;
    SplitText(a, line + "\n" + rest);
    SplitLine(line, rest);
    assert Text(a) + line + "\n" + rest == Text(a) + (line + "\n" + rest);
    assert LinesOf(a) + ([line] + Split(rest)) == LinesOf(a) + [line] + Split(rest);
  }

  /** A line that is not JSON, not blank and not the last: the boot fails and gives
      its number, counted from 1. */
  lemma CorruptLineIsNamed(a: seq<AuditEvent>, line: string, rest: string)
    requires Replay(EMPTY, a).Success? && OneLine(line) && Loads(line).Bad?
    requires exists c :: c in line && c !in {' ', '\t', '\r'} && c as int !in {11, 12}
    ensures Boot(Text(a) + line + "\n" + rest) == Failure(Corrupt(|a| + 1))
  {
    hide Text, Split, LinesOf, Replay, Loads, Repair;
    var lines := LinesOf(a) + [line] + Split(rest);
    SplitAround(a, line, rest);
    assert lines[..|a|] == LinesOf(a);
    ReplayLinesOf(a, lines);
    assert lines[|a|] == line && |lines| > |a| + 1;
    NotBlank(line);
    FailureStays(lines, |a| + 1, |lines|);
  }

  lemma NotBlank(line: string)
    requires OneLine(line) && exists c :: c in line && c !in {' ', '\t', '\r'} && c as int !in {11, 12}
    ensures !BlankLine(line)
  {
    var c :| c in line && c !in {' ', '\t', '\r'} && c as int !in {11, 12};
    assert c != '\n';
  }

  /** The events behind a blank line are replayed as if it were not there. */
  lemma {:induction false} ReplayPastBlank(a: seq<AuditEvent>, blank: string, b: seq<AuditEvent>, lines: seq<string>)
    requires BlankLine(blank) && |lines| >= |a| + 1 + |b|
    requires lines[..|a|] == LinesOf(a) && lines[|a|] == blank && lines[|a| + 1..|a| + 1 + |b|] == LinesOf(b)
    ensures ReplayLines(lines, |a| + 1 + |b|) == Replay(EMPTY, a + b)
    decreases |b|
  {
    hide Line, ReplayLine, BlankLine;
    if b == [] {
      assert a + b == a;
      ReplayLinesOf(a, lines);
      if Replay(EMPTY, a).Success? { SkipsBlank(Replay(EMPTY, a).value, blank, |a| + 1, |a| + 1 == |lines|); }
    } else {
      var n := |b| - 1;
      assert (a + b)[..|a + b| - 1] == a + b[..n] && (a + b)[|a + b| - 1] == b[n];
      var mine := lines[|a| + 1..|a| + 1 + |b|];
      assert lines[|a| + 1..|a| + 1 + n] == mine[..n] == LinesOf(b)[..n] == LinesOf(b[..n]);
      ReplayPastBlank(a, blank, b[..n], lines);
      assert lines[|a| + 1 + n] == mine[n] == Line(b[n]);
      if Replay(EMPTY, a + b[..n]).Success? {
        ReplayFullLine(Replay(EMPTY, a + b[..n]).value, b[n], |a| + 1 + |b|, |a| + 1 + |b| == |lines|);
      }
    }
  }

  lemma SkipsBlank(st: State, blank: string, number: nat, last: bool)
    requires BlankLine(blank)
    ensures ReplayLine(st, blank, number, last) == Success(st)
  {
  }

  lemma BlankLineIsSkipped(a: seq<AuditEvent>, blank: string, b: seq<AuditEvent>)
    requires forall c :: c in blank ==> c in {' ', '\t', '\r'} || c as int in {11, 12}
    requires Replay(EMPTY, a + b).Success?
    ensures Boot(Text(a) + blank + "\n" + Text(b)) == Boot(Text(a + b))
  {
    hide Text, Split, LinesOf, Replay, Repair, ReplayLine;
    assert OneLine(blank);
    SplitAround(a, blank, Text(b));
    SplitText(b, "");
    SplitTail("");
    assert Text(b) + "" == Text(b);
    var lines := LinesOf(a) + [blank] + (LinesOf(b) + [""]);
    assert lines[..|a|] == LinesOf(a) && lines[|a| + 1..|a| + 1 + |b|] == LinesOf(b);
    ReplayPastBlank(a, blank, b, lines);
    assert lines[|a| + 1 + |b|] == "";
    SkipsBlank(Replay(EMPTY, a + b).value, "", |lines|, true);
    BootText(a + b);
  }
}
