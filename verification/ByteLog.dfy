/** The log file as bytes. A write is a UTF-8 text (`ensure_ascii=False`), so a
    crash may cut it inside a character. Then the last line is not JSON in error
    but not text at all, which the boot does not expect: this module says exactly
    when a crash leaves a file the gate can start from. */
module ByteLog {
  import opened Wrappers
  import opened Models
  import opened Store
  import opened Service
  import opened Protocol
  import opened EventCodec
  import opened Json
  import opened Recovery
  import opened SecondBoot

  type Byte = b: int | 0 <= b < 256

  // ------------------------------------------------------------------- UTF-8

  function Bytes(c: char): (r: seq<Byte>)
    ensures 1 <= |r| <= 4
  {
    var n := c as int;
    if n < 0x80 then [n]
    else if n < 0x800 then [0xC0 + n / 0x40, 0x80 + n % 0x40]
    else if n < 0x1_0000 then [0xE0 + n / 0x1000, 0x80 + n / 0x40 % 0x40, 0x80 + n % 0x40]
    else [0xF0 + n / 0x4_0000, 0x80 + n / 0x1000 % 0x40, 0x80 + n / 0x40 % 0x40, 0x80 + n % 0x40]
  }

  function Encode(s: string): seq<Byte> {
    if s == "" then [] else Encode(s[..|s| - 1]) + Bytes(s[|s| - 1])
  }

  /** How many bytes a character has that starts with `b`; none if it cannot. */
  function Width(b: Byte): nat {
    if b < 0x80 then 1
    else if b < 0xC2 then 0
    else if b < 0xE0 then 2
    else if b < 0xF0 then 3
    else if b < 0xF5 then 4
    else 0
  }

  predicate Continues(b: Byte) { 0x80 <= b < 0xC0 }

  predicate IsChar(n: int) { 0 <= n < 0xD800 || 0xE000 <= n < 0x11_0000 }

  /** Six bits a place. */
  function Number(places: seq<int>): int {
    if places == [] then 0 else Number(places[..|places| - 1]) * 0x40 + places[|places| - 1]
  }

  /** The number a complete character of `w` bytes spells. */
  function Spelled(raw: seq<Byte>, w: nat): int
    requires 1 <= w <= 4 && w <= |raw|
  {
    if w == 1 then raw[0]
    else if w == 2 then Number([raw[0] as int - 0xC0, raw[1] as int - 0x80])
    else if w == 3 then Number([raw[0] as int - 0xE0, raw[1] as int - 0x80, raw[2] as int - 0x80])
    else Number([raw[0] as int - 0xF0, raw[1] as int - 0x80, raw[2] as int - 0x80, raw[3] as int - 0x80])
  }

  /** The first character, if a whole one stands there. */
  function First(raw: seq<Byte>): Option<(char, nat)> {
    if raw == [] then None
    else
      var w := Width(raw[0]);
      if w == 0 || |raw| < w || exists i :: 1 <= i < w && !Continues(raw[i]) then None
      else if !IsChar(Spelled(raw, w)) || |Bytes(Spelled(raw, w) as char)| != w then None
      else Some((Spelled(raw, w) as char, w))
  }

  /** Strict decoding of a line. */
  function Decode(raw: seq<Byte>): Option<string> {
    if raw == [] then Some("")
    else
      var first :- First(raw);
      var rest :- Decode(raw[first.1..]);
      Some([first.0] + rest)
  }

  lemma NumberSteps(a: int, b: int, c: int, d: int)
    ensures Number([a, b]) == a * 0x40 + b
    ensures Number([a, b, c]) == (a * 0x40 + b) * 0x40 + c
    ensures Number([a, b, c, d]) == ((a * 0x40 + b) * 0x40 + c) * 0x40 + d
  {
    assert [a][..0] == [] && [a, b][..1] == [a] && [a, b, c][..2] == [a, b] && [a, b, c, d][..3] == [a, b, c];
    assert Number([a]) == a;
  }

  lemma WidthOfBytes(c: char)
    ensures Width(Bytes(c)[0]) == |Bytes(c)| && IsChar(c as int)
    ensures forall i :: 1 <= i < |Bytes(c)| ==> Continues(Bytes(c)[i])
  {
  }

  lemma Places(n: nat)
    ensures (n / 0x40) * 0x40 + n % 0x40 == n
    ensures ((n / 0x1000) * 0x40 + n / 0x40 % 0x40) * 0x40 + n % 0x40 == n
    ensures (((n / 0x4_0000) * 0x40 + n / 0x1000 % 0x40) * 0x40 + n / 0x40 % 0x40) * 0x40 + n % 0x40 == n
  {
    var a := n / 0x40;
    var b := a / 0x40;
    assert n / 0x1000 == b && n / 0x4_0000 == b / 0x40;
  }

  lemma SpelledOfBytes(c: char)
    ensures Spelled(Bytes(c), |Bytes(c)|) == c as int
  {
    hide Number, Width, IsChar;
    var n := c as int;
    Places(n);
    if n < 0x80 {
    } else if n < 0x800 {
      NumberSteps(n / 0x40, n % 0x40, 0, 0);
    } else if n < 0x1_0000 {
      NumberSteps(n / 0x1000, n / 0x40 % 0x40, n % 0x40, 0);
    } else {
      NumberSteps(n / 0x4_0000, n / 0x1000 % 0x40, n / 0x40 % 0x40, n % 0x40);
    }
  }

  lemma SpelledPrefix(raw: seq<Byte>, rest: seq<Byte>, w: nat)
    requires 1 <= w <= 4 && |raw| == w
    ensures Spelled(raw + rest, w) == Spelled(raw, w)
  {
    hide Number;
  }

  lemma FirstOfBytes(c: char, rest: seq<Byte>)
    ensures First(Bytes(c) + rest) == Some((c, |Bytes(c)|))
  {
    hide Bytes, Spelled, IsChar, Width, Continues;
    var raw, w := Bytes(c) + rest, |Bytes(c)|;
    WidthOfBytes(c);
    SpelledOfBytes(c);
    SpelledPrefix(Bytes(c), rest, w);
    assert forall i :: 0 <= i < w ==> raw[i] == Bytes(c)[i];
    assert Spelled(raw, w) as char == c;
  }

  /** An unfinished character is none. */
  lemma TornChar(c: char, k: nat)
    requires 0 < k < |Bytes(c)|
    ensures First(Bytes(c)[..k]) == None && Bytes(c)[0] >= 0x80
  {
    assert Bytes(c)[..k][0] == Bytes(c)[0];
    assert Width(Bytes(c)[0]) == |Bytes(c)|;
  }

  lemma {:induction false} EncodeAppend(a: string, b: string)
    ensures Encode(a + b) == Encode(a) + Encode(b)
  {
    hide Bytes;
    if b == "" {
      assert a + b == a;
    } else {
      assert (a + b)[..|a + b| - 1] == a + b[..|b| - 1];
      EncodeAppend(a, b[..|b| - 1]);
    }
  }

  lemma EncodeOne(c: char)
    ensures Encode([c]) == Bytes(c)
  {
    hide Bytes;
    assert [c][..0] == "";
    assert [] + Bytes(c) == Bytes(c);
  }

  lemma {:induction false} DecodeEncoded(s: string, tail: seq<Byte>)
    ensures Decode(Encode(s) + tail) == match Decode(tail) case Some(t) => Some(s + t) case None => None
  {
    hide Bytes, First;
    if s == "" {
      assert Encode(s) + tail == tail;
      if Decode(tail).Some? { assert "" + Decode(tail).value == Decode(tail).value; }
    } else {
      var rest := s[1..];
      assert s == [s[0]] + rest;
      EncodeAppend([s[0]], rest);
      EncodeOne(s[0]);
      var raw := Encode(s) + tail;
      assert raw == Bytes(s[0]) + (Encode(rest) + tail);
      FirstOfBytes(s[0], Encode(rest) + tail);
      assert raw[|Bytes(s[0])|..] == Encode(rest) + tail;
      DecodeEncoded(rest, tail);
      if Decode(tail).Some? { assert [s[0]] + (rest + Decode(tail).value) == s + Decode(tail).value; }
    }
  }

  // -------------------------------------------------------------- the boot

  const NEWLINE: Byte := 10

  /** `split(b"\n")` */
  function SplitBytes(raw: seq<Byte>): (r: seq<seq<Byte>>)
    ensures r != []
  {
    if raw == [] then [[]]
    else
      var rest := SplitBytes(raw[1..]);
      if raw[0] == NEWLINE then [[]] + rest else [[raw[0]] + rest[0]] + rest[1..]
  }

  /** `not raw.strip()` */
  predicate BlankBytes(raw: seq<Byte>) {
    forall b :: b in raw ==> b == 32 || 9 <= b <= 13
  }

  /** One turn of the replay loop; only JSON errors are caught. */
  function ReplayRaw(st: State, raw: seq<Byte>, number: nat, last: bool): Result<State, Error> {
    if BlankBytes(raw) then Success(st)
    else match Decode(raw)
      case None => Failure(Undecodable)
      case Some(line) => ReplayLine(st, line, number, last)
  }

  function ReplayRaws(lines: seq<seq<Byte>>, n: nat): Result<State, Error>
    requires n <= |lines|
  {
    if n == 0 then Success(EMPTY)
    else
      var st :- ReplayRaws(lines, n - 1);
      ReplayRaw(st, lines[n - 1], n, n == |lines|)
  }

  /** What a boot makes of the bytes of the file. */
  function BootBytes(file: seq<Byte>): Result<State, Error> {
    var lines := SplitBytes(file);
    var st :- ReplayRaws(lines, |lines|);
    Repair(st)
  }

  /** The lines in bytes, with `tail` behind the last one. */
  function LinesWith(lines: seq<string>, tail: seq<Byte>): (r: seq<seq<Byte>>)
    requires lines != []
    ensures |r| == |lines| && r[|lines| - 1] == Encode(lines[|lines| - 1]) + tail
    ensures forall i :: 0 <= i < |lines| - 1 ==> r[i] == Encode(lines[i])
  {
    if |lines| == 1 then [Encode(lines[0]) + tail]
    else
      var rest := LinesWith(lines[1..], tail);
      assert forall i :: 1 <= i < |lines| ==> lines[i] == lines[1..][i - 1];
      [Encode(lines[0])] + rest
  }

  lemma {:induction false} SplitAfter(head: seq<Byte>, raw: seq<Byte>)
    requires NEWLINE !in head
    ensures SplitBytes(head + raw) == [head + SplitBytes(raw)[0]] + SplitBytes(raw)[1..]
  {
    var r := SplitBytes(raw);
    if head == [] {
      assert head + raw == raw && [] + r[0] == r[0] && [r[0]] + r[1..] == r;
    } else {
      assert (head + raw)[1..] == head[1..] + raw && head[0] in head;
      SplitAfter(head[1..], raw);
      assert [head[0]] + (head[1..] + r[0]) == head + r[0];
    }
  }

  lemma NewlineInBytes(c: char)
    ensures NEWLINE in Bytes(c) <==> c == '\n'
    ensures Bytes('\n') == [NEWLINE]
  {
    if c as int >= 0x80 { assert forall i :: 0 <= i < |Bytes(c)| ==> Bytes(c)[i] >= 0x80; }
  }

  /** A text is split where its bytes are. */
  lemma {:induction false} SplitEncoded(s: string, tail: seq<Byte>)
    requires NEWLINE !in tail
    ensures SplitBytes(Encode(s) + tail) == LinesWith(Split(s), tail)
  {
    hide Bytes;
    if s == "" {
      assert Encode(s) + tail == tail == tail + [];
      SplitAfter(tail, []);
    } else {
      var c, rest := s[0], s[1..];
      assert s == [c] + rest;
      EncodeAppend([c], rest);
      EncodeOne(c);
      assert Encode(s) + tail == Bytes(c) + (Encode(rest) + tail);
      SplitEncoded(rest, tail);
      NewlineInBytes(c);
      var lines := Split(rest);
      if c == '\n' {
        assert ([NEWLINE] + (Encode(rest) + tail))[1..] == Encode(rest) + tail;
        assert ([""] + lines)[1..] == lines;
      } else {
        SplitAfter(Bytes(c), Encode(rest) + tail);
        CharFirst(c, lines, tail);
      }
    }
  }

  lemma CharFirst(c: char, lines: seq<string>, tail: seq<Byte>)
    requires lines != []
    ensures [Bytes(c) + LinesWith(lines, tail)[0]] + LinesWith(lines, tail)[1..]
            == LinesWith([[c] + lines[0]] + lines[1..], tail)
  {
    hide Bytes, Encode;
    var all := [[c] + lines[0]] + lines[1..];
    EncodeAppend([c], lines[0]);
    EncodeOne(c);
    assert all[1..] == lines[1..];
    assert Bytes(c) + (Encode(lines[0]) + tail) == Encode(all[0]) + tail;
  }

  lemma BlankOne(c: char)
    ensures BlankBytes(Bytes(c)) <==> BlankLine([c])
  {
    assert Bytes(c)[0] in Bytes(c) && [c][0] in [c];
  }

  lemma {:induction false} BlankEncoded(s: string)
    ensures BlankBytes(Encode(s)) <==> BlankLine(s)
  {
    hide Bytes;
    if s != "" {
      var n := |s| - 1;
      BlankEncoded(s[..n]);
      BlankOne(s[n]);
      assert s == s[..n] + [s[n]];
      assert forall b :: b in Encode(s) <==> b in Encode(s[..n]) || b in Bytes(s[n]);
      assert forall c :: c in s <==> c in s[..n] || c in [s[n]];
    }
  }

  lemma ReplayEncoded(st: State, line: string, number: nat, last: bool)
    ensures ReplayRaw(st, Encode(line), number, last) == ReplayLine(st, line, number, last)
  {
    hide Encode, Decode, Loads, DecodeEvent, Store.ApplyToState;
    BlankEncoded(line);
    DecodeEncoded(line, []);
    assert Encode(line) + [] == Encode(line);
    NothingDecodes();
    assert line + "" == line;
  }

  lemma NothingDecodes()
    ensures Decode([]) == Some("")
  {
  }

  lemma {:induction false} ReplayAllEncoded(lines: seq<string>, raws: seq<seq<Byte>>, n: nat)
    requires n <= |lines| == |raws| && forall i :: 0 <= i < n ==> raws[i] == Encode(lines[i])
    ensures ReplayRaws(raws, n) == ReplayLines(lines, n)
  {
    hide Encode, ReplayRaw, ReplayLine;
    if n > 0 {
      ReplayAllEncoded(lines, raws, n - 1);
      if ReplayRaws(raws, n - 1).Success? {
        ReplayEncoded(ReplayRaws(raws, n - 1).value, lines[n - 1], n, n == |lines|);
      }
    }
  }

  /** On whole characters the bytes make no difference. */
  lemma BootEncoded(text: string)
    ensures BootBytes(Encode(text)) == Boot(text)
  {
    hide Encode, Split, SplitBytes, ReplayRaw, ReplayLine, ReplayRaws, ReplayLines, Repair;
    SplitEncoded(text, []);
    assert Encode(text) + [] == Encode(text);
    var lines := Split(text);
    assert Encode(lines[|lines| - 1]) + [] == Encode(lines[|lines| - 1]);
    ReplayAllEncoded(lines, LinesWith(lines, []), |lines|);
  }

  /** An unfinished character at the end of the file stops the boot, wherever the
      text before it was cut. */
  lemma TornCharBoot(text: string, c: char, k: nat)
    requires 0 < k < |Bytes(c)|
    ensures BootBytes(Encode(text) + Bytes(c)[..k]).Failure?
  {
    hide Encode, Split, SplitBytes, ReplayLine, ReplayRaw, Repair, Bytes, BlankBytes, First;
    var part := Bytes(c)[..k];
    TornCharHasNoNewline(c, k);
    SplitEncoded(text, part);
    var lines := Split(text);
    var n := |lines| - 1;
    var raws := SplitBytes(Encode(text) + part);
    assert raws[n] == Encode(lines[n]) + part && |raws| == n + 1;
    ReplayAllEncoded(lines, raws, n);
    if ReplayRaws(raws, n).Success? {
      TornRawFails(ReplayRaws(raws, n).value, lines[n], c, k, n + 1, true);
    }
  }

  lemma TornCharHasNoNewline(c: char, k: nat)
    requires 0 < k < |Bytes(c)|
    ensures NEWLINE !in Bytes(c)[..k] && Bytes(c)[..k][0] >= 0x80
  {
    NewlineInBytes(c);
    TornChar(c, k);
  }

  lemma TornRawFails(st: State, line: string, c: char, k: nat, number: nat, last: bool)
    requires 0 < k < |Bytes(c)|
    ensures ReplayRaw(st, Encode(line) + Bytes(c)[..k], number, last) == Failure(Undecodable)
  {
    hide Encode, First, Bytes, ReplayLine;
    var part := Bytes(c)[..k];
    TornCharHasNoNewline(c, k);
    TornChar(c, k);
    var raw := Encode(line) + part;
    assert raw[|Encode(line)|] == part[0];
    assert part[0] in raw;
    assert Decode(part) == None;
    DecodeEncoded(line, part);
  }

  // ---------------------------------------------------------- cuts in the bytes

  /** `k` bytes of the text are a whole number of its characters. */
  ghost predicate AtBoundary(s: string, k: nat) {
    exists j :: 0 <= j <= |s| && |Encode(s[..j])| == k
  }

  lemma {:induction false} EncodeGrows(s: string, i: nat, j: nat)
    requires i < j <= |s|
    ensures |Encode(s[..i])| + |Bytes(s[i])| <= |Encode(s[..j])|
    decreases j
  {
    hide Bytes;
    assert s[..j][..j - 1] == s[..j - 1];
    if i < j - 1 { EncodeGrows(s, i, j - 1); }
  }

  /** Where a cut of the bytes falls: behind `j` characters, and `m` bytes into
      the next one. */
  lemma {:induction false} CutEncoded(s: string, k: nat) returns (j: nat, m: nat)
    requires k <= |Encode(s)|
    ensures j <= |s| && (m > 0 ==> j < |s| && m < |Bytes(s[j])|)
    ensures Encode(s)[..k] == Encode(s[..j]) + if m == 0 then [] else Bytes(s[j])[..m]
  {
    hide Bytes;
    if k == |Encode(s)| {
      j, m := |s|, 0;
      assert s[..|s|] == s;
    } else {
      var n := |s| - 1;
      var before := |Encode(s[..n])|;
      if k <= before {
        j, m := CutEncoded(s[..n], k);
        assert s[..n][..j] == s[..j];
      } else {
        j, m := n, k - before;
      }
    }
  }

  lemma CutAtBoundary(s: string, k: nat, j: nat, m: nat)
    requires j <= |s| && (m > 0 ==> j < |s| && m < |Bytes(s[j])|) && k == |Encode(s[..j])| + m
    ensures AtBoundary(s, k) <==> m == 0
  {
    hide Bytes, Encode;
    if m > 0 {
      forall i | 0 <= i <= |s| ensures |Encode(s[..i])| != k {
        if i > j { EncodeGrows(s, j, i); } else if i < j { EncodeGrows(s, i, j); }
      }
    } else {
      assert |Encode(s[..j])| == k;
    }
  }

  /** A text can be cut anywhere if and only if it is all ASCII. */
  lemma SafeIffAscii(s: string)
    ensures (forall k: nat :: k <= |Encode(s)| ==> AtBoundary(s, k)) <==> (forall i :: 0 <= i < |s| ==> s[i] as int < 0x80)
  {
    hide Encode, AtBoundary;
    forall i | 0 <= i < |s| && s[i] as int >= 0x80 ensures exists k: nat :: k <= |Encode(s)| && !AtBoundary(s, k) {
      var k := |Encode(s[..i])| + 1;
      CutAtBoundary(s, k, i, 1);
      assert s[..|s|] == s;
      EncodeGrows(s, i, |s|);
      assert k <= |Encode(s)|;
    }
    if forall i :: 0 <= i < |s| ==> s[i] as int < 0x80 {
      forall k: nat | k <= |Encode(s)| ensures AtBoundary(s, k) {
        var j, m := CutEncoded(s, k);
        assert j < |s| ==> |Bytes(s[j])| == 1;
        CutAtBoundary(s, k, j, m);
      }
    }
  }

  lemma WriteEndsLine(w: Write)
    ensures |WriteText(w)| > 1 && WriteText(w)[|WriteText(w)| - 1] == '\n'
  {
    hide Line;
    match w
    case Create(_, e) => DumpShape(e);
    case Append(_, _, e) => DumpShape(e);
    case Supersede(_, _, link, _, created) => DumpShape(link); DumpShape(created);
  }

  /** Behind how many characters the cut falls decides as before. */
  lemma SameSide(s: string, k: nat, j: nat)
    requires s != "" && s[|s| - 1] == '\n' && j <= |s| && k == |Encode(s[..j])|
    ensures k < |Encode(s)| - 1 <==> j < |s| - 1
  {
    hide Encode;
    var n := |s| - 1;
    assert s[..|s|] == s && s == s[..n] + [s[n]];
    EncodeAppend(s[..n], [s[n]]);
    EncodeOne(s[n]);
    NewlineInBytes('\n');
    if j < n { EncodeGrows(s, j, n); }
  }

  /** Crash atomicity to the byte, in every run: cut any write at any byte. The
      gate comes up again if and only if no character was cut in two, and then it
      finds the store from before the write or the one from after it. */
  lemma CrashAtAnyByte(cfg: Config, steps: seq<Step>, client: nat, stamp: Stamp, k: nat)
    requires cfg.Valid()
    requires Answer(cfg, Run(cfg, steps), client, stamp).Success?
    requires Answer(cfg, Run(cfg, steps), client, stamp).value.Perform?
    requires k <= |Encode(WriteText(Answer(cfg, Run(cfg, steps), client, stamp).value.write))|
    ensures var g := Run(cfg, steps); var text := WriteText(Answer(cfg, g, client, stamp).value.write);
            var after := Next(cfg, g, WriteStep(client, stamp));
            var found := BootBytes(Encode(Text(g.log)) + Encode(text)[..k]);
            if AtBoundary(text, k) then found == Success(if k < |Encode(text)| - 1 then g.store else after.store)
            else found.Failure?
  {
    hide Run, Next, Answer, Boot, BootBytes, Text, WriteText, Encode, AtBoundary, Bytes;
    var g := Run(cfg, steps);
    var text := WriteText(Answer(cfg, g, client, stamp).value.write);
    WriteEndsLine(Answer(cfg, g, client, stamp).value.write);
    var j, m := CutEncoded(text, k);
    CutAtBoundary(text, k, j, m);
    EncodeAppend(Text(g.log), text[..j]);
    if m == 0 {
      assert Encode(text)[..k] == Encode(text[..j]);
      BootEncoded(Text(g.log) + text[..j]);
      CrashAtomicity(cfg, steps, client, stamp, j);
      SameSide(text, k, j);
    } else {
      assert Encode(Text(g.log)) + Encode(text)[..k] == Encode(Text(g.log) + text[..j]) + Bytes(text[j])[..m];
      TornCharBoot(Text(g.log) + text[..j], text[j], m);
    }
  }
}
