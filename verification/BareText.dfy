/** JSON text seen from outside its string literals: canonical text has no blank
    there, and a log line is the same text with one blank behind each comma and
    colon that stands there. */
module BareText {
  import opened Json
  import opened CanonicalJson
  import opened Models
  import opened EventCodec

  /** Where a reader of the text is: outside a literal, inside, or behind a backslash. */
  datatype Place = Outside | Inside | Escaped

  function Onward(c: char, p: Place): Place {
    match p
    case Outside => if c == '"' then Inside else Outside
    case Inside => if c == '"' then Outside else if c == '\\' then Escaped else Inside
    case Escaped => Inside
  }

  function After(s: string, p: Place): Place {
    if s == "" then p else After(s[1..], Onward(s[0], p))
  }

  /** What stands outside the literals, quotes included. */
  function Bare(s: string, p: Place): string {
    if s == "" then "" else (if p.Outside? then [s[0]] else "") + Bare(s[1..], Onward(s[0], p))
  }

  /** With a blank behind each comma and colon outside the literals. */
  function Spread(s: string, p: Place): string {
    if s == "" then ""
    else [s[0]] + (if p.Outside? && s[0] in {',', ':'} then " " else "") + Spread(s[1..], Onward(s[0], p))
  }

  lemma Head(c: char, s: string, p: Place)
    ensures After([c] + s, p) == After(s, Onward(c, p))
    ensures Bare([c] + s, p) == (if p.Outside? then [c] else "") + Bare(s, Onward(c, p))
    ensures Spread([c] + s, p) == [c] + (if p.Outside? && c in {',', ':'} then " " else "") + Spread(s, Onward(c, p))
  {
    assert ([c] + s)[1..] == s;
  }

  lemma {:induction false} Appended(a: string, b: string, p: Place)
    ensures After(a + b, p) == After(b, After(a, p))
    ensures Bare(a + b, p) == Bare(a, p) + Bare(b, After(a, p))
    ensures Spread(a + b, p) == Spread(a, p) + Spread(b, After(a, p))
    decreases a
  {
    if a == "" {
      assert a + b == b;
    } else {
      var c, t := a[0], a[1..];
      assert a == [c] + t && a + b == [c] + (t + b);
      Appended(t, b, Onward(c, p));
      hide After, Bare, Spread;
      Head(c, t, p);
      Head(c, t + b, p);
      Regroup(if p.Outside? then [c] else "", Bare(t, Onward(c, p)), Bare(b, After(a, p)));
      Regroup([c] + (if p.Outside? && c in {',', ':'} then " " else ""), Spread(t, Onward(c, p)), Spread(b, After(a, p)));
    }
  }

  lemma Regroup(a: string, b: string, c: string)
    ensures a + (b + c) == (a + b) + c
  {
  }

  // ------------------------------------------------------------- one literal

  lemma EscapedChar(c: char)
    ensures After(EscapeChar(c), Inside) == Inside && Bare(EscapeChar(c), Inside) == ""
    ensures Spread(EscapeChar(c), Inside) == EscapeChar(c)
  {
    var e := EscapeChar(c);
    hide HexDigit;
    if |e| == 1 {
      Head(c, "", Inside);
      assert e == [c] + "";
    } else if |e| == 2 {
      Head('\\', [e[1]], Inside);
      Head(e[1], "", Escaped);
      assert [e[1]] == [e[1]] + "" && e == ['\\'] + [e[1]];
    } else {
      HexIsPlain(c as int / 16);
      HexIsPlain(c as int % 16);
      SixChars(e[4], e[5]);
      assert e == ['\\', 'u', '0', '0', e[4], e[5]];
    }
  }

  predicate PlainDigit(c: char) { c != '"' && c != '\\' }

  lemma HexIsPlain(d: nat)
    requires d < 16
    ensures PlainDigit(HexDigit(d))
  {
  }

  lemma {:induction false} PlainInside(s: string)
    requires forall c :: c in s ==> PlainDigit(c)
    ensures After(s, Inside) == Inside && Bare(s, Inside) == "" && Spread(s, Inside) == s
  {
    if s != "" {
      assert s[0] in s && forall c :: c in s[1..] ==> c in s;
      PlainInside(s[1..]);
    }
  }

  lemma SixChars(x: char, y: char)
    requires PlainDigit(x) && PlainDigit(y)
    ensures var e := ['\\', 'u', '0', '0', x, y];
            After(e, Inside) == Inside && Bare(e, Inside) == "" && Spread(e, Inside) == e
  {
    hide After, Bare, Spread;
    var digits := ['0', '0', x, y];
    PlainInside(digits);
    Head('u', digits, Escaped);
    Head('\\', ['u'] + digits, Inside);
    assert ['\\', 'u', '0', '0', x, y] == ['\\'] + (['u'] + digits);
  }

  lemma {:induction false} EscapedText(s: string)
    ensures After(Escape(s), Inside) == Inside && Bare(Escape(s), Inside) == "" && Spread(Escape(s), Inside) == Escape(s)
  {
    hide EscapeChar;
    if s != "" {
      EscapedChar(s[0]);
      EscapedText(s[1..]);
      Appended(EscapeChar(s[0]), Escape(s[1..]), Inside);
    }
  }

  /** A printed piece of text begins and ends outside the literals; spread, it is the
      piece printed with blanks; and it has no blank outside them. */
  ghost predicate Piece(close: string, wide: string) {
    After(close, Outside) == Outside && Spread(close, Outside) == wide
    && forall c :: c in Bare(close, Outside) ==> !IsSpace(c)
  }

  lemma Joined(a: string, wideA: string, b: string, wideB: string)
    requires Piece(a, wideA) && Piece(b, wideB)
    ensures Piece(a + b, wideA + wideB)
  {
    Appended(a, b, Outside);
  }

  lemma Mark(c: char)
    requires c in {'[', ']', '{', '}', ',', ':'}
    ensures Piece([c], if c in {',', ':'} then [c] + " " else [c])
  {
    assert [c][1..] == "";
  }

  lemma QuotePiece(s: string)
    ensures Piece(Quote(s), Quote(s))
  {
    hide Escape, After, Bare, Spread;
    var e := Escape(s);
    EscapedText(s);
    Head('"', e + "\"", Outside);
    Appended(e, "\"", Inside);
    Head('"', "", Inside);
    Nothing(Outside);
    assert "\"" == ['"'] + "" && Quote(s) == ['"'] + (e + "\"");
  }

  lemma Nothing(p: Place)
    ensures After("", p) == p && Bare("", p) == "" && Spread("", p) == ""
  {
  }

  lemma {:induction false} PlainPiece(s: string)
    requires forall c :: c in s ==> !IsSpace(c) && c !in {'"', ',', ':'}
    ensures Piece(s, s)
  {
    if s != "" {
      assert s[0] in s && forall c :: c in s[1..] ==> c in s;
      PlainPiece(s[1..]);
    }
  }

  lemma {:induction false} DigitsArePlain(n: nat)
    ensures forall c :: c in Digits(n) ==> IsDigit(c)
  {
    DigitRoundTrip(n % 10);
    if n >= 10 { DigitsArePlain(n / 10); }
  }

  // --------------------------------------------------------------- whole values

  lemma {:induction false} ValuePiece(v: Value)
    ensures Piece(Print(v, ""), Print(v, " "))
    decreases v
  {
    hide Piece;
    match v
    case Str(s) => QuotePiece(s);
    case List(items) =>
      ItemsPiece(items);
      Mark('[');
      Mark(']');
      Joined("[", "[", PrintItems(items, ""), PrintItems(items, " "));
      Joined("[" + PrintItems(items, ""), "[" + PrintItems(items, " "), "]", "]");
    case Object(fields) =>
      FieldsPiece(fields);
      Mark('{');
      Mark('}');
      Joined("{", "{", PrintFields(fields, ""), PrintFields(fields, " "));
      Joined("{" + PrintFields(fields, ""), "{" + PrintFields(fields, " "), "}", "}");
    case Int(n) =>
      DigitsArePlain(if n < 0 then -n else n);
      PlainPiece(Number(n));
    case _ => PlainPiece(Print(v, ""));
  }

  lemma {:induction false} ItemsPiece(items: seq<Value>)
    ensures Piece(PrintItems(items, ""), PrintItems(items, " "))
    decreases items
  {
    hide Piece, Print;
    if items == [] {
      PlainPiece("");
    } else {
      var v := items[0];
      ValuePiece(v);
      if |items| > 1 {
        ItemsPiece(items[1..]);
        Mark(',');
        Joined(Print(v, ""), Print(v, " "), ",", ", ");
        Joined(Print(v, "") + ",", Print(v, " ") + ", ", PrintItems(items[1..], ""), PrintItems(items[1..], " "));
        assert Print(v, " ") + "," + " " == Print(v, " ") + ", ";
        assert Print(v, "") + "," + "" == Print(v, "") + ",";
      }
    }
  }

  lemma {:induction false} FieldPiece(f: Field)
    ensures Piece(PrintField(f, ""), PrintField(f, " "))
    decreases f
  {
    hide Piece, Print, Quote;
    QuotePiece(f.key);
    ValuePiece(f.val);
    Mark(':');
    Joined(Quote(f.key), Quote(f.key), ":", ": ");
    Joined(Quote(f.key) + ":", Quote(f.key) + ": ", Print(f.val, ""), Print(f.val, " "));
    assert Quote(f.key) + ":" + " " == Quote(f.key) + ": ";
    assert Quote(f.key) + ":" + "" == Quote(f.key) + ":";
  }

  lemma {:induction false} FieldsPiece(fields: seq<Field>)
    ensures Piece(PrintFields(fields, ""), PrintFields(fields, " "))
    decreases fields
  {
    hide Piece, PrintField;
    if fields == [] {
      PlainPiece("");
    } else {
      var f := fields[0];
      FieldPiece(f);
      if |fields| > 1 {
        FieldsPiece(fields[1..]);
        Mark(',');
        Joined(PrintField(f, ""), PrintField(f, " "), ",", ", ");
        Joined(PrintField(f, "") + ",", PrintField(f, " ") + ", ", PrintFields(fields[1..], ""), PrintFields(fields[1..], " "));
        assert PrintField(f, " ") + "," + " " == PrintField(f, " ") + ", ";
        assert PrintField(f, "") + "," + "" == PrintField(f, "") + ",";
      }
    }
  }

  /** No blank of canonical text stands outside a string literal. */
  lemma CanonicalHasNoBlank(v: Value)
    ensures forall c :: c in Bare(Canonical(v), Outside) ==> !IsSpace(c)
  {
    hide Print, Canon;
    ValuePiece(Canon(v));
  }

  /** A log line is the event's shortest text with one blank behind each separator. */
  lemma LineIsSpread(e: AuditEvent)
    ensures Line(e) == Spread(Print(EncodeEvent(e), ""), Outside)
  {
    hide Print, EncodeEvent;
    ValuePiece(EncodeEvent(e));
  }
}
