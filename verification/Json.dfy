/** The JSON text the gate writes and reads: Python's `json.dumps` with
    `ensure_ascii=False` (a canonical form without blanks and a log form with a
    blank after each separator) and `json.loads`, over every JSON value except
    fractional numbers.

    The main facts are that printing is undone by parsing, that a parse does not
    change when more text follows, and hence that no proper prefix of a printed
    object parses: what a torn write leaves behind is never mistaken for a line. */
module Json {

  datatype Value =
    | Null
    | Bool(b: bool)
    | Int(n: int)
    | Str(s: string)
    | List(items: seq<Value>)
    | Object(fields: seq<Field>)

  /** A dictionary is the list of its entries in insertion order. */
  datatype Field = Field(key: string, val: Value)

  // ---------------------------------------------------------------- printing

  function HexDigit(d: nat): char
    requires d < 16
  {
    "0123456789abcdef"[d]
  }

  function EscapeChar(c: char): string {
    if c == '"' then "\\\""
    else if c == '\\' then "\\\\"
    else if c == '\n' then "\\n"
    else if c == '\r' then "\\r"
    else if c == '\t' then "\\t"
    else if c as int == 8 then "\\b"
    else if c as int == 12 then "\\f"
    else if c < ' ' then "\\u00" + [HexDigit(c as int / 16), HexDigit(c as int % 16)]
    else [c]
  }

  function Escape(s: string): string {
    if s == "" then "" else EscapeChar(s[0]) + Escape(s[1..])
  }

  function Quote(s: string): string {
    "\"" + Escape(s) + "\""
  }

  function Digits(n: nat): string {
    if n < 10 then [HexDigit(n)] else Digits(n / 10) + [HexDigit(n % 10)]
  }

  function Number(n: int): string {
    if n < 0 then "-" + Digits(-n) else Digits(n)
  }

  /** `gap` is the blank after `,` and `:`: "" for the canonical form, " " for
      the log. */
  function Print(v: Value, gap: string): string {
    match v
    case Null => "null"
    case Bool(b) => if b then "true" else "false"
    case Int(n) => Number(n)
    case Str(s) => Quote(s)
    case List(items) => "[" + PrintItems(items, gap) + "]"
    case Object(fields) => "{" + PrintFields(fields, gap) + "}"
  }

  function PrintItems(items: seq<Value>, gap: string): string {
    if items == [] then ""
    else if |items| == 1 then Print(items[0], gap)
    else Print(items[0], gap) + "," + gap + PrintItems(items[1..], gap)
  }

  function PrintField(f: Field, gap: string): string {
    Quote(f.key) + ":" + gap + Print(f.val, gap)
  }

  function PrintFields(fields: seq<Field>, gap: string): string {
    if fields == [] then ""
    else if |fields| == 1 then PrintField(fields[0], gap)
    else PrintField(fields[0], gap) + "," + gap + PrintFields(fields[1..], gap)
  }

  // ----------------------------------------------------------------- parsing

  datatype Parsed<+T> = Ok(value: T, rest: string) | Bad {
    predicate IsFailure() { Bad? }
    function PropagateFailure<U>(): Parsed<U>
      requires Bad?
    {
      Bad
    }
    function Extract(): (T, string)
      requires Ok?
    {
      (value, rest)
    }
  }

  predicate IsSpace(c: char) {
    c == ' ' || c == '\t' || c == '\n' || c == '\r'
  }

  predicate Blank(s: string) {
    forall i :: 0 <= i < |s| ==> IsSpace(s[i])
  }

  function Skip(s: string): (r: string)
    ensures |r| <= |s|
    ensures r != "" ==> !IsSpace(r[0])
    ensures s != "" && !IsSpace(s[0]) ==> r == s
  {
    if s != "" && IsSpace(s[0]) then Skip(s[1..]) else s
  }

  predicate IsDigit(c: char) { '0' <= c <= '9' }

  function DigitValue(c: char): nat
    requires IsDigit(c)
  {
    c as int - '0' as int
  }

  predicate IsHex(c: char) { IsDigit(c) || 'a' <= c <= 'f' || 'A' <= c <= 'F' }

  function HexValue(c: char): (d: nat)
    requires IsHex(c)
    ensures d < 16
  {
    if IsDigit(c) then c as int - '0' as int
    else if 'a' <= c <= 'f' then c as int - 'a' as int + 10
    else c as int - 'A' as int + 10
  }

  /** Reads the longest run of digits, continuing the number `acc`. */
  function ParseDigits(s: string, acc: nat): (p: (nat, string))
    ensures |p.1| <= |s|
    ensures p.1 == "" || !IsDigit(p.1[0])
  {
    if s != "" && IsDigit(s[0]) then ParseDigits(s[1..], 10 * acc + DigitValue(s[0])) else (acc, s)
  }

  /** A leading zero stands alone, as in Python's number pattern. */
  function ParseNat(s: string): (p: Parsed<int>)
    ensures p.Ok? ==> |p.rest| < |s| && 0 <= p.value
  {
    if s == "" || !IsDigit(s[0]) then Bad
    else if s[0] == '0' then Ok(0, s[1..])
    else var (n, rest) := ParseDigits(s[1..], DigitValue(s[0])); Ok(n, rest)
  }

  function ParseInt(s: string): (p: Parsed<int>)
    ensures p.Ok? ==> |p.rest| < |s|
  {
    if s != "" && s[0] == '-' then
      var (n, rest) :- ParseNat(s[1..]);
      Ok(-n, rest)
    else ParseNat(s)
  }

  /** The character a `\u` escape names; surrogate halves are not characters. */
  function ParseUnicode(s: string): (p: Parsed<char>)
    ensures p.Ok? ==> |p.rest| < |s|
  {
    if |s| < 4 || !IsHex(s[0]) || !IsHex(s[1]) || !IsHex(s[2]) || !IsHex(s[3]) then Bad
    else
      var code := 4096 * HexValue(s[0]) + 256 * HexValue(s[1]) + 16 * HexValue(s[2]) + HexValue(s[3]);
      if 0xD800 <= code < 0xE000 then Bad else Ok(code as char, s[4..])
  }

  /** The character after a backslash. */
  function ParseEscape(s: string): (p: Parsed<char>)
    ensures p.Ok? ==> |p.rest| < |s|
  {
    if s == "" then Bad
    else match s[0]
      case '"' => Ok('"', s[1..])
      case '\\' => Ok('\\', s[1..])
      case '/' => Ok('/', s[1..])
      case 'n' => Ok('\n', s[1..])
      case 'r' => Ok('\r', s[1..])
      case 't' => Ok('\t', s[1..])
      case 'b' => Ok(8 as char, s[1..])
      case 'f' => Ok(12 as char, s[1..])
      case 'u' => ParseUnicode(s[1..])
      case _ => Bad
  }

  /** The rest of a string literal, after its opening quote. */
  function ParseString(s: string): (p: Parsed<string>)
    ensures p.Ok? ==> |p.rest| < |s|
  {
    if s == "" then Bad
    else if s[0] == '"' then Ok("", s[1..])
    else if s[0] < ' ' then Bad
    else
      var (c, r) :- if s[0] == '\\' then ParseEscape(s[1..]) else Ok(s[0], s[1..]);
      var (t, rest) :- ParseString(r);
      Ok([c] + t, rest)
  }

  function ParseWord(s: string, word: string, v: Value): (p: Parsed<Value>)
    requires word != ""
    ensures p.Ok? ==> |p.rest| < |s|
  {
    if word <= s then Ok(v, s[|word|..]) else Bad
  }

  function ParseValue(s: string): (p: Parsed<Value>)
    ensures p.Ok? ==> |p.rest| < |s|
    decreases |s|, 1
  {
    if s == "" then Bad
    else if s[0] == '{' then
      var r := Skip(s[1..]);
      if r != "" && r[0] == '}' then Ok(Object([]), r[1..])
      else var (fields, rest) :- ParseFields(r); Ok(Object(fields), rest)
    else if s[0] == '[' then
      var r := Skip(s[1..]);
      if r != "" && r[0] == ']' then Ok(List([]), r[1..])
      else var (items, rest) :- ParseItems(r); Ok(List(items), rest)
    else if s[0] == '"' then var (t, rest) :- ParseString(s[1..]); Ok(Str(t), rest)
    else if s[0] == 'n' then ParseWord(s, "null", Null)
    else if s[0] == 't' then ParseWord(s, "true", Bool(true))
    else if s[0] == 'f' then ParseWord(s, "false", Bool(false))
    else var (n, rest) :- ParseInt(s); Ok(Int(n), rest)
  }

  /** One or more elements up to and including the closing bracket. */
  function ParseItems(s: string): (p: Parsed<seq<Value>>)
    ensures p.Ok? ==> |p.rest| < |s|
    decreases |s|, 2
  {
    var (v, r0) :- ParseValue(s);
    var r := Skip(r0);
    if r == "" then Bad
    else if r[0] == ']' then Ok([v], r[1..])
    else if r[0] == ',' then
      var (vs, rest) :- ParseItems(Skip(r[1..]));
      Ok([v] + vs, rest)
    else Bad
  }

  function ParseField(s: string): (p: Parsed<Field>)
    ensures p.Ok? ==> |p.rest| < |s|
    decreases |s|, 2
  {
    if s == "" || s[0] != '"' then Bad
    else
      var (k, r0) :- ParseString(s[1..]);
      var r := Skip(r0);
      if r == "" || r[0] != ':' then Bad
      else
        var (v, rest) :- ParseValue(Skip(r[1..]));
        Ok(Field(k, v), rest)
  }

  /** One or more entries up to and including the closing brace. */
  function ParseFields(s: string): (p: Parsed<seq<Field>>)
    ensures p.Ok? ==> |p.rest| < |s|
    decreases |s|, 3
  {
    var (f, r0) :- ParseField(s);
    var r := Skip(r0);
    if r == "" then Bad
    else if r[0] == '}' then Ok([f], r[1..])
    else if r[0] == ',' then
      var (fs, rest) :- ParseFields(Skip(r[1..]));
      Ok([f] + fs, rest)
    else Bad
  }

  /** `json.loads`: one value with nothing but blanks around it. */
  function Loads(s: string): Parsed<Value> {
    var (v, rest) :- ParseValue(Skip(s));
    if Skip(rest) == "" then Ok(v, "") else Bad
  }

  // -------------------------------------------- printing is undone by parsing

  lemma {:induction false} SkipGap(gap: string, s: string)
    requires Blank(gap)
    requires s != "" && !IsSpace(s[0])
    ensures Skip(gap + s) == s
  {
    if gap == "" {
      assert gap + s == s;
    } else {
      assert (gap + s)[1..] == gap[1..] + s;
      SkipGap(gap[1..], s);
    }
  }

  /** Reading the digits of `n` in front of `tail` continues at `tail` with the
      accumulator shifted past them. */
  lemma {:induction false} DigitsFrom(n: nat, acc: nat, tail: string) returns (shift: nat)
    ensures ParseDigits(Digits(n) + tail, acc) == ParseDigits(tail, acc * shift + n)
    ensures shift >= 10
  {
    if n < 10 {
      shift := 10;
      assert (Digits(n) + tail)[1..] == tail;
      DigitRoundTrip(n);
    } else {
      var last := [HexDigit(n % 10)];
      var s := DigitsFrom(n / 10, acc, last + tail);
      assert Digits(n) + tail == Digits(n / 10) + (last + tail);
      DigitRoundTrip(n % 10);
      assert (last + tail)[1..] == tail;
      shift := 10 * s;
      assert 10 * (acc * s + n / 10) + n % 10 == acc * shift + n;
    }
  }

  lemma DigitRoundTrip(d: nat)
    requires d < 10
    ensures IsDigit(HexDigit(d)) && DigitValue(HexDigit(d)) == d
  {
  }

  lemma {:induction false} FirstDigit(n: nat)
    ensures Digits(n) != "" && IsDigit(Digits(n)[0])
    ensures n > 0 ==> Digits(n)[0] != '0'
  {
    if n < 10 { DigitRoundTrip(n); } else { FirstDigit(n / 10); }
  }

  lemma ParseNatOf(n: nat, rest: string)
    requires rest == "" || !IsDigit(rest[0])
    ensures ParseNat(Digits(n) + rest) == Ok(n, rest)
  {
    FirstDigit(n);
    var s := Digits(n) + rest;
    if n == 0 {
      assert s[1..] == rest;
    } else {
      var shift := DigitsFrom(n, 0, rest);
      assert ParseDigits(s, 0) == ParseDigits(s[1..], DigitValue(s[0]));
    }
  }

  lemma ParseIntOf(n: int, rest: string)
    requires rest == "" || !IsDigit(rest[0])
    ensures ParseInt(Number(n) + rest) == Ok(n, rest)
  {
    hide ParseNat, Digits;
    if n < 0 {
      var s := Number(n) + rest;
      assert s[0] == '-' && s[1..] == Digits(-n) + rest;
      assert ParseNat(s[1..]) == Ok(-n, rest) by { ParseNatOf(-n, rest); }
    } else {
      FirstDigit(n);
      ParseNatOf(n, rest);
    }
  }

  /** `s` starts, inside a string literal, with the character `c`, and `rest`
      follows. */
  ghost predicate StartsWith(s: string, c: char, rest: string) {
    s != "" && s[0] != '"' && s[0] >= ' '
    && (if s[0] == '\\' then ParseEscape(s[1..]) else Ok(s[0], s[1..])) == Ok(c, rest)
  }

  lemma ParseEscapedChar(c: char, rest: string)
    ensures StartsWith(EscapeChar(c) + rest, c, rest)
  {
    var s := EscapeChar(c) + rest;
    if |EscapeChar(c)| == 1 {
      assert s[1..] == rest;
    } else if c in {'"', '\\', '\n', '\r', '\t', 8 as char, 12 as char} {
      assert s[1..] == [EscapeChar(c)[1]] + rest;
      assert s[1..][1..] == rest;
    } else {
      ParseControlChar(c, rest);
    }
  }

  lemma ParseControlChar(c: char, rest: string)
    requires c < ' '
    ensures StartsWith("\\u00" + [HexDigit(c as int / 16), HexDigit(c as int % 16)] + rest, c, rest)
  {
    var hi, lo := HexDigit(c as int / 16), HexDigit(c as int % 16);
    var s := "\\u00" + [hi, lo] + rest;
    var u := ['0', '0', hi, lo] + rest;
    assert s[1..] == ['u'] + u;
    assert s[1..][1..] == u && u[4..] == rest;
    HexRoundTrip(c as int / 16);
    HexRoundTrip(c as int % 16);
    assert ParseUnicode(u) == Ok(c, rest);
  }

  lemma HexRoundTrip(d: nat)
    requires d < 16
    ensures IsHex(HexDigit(d)) && HexValue(HexDigit(d)) == d
  {
  }

  lemma {:induction false} ParseQuoted(t: string, rest: string)
    ensures ParseString(Escape(t) + "\"" + rest) == Ok(t, rest)
  {
    var s := Escape(t) + "\"" + rest;
    if t == "" {
      assert s[1..] == rest;
    } else {
      var more := Escape(t[1..]) + "\"" + rest;
      assert s == EscapeChar(t[0]) + more;
      ParseEscapedChar(t[0], more);
      ParseQuoted(t[1..], rest);
      hide EscapeChar, ParseEscape;
      assert [t[0]] + t[1..] == t;
    }
  }

  /** The first character of a printed value tells which kind of value it is. */
  lemma PrintStart(v: Value, gap: string)
    ensures var s := Print(v, gap);
            s != "" && !IsSpace(s[0]) && s[0] !in [']', '}', ',', ':']
            && (s[0] == '{' <==> v.Object?) && (s[0] == '[' <==> v.List?) && (s[0] == '"' <==> v.Str?)
            && (v.Int? ==> s[0] == '-' || IsDigit(s[0]))
  {
    if v.Int? { FirstDigit(if v.n < 0 then -v.n else v.n); }
  }

  lemma PrintFieldsStart(fields: seq<Field>, gap: string)
    requires fields != []
    ensures PrintFields(fields, gap) != "" && PrintFields(fields, gap)[0] == '"'
  {
  }

  lemma PrintItemsStart(items: seq<Value>, gap: string)
    requires items != []
    ensures PrintItems(items, gap) != "" && !IsSpace(PrintItems(items, gap)[0]) && PrintItems(items, gap)[0] != ']'
  {
    PrintStart(items[0], gap);
  }

  /** Round trip: parsing what was printed gives the value back and stops right
      behind it. */
  lemma {:induction false} ParsePrint(v: Value, gap: string, rest: string)
    requires Blank(gap)
    requires v.Int? ==> rest == "" || !IsDigit(rest[0])
    ensures ParseValue(Print(v, gap) + rest) == Ok(v, rest)
    decreases v
  {
    var s := Print(v, gap) + rest;
    PrintStart(v, gap);
    match v
    case Null => assert s[4..] == rest; assert "null" <= s;
    case Bool(b) =>
      if b { assert s[4..] == rest; assert "true" <= s; } else { assert s[5..] == rest; assert "false" <= s; }
    case Int(n) => ParseIntOf(n, rest);
    case Str(t) =>
      assert s[1..] == Escape(t) + "\"" + rest;
      ParseQuoted(t, rest);
    case List(items) => ParsePrintList(items, gap, rest);
    case Object(fields) => ParsePrintObject(fields, gap, rest);
  }

  lemma {:induction false} ParsePrintList(items: seq<Value>, gap: string, rest: string)
    requires Blank(gap)
    ensures ParseValue(Print(List(items), gap) + rest) == Ok(List(items), rest)
    decreases items, 1
  {
    var s := Print(List(items), gap) + rest;
    assert s[1..] == PrintItems(items, gap) + "]" + rest;
    if items == [] {
      assert s[1..] == "]" + rest;
      assert s[1..][1..] == rest;
    } else {
      PrintItemsStart(items, gap);
      ParsePrintItems(items, gap, rest);
    }
  }

  lemma {:induction false} ParsePrintObject(fields: seq<Field>, gap: string, rest: string)
    requires Blank(gap)
    ensures ParseValue(Print(Object(fields), gap) + rest) == Ok(Object(fields), rest)
    decreases fields, 1
  {
    var s := Print(Object(fields), gap) + rest;
    assert s[1..] == PrintFields(fields, gap) + "}" + rest;
    if fields == [] {
      assert s[1..] == "}" + rest;
      assert s[1..][1..] == rest;
    } else {
      PrintFieldsStart(fields, gap);
      ParsePrintFields(fields, gap, rest);
    }
  }

  lemma {:induction false} ParsePrintItems(items: seq<Value>, gap: string, rest: string)
    requires Blank(gap) && items != []
    ensures ParseItems(PrintItems(items, gap) + "]" + rest) == Ok(items, rest)
    decreases items, 0
  {
    hide ParseValue, Print, Skip;
    var s := PrintItems(items, gap) + "]" + rest;
    var first := Print(items[0], gap);
    if |items| == 1 {
      var tail := "]" + rest;
      assert s == first + tail;
      ParsePrint(items[0], gap, tail);
      assert tail[1..] == rest && items == [items[0]];
    } else {
      var more := PrintItems(items[1..], gap) + "]" + rest;
      var tail := "," + (gap + more);
      assert s == first + tail;
      ParsePrint(items[0], gap, tail);
      assert tail[1..] == gap + more;
      PrintItemsStart(items[1..], gap);
      SkipGap(gap, more);
      ParsePrintItems(items[1..], gap, rest);
      assert items == [items[0]] + items[1..];
    }
  }

  lemma {:induction false} ParsePrintField(f: Field, gap: string, rest: string)
    requires Blank(gap)
    requires f.val.Int? ==> rest == "" || !IsDigit(rest[0])
    ensures ParseField(PrintField(f, gap) + rest) == Ok(f, rest)
    decreases f, 0
  {
    hide ParseString, ParseValue, Print, Escape, PrintField, ParseField, Skip;
    var s := PrintField(f, gap) + rest;
    var value := Print(f.val, gap) + rest;
    var tail := ":" + (gap + value);
    FieldText(f, gap, rest);
    assert ParseString(s[1..]) == Ok(f.key, tail) by { ParseQuoted(f.key, tail); }
    assert tail[1..] == gap + value;
    assert Skip(gap + value) == value by { PrintStart(f.val, gap); SkipGap(gap, value); }
    assert ParseValue(value) == Ok(f.val, rest) by { ParsePrint(f.val, gap, rest); }
    FieldStep(s, f.key, tail, f.val, rest);
  }

  lemma FieldText(f: Field, gap: string, rest: string)
    ensures var s := PrintField(f, gap) + rest;
            s != "" && s[0] == '"' && s[1..] == Escape(f.key) + "\"" + (":" + (gap + (Print(f.val, gap) + rest)))
  {
    hide Escape, Print;
  }

  /** One unfolding of `ParseField`. */
  lemma FieldStep(s: string, k: string, r: string, v: Value, rest: string)
    requires s != "" && s[0] == '"' && ParseString(s[1..]) == Ok(k, r)
    requires r != "" && Skip(r) == r && r[0] == ':' && ParseValue(Skip(r[1..])) == Ok(v, rest)
    ensures ParseField(s) == Ok(Field(k, v), rest)
  {
    hide ParseString, ParseValue, Skip;
  }

  lemma {:induction false} ParsePrintFields(fields: seq<Field>, gap: string, rest: string)
    requires Blank(gap) && fields != []
    ensures ParseFields(PrintFields(fields, gap) + "}" + rest) == Ok(fields, rest)
    decreases fields, 0
  {
    hide ParseField, PrintField, Skip;
    var s := PrintFields(fields, gap) + "}" + rest;
    var first := PrintField(fields[0], gap);
    if |fields| == 1 {
      var tail := "}" + rest;
      assert s == first + tail;
      ParsePrintField(fields[0], gap, tail);
      assert tail[1..] == rest && fields == [fields[0]];
    } else {
      var more := PrintFields(fields[1..], gap) + "}" + rest;
      var tail := "," + (gap + more);
      assert s == first + tail;
      ParsePrintField(fields[0], gap, tail);
      assert tail[1..] == gap + more;
      PrintFieldsStart(fields[1..], gap);
      SkipGap(gap, more);
      ParsePrintFields(fields[1..], gap, rest);
      assert fields == [fields[0]] + fields[1..];
    }
  }

  lemma LoadsPrint(v: Value, gap: string)
    requires Blank(gap)
    ensures Loads(Print(v, gap)) == Ok(v, "")
  {
    ParsePrint(v, gap, "");
    PrintStart(v, gap);
    assert Print(v, gap) + "" == Print(v, gap);
  }

  /** Equal text, equal value. */
  lemma PrintInjective(v: Value, w: Value, gap: string)
    requires Blank(gap) && Print(v, gap) == Print(w, gap)
    ensures v == w
  {
    LoadsPrint(v, gap);
    LoadsPrint(w, gap);
  }

  // -------------------------------------- text that follows changes no parse

  lemma {:induction false} SkipMore(s: string, x: string)
    requires Skip(s) != ""
    ensures Skip(s + x) == Skip(s) + x
  {
    if IsSpace(s[0]) {
      assert (s + x)[1..] == s[1..] + x;
      SkipMore(s[1..], x);
    }
  }

  lemma {:induction false} DigitsMore(s: string, acc: nat, x: string)
    requires ParseDigits(s, acc).1 != ""
    ensures ParseDigits(s + x, acc) == (ParseDigits(s, acc).0, ParseDigits(s, acc).1 + x)
  {
    if IsDigit(s[0]) {
      assert (s + x)[1..] == s[1..] + x;
      DigitsMore(s[1..], 10 * acc + DigitValue(s[0]), x);
    }
  }

  lemma NatMore(s: string, x: string)
    requires ParseNat(s).Ok? && ParseNat(s).rest != ""
    ensures ParseNat(s + x) == Ok(ParseNat(s).value, ParseNat(s).rest + x)
  {
    assert (s + x)[1..] == s[1..] + x;
    if s[0] != '0' { DigitsMore(s[1..], DigitValue(s[0]), x); }
  }

  lemma {:induction false} StringMore(s: string, x: string)
    requires ParseString(s).Ok?
    ensures ParseString(s + x) == Ok(ParseString(s).value, ParseString(s).rest + x)
  {
    assert (s + x)[1..] == s[1..] + x;
    if s[0] != '"' {
      var p := if s[0] == '\\' then ParseEscape(s[1..]) else Ok(s[0], s[1..]);
      if s[0] == '\\' { EscapeMore(s[1..], x); }
      StringMore(p.rest, x);
    }
  }

  lemma EscapeMore(s: string, x: string)
    requires ParseEscape(s).Ok?
    ensures ParseEscape(s + x) == Ok(ParseEscape(s).value, ParseEscape(s).rest + x)
  {
    assert (s + x)[1..] == s[1..] + x;
    if s[0] == 'u' {
      assert (s[1..] + x)[4..] == s[1..][4..] + x;
    }
  }

  lemma WordMore(s: string, word: string, v: Value, x: string)
    requires word != "" && ParseWord(s, word, v).Ok?
    ensures ParseWord(s + x, word, v) == Ok(v, ParseWord(s, word, v).rest + x)
  {
    assert (s + x)[|word|..] == s[|word|..] + x;
    assert word <= s + x;
  }

  /** A value already read stays the same when text is added, except that a
      number at the very end could still grow. */
  lemma {:induction false} ValueMore(s: string, x: string)
    requires ParseValue(s).Ok?
    requires ParseValue(s).value.Int? ==> ParseValue(s).rest != ""
    ensures ParseValue(s + x) == Ok(ParseValue(s).value, ParseValue(s).rest + x)
    decreases |s|, 1
  {
    assert (s + x)[1..] == s[1..] + x;
    if s[0] == '{' {
      var r := Skip(s[1..]);
      SkipMore(s[1..], x);
      if r[0] == '}' { assert (r + x)[1..] == r[1..] + x; } else { FieldsMore(r, x); }
    } else if s[0] == '[' {
      var r := Skip(s[1..]);
      SkipMore(s[1..], x);
      if r[0] == ']' { assert (r + x)[1..] == r[1..] + x; } else { ItemsMore(r, x); }
    } else if s[0] == '"' {
      StringMore(s[1..], x);
    } else if s[0] == 'n' {
      WordMore(s, "null", Null, x);
    } else if s[0] == 't' {
      WordMore(s, "true", Bool(true), x);
    } else if s[0] == 'f' {
      WordMore(s, "false", Bool(false), x);
    } else if s[0] == '-' {
      NatMore(s[1..], x);
    } else {
      NatMore(s, x);
    }
  }

  lemma {:induction false} ItemsMore(s: string, x: string)
    requires ParseItems(s).Ok?
    ensures ParseItems(s + x) == Ok(ParseItems(s).value, ParseItems(s).rest + x)
    decreases |s|, 2
  {
    hide ParseValue, Skip;
    var r0 := ParseValue(s).rest;
    var r := Skip(r0);
    ValueMore(s, x);
    SkipMore(r0, x);
    assert (r + x)[1..] == r[1..] + x;
    if r[0] == ',' {
      SkipMore(r[1..], x);
      ItemsMore(Skip(r[1..]), x);
    }
  }

  lemma {:induction false} FieldMore(s: string, x: string)
    requires ParseField(s).Ok?
    requires ParseField(s).value.val.Int? ==> ParseField(s).rest != ""
    ensures ParseField(s + x) == Ok(ParseField(s).value, ParseField(s).rest + x)
    decreases |s|, 2
  {
    hide ParseValue, ParseString, Skip;
    assert (s + x)[1..] == s[1..] + x;
    StringMore(s[1..], x);
    var r0 := ParseString(s[1..]).rest;
    var r := Skip(r0);
    SkipMore(r0, x);
    assert (r + x)[1..] == r[1..] + x;
    SkipMore(r[1..], x);
    ValueMore(Skip(r[1..]), x);
  }

  lemma {:induction false} FieldsMore(s: string, x: string)
    requires ParseFields(s).Ok?
    ensures ParseFields(s + x) == Ok(ParseFields(s).value, ParseFields(s).rest + x)
    decreases |s|, 3
  {
    hide ParseField, Skip;
    var f, r0 := ParseField(s).value, ParseField(s).rest;
    var r := Skip(r0);
    assert ParseField(s + x) == Ok(f, r0 + x) by { FieldMore(s, x); }
    assert Skip(r0 + x) == r + x by { SkipMore(r0, x); }
    assert (r + x)[0] == r[0] && (r + x)[1..] == r[1..] + x;
    if r[0] == ',' {
      var t := Skip(r[1..]);
      assert Skip(r[1..] + x) == t + x by { SkipMore(r[1..], x); }
      assert ParseFields(t + x) == Ok(ParseFields(t).value, ParseFields(t).rest + x) by { FieldsMore(t, x); }
    }
  }

  lemma BraceIsNoNumber(s: string)
    requires s != "" && s[0] == '{' && ParseValue(s).Ok?
    ensures !ParseValue(s).value.Int?
  {
    hide ParseFields, ParseItems, ParseString, ParseInt, ParseWord;
  }

  /** A torn line never parses: every proper prefix of a printed object is
      rejected. */
  lemma ProperPrefixIsBad(v: Value, gap: string, k: nat)
    requires Blank(gap) && v.Object? && k < |Print(v, gap)|
    ensures Loads(Print(v, gap)[..k]).Bad?
  {
    hide ParseValue, PrintFields;
    var line := Print(v, gap);
    var p, x := line[..k], line[k..];
    if p != "" && Loads(p).Ok? {
      assert p[0] == '{' && Skip(p) == p;
      BraceIsNoNumber(p);
      hide Print, Skip;
      ValueMore(p, x);
      assert p + x == line && line + "" == line;
      ParsePrint(v, gap, "");
    }
  }

  /** Nor does a line with another one glued behind it. */
  lemma GluedLineIsBad(v: Value, gap: string, x: string)
    requires Blank(gap) && v.Object? && x != "" && !IsSpace(x[0])
    ensures Loads(Print(v, gap) + x).Bad?
  {
    ParsePrint(v, gap, x);
    PrintStart(v, gap);
  }

  // ------------------------------------------------- a printed value is a line

  ghost predicate OneLine(s: string) {
    '\n' !in s
  }

  lemma {:induction false} EscapeOneLine(s: string)
    ensures OneLine(Escape(s))
  {
    if s != "" {
      assert '\n' !in EscapeChar(s[0]);
      EscapeOneLine(s[1..]);
    }
  }

  lemma {:induction false} DigitsOneLine(n: nat)
    ensures OneLine(Digits(n))
  {
    if n >= 10 { DigitsOneLine(n / 10); }
  }

  lemma {:induction false} PrintOneLine(v: Value, gap: string)
    requires OneLine(gap)
    ensures OneLine(Print(v, gap))
    decreases v
  {
    match v
    case Null =>
    case Bool(_) =>
    case Int(n) => DigitsOneLine(if n < 0 then -n else n);
    case Str(s) => EscapeOneLine(s);
    case List(items) => ItemsOneLine(items, gap);
    case Object(fields) => FieldsOneLine(fields, gap);
  }

  lemma {:induction false} ItemsOneLine(items: seq<Value>, gap: string)
    requires OneLine(gap)
    ensures OneLine(PrintItems(items, gap))
    decreases items
  {
    if items != [] {
      PrintOneLine(items[0], gap);
      ItemsOneLine(items[1..], gap);
    }
  }

  lemma {:induction false} FieldsOneLine(fields: seq<Field>, gap: string)
    requires OneLine(gap)
    ensures OneLine(PrintFields(fields, gap))
    decreases fields
  {
    if fields != [] {
      EscapeOneLine(fields[0].key);
      PrintOneLine(fields[0].val, gap);
      FieldsOneLine(fields[1..], gap);
    }
  }
}
