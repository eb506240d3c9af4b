/** Why a torn line poisons the line written after it: the file is not trimmed,
    so the next line is glued to the torn one, and the result never parses.

    Throughout, `x` is the glued text: a complete printed object whose first key
    starts with an ordinary letter. */
module TornText {
  import opened Json

  /** A printed object `{"e...`, nothing behind it. */
  ghost predicate Glued(x: string) {
    |x| > 2 && x[0] == '{' && x[1] == '"' && x[2] == 'e' && ParseValue(x).Ok? && ParseValue(x).rest == ""
  }

  /** No list or dictionary can go on from here. */
  predicate Hopeless(r: string) {
    var s := Skip(r);
    s == "" || s[0] == '{' || s[0] == 'e'
  }

  /** A reading of a value that fails or stops at a hopeless place. */
  ghost predicate Stuck(p: Parsed<Value>) {
    p.Ok? ==> Hopeless(p.rest)
  }

  lemma HopelessStarts(r: string)
    ensures r == "" || r[0] == '{' || r[0] == 'e' ==> Hopeless(r)
  {
  }

  lemma PrefixOfSum(q: string, a: string, b: string)
    requires q <= a + b
    ensures |q| <= |a| ==> q <= a
    ensures |q| > |a| ==> q == a + q[|a|..] && q[|a|..] <= b
  {
    assert q == (a + b)[..|q|];
    if |q| > |a| {
      assert (a + b)[..|q|] == a + b[..|q| - |a|];
    } else {
      assert (a + b)[..|q|] == a[..|q|];
    }
  }

  lemma NotPrefix(word: string, s: string, i: nat)
    requires i < |word| && i < |s| && word[i] != s[i]
    ensures !(word <= s)
  {
  }

  // ---------------------------------------------------------------- strings

  lemma OpenString(x: string)
    requires Glued(x)
    ensures ParseString(x) == Ok("{", x[2..]) && x[2..] != "" && x[2..][0] == 'e'
  {
    hide ParseValue;
    assert x[1..][0] == '"' && x[1..][1..] == x[2..];
    assert ParseString(x[1..]) == Ok("", x[2..]);
    assert [x[0]] + "" == "{";
  }

  lemma TornEscape(c: char, q: string, x: string)
    requires Glued(x) && q < EscapeChar(c)
    ensures var p := ParseString(q + x); p.Ok? ==> p.rest != "" && p.rest[0] == 'e'
  {
    hide ParseValue;
    var s := q + x;
    if q == "" {
      assert s == x;
      OpenString(x);
    } else {
      assert s[0] == '\\';
      TornBackslash(c, q[1..], x);
      assert s[1..] == q[1..] + x;
    }
  }

  lemma TornBackslash(c: char, q: string, x: string)
    requires Glued(x) && ['\\'] + q < EscapeChar(c)
    ensures ParseEscape(q + x).Bad?
  {
    hide ParseValue;
    var s := q + x;
    if q == "" {
      assert s[0] == '{';
    } else {
      assert |q| <= 4 && q[0] == 'u';
      var u := q[1..] + x;
      assert s[0] == 'u' && s[1..] == u;
      assert u[|q| - 1] == '{';
    }
  }

  lemma {:induction false} TornString(t: string, q: string, x: string)
    requires Glued(x) && q <= Escape(t)
    ensures var p := ParseString(q + x); p.Ok? ==> p.rest != "" && p.rest[0] == 'e'
  {
    hide ParseValue, EscapeChar, ParseString;
    if t == "" {
      assert q + x == x;
      OpenString(x);
    } else {
      var c := EscapeChar(t[0]);
      PrefixOfSum(q, c, Escape(t[1..]));
      if |q| < |c| {
        TornEscape(t[0], q, x);
      } else {
        var r := q[|c|..];
        assert r <= Escape(t[1..]);
        assert q + x == c + (r + x);
        ParseEscapedChar(t[0], r + x);
        TornString(t[1..], r, x);
        OneMoreChar(q + x, t[0], r + x);
      }
    }
  }

  lemma OneMoreChar(s: string, c: char, more: string)
    requires StartsWith(s, c, more)
    ensures ParseString(s) == if ParseString(more).Ok? then Ok([c] + ParseString(more).value, ParseString(more).rest) else Bad
  {
    hide ParseEscape;
  }

  /** A torn or complete string literal followed by `x`. */
  lemma TornQuote(t: string, q: string, x: string)
    requires Glued(x) && q <= Quote(t) && q != ""
    ensures var p := ParseString(q[1..] + x); p.Ok? ==> p.rest != "" && (p.rest[0] == 'e' || p.rest == x)
  {
    hide ParseValue, ParseString;
    var e := Escape(t);
    assert Quote(t) == "\"" + (e + "\"");
    PrefixOfSum(q, "\"", e + "\"");
    PrefixOfSum(q[1..], e, "\"");
    if |q| - 1 <= |e| {
      TornString(t, q[1..], x);
    } else {
      assert q[1..] == e + "\"";
      ParseQuoted(t, x);
    }
  }

  // ---------------------------------------------------------------- numbers

  lemma {:induction false} RestOfDigits(d: string, q: string, acc: nat, x: string)
    requires q <= d && x != "" && !IsDigit(x[0]) && forall i :: 0 <= i < |d| ==> IsDigit(d[i])
    ensures ParseDigits(q + x, acc).1 == x
    decreases |q|
  {
    if q == "" {
      assert q + x == x;
    } else {
      assert q[0] == d[0] && q[1..] <= d[1..];
      assert (q + x)[1..] == q[1..] + x;
      RestOfDigits(d[1..], q[1..], 10 * acc + DigitValue(q[0]), x);
    }
  }

  lemma {:induction false} AllDigits(n: nat)
    ensures forall i :: 0 <= i < |Digits(n)| ==> IsDigit(Digits(n)[i])
  {
    if n < 10 { DigitRoundTrip(n); } else { AllDigits(n / 10); DigitRoundTrip(n % 10); }
  }

  lemma TornNat(n: nat, q: string, x: string)
    requires Glued(x) && q <= Digits(n)
    ensures q == "" ==> ParseNat(q + x).Bad?
    ensures ParseNat(q + x).Ok? ==> ParseNat(q + x).rest == x
  {
    hide ParseValue, Digits, ParseDigits;
    if q == "" {
      assert q + x == x;
    } else {
      AllDigits(n);
      FirstDigit(n);
      assert q[0] == Digits(n)[0];
      assert (q + x)[1..] == q[1..] + x;
      if q[0] == '0' {
        ZeroIsShort(n);
        assert q[1..] + x == x;
      } else {
        RestOfDigits(Digits(n)[1..], q[1..], DigitValue(q[0]), x);
      }
    }
  }

  lemma ZeroIsShort(n: nat)
    requires Digits(n)[..1] == "0"
    ensures |Digits(n)| == 1
  {
    FirstDigit(n);
    assert Digits(n)[0] == Digits(n)[..1][0] == '0';
  }

  lemma TornNumber(n: int, q: string, x: string)
    requires Glued(x) && q <= Number(n) && q != ""
    ensures ParseInt(q + x).Ok? ==> ParseInt(q + x).rest == x
  {
    hide ParseValue, Digits, ParseNat;
    if n < 0 {
      assert q[0] == '-' && (q + x)[1..] == q[1..] + x;
      assert q[1..] <= Digits(-n) by { assert q == Number(n)[..|q|]; assert q[1..] == Digits(-n)[..|q| - 1]; }
      TornNat(-n, q[1..], x);
    } else {
      FirstDigit(n);
      assert q[0] == Digits(n)[0];
      TornNat(n, q, x);
    }
  }

  lemma TornWord(word: string, v: Value, q: string, x: string)
    requires Glued(x) && q <= word && '{' !in word && q != ""
    ensures var p := ParseWord(q + x, word, v); p.Ok? ==> p.rest == x
  {
    if |q| < |word| {
      assert (q + x)[|q|] == '{' && word[|q|] in word;
      NotPrefix(word, q + x, |q|);
    } else {
      assert q == word && (q + x)[|word|..] == x;
    }
  }

  // ----------------------------------------------------------------- values

  /** Any prefix of a printed value, complete or not, followed by `x`. */
  lemma {:induction false} TornValue(v: Value, gap: string, q: string, x: string)
    requires Glued(x) && Blank(gap) && q <= Print(v, gap)
    ensures Stuck(ParseValue(q + x))
    decreases v
  {
    HopelessStarts(x);
    HopelessStarts("");
    if q == "" {
      assert q + x == x;
    } else {
      PrintStart(v, gap);
      assert q[0] == Print(v, gap)[0];
      match v
      case List(items) => TornList(items, gap, q, x);
      case Object(fields) => TornObject(fields, gap, q, x);
      case _ => TornScalar(v, gap, q, x);
    }
  }

  lemma TornScalar(v: Value, gap: string, q: string, x: string)
    requires Glued(x) && !v.List? && !v.Object? && q <= Print(v, gap) && q != ""
    ensures Stuck(ParseValue(q + x))
  {
    assert (q + x)[0] == q[0] == Print(v, gap)[0] by { PrintStart(v, gap); }
    hide ParseString, ParseInt, Escape, Number, Hopeless, ParseValue;
    HopelessStarts(x);
    match v
    case Null => TornWord("null", Null, q, x); WordValue(q + x, 'n');
    case Bool(b) =>
      if b { TornWord("true", Bool(true), q, x); WordValue(q + x, 't'); }
      else { TornWord("false", Bool(false), q, x); WordValue(q + x, 'f'); }
    case Int(n) => NumberStart(n); TornNumber(n, q, x); NumberValue(q + x);
    case Str(t) =>
      assert (q + x)[1..] == q[1..] + x;
      TornQuote(t, q, x);
      if ParseString((q + x)[1..]).Ok? { HopelessStarts(ParseString((q + x)[1..]).rest); }
      StringValue(q + x);
  }

  lemma WordValue(s: string, c: char)
    requires s != "" && s[0] == c && c in {'n', 't', 'f'}
    ensures ParseValue(s) == if c == 'n' then ParseWord(s, "null", Null)
                             else if c == 't' then ParseWord(s, "true", Bool(true))
                             else ParseWord(s, "false", Bool(false))
  {
    hide ParseWord;
  }

  lemma NumberValue(s: string)
    requires s != "" && (s[0] == '-' || IsDigit(s[0]))
    ensures ParseValue(s) == match ParseInt(s) case Ok(n, rest) => Ok(Int(n), rest) case Bad => Bad
  {
    hide ParseInt;
  }

  lemma StringValue(s: string)
    requires s != "" && s[0] == '"'
    ensures ParseValue(s) == match ParseString(s[1..]) case Ok(t, rest) => Ok(Str(t), rest) case Bad => Bad
  {
    hide ParseString;
  }

  lemma NumberStart(n: int)
    ensures Number(n) != "" && (Number(n)[0] == '-' || IsDigit(Number(n)[0]))
  {
    FirstDigit(if n < 0 then -n else n);
  }

  lemma {:induction false} TornList(items: seq<Value>, gap: string, q: string, x: string)
    requires Glued(x) && Blank(gap) && q <= Print(List(items), gap) && q != ""
    ensures Stuck(ParseValue(q + x))
    decreases items, 2
  {
    var whole := Print(List(items), gap);
    var s := q + x;
    HopelessStarts(x);
    if q == whole {
      ParsePrint(List(items), gap, x);
    } else {
      var inner := PrintItems(items, gap);
      assert whole == "[" + (inner + "]");
      PrefixOfSum(q, "[", inner + "]");
      PrefixOfSum(q[1..], inner, "]");
      assert s[0] == '[' && s[1..] == q[1..] + x;
      TornItems(items, gap, q[1..], x);
      hide ParseItems, Skip, PrintItems;
    }
  }

  lemma GluedSkip(x: string)
    requires Glued(x)
    ensures Skip(x) == x && "" + x == x && x != "" && x[0] == '{'
  {
    hide ParseValue;
  }

  /** What a cut behind a complete element leaves: a separator, then the rest
      `t` of the text that was to come. */
  lemma TornTail(sep: char, gap: string, text: string, r: string, x: string) returns (t: string)
    requires Glued(x) && Blank(gap) && r != "" && r <= [sep] + (gap + text)
    ensures t <= text && (r + x)[0] == sep && Skip((r + x)[1..]) == Skip(t + x)
  {
    hide ParseValue, Skip;
    PrefixOfSum(r, [sep], gap + text);
    assert (r + x)[0] == sep && (r + x)[1..] == r[1..] + x;
    GluedSkip(x);
    AfterGap(gap, text, r[1..], x);
    if |r| - 1 <= |gap| { t := ""; } else { t := r[1..][|gap|..]; }
  }

  /** The elements of a list without its closing bracket, then `x`. */
  lemma {:induction false} TornItems(items: seq<Value>, gap: string, q: string, x: string)
    requires Glued(x) && Blank(gap) && q <= PrintItems(items, gap)
    ensures ParseItems(Skip(q + x)).Bad?
    ensures Skip(q + x) != "" && Skip(q + x)[0] != ']'
    decreases items, 1
  {
    assert items == [] ==> PrintItems(items, gap) == "";
    hide ParseValue, Print, ParseItems, PrintItems, Skip, Hopeless;
    GluedSkip(x);
    if q == "" {
      HopelessStarts("");
      StuckItems(x);
    } else {
      var first := Print(items[0], gap);
      PrintStart(items[0], gap);
      PrintItemsStart(items, gap);
      PrintItemsFirst(items, gap);
      assert (q + x)[0] == q[0] == PrintItems(items, gap)[0];
      if |items| > 1 { PrefixOfSum(q, first, "," + (gap + PrintItems(items[1..], gap))); }
      if |q| <= |first| {
        TornValue(items[0], gap, q, x);
        StuckItems(q + x);
      } else {
        var r := q[|first|..];
        assert q + x == first + (r + x);
        var t := TornTail(',', gap, PrintItems(items[1..], gap), r, x);
        ParsePrint(items[0], gap, r + x);
        TornItems(items[1..], gap, t, x);
        ItemsStep(q + x, items[0], r + x);
      }
    }
  }

  /** A cut inside the gap leaves `x` next; a cut after it leaves the rest. */
  lemma AfterGap(gap: string, text: string, r: string, x: string)
    requires Blank(gap) && r <= gap + text && x != "" && !IsSpace(x[0])
    ensures |r| <= |gap| ==> Skip(r + x) == Skip(x)
    ensures |r| > |gap| ==> r[|gap|..] <= text && Skip(r + x) == Skip(r[|gap|..] + x)
  {
    PrefixOfSum(r, gap, text);
    if |r| <= |gap| {
      SkipGap(r, x);
    } else {
      var t := r[|gap|..];
      assert r + x == gap + (t + x);
      SkipBlank(gap, t + x);
    }
  }

  lemma PrintItemsFirst(items: seq<Value>, gap: string)
    requires items != []
    ensures PrintItems(items, gap) ==
            if |items| == 1 then Print(items[0], gap)
            else Print(items[0], gap) + ("," + (gap + PrintItems(items[1..], gap)))
  {
    hide Print;
  }

  lemma PrintFieldsFirst(fields: seq<Field>, gap: string)
    requires fields != []
    ensures PrintFields(fields, gap) ==
            if |fields| == 1 then PrintField(fields[0], gap)
            else PrintField(fields[0], gap) + ("," + (gap + PrintFields(fields[1..], gap)))
  {
    hide PrintField;
  }

  lemma {:induction false} SkipBlank(gap: string, s: string)
    requires Blank(gap)
    ensures Skip(gap + s) == Skip(s)
  {
    if gap == "" {
      assert gap + s == s;
    } else {
      assert (gap + s)[1..] == gap[1..] + s;
      SkipBlank(gap[1..], s);
    }
  }

  lemma StuckItems(s: string)
    requires Stuck(ParseValue(s))
    ensures ParseItems(s).Bad?
  {
    hide ParseValue;
  }

  lemma ItemsStep(s: string, v: Value, r: string)
    requires ParseValue(s) == Ok(v, r) && r != "" && r[0] == ',' && ParseItems(Skip(r[1..])).Bad?
    ensures ParseItems(s).Bad?
  {
    hide ParseValue;
    assert Skip(r) == r;
  }

  lemma {:induction false} TornObject(fields: seq<Field>, gap: string, q: string, x: string)
    requires Glued(x) && Blank(gap) && q <= Print(Object(fields), gap) && q != ""
    ensures Stuck(ParseValue(q + x))
    ensures q != Print(Object(fields), gap) ==> ParseValue(q + x).Bad?
    decreases fields, 2
  {
    var whole := Print(Object(fields), gap);
    var s := q + x;
    HopelessStarts(x);
    if q == whole {
      ParsePrint(Object(fields), gap, x);
    } else {
      var inner := PrintFields(fields, gap);
      assert whole == "{" + (inner + "}");
      PrefixOfSum(q, "{", inner + "}");
      PrefixOfSum(q[1..], inner, "}");
      assert s[0] == '{' && s[1..] == q[1..] + x;
      TornFields(fields, gap, q[1..], x);
      hide ParseFields, Skip, PrintFields;
    }
  }

  /** The entries of a dictionary without its closing brace, then `x`. */
  lemma {:induction false} TornFields(fields: seq<Field>, gap: string, q: string, x: string)
    requires Glued(x) && Blank(gap) && q <= PrintFields(fields, gap)
    ensures ParseFields(Skip(q + x)).Bad?
    ensures Skip(q + x) != "" && Skip(q + x)[0] != '}'
    decreases fields, 1
  {
    assert fields == [] ==> PrintFields(fields, gap) == "";
    hide Glued, Blank, ParseField, PrintField, ParseFields, PrintFields, Skip, Hopeless, StuckField;
    GluedSkip(x);
    if q == "" {
      NoField(x);
    } else {
      TornSomeFields(fields, gap, q, x);
    }
  }

  lemma {:induction false} TornSomeFields(fields: seq<Field>, gap: string, q: string, x: string)
    requires Glued(x) && Blank(gap) && fields != [] && q != "" && q <= PrintFields(fields, gap)
    ensures ParseFields(Skip(q + x)).Bad?
    ensures Skip(q + x) != "" && Skip(q + x)[0] != '}'
    decreases fields, 0, 1
  {
    hide Glued, Blank, ParseField, PrintField, ParseFields, PrintFields, Skip, Hopeless, StuckField;
    var first := PrintField(fields[0], gap);
    PrintFieldsStart(fields, gap);
    PrintFieldsFirst(fields, gap);
    assert (q + x)[0] == q[0] == '"';
    if |q| <= |first| {
      assert q <= first;
      TornField(fields[0], gap, q, x);
      StuckFields(q + x);
    } else {
      PrefixOfSum(q, first, "," + (gap + PrintFields(fields[1..], gap)));
      TornLaterFields(fields, gap, q[|first|..], x);
      assert q + x == first + (q[|first|..] + x);
    }
  }

  lemma {:induction false} TornLaterFields(fields: seq<Field>, gap: string, r: string, x: string)
    requires Glued(x) && Blank(gap) && |fields| > 1 && r != "" && r <= "," + (gap + PrintFields(fields[1..], gap))
    ensures ParseFields(PrintField(fields[0], gap) + (r + x)).Bad?
    decreases fields, 0, 0
  {
    hide Glued, Blank, ParseField, PrintField, ParseFields, PrintFields, Skip, Hopeless, StuckField;
    var t := TornTail(',', gap, PrintFields(fields[1..], gap), r, x);
    ParsePrintField(fields[0], gap, r + x);
    TornFields(fields[1..], gap, t, x);
    FieldsStep(PrintField(fields[0], gap) + (r + x), fields[0], r + x);
  }

  ghost predicate StuckField(p: Parsed<Field>) {
    p.Ok? ==> Hopeless(p.rest)
  }

  lemma NoField(s: string)
    requires s != "" && s[0] == '{'
    ensures ParseFields(s).Bad?
  {
  }

  lemma StuckFields(s: string)
    requires StuckField(ParseField(s))
    ensures ParseFields(s).Bad?
  {
    hide ParseField;
  }

  lemma FieldsStep(s: string, f: Field, r: string)
    requires ParseField(s) == Ok(f, r) && r != "" && r[0] == ',' && ParseFields(Skip(r[1..])).Bad?
    ensures ParseFields(s).Bad?
  {
    hide ParseField;
    assert Skip(r) == r;
  }

  lemma {:induction false} TornField(f: Field, gap: string, q: string, x: string)
    requires Glued(x) && Blank(gap) && q <= PrintField(f, gap) && q != ""
    ensures StuckField(ParseField(q + x))
    decreases f, 0
  {
    hide ParseValue, ParseString, ParseField, Print, Escape, Skip, Hopeless;
    var key := Quote(f.key);
    var tail := ":" + (gap + Print(f.val, gap));
    var whole := PrintField(f, gap);
    assert whole == key + tail;
    assert q[0] == whole[0] == '"';
    assert (q + x)[0] == '"' && (q + x)[1..] == q[1..] + x;
    PrefixOfSum(q, key, tail);
    if |q| <= |key| {
      TornQuote(f.key, q, x);
      NoColon(q + x, x);
    } else {
      var r := q[|key|..];
      assert q[1..] + x == Escape(f.key) + "\"" + (r + x);
      ParseQuoted(f.key, r + x);
      var t := TornTail(':', gap, Print(f.val, gap), r, x);
      TornValue(f.val, gap, t, x);
      NoBlankAhead(f.val, gap, t, x);
      FieldValueStep(q + x, f.key, r + x);
    }
  }

  lemma NoBlankAhead(v: Value, gap: string, t: string, x: string)
    requires Glued(x) && t <= Print(v, gap)
    ensures Skip(t + x) == t + x
  {
    hide ParseValue, Print;
    PrintStart(v, gap);
    if t == "" { assert t + x == x; } else { assert (t + x)[0] == Print(v, gap)[0]; }
  }

  /** After the key comes no colon. */
  lemma NoColon(s: string, x: string)
    requires Glued(x) && s != "" && s[0] == '"'
    requires var p := ParseString(s[1..]); p.Ok? ==> p.rest != "" && (p.rest[0] == 'e' || p.rest == x)
    ensures ParseField(s).Bad?
  {
    hide ParseString, ParseValue;
  }

  lemma FieldValueStep(s: string, k: string, r: string)
    requires s != "" && s[0] == '"' && ParseString(s[1..]) == Ok(k, r) && r != "" && r[0] == ':'
    requires Stuck(ParseValue(Skip(r[1..])))
    ensures StuckField(ParseField(s))
  {
    hide ParseString, ParseValue;
    assert Skip(r) == r;
  }

  /** Whatever part of an object's line is left, complete or torn, a line glued
      behind it makes the whole unreadable. */
  lemma GluedToTornIsBad(v: Value, gap: string, k: nat, x: string)
    requires Glued(x) && Blank(gap) && v.Object? && 0 < k <= |Print(v, gap)|
    ensures Loads(Print(v, gap)[..k] + x).Bad?
  {
    var q := Print(v, gap)[..k];
    PrintStart(v, gap);
    assert (q + x)[0] == Print(v, gap)[0] == '{';
    assert Skip(q + x) == q + x;
    if q == Print(v, gap) {
      GluedLineIsBad(v, gap, x);
    } else {
      TornObject(v.fields, gap, q, x);
    }
  }
}
