/** Printed without blanks, a value is its shortest JSON text: whatever reads back
    as the value is at least as long. Canonical text is in this sense as short as
    JSON can be, over all texts with the same meaning; so it has no blank to spare,
    no character escaped without need, and no entry twice. */
module ShortText {
  import opened Json
  import opened TextOrder
  import opened CanonicalJson

  // ------------------------------------------------------- what a parser consumes

  lemma {:induction false} DigitsRead(s: string, acc: nat)
    ensures var (n, rest) := ParseDigits(s, acc); |Digits(n)| <= |Digits(acc)| + |s| - |rest|
  {
    if s != "" && IsDigit(s[0]) {
      var d := DigitValue(s[0]);
      assert (10 * acc + d) / 10 == acc;
      assert |Digits(10 * acc + d)| <= |Digits(acc)| + 1;
      DigitsRead(s[1..], 10 * acc + d);
    }
  }

  lemma IntRead(s: string)
    requires ParseInt(s).Ok?
    ensures |Number(ParseInt(s).value)| <= |s| - |ParseInt(s).rest|
  {
    if s[0] == '-' { NatRead(s[1..]); } else { NatRead(s); }
  }

  lemma NatRead(s: string)
    requires ParseNat(s).Ok?
    ensures ParseNat(s).value >= 0 && |Digits(ParseNat(s).value)| <= |s| - |ParseNat(s).rest|
  {
    if s[0] != '0' { DigitsRead(s[1..], DigitValue(s[0])); }
  }

  lemma EscapeRead(s: string)
    requires ParseEscape(s).Ok?
    ensures |EscapeChar(ParseEscape(s).value)| <= 1 + |s| - |ParseEscape(s).rest|
  {
    hide ParseUnicode;
    if s[0] == 'u' { UnicodeRead(s[1..]); }
  }

  lemma UnicodeRead(s: string)
    requires ParseUnicode(s).Ok?
    ensures |s| - |ParseUnicode(s).rest| == 4
  {
  }

  lemma {:induction false} StringRead(s: string)
    requires ParseString(s).Ok?
    ensures |Escape(ParseString(s).value)| < |s| - |ParseString(s).rest|
  {
    if s[0] != '"' {
      var (c, r) := if s[0] == '\\' then (ParseEscape(s[1..]).value, ParseEscape(s[1..]).rest) else (s[0], s[1..]);
      if s[0] == '\\' { EscapeRead(s[1..]); }
      assert |EscapeChar(c)| <= |s| - |r|;
      StringRead(r);
      hide EscapeChar, ParseEscape;
      var t := ParseString(r).value;
      assert ParseString(s).value == [c] + t && ([c] + t)[1..] == t;
    }
  }

  // ------------------------------------------------------------- whole values

  lemma {:induction false} ValueRead(s: string)
    requires ParseValue(s).Ok?
    ensures |Print(ParseValue(s).value, "")| <= |s| - |ParseValue(s).rest|
    decreases |s|, 1
  {
    hide ParseString, ParseInt, Number, Escape;
    if s[0] == '{' {
      var r := Skip(s[1..]);
      if !(r != "" && r[0] == '}') { FieldsRead(r); }
    } else if s[0] == '[' {
      var r := Skip(s[1..]);
      if !(r != "" && r[0] == ']') { ItemsRead(r); }
    } else if s[0] == '"' {
      StringRead(s[1..]);
    } else if s[0] !in {'n', 't', 'f'} {
      IntRead(s);
    }
  }

  lemma {:induction false} ItemsRead(s: string)
    requires ParseItems(s).Ok?
    ensures ParseItems(s).value != [] && |PrintItems(ParseItems(s).value, "")| < |s| - |ParseItems(s).rest|
    decreases |s|, 2
  {
    hide ParseValue, Print;
    ValueRead(s);
    var p := ParseValue(s);
    var r := Skip(p.rest);
    if r[0] == ',' {
      ItemsRead(Skip(r[1..]));
      var vs := ParseItems(Skip(r[1..])).value;
      assert ([p.value] + vs)[1..] == vs;
    }
  }

  lemma {:induction false} FieldRead(s: string)
    requires ParseField(s).Ok?
    ensures |PrintField(ParseField(s).value, "")| <= |s| - |ParseField(s).rest|
    decreases |s|, 2
  {
    hide ParseString, ParseValue, Print, Escape;
    StringRead(s[1..]);
    var r := Skip(ParseString(s[1..]).rest);
    ValueRead(Skip(r[1..]));
  }

  lemma {:induction false} FieldsRead(s: string)
    requires ParseFields(s).Ok?
    ensures ParseFields(s).value != [] && |PrintFields(ParseFields(s).value, "")| < |s| - |ParseFields(s).rest|
    decreases |s|, 3
  {
    hide ParseField, PrintField;
    FieldRead(s);
    var p := ParseField(s);
    var r := Skip(p.rest);
    if r[0] == ',' {
      FieldsRead(Skip(r[1..]));
      var fs := ParseFields(Skip(r[1..])).value;
      assert ([p.value] + fs)[1..] == fs;
    }
  }

  /** No text that reads as a value is shorter than the value printed. */
  lemma PrintIsShortest(x: string)
    requires Loads(x).Ok?
    ensures |Print(Loads(x).value, "")| <= |x|
  {
    ValueRead(Skip(x));
  }

  // --------------------------------------------------- sorting makes no longer

  /** What the entries of a dictionary take, a separator each. */
  function Room(fields: seq<Field>): nat {
    if fields == [] then 0 else Room(fields[..|fields| - 1]) + |PrintField(fields[|fields| - 1], "")| + 1
  }

  lemma {:induction false} RoomAppend(a: seq<Field>, b: seq<Field>)
    ensures Room(a + b) == Room(a) + Room(b)
  {
    hide PrintField;
    if b == [] {
      assert a + b == a;
    } else {
      assert (a + b)[..|a + b| - 1] == a + b[..|b| - 1];
      RoomAppend(a, b[..|b| - 1]);
    }
  }

  lemma RoomOne(f: Field)
    ensures Room([f]) == |PrintField(f, "")| + 1
  {
    assert [f][..0] == [];
  }

  lemma {:induction false} RoomOfPrint(fields: seq<Field>)
    ensures |PrintFields(fields, "")| == if fields == [] then 0 else Room(fields) - 1
  {
    hide PrintField;
    if fields != [] {
      assert fields == [fields[0]] + fields[1..];
      RoomAppend([fields[0]], fields[1..]);
      RoomOne(fields[0]);
      RoomOfPrint(fields[1..]);
    }
  }

  lemma {:induction false} CanonIsNoLonger(v: Value)
    ensures |Print(Canon(v), "")| <= |Print(v, "")|
    decreases v
  {
    match v
    case List(items) => ItemsNoLonger(items);
    case Object(fields) =>
      var m := CanonFields(fields);
      var keys := SortedKeys(m.Keys);
      forall i, j | 0 <= i < j < |keys| ensures keys[i] != keys[j] { Trichotomy(keys[i], keys[j]); }
      KeysNoLonger(fields, keys);
      hide Canon, PrintFields, PrintField, CanonFields;
      RoomOfPrint(fields);
      RoomOfPrint(InKeyOrder(m));
      if fields != [] { assert Room(fields) > 0; }
    case _ =>
  }

  lemma {:induction false} ItemsNoLonger(items: seq<Value>)
    ensures |PrintItems(CanonItems(items), "")| <= |PrintItems(items, "")|
    decreases items
  {
    hide Print;
    if items != [] {
      CanonIsNoLonger(items[0]);
      ItemsNoLonger(items[1..]);
      assert CanonItems(items)[1..] == CanonItems(items[1..]);
    }
  }

  /** Each key's latest entry, whichever keys are asked for and in whatever order,
      once each. */
  lemma {:induction false} KeysNoLonger(fields: seq<Field>, keys: seq<string>)
    requires forall k :: k in keys ==> k in CanonFields(fields)
    requires forall i, j :: 0 <= i < j < |keys| ==> keys[i] != keys[j]
    ensures Room(Entries(keys, CanonFields(fields))) <= Room(fields)
    decreases fields
  {
    hide Canon, PrintField, CanonFields;
    var m := CanonFields(fields);
    if fields == [] {
      assert m == map[] by { Empty(); }
    } else {
      var n := |fields| - 1;
      CanonLast(fields);
      if i :| 0 <= i < |keys| && keys[i] == fields[n].key {
        var others := WithoutKey(fields, keys, i);
        KeysNoLonger(fields[..n], others);
        CanonIsNoLonger(fields[n].val);
        FieldNoLonger(fields[n]);
      } else {
        SameEntries(keys, m, CanonFields(fields[..n]));
        KeysNoLonger(fields[..n], keys);
      }
    }
  }

  lemma WithoutKey(fields: seq<Field>, keys: seq<string>, i: nat) returns (others: seq<string>)
    requires fields != [] && i < |keys| && keys[i] == fields[|fields| - 1].key
    requires forall k :: k in keys ==> k in CanonFields(fields)
    requires forall i, j :: 0 <= i < j < |keys| ==> keys[i] != keys[j]
    ensures forall i, j :: 0 <= i < j < |others| ==> others[i] != others[j]
    ensures forall k :: k in others ==> k in CanonFields(fields[..|fields| - 1])
    ensures var last := fields[|fields| - 1];
            Room(Entries(keys, CanonFields(fields)))
            == Room(Entries(others, CanonFields(fields[..|fields| - 1])))
               + |PrintField(Field(last.key, Canon(last.val)), "")| + 1
  {
    hide Canon, PrintField, CanonFields, Entries, Room;
    CanonLast(fields);
    var a, b := keys[..i], keys[i + 1..];
    assert keys == a + [keys[i]] + b;
    others := a + b;
    SplitRoom(a, keys[i], b, CanonFields(fields));
    SameEntries(others, CanonFields(fields), CanonFields(fields[..|fields| - 1]));
  }

  lemma Empty()
    ensures CanonFields([]) == map[]
  {
  }

  lemma CanonLast(fields: seq<Field>)
    requires fields != []
    ensures var n := |fields| - 1;
            CanonFields(fields) == CanonFields(fields[..n])[fields[n].key := Canon(fields[n].val)]
  {
  }

  lemma FieldNoLonger(f: Field)
    requires |Print(Canon(f.val), "")| <= |Print(f.val, "")|
    ensures |PrintField(Field(f.key, Canon(f.val)), "")| <= |PrintField(f, "")|
  {
    hide Canon, Print;
  }

  lemma {:induction false} EntriesAppend(a: seq<string>, b: seq<string>, m: map<string, Value>)
    requires forall k :: k in a || k in b ==> k in m
    ensures Entries(a + b, m) == Entries(a, m) + Entries(b, m)
  {
  }

  lemma SplitRoom(a: seq<string>, k: string, b: seq<string>, m: map<string, Value>)
    requires forall x :: x in a + [k] + b ==> x in m
    ensures forall x :: x in a + b ==> x in m
    ensures k in m && Room(Entries(a + [k] + b, m)) == Room(Entries(a + b, m)) + |PrintField(Field(k, m[k]), "")| + 1
  {
    hide PrintField, Room, Entries;
    assert k in a + [k] + b;
    forall x | x in a + b ensures x in m { assert x in a + [k] + b; }
    assert forall x :: x in a + [k] ==> x in a + [k] + b;
    EntriesAppend(a + [k], b, m);
    EntriesAppend(a, [k], m);
    EntriesAppend(a, b, m);
    OneEntry(k, m);
    RoomAppend(Entries(a + [k], m), Entries(b, m));
    RoomAppend(Entries(a, m), Entries([k], m));
    RoomAppend(Entries(a, m), Entries(b, m));
    RoomOne(Field(k, m[k]));
  }

  lemma OneEntry(k: string, m: map<string, Value>)
    requires k in m
    ensures Entries([k], m) == [Field(k, m[k])]
  {
  }

  lemma SameEntries(keys: seq<string>, m: map<string, Value>, w: map<string, Value>)
    requires forall k :: k in keys ==> k in m && k in w && m[k] == w[k]
    ensures Entries(keys, m) == Entries(keys, w)
  {
  }

  /** Of all JSON texts with the meaning of `v`, its canonical text is a shortest. */
  lemma CanonicalIsShortest(v: Value, x: string)
    requires Loads(x).Ok? && Denote(Loads(x).value) == Denote(v)
    ensures |Canonical(v)| <= |x|
  {
    hide Loads, Print, Canon, Denote;
    PrintIsShortest(x);
    CanonIsNoLonger(Loads(x).value);
    SameMeaningSameCanon(v, Loads(x).value);
  }

  /** Control characters without a short escape are written with lower-case digits,
      and no other escape has a letter in it that could be written two ways. */
  lemma EscapesAreLowerCase(c: char, i: nat)
    requires i < |EscapeChar(c)| && |EscapeChar(c)| > 1
    ensures !('A' <= EscapeChar(c)[i] <= 'Z')
  {
  }
}
