/** The order of keys in canonical text, compared with section 3.2.3 of RFC 8785.
    The code sorts keys as Python compares strings, character by character; the
    standard sorts them by their UTF-16 code units. The two differ exactly where
    a character of U+E000..U+FFFF meets one beyond U+FFFF. */
module KeyOrder {
  import opened Json
  import opened TextOrder
  import opened CanonicalJson

  // ------------------------------------------------------- UTF-16 code units

  function Units(c: char): (r: seq<int>)
    ensures 1 <= |r| <= 2
  {
    var n := c as int;
    if n < 0x1_0000 then [n]
    else [0xD800 + (n - 0x1_0000) / 0x400, 0xDC00 + (n - 0x1_0000) % 0x400]
  }

  function Utf16(s: string): seq<int> {
    if s == "" then [] else Units(s[0]) + Utf16(s[1..])
  }

  predicate LessUnits(a: seq<int>, b: seq<int>) {
    if b == [] then false
    else if a == [] then true
    else a[0] < b[0] || (a[0] == b[0] && LessUnits(a[1..], b[1..]))
  }

  // -------------------------------------------------------- where they differ

  /** How many characters two strings begin with in common. */
  function Common(a: string, b: string): (n: nat)
    ensures n <= |a| && n <= |b|
  {
    if a == "" || b == "" || a[0] != b[0] then 0 else 1 + Common(a[1..], b[1..])
  }

  predicate Crossed(c: char, d: char) {
    0xE000 <= c as int < 0x1_0000 <= d as int
  }

  /** At the first difference one character lies in U+E000..U+FFFF and the other
      beyond U+FFFF. */
  predicate CrossedKeys(a: string, b: string) {
    var n := Common(a, b);
    n < |a| && n < |b| && (Crossed(a[n], b[n]) || Crossed(b[n], a[n]))
  }

  /** Different characters compare as their units do, unless they are crossed. */
  lemma CharsAgreeIff(c: char, d: char, x: seq<int>, y: seq<int>)
    requires c != d
    ensures (c < d <==> LessUnits(Units(c) + x, Units(d) + y)) <==> !(Crossed(c, d) || Crossed(d, c))
  {
    var u, v := Units(c) + x, Units(d) + y;
    assert u[0] == Units(c)[0] && v[0] == Units(d)[0];
    if c as int >= 0x1_0000 && d as int >= 0x1_0000 {
      var m, n := c as int - 0x1_0000, d as int - 0x1_0000;
      assert m == 0x400 * (m / 0x400) + m % 0x400 && n == 0x400 * (n / 0x400) + n % 0x400;
      assert u[1..][0] == Units(c)[1] && v[1..][0] == Units(d)[1];
    }
  }

  lemma SamePrefix(u: seq<int>, x: seq<int>, y: seq<int>)
    requires 1 <= |u| <= 2
    ensures LessUnits(u + x, u + y) <==> LessUnits(x, y)
  {
    assert (u + x)[1..] == u[1..] + x && (u + y)[1..] == u[1..] + y;
    if |u| == 2 {
      assert (u[1..] + x)[1..] == x && (u[1..] + y)[1..] == y;
    } else {
      assert u[1..] + x == x && u[1..] + y == y;
    }
  }

  /** Two keys compare in Python as in the standard if and only if they are not
      crossed at their first difference. */
  lemma {:induction false} KeysAgreeIff(a: string, b: string)
    requires a != b
    ensures (Less(a, b) <==> LessUnits(Utf16(a), Utf16(b))) <==> !CrossedKeys(a, b)
  {
    hide Units, LessUnits;
    if a == "" || b == "" {
      EmptyKey(a, b);
    } else if a[0] == b[0] {
      assert a == [a[0]] + a[1..] && b == [b[0]] + b[1..];
      KeysAgreeIff(a[1..], b[1..]);
      SamePrefix(Units(a[0]), Utf16(a[1..]), Utf16(b[1..]));
    } else {
      CharsAgreeIff(a[0], b[0], Utf16(a[1..]), Utf16(b[1..]));
    }
  }

  lemma EmptyKey(a: string, b: string)
    requires a != b && (a == "" || b == "")
    ensures Less(a, b) <==> a == ""
    ensures LessUnits(Utf16(a), Utf16(b)) <==> a == ""
  {
    if a == "" { assert Utf16(b) != []; } else { assert Utf16(a) != []; }
  }

  lemma {:induction false} CrossedEitherWay(a: string, b: string)
    ensures CrossedKeys(a, b) <==> CrossedKeys(b, a)
  {
    SameCommon(a, b);
  }

  lemma {:induction false} SameCommon(a: string, b: string)
    ensures Common(a, b) == Common(b, a)
  {
    if a != "" && b != "" && a[0] == b[0] { SameCommon(a[1..], b[1..]); }
  }

  // --------------------------------------------------------- whole key lists

  ghost predicate AscendingUnits(keys: seq<string>) {
    forall i, j :: 0 <= i < j < |keys| ==> LessUnits(Utf16(keys[i]), Utf16(keys[j]))
  }

  ghost predicate Uncrossed(keys: seq<string>) {
    forall i, j :: 0 <= i < j < |keys| ==> !CrossedKeys(keys[i], keys[j])
  }

  /** A list in Python's order is in the standard's exactly when no two of its
      keys are crossed. */
  lemma ListAgreesIff(keys: seq<string>)
    requires Ascending(keys)
    ensures AscendingUnits(keys) <==> Uncrossed(keys)
  {
    hide Less, LessUnits, CrossedKeys, Utf16;
    forall i, j | 0 <= i < j < |keys| ensures LessUnits(Utf16(keys[i]), Utf16(keys[j])) <==> !CrossedKeys(keys[i], keys[j]) {
      Trichotomy(keys[i], keys[j]);
      KeysAgreeIff(keys[i], keys[j]);
    }
  }

  // --------------------------------------------------------- canonical values

  function KeysOf(fields: seq<Field>): (r: seq<string>)
    ensures |r| == |fields| && forall i :: 0 <= i < |fields| ==> r[i] == fields[i].key
  {
    seq(|fields|, i requires 0 <= i < |fields| => fields[i].key)
  }

  /** Every object, at every depth, lists its keys in the standard's order. */
  ghost predicate RfcOrdered(v: Value) {
    match v
    case List(items) => forall i :: 0 <= i < |items| ==> RfcOrdered(items[i])
    case Object(fields) => AscendingUnits(KeysOf(fields)) && forall i :: 0 <= i < |fields| ==> RfcOrdered(fields[i].val)
    case _ => true
  }

  /** No object, at any depth, has two crossed keys. */
  ghost predicate NoCrossedKeys(v: Value) {
    match v
    case List(items) => forall i :: 0 <= i < |items| ==> NoCrossedKeys(items[i])
    case Object(fields) => Uncrossed(KeysOf(fields)) && forall i :: 0 <= i < |fields| ==> NoCrossedKeys(fields[i].val)
    case _ => true
  }

  /** A Python dictionary has each key once. */
  ghost predicate KeysOnce(v: Value) {
    match v
    case List(items) => forall i :: 0 <= i < |items| ==> KeysOnce(items[i])
    case Object(fields) =>
      (forall i, j :: 0 <= i < j < |fields| ==> fields[i].key != fields[j].key)
      && forall i :: 0 <= i < |fields| ==> KeysOnce(fields[i].val)
    case _ => true
  }

  lemma SortedObject(m: map<string, Value>)
    ensures KeysOf(InKeyOrder(m)) == SortedKeys(m.Keys)
    ensures forall i :: 0 <= i < |InKeyOrder(m)| ==> InKeyOrder(m)[i].key in m && InKeyOrder(m)[i].val == m[InKeyOrder(m)[i].key]
  {
    hide Less;
    var keys := SortedKeys(m.Keys);
    forall i | 0 <= i < |keys| ensures keys[i] in m { assert keys[i] in keys; }
  }

  /** Canonical keys are in the standard's order exactly when canonical text holds
      no crossed keys. */
  lemma {:induction false} CanonAgreesIff(v: Value)
    ensures RfcOrdered(Canon(v)) <==> NoCrossedKeys(Canon(v))
    decreases v
  {
    hide AscendingUnits, Uncrossed, InKeyOrder;
    match v
    case List(items) => forall i | 0 <= i < |items| { CanonAgreesIff(items[i]); }
    case Object(fields) =>
      var m := CanonFields(fields);
      var sorted := InKeyOrder(m);
      SortedObject(m);
      ListAgreesIff(SortedKeys(m.Keys));
      forall i | 0 <= i < |sorted| ensures RfcOrdered(sorted[i].val) <==> NoCrossedKeys(sorted[i].val) {
        var j := LatestEntry(fields, sorted[i].key);
        CanonAgreesIff(fields[j].val);
      }
    case _ =>
  }

  /** Sorting neither brings crossed keys nor hides them. */
  lemma {:induction false} CanonKeepsCrossed(v: Value)
    requires KeysOnce(v)
    ensures NoCrossedKeys(Canon(v)) <==> NoCrossedKeys(v)
    decreases v
  {
    hide Uncrossed, InKeyOrder, KeysOf, CanonFields, SortedKeys;
    match v
    case List(items) => forall i | 0 <= i < |items| { CanonKeepsCrossed(items[i]); }
    case Object(fields) =>
      var m := CanonFields(fields);
      var sorted := InKeyOrder(m);
      SortedObject(m);
      forall i | 0 <= i < |fields|
        ensures fields[i].key in m && m[fields[i].key] == Canon(fields[i].val)
        ensures NoCrossedKeys(Canon(fields[i].val)) <==> NoCrossedKeys(fields[i].val)
      {
        EntryStays(fields, i);
        CanonKeepsCrossed(fields[i].val);
      }
      SameCrossing(fields, m);
      SameEntries(fields, m);
    case _ =>
  }

  lemma EntryStays(fields: seq<Field>, i: nat)
    requires i < |fields| && forall j, k :: 0 <= j < k < |fields| ==> fields[j].key != fields[k].key
    ensures fields[i].key in CanonFields(fields) && CanonFields(fields)[fields[i].key] == Canon(fields[i].val)
  {
    hide CanonFields, DenoteFields, Canon, Denote;
    CanonKeys(fields);
    var j := LatestEntry(fields, fields[i].key);
  }

  lemma {:induction false} CanonKeys(fields: seq<Field>)
    ensures forall k :: k in CanonFields(fields) <==> exists i :: 0 <= i < |fields| && fields[i].key == k
  {
    hide Canon;
    if fields != [] {
      var n := |fields| - 1;
      CanonKeys(fields[..n]);
      assert forall i :: 0 <= i < n ==> fields[..n][i] == fields[i];
    }
  }

  lemma SameCrossing(fields: seq<Field>, m: map<string, Value>)
    requires m == CanonFields(fields) && forall j, k :: 0 <= j < k < |fields| ==> fields[j].key != fields[k].key
    ensures Uncrossed(SortedKeys(m.Keys)) <==> Uncrossed(KeysOf(fields))
  {
    hide Less, CrossedKeys, CanonFields, Uncrossed, Ascending;
    CanonKeys(fields);
    UncrossedSame(SortedKeys(m.Keys), KeysOf(fields)) by { SameMembers(fields, m.Keys); }
  }

  lemma SameMembers(fields: seq<Field>, keys: set<string>)
    requires forall k :: k in keys <==> exists i :: 0 <= i < |fields| && fields[i].key == k
    ensures forall k :: k in keys <==> k in KeysOf(fields)
  {
    hide KeysOf;
    forall k ensures k in keys <==> k in KeysOf(fields) {
      if k in KeysOf(fields) { var i :| 0 <= i < |fields| && KeysOf(fields)[i] == k; }
      if k in keys { var i :| 0 <= i < |fields| && fields[i].key == k; assert KeysOf(fields)[i] == k; }
    }
  }

  lemma UncrossedSame(a: seq<string>, b: seq<string>)
    requires forall k :: k in a <==> k in b
    ensures Uncrossed(a) <==> Uncrossed(b)
  {
    hide CrossedKeys, Uncrossed;
    UncrossedSet(a);
    UncrossedSet(b);
  }

  /** Whether keys are crossed does not depend on their order. */
  lemma UncrossedSet(keys: seq<string>)
    ensures Uncrossed(keys) <==> forall a, b :: a in keys && b in keys ==> !CrossedKeys(a, b)
  {
    hide CrossedKeys;
    if Uncrossed(keys) {
      forall a, b | a in keys && b in keys ensures !CrossedKeys(a, b) {
        var i :| 0 <= i < |keys| && keys[i] == a;
        var j :| 0 <= j < |keys| && keys[j] == b;
        CrossedEitherWay(a, b);
        if i == j { NotCrossedWithItself(a); }
      }
    }
  }

  lemma {:induction false} NotCrossedWithItself(a: string)
    ensures !CrossedKeys(a, a) && Common(a, a) == |a|
  {
    if a != "" { NotCrossedWithItself(a[1..]); }
  }

  lemma SameEntries(fields: seq<Field>, m: map<string, Value>)
    requires m == CanonFields(fields)
    requires forall i :: 0 <= i < |fields| ==> fields[i].key in m && m[fields[i].key] == Canon(fields[i].val)
    requires forall i :: 0 <= i < |fields| ==> (NoCrossedKeys(Canon(fields[i].val)) <==> NoCrossedKeys(fields[i].val))
    ensures (forall i :: 0 <= i < |InKeyOrder(m)| ==> NoCrossedKeys(InKeyOrder(m)[i].val))
            <==> forall i :: 0 <= i < |fields| ==> NoCrossedKeys(fields[i].val)
  {
    hide *;
    var sorted := InKeyOrder(m);
    SortedObject(m);
    if forall j :: 0 <= j < |fields| ==> NoCrossedKeys(fields[j].val) {
      forall i | 0 <= i < |sorted| ensures NoCrossedKeys(sorted[i].val) {
        var j := FieldUnder(fields, sorted[i].key);
      }
    }
    if forall i :: 0 <= i < |sorted| ==> NoCrossedKeys(sorted[i].val) {
      forall j | 0 <= j < |fields| ensures NoCrossedKeys(fields[j].val) {
        var i := PlaceOf(m, fields[j].key);
      }
    }
  }

  lemma FieldUnder(fields: seq<Field>, k: string) returns (j: nat)
    requires k in CanonFields(fields)
    ensures j < |fields| && fields[j].key == k
  {
    CanonKeys(fields);
    hide CanonFields;
    j :| 0 <= j < |fields| && fields[j].key == k;
  }

  lemma PlaceOf(m: map<string, Value>, k: string) returns (i: nat)
    requires k in m
    ensures i < |InKeyOrder(m)| && InKeyOrder(m)[i] == Field(k, m[k])
  {
    hide Less, InKeyOrder;
    SortedObject(m);
    assert k in SortedKeys(m.Keys);
    i :| 0 <= i < |InKeyOrder(m)| && KeysOf(InKeyOrder(m))[i] == k;
  }

  /** The exact condition: canonical text lists the keys of parameters in the order
      of section 3.2.3 of RFC 8785 if and only if no object among them has two
      keys that are crossed. */
  lemma CanonicalOrderIsRfcIff(v: Value)
    requires KeysOnce(v)
    ensures RfcOrdered(Canon(v)) <==> NoCrossedKeys(v)
  {
    CanonAgreesIff(v);
    CanonKeepsCrossed(v);
  }

  /** One input where it is not. */
  lemma CrossedExample()
    ensures var low, high := "\U{E000}", "\U{10000}";
            var v := Object([Field(low, Int(1)), Field(high, Int(2))]);
            Less(low, high) && LessUnits(Utf16(high), Utf16(low))
            && Canon(v) == v && !RfcOrdered(Canon(v))
  {
    var low, high := "\U{E000}", "\U{10000}";
    var v := Object([Field(low, Int(1)), Field(high, Int(2))]);
    CrossedPair(low, high);
    TwoKeys(low, Int(1), high, Int(2));
    hide Utf16, Less, LessUnits, InKeyOrder, CanonFields;
    Trichotomy(low, high);
    assert KeysOf(v.fields)[0] == low && KeysOf(v.fields)[1] == high;
  }

  lemma CrossedPair(low: string, high: string)
    requires |low| == |high| == 1 && low[0] == '\U{E000}' && high[0] == '\U{10000}'
    ensures Less(low, high) && LessUnits(Utf16(high), Utf16(low)) && !LessUnits(Utf16(low), Utf16(high))
  {
    assert low[1..] == "" && high[1..] == "";
    assert Utf16(low) == [0xE000] && Utf16(high) == [0xD800, 0xDC00];
  }

  lemma TwoKeys(k: string, v: Value, l: string, w: Value)
    requires Less(k, l) && Canon(v) == v && Canon(w) == w
    ensures Canon(Object([Field(k, v), Field(l, w)])) == Object([Field(k, v), Field(l, w)])
  {
    hide InKeyOrder, Less;
    Trichotomy(k, l);
    TwoEntries(k, v, l, w);
    hide CanonFields;
    SortTwo(CanonFields([Field(k, v), Field(l, w)]), k, l);
  }

  lemma TwoEntries(k: string, v: Value, l: string, w: Value)
    requires k != l && Canon(v) == v && Canon(w) == w
    ensures CanonFields([Field(k, v), Field(l, w)]) == map[k := v, l := w]
  {
    assert [Field(k, v), Field(l, w)][..1] == [Field(k, v)] && [Field(k, v)][..0] == [];
    assert CanonFields([Field(k, v)]) == map[k := v];
  }

  lemma SortTwo(m: map<string, Value>, k: string, l: string)
    requires m.Keys == {k, l} && Less(k, l)
    ensures InKeyOrder(m) == [Field(k, m[k]), Field(l, m[l])]
  {
    hide InKeyOrder, SortedKeys, Less;
    AscendingUnique(SortedKeys(m.Keys), [k, l]);
    SortedObject(m);
    var r := InKeyOrder(m);
    assert KeysOf(r)[0] == r[0].key && KeysOf(r)[1] == r[1].key;
  }
}
