/** Canonical text of action parameters, the input of `parametersHash`.

    `Meaning` is what a Python value denotes when dictionaries are compared as
    dictionaries: insertion order is gone, and of two entries under one key the
    later one counts. The theorem `CanonicalDecidesMeaning` says that canonical
    text is order-blind and unambiguous at once. */
module CanonicalJson {
  import opened Json
  import opened TextOrder

  datatype Meaning =
    | MNull
    | MBool(b: bool)
    | MInt(n: int)
    | MStr(s: string)
    | MList(items: seq<Meaning>)
    | MDict(entries: map<string, Meaning>)

  function Denote(v: Value): Meaning {
    match v
    case Null => MNull
    case Bool(b) => MBool(b)
    case Int(n) => MInt(n)
    case Str(s) => MStr(s)
    case List(items) => MList(DenoteItems(items))
    case Object(fields) => MDict(DenoteFields(fields))
  }

  function DenoteItems(items: seq<Value>): (r: seq<Meaning>)
    ensures |r| == |items|
    ensures forall i :: 0 <= i < |items| ==> r[i] == Denote(items[i])
  {
    if items == [] then [] else [Denote(items[0])] + DenoteItems(items[1..])
  }

  function DenoteFields(fields: seq<Field>): map<string, Meaning> {
    if fields == [] then map[]
    else
      var n := |fields| - 1;
      DenoteFields(fields[..n])[fields[n].key := Denote(fields[n].val)]
  }

  /** `sort_keys=True` at every level. */
  function Canon(v: Value): Value {
    match v
    case List(items) => List(CanonItems(items))
    case Object(fields) => Object(InKeyOrder(CanonFields(fields)))
    case _ => v
  }

  function CanonItems(items: seq<Value>): (r: seq<Value>)
    ensures |r| == |items|
    ensures forall i :: 0 <= i < |items| ==> r[i] == Canon(items[i])
  {
    if items == [] then [] else [Canon(items[0])] + CanonItems(items[1..])
  }

  function CanonFields(fields: seq<Field>): map<string, Value> {
    if fields == [] then map[]
    else
      var n := |fields| - 1;
      CanonFields(fields[..n])[fields[n].key := Canon(fields[n].val)]
  }

  /** The entries of `m` under the given keys, in that order. */
  function Entries(keys: seq<string>, m: map<string, Value>): (r: seq<Field>)
    requires forall k :: k in keys ==> k in m
    ensures |r| == |keys|
    ensures forall i :: 0 <= i < |keys| ==> r[i] == Field(keys[i], m[keys[i]])
  {
    if keys == [] then []
    else
      var n := |keys| - 1;
      Entries(keys[..n], m) + [Field(keys[n], m[keys[n]])]
  }

  function InKeyOrder(m: map<string, Value>): seq<Field> {
    Entries(SortedKeys(m.Keys), m)
  }

  /** `canonicalize` */
  function Canonical(v: Value): string {
    Print(Canon(v), "")
  }

  // ---------------------------------------------------- sorting keeps meaning

  /** Both readings of an entry list pick the same, latest entry of a key. */
  lemma {:induction false} LatestEntry(fields: seq<Field>, k: string) returns (i: int)
    ensures CanonFields(fields).Keys == DenoteFields(fields).Keys
    ensures k in DenoteFields(fields) ==>
      0 <= i < |fields| && fields[i].key == k
      && CanonFields(fields)[k] == Canon(fields[i].val) && DenoteFields(fields)[k] == Denote(fields[i].val)
  {
    i := 0;
    if fields != [] {
      var n := |fields| - 1;
      i := LatestEntry(fields[..n], k);
      if k == fields[n].key { i := n; }
    }
  }

  lemma {:induction false} MeaningOfEntries(keys: seq<string>, m: map<string, Value>)
    requires forall k :: k in keys ==> k in m
    ensures forall k :: k in DenoteFields(Entries(keys, m)) <==> k in keys
    ensures forall k :: k in keys ==> DenoteFields(Entries(keys, m))[k] == Denote(m[k])
  {
    if keys != [] {
      var n := |keys| - 1;
      MeaningOfEntries(keys[..n], m);
      assert Entries(keys, m)[..n] == Entries(keys[..n], m);
      assert forall k :: k in keys <==> k in keys[..n] || k == keys[n];
    }
  }

  lemma MeaningOfInKeyOrder(m: map<string, Value>)
    ensures DenoteFields(InKeyOrder(m)) == map k | k in m :: Denote(m[k])
  {
    MeaningOfEntries(SortedKeys(m.Keys), m);
  }

  lemma {:induction false} CanonKeepsMeaning(v: Value)
    ensures Denote(Canon(v)) == Denote(v)
    decreases v
  {
    match v
    case List(items) =>
      forall i | 0 <= i < |items| ensures Denote(Canon(items[i])) == Denote(items[i]) {
        CanonKeepsMeaning(items[i]);
      }
      assert DenoteItems(CanonItems(items)) == DenoteItems(items);
    case Object(fields) => CanonFieldsKeepMeaning(fields);
    case _ =>
  }

  lemma {:induction false} CanonFieldsKeepMeaning(fields: seq<Field>)
    ensures DenoteFields(InKeyOrder(CanonFields(fields))) == DenoteFields(fields)
    decreases fields
  {
    hide Canon, Denote, InKeyOrder, CanonFields, DenoteFields;
    var m, d := CanonFields(fields), DenoteFields(fields);
    MeaningOfInKeyOrder(m);
    var _ := LatestEntry(fields, "");
    forall k | k in d ensures Denote(m[k]) == d[k] {
      var i := LatestEntry(fields, k);
      CanonKeepsMeaning(fields[i].val);
    }
  }

  lemma {:induction false} SameMeaningSameCanon(v: Value, w: Value)
    requires Denote(v) == Denote(w)
    ensures Canon(v) == Canon(w)
    decreases v
  {
    match v
    case List(items) =>
      forall i | 0 <= i < |items| ensures Canon(items[i]) == Canon(w.items[i]) {
        assert DenoteItems(items)[i] == DenoteItems(w.items)[i];
        SameMeaningSameCanon(items[i], w.items[i]);
      }
      assert CanonItems(items) == CanonItems(w.items);
    case Object(fields) => SameFieldsSameCanon(fields, w.fields);
    case _ =>
  }

  lemma {:induction false} SameFieldsSameCanon(fs: seq<Field>, gs: seq<Field>)
    requires DenoteFields(fs) == DenoteFields(gs)
    ensures CanonFields(fs) == CanonFields(gs)
    decreases fs
  {
    hide Canon, Denote, CanonFields, DenoteFields;
    var _ := LatestEntry(fs, "");
    var _ := LatestEntry(gs, "");
    forall k | k in CanonFields(fs) ensures CanonFields(fs)[k] == CanonFields(gs)[k] {
      var i := LatestEntry(fs, k);
      var j := LatestEntry(gs, k);
      SameMeaningSameCanon(fs[i].val, gs[j].val);
    }
  }

  /** Two parameter values have the same canonical text exactly when they mean
      the same: key order never matters and nothing else is ever lost. */
  lemma CanonicalDecidesMeaning(v: Value, w: Value)
    ensures Canonical(v) == Canonical(w) <==> Denote(v) == Denote(w)
  {
    if Denote(v) == Denote(w) {
      SameMeaningSameCanon(v, w);
    }
    if Canonical(v) == Canonical(w) {
      PrintInjective(Canon(v), Canon(w), "");
      CanonKeepsMeaning(v);
      CanonKeepsMeaning(w);
    }
  }

  /** Canonical text is itself JSON for the same meaning. */
  lemma CanonicalLoads(v: Value)
    ensures Loads(Canonical(v)).Ok? && Denote(Loads(Canonical(v)).value) == Denote(v)
  {
    LoadsPrint(Canon(v), "");
    CanonKeepsMeaning(v);
  }
}
