/** Merging tags into parameters that already went through a merge: what a
    supersede does when it takes over the old ticket's parameters. The gate keys
    of the second merge replace those of the first; a tag of the first under any
    other key stays. */
module TwoMerges {
  import opened Wrappers
  import opened Json
  import opened TextOrder
  import opened GateTags

  // ------------------------------------------------------- one tag list

  lemma {:induction false} KeptAppend(a: seq<Value>, b: seq<Value>, keys: set<string>)
    requires Kept(a, keys).Some? && Kept(b, keys).Some?
    ensures Kept(a + b, keys) == Some(Kept(a, keys).value + Kept(b, keys).value)
  {
    hide Get, UnderGateKey;
    if a == [] {
      assert a + b == b && [] + Kept(b, keys).value == Kept(b, keys).value;
    } else {
      assert (a + b)[1..] == a[1..] + b && (a + b)[0] == a[0];
      KeptAppend(a[1..], b, keys);
      assert [a[0]] + (Kept(a[1..], keys).value + Kept(b, keys).value)
          == ([a[0]] + Kept(a[1..], keys).value) + Kept(b, keys).value;
    }
  }

  lemma UnderEither(tag: Value, few: set<string>, more: set<string>)
    requires tag.Object?
    ensures UnderGateKey(tag, few + more) <==> UnderGateKey(tag, few) || UnderGateKey(tag, more)
  {
  }

  /** Filtering twice is filtering by both key sets; whether it raises does not
      depend on the keys. */
  lemma {:induction false} KeptTwice(tags: seq<Value>, few: set<string>, more: set<string>)
    ensures Kept(tags, few).Some? <==> Kept(tags, few + more).Some?
    ensures Kept(tags, few).Some? ==> Kept(Kept(tags, few).value, more) == Kept(tags, few + more)
  {
    hide UnderGateKey, Get;
    if tags != [] {
      KeptTwice(tags[1..], few, more);
      if Kept(tags, few).Some? && tags[0].Object? {
        UnderEither(tags[0], few, more);
        if !UnderGateKey(tags[0], few) { assert Kept(tags, few).value[1..] == Kept(tags[1..], few).value; }
      }
    }
  }

  lemma {:induction false} KeptAnyway(tags: seq<Value>, few: set<string>, more: set<string>)
    ensures Kept(tags, few).Some? <==> Kept(tags, more).Some?
  {
    if tags != [] { KeptAnyway(tags[1..], few, more); }
  }

  // ----------------------------------------------- the gate's own tag list

  /** The keys outside `gone`, in order. */
  function Outside(keys: seq<string>, gone: set<string>): (r: seq<string>)
    ensures forall k :: k in r <==> k in keys && k !in gone
  {
    if keys == [] then [] else (if keys[0] in gone then [] else [keys[0]]) + Outside(keys[1..], gone)
  }

  lemma {:induction false} OutsideAscends(keys: seq<string>, gone: set<string>)
    requires Ascending(keys)
    ensures Ascending(Outside(keys, gone))
  {
    hide Less;
    if keys != [] {
      OutsideAscends(keys[1..], gone);
      var rest := Outside(keys[1..], gone);
      forall i | 0 <= i < |rest| ensures Less(keys[0], rest[i]) {
        assert rest[i] in keys[1..];
        var j :| 0 <= j < |keys[1..]| && keys[1..][j] == rest[i];
        assert keys[j + 1] == rest[i];
      }
    }
  }

  lemma KeptGateTag(k: string, v: string, keys: set<string>)
    ensures var t := GateTag(k, v);
            t.Object? && !Unhashable(Get(t.fields, "Key")) && (UnderGateKey(t, keys) <==> k in keys)
  {
  }

  lemma {:induction false} KeptOfTagList(ks: seq<string>, tags: map<string, string>, rest: map<string, string>,
                                         gone: set<string>)
    requires forall k :: k in ks ==> k in tags
    requires forall k :: k in ks && k !in gone ==> k in rest && rest[k] == tags[k]
    ensures Kept(TagList(ks, tags), gone) == Some(TagList(Outside(ks, gone), rest))
  {
    hide GateTag, Get, UnderGateKey, Unhashable;
    if ks != [] {
      var list := TagList(ks, tags);
      KeptGateTag(ks[0], tags[ks[0]], gone);
      KeptOfTagList(ks[1..], tags, rest, gone);
      assert list[0] == GateTag(ks[0], tags[ks[0]]) && list[1..] == TagList(ks[1..], tags);
      if ks[0] in gone {
        assert Outside(ks, gone) == Outside(ks[1..], gone);
      } else {
        assert Outside(ks, gone)[0] == ks[0] && Outside(ks, gone)[1..] == Outside(ks[1..], gone);
        assert TagList(Outside(ks, gone), rest) == [list[0]] + TagList(Outside(ks[1..], gone), rest);
      }
    }
  }

  /** Of the gate tags of one merge, a second merge keeps those under keys of the
      first alone. */
  lemma GateTagsGiveWay(first: map<string, string>, gone: set<string>)
    ensures Kept(GateTagList(first), gone) == Some(GateTagList(first - gone))
  {
    hide Kept, TagList, Less;
    var ks := SortedKeys(first.Keys);
    KeptOfTagList(ks, first, first - gone, gone);
    OutsideAscends(ks, gone);
    AscendingUnique(Outside(ks, gone), SortedKeys((first - gone).Keys));
  }

  // ------------------------------------------------------ merges compose

  /** Two merges in a row are one merge of this layer. */
  function Over(a: Layer, b: Layer): Layer
    requires Kept(a.list, b.keys).Some?
  {
    Layer(a.keys + b.keys, Kept(a.list, b.keys).value + b.list)
  }

  lemma MergeSpecTwice(spec: Value, types: seq<string>, a: Layer, b: Layer)
    requires MergeSpec(spec, types, a).Some? && Kept(a.list, b.keys).Some?
    ensures MergeSpec(MergeSpec(spec, types, a).value, types, b) == MergeSpec(spec, types, Over(a, b))
    ensures MergeSpec(spec, types, Over(a, b)).Some?
  {
    hide Get, Put, Kept;
    if GateType(spec, types).Some? {
      var t := Str(GateType(spec, types).value);
      var elements := Elements(spec.fields, TAGS).value;
      var kept := Kept(elements, a.keys).value;
      var once := MergeSpec(spec, types, a).value;
      TypeIsThere(spec, types);
      PutSame(spec.fields, TYPE, t);
      GetPut(spec.fields, TAGS, List(kept + a.list), TAGS);
      GetPut(spec.fields, TAGS, List(kept + a.list), TYPE);
      ListElements(once.fields, TAGS, kept + a.list);
      KeptTwice(elements, a.keys, b.keys);
      KeptAppend(kept, a.list, b.keys);
      PutSame(once.fields, TYPE, t);
      var both := Kept(elements, a.keys + b.keys).value;
      assert (both + Kept(a.list, b.keys).value) + b.list == both + Over(a, b).list;
      PutPut(spec.fields, TAGS, List(kept + a.list), List(both + Over(a, b).list));
    }
  }

  lemma TypeIsThere(spec: Value, types: seq<string>)
    requires GateType(spec, types).Some?
    ensures spec.Object? && Get(spec.fields, TYPE) == Some(Str(GateType(spec, types).value))
  {
    hide Get;
  }

  lemma MergeNewSpec(t: string, types: seq<string>, a: Layer, b: Layer)
    requires t in types && Kept(a.list, b.keys).Some?
    ensures MergeSpec(NewSpec(t, a), types, b) == Some(NewSpec(t, Over(a, b)))
    ensures GateType(NewSpec(t, a), types) == Some(t)
  {
    hide Get, Put, Kept;
    GetSecond(TYPE, Str(t), TAGS, List(a.list));
    ListElements(NewSpec(t, a).fields, TAGS, a.list);
  }

  lemma {:induction false} MergeSpecsAppend(x: seq<Value>, y: seq<Value>, types: seq<string>, l: Layer)
    requires MergeSpecs(y, types, l).Some?
    ensures MergeSpecs(x + y, types, l) ==
            match MergeSpecs(x, types, l) case Some(z) => Some(z + MergeSpecs(y, types, l).value) case None => None
  {
    hide *;
    if y == [] {
      NothingToMerge(types, l);
      assert x + y == x;
      if MergeSpecs(x, types, l).Some? { assert MergeSpecs(x, types, l).value + [] == MergeSpecs(x, types, l).value; }
    } else {
      var n := |y| - 1;
      Associate(x, y[..n], y[n]);
      assert y == y[..n] + [y[n]];
      MergeSpecsSnoc(y[..n], y[n], types, l);
      MergeSpecsAppend(x, y[..n], types, l);
      MergeSpecsSnoc(x + y[..n], y[n], types, l);
      if MergeSpecs(x, types, l).Some? {
        Associate(MergeSpecs(x, types, l).value, MergeSpecs(y[..n], types, l).value, MergeSpec(y[n], types, l).value);
      }
    }
  }

  lemma NothingToMerge(types: seq<string>, l: Layer)
    ensures MergeSpecs([], types, l) == Some([])
  {
  }

  lemma Associate(x: seq<Value>, y: seq<Value>, z: Value)
    ensures (x + y) + [z] == x + (y + [z])
  {
  }

  lemma {:induction false} MergeSpecsTwice(specs: seq<Value>, types: seq<string>, a: Layer, b: Layer)
    requires MergeSpecs(specs, types, a).Some? && Kept(a.list, b.keys).Some?
    ensures MergeSpecs(MergeSpecs(specs, types, a).value, types, b) == MergeSpecs(specs, types, Over(a, b))
    ensures MergeSpecs(specs, types, Over(a, b)).Some?
  {
    hide MergeSpec, Over, Kept;
    if specs != [] {
      var n := |specs| - 1;
      MergeSpecsTwice(specs[..n], types, a, b);
      MergeSpecTwice(specs[n], types, a, b);
      assert specs == specs[..n] + [specs[n]];
      MergeSpecsSnoc(specs[..n], specs[n], types, Over(a, b));
      MergeSpecsSnoc(MergeSpecs(specs[..n], types, a).value, MergeSpec(specs[n], types, a).value, types, b);
    }
  }

  lemma {:induction false} MergeNewSpecs(some: seq<string>, seen: set<string>, types: seq<string>, a: Layer, b: Layer)
    requires Kept(a.list, b.keys).Some? && forall t :: t in some ==> t in types
    ensures MergeSpecs(NewSpecs(some, seen, a), types, b) == Some(NewSpecs(some, seen, Over(a, b)))
  {
    hide MergeSpec, NewSpec, Over, Kept;
    if some != [] {
      var n := |some| - 1;
      MergeNewSpecs(some[..n], seen, types, a, b);
      if some[n] !in seen {
        assert some[n] in types;
        MergeNewSpec(some[n], types, a, b);
        MergeSpecsSnoc(NewSpecs(some[..n], seen, a), NewSpec(some[n], a), types, b);
      } else {
        assert forall x: seq<Value> :: x + [] == x;
      }
    }
  }

  lemma {:induction false} NothingNew(types: seq<string>, seen: set<string>, l: Layer)
    requires forall t :: t in types ==> t in seen
    ensures NewSpecs(types, seen, l) == []
  {
    if types != [] { NothingNew(types[..|types| - 1], seen, l); }
  }

  /** After one merge no gate type is missing. */
  lemma AllSeen(specs: seq<Value>, types: seq<string>, l: Layer)
    requires MergedSpecs(specs, types, l).Some?
    ensures forall t :: t in types ==> t in SeenTypes(MergedSpecs(specs, types, l).value, types)
  {
    hide GateType, MergeSpec, NewSpec;
    var seen := SeenTypes(specs, types);
    var front, added := MergeSpecs(specs, types, l).value, NewSpecs(types, seen, l);
    MergeSpecsAt(specs, types, l);
    NewSpecsCover(types, seen, l);
    forall t | t in types ensures exists s :: s in front + added && GateType(s, types) == Some(t) {
      if t in seen {
        var s :| s in specs && GateType(s, types) == Some(t);
        var i :| 0 <= i < |specs| && specs[i] == s;
        MergedSpecExtends(s, types, l);
        assert front[i] in front + added;
      } else {
        NewSpecType(t, types, l);
        assert NewSpec(t, l) in front + added;
      }
    }
  }

  lemma NewSpecType(t: string, types: seq<string>, l: Layer)
    requires t in types
    ensures GateType(NewSpec(t, l), types) == Some(t)
  {
    hide Get;
    GetSecond(TYPE, Str(t), TAGS, List(l.list));
  }

  lemma MergedSpecsTwice(specs: seq<Value>, types: seq<string>, a: Layer, b: Layer)
    requires MergedSpecs(specs, types, a).Some? && Kept(a.list, b.keys).Some?
    ensures MergedSpecs(MergedSpecs(specs, types, a).value, types, b) == MergedSpecs(specs, types, Over(a, b))
    ensures MergedSpecs(specs, types, Over(a, b)).Some?
  {
    hide MergeSpec, MergeSpecs, NewSpecs, SeenTypes, Over, Kept;
    var seen := SeenTypes(specs, types);
    var front, added := MergeSpecs(specs, types, a).value, NewSpecs(types, seen, a);
    MergeSpecsTwice(specs, types, a, b);
    MergeNewSpecs(types, seen, types, a, b);
    MergeSpecsAppend(front, added, types, b);
    AllSeen(specs, types, a);
    NothingNew(types, SeenTypes(front + added, types), b);
    var whole := MergeSpecs(specs, types, Over(a, b)).value + NewSpecs(types, seen, Over(a, b));
    assert whole + [] == whole;
  }

  lemma WithLayerTwice(operation: string, ps: seq<Field>, a: Layer, b: Layer)
    requires WithLayer(operation, ps, a).Some? && Kept(a.list, b.keys).Some?
    ensures WithLayer(operation, WithLayer(operation, ps, a).value, b) == WithLayer(operation, ps, Over(a, b))
    ensures WithLayer(operation, ps, Over(a, b)).Some?
  {
    hide Get, Put, MergedSpecs, ResourceTypes, Over, Kept, Elements;
    var types := ResourceTypes(operation);
    var existing := Elements(ps, SPECS).value;
    var merged := MergedSpecs(existing, types, a).value;
    GetPut(ps, SPECS, List(merged), SPECS);
    ListElements(Put(ps, SPECS, List(merged)), SPECS, merged);
    MergedSpecsTwice(existing, types, a, b);
    PutPut(ps, SPECS, List(merged), List(MergedSpecs(existing, types, Over(a, b)).value));
  }

  // ------------------------------------------------------------- the law

  /** What is left of both tag sets together: the first's under keys the second
      does not have, then the second's; in place of the caller's under either. */
  function Both(first: map<string, string>, second: map<string, string>): Layer {
    Layer(first.Keys + second.Keys, GateTagList(first - second.Keys) + GateTagList(second))
  }

  /** Two merges are one: no tag of the caller under a key of either survives,
      a tag of the first survives exactly under a key the second does not have. */
  lemma TwoMergesAreOne(service: string, operation: string, ps: seq<Field>, first: map<string, string>,
                        second: map<string, string>, taggable: bool)
    requires Applies(service, operation, first, taggable) && Applies(service, operation, second, taggable)
    requires WithGateTags(service, operation, ps, first, taggable).Some?
    ensures WithGateTags(service, operation, WithGateTags(service, operation, ps, first, taggable).value, second, taggable)
            == WithLayer(operation, ps, Both(first, second))
    ensures WithLayer(operation, ps, Both(first, second)).Some?
  {
    hide WithLayer, GateTagList, Kept, ResourceTypes;
    GateTagsGiveWay(first, second.Keys);
    WithLayerTwice(operation, ps, LayerOf(first), LayerOf(second));
  }

  /** A merge of any layer, spec by spec: the caller's specs keep their places,
      those of gate types get the layer, the others stay; each missing gate type
      is added with nothing but the layer; no other parameter is touched. */
  lemma LayerContract(operation: string, ps: seq<Field>, l: Layer)
    requires WithLayer(operation, ps, l).Some?
    ensures var out := WithLayer(operation, ps, l).value; var types := ResourceTypes(operation);
            Elements(ps, SPECS).Some? && Get(out, SPECS).Some? && Get(out, SPECS).value.List?
            && (forall key :: key != SPECS ==> Get(out, key) == Get(ps, key))
            && var was, now := Elements(ps, SPECS).value, Get(out, SPECS).value.items;
               |was| <= |now| && now[|was|..] == NewSpecs(types, SeenTypes(was, types), l)
               && forall i :: 0 <= i < |was| ==>
                    GateType(now[i], types) == GateType(was[i], types)
                    && if GateType(was[i], types).Some? then Extends(now[i], was[i], l) else now[i] == was[i]
  {
    hide Get, Put, MergeSpec, MergeSpecs, NewSpecs, ResourceTypes, SeenTypes, Elements, Extends;
    var types := ResourceTypes(operation);
    var was := Elements(ps, SPECS).value;
    var front, added := MergeSpecs(was, types, l).value, NewSpecs(types, SeenTypes(was, types), l);
    forall key ensures Get(Put(ps, SPECS, List(front + added)), key)
                       == if key == SPECS then Some(List(front + added)) else Get(ps, key) {
      GetPut(ps, SPECS, List(front + added), key);
    }
    MergeSpecsAt(was, types, l);
    forall i | 0 <= i < |was|
      ensures GateType(front[i], types) == GateType(was[i], types)
      ensures if GateType(was[i], types).Some? then Extends(front[i], was[i], l) else front[i] == was[i]
    {
      OneSpec(was[i], types, l);
    }
    assert (front + added)[|was|..] == added;
  }

  lemma OneSpec(spec: Value, types: seq<string>, l: Layer)
    requires MergeSpec(spec, types, l).Some?
    ensures var m := MergeSpec(spec, types, l).value;
            GateType(m, types) == GateType(spec, types)
            && if GateType(spec, types).Some? then Extends(m, spec, l) else m == spec
  {
    hide Extends;
    if GateType(spec, types).Some? { MergedSpecExtends(spec, types, l); }
  }

  /** The law, spec by spec: after both merges a spec of a gate type holds the
      caller's tags under neither key set, in order, then the first's tags under
      keys the second does not have, then the second's. A gate type the caller
      left out holds just the last two; all else is the caller's. */
  lemma TwoMergesContract(service: string, operation: string, ps: seq<Field>, first: map<string, string>,
                          second: map<string, string>, taggable: bool)
    requires Applies(service, operation, first, taggable) && Applies(service, operation, second, taggable)
    requires WithGateTags(service, operation, ps, first, taggable).Some?
    ensures WithGateTags(service, operation, WithGateTags(service, operation, ps, first, taggable).value, second, taggable).Some?
    ensures var once := WithGateTags(service, operation, ps, first, taggable).value;
            var out := WithGateTags(service, operation, once, second, taggable).value;
            var types := ResourceTypes(operation); var both := Both(first, second);
            Elements(ps, SPECS).Some? && Get(out, SPECS).Some? && Get(out, SPECS).value.List?
            && (forall key :: key != SPECS ==> Get(out, key) == Get(ps, key))
            && var was, now := Elements(ps, SPECS).value, Get(out, SPECS).value.items;
               |was| <= |now| && now[|was|..] == NewSpecs(types, SeenTypes(was, types), both)
               && forall i :: 0 <= i < |was| ==>
                    GateType(now[i], types) == GateType(was[i], types)
                    && if GateType(was[i], types).Some? then Extends(now[i], was[i], both) else now[i] == was[i]
  {
    hide WithLayer, WithGateTags, Applies, Get, GateType, Extends, Both, NewSpecs, SeenTypes, Elements, ResourceTypes;
    TwoMergesAreOne(service, operation, ps, first, second, taggable);
    LayerContract(operation, ps, Both(first, second));
  }

  /** Every gate type has a spec, and every spec of one carries this tag. */
  ghost predicate Carries(ps: seq<Field>, types: seq<string>, tag: Value) {
    Get(ps, SPECS).Some? && Get(ps, SPECS).value.List?
    && (forall s :: s in Get(ps, SPECS).value.items && GateType(s, types).Some? ==> HasTag(s, tag))
    && forall t :: t in types ==> exists s :: s in Get(ps, SPECS).value.items && GateType(s, types) == Some(t)
  }

  /** A tag of the first merge under a key the second does not have stays on every
      resource: it is left over. */
  lemma LeftOverTagStays(service: string, operation: string, ps: seq<Field>, first: map<string, string>,
                         second: map<string, string>, taggable: bool, k: string)
    requires Applies(service, operation, first, taggable) && Applies(service, operation, second, taggable)
    requires WithGateTags(service, operation, ps, first, taggable).Some? && k in first && k !in second
    ensures var once := WithGateTags(service, operation, ps, first, taggable).value;
            var out := WithGateTags(service, operation, once, second, taggable);
            out.Some? && Carries(out.value, ResourceTypes(operation), GateTag(k, first[k]))
  {
    hide WithGateTags, Applies, Get, GateType, SeenTypes, Elements, ResourceTypes, Both, Extends, NewSpecs, Tagged;
    TwoMergesContract(service, operation, ps, first, second, taggable);
    MergeContract(service, operation, WithGateTags(service, operation, ps, first, taggable).value, second, taggable);
    var types, both, tag := ResourceTypes(operation), Both(first, second), GateTag(k, first[k]);
    LeftTagIsListed(first, second, k);
    hide GateTag;
    var was := Elements(ps, SPECS).value;
    var once := WithGateTags(service, operation, ps, first, taggable).value;
    var now := Get(WithGateTags(service, operation, once, second, taggable).value, SPECS).value.items;
    forall s | s in now && GateType(s, types).Some? ensures HasTag(s, tag) {
      var i :| 0 <= i < |now| && now[i] == s;
      if i < |was| {
        ExtendsWith(now[i], was[i], both, tag);
      } else {
        assert now[|was|..][i - |was|] == s;
        NewSpecHasTag(types, SeenTypes(was, types), both, s, tag);
      }
    }
  }

  ghost predicate HasTag(spec: Value, tag: Value) {
    spec.Object? && Get(spec.fields, TAGS).Some? && Get(spec.fields, TAGS).value.List?
    && tag in Get(spec.fields, TAGS).value.items
  }

  lemma LeftTagIsListed(first: map<string, string>, second: map<string, string>, k: string)
    requires k in first && k !in second
    ensures GateTag(k, first[k]) in Both(first, second).list
  {
    hide GateTagList, GateTag, UnderGateKey, IsGateTag;
    var left := first - second.Keys;
    assert k in left && left[k] == first[k];
    GateTagListMembers(left);
  }

  lemma ExtendsWith(now: Value, spec: Value, l: Layer, tag: Value)
    requires Extends(now, spec, l) && tag in l.list
    ensures HasTag(now, tag)
  {
    hide Survivors, Get, Elements;
  }

  lemma NewSpecHasTag(types: seq<string>, seen: set<string>, l: Layer, s: Value, tag: Value)
    requires s in NewSpecs(types, seen, l) && tag in l.list
    ensures HasTag(s, tag)
  {
    hide Get, NewSpecs;
    NewSpecsCover(types, seen, l);
    var t :| t in types && t !in seen && s == NewSpec(t, l);
    GetSecond(TYPE, Str(t), TAGS, List(l.list));
  }

  // ------------------------------------------- when the second merge is all

  lemma {:induction false} MergesAnyway(specs: seq<Value>, types: seq<string>, a: Layer, b: Layer)
    ensures MergeSpecs(specs, types, a).Some? <==> MergeSpecs(specs, types, b).Some?
  {
    hide Get, Put, Kept, GateType;
    if specs != [] {
      var n := |specs| - 1;
      MergesAnyway(specs[..n], types, a, b);
      if GateType(specs[n], types).Some? {
        TypeIsThere(specs[n], types);
        if Elements(specs[n].fields, TAGS).Some? { KeptAnyway(Elements(specs[n].fields, TAGS).value, a.keys, b.keys); }
      }
    }
  }

  /** The tags of `own` under two layers. */
  ghost predicate SameTags(own: seq<Value>, a: Layer, b: Layer) {
    Survivors(own, a.keys) + a.list == Survivors(own, b.keys) + b.list
  }

  lemma SameSpec(spec: Value, types: seq<string>, a: Layer, b: Layer)
    requires MergeSpec(spec, types, a).Some? && MergeSpec(spec, types, b).Some?
    ensures MergeSpec(spec, types, a) == MergeSpec(spec, types, b)
            <==> (GateType(spec, types).Some? ==> SameTags(Elements(spec.fields, TAGS).value, a, b))
  {
    hide Get, Put, Kept, Survivors;
    if GateType(spec, types).Some? {
      var t, own := Str(GateType(spec, types).value), Elements(spec.fields, TAGS).value;
      KeptAreSurvivors(own, a.keys);
      KeptAreSurvivors(own, b.keys);
      var put := Put(spec.fields, TYPE, t);
      GetPut(put, TAGS, List(Kept(own, a.keys).value + a.list), TAGS);
      GetPut(put, TAGS, List(Kept(own, b.keys).value + b.list), TAGS);
    }
  }

  lemma SameFront(specs: seq<Value>, types: seq<string>, a: Layer, b: Layer)
    requires MergeSpecs(specs, types, a).Some? && MergeSpecs(specs, types, b).Some?
    ensures MergeSpecs(specs, types, a) == MergeSpecs(specs, types, b) <==> SameOnSpecs(specs, types, a, b)
  {
    hide MergeSpec, MergeSpecs, SameTags, GateType, Elements;
    MergeSpecsAt(specs, types, a);
    MergeSpecsAt(specs, types, b);
    var x, y := MergeSpecs(specs, types, a).value, MergeSpecs(specs, types, b).value;
    forall i | 0 <= i < |specs| ensures x[i] == y[i] <==> SameOnSpec(specs[i], types, a, b) {
      SameSpec(specs[i], types, a, b);
      if GateType(specs[i], types).Some? { MergedElements(specs[i], types, a); }
    }
    if SameOnSpecs(specs, types, a, b) {
      forall i | 0 <= i < |specs| ensures x[i] == y[i] { assert specs[i] in specs; }
      assert x == y;
    }
  }

  lemma MergedElements(spec: Value, types: seq<string>, l: Layer)
    requires MergeSpec(spec, types, l).Some? && GateType(spec, types).Some?
    ensures spec.Object? && Elements(spec.fields, TAGS).Some?
  {
  }

  ghost predicate SameOnSpec(spec: Value, types: seq<string>, a: Layer, b: Layer) {
    GateType(spec, types).Some? ==>
      spec.Object? && Elements(spec.fields, TAGS).Some? && SameTags(Elements(spec.fields, TAGS).value, a, b)
  }

  ghost predicate SameOnSpecs(specs: seq<Value>, types: seq<string>, a: Layer, b: Layer) {
    forall s :: s in specs ==> SameOnSpec(s, types, a, b)
  }

  lemma {:induction false} SameNew(types: seq<string>, seen: set<string>, a: Layer, b: Layer)
    ensures NewSpecs(types, seen, a) == NewSpecs(types, seen, b) <==> a.list == b.list || forall t :: t in types ==> t in seen
    ensures |NewSpecs(types, seen, a)| == |NewSpecs(types, seen, b)|
  {
    hide NewSpec;
    if types != [] {
      var n := |types| - 1;
      var x, y := NewSpecs(types[..n], seen, a), NewSpecs(types[..n], seen, b);
      SameNew(types[..n], seen, a, b);
      assert types == types[..n] + [types[n]];
      if types[n] in seen {
        assert x + [] == x && y + [] == y;
      } else {
        assert types[n] in types;
        NewSpecLists(types[n], a, b);
        assert (x + [NewSpec(types[n], a)])[|x|] == NewSpec(types[n], a);
        assert (y + [NewSpec(types[n], b)])[|y|] == NewSpec(types[n], b);
      }
    }
  }

  lemma NewSpecLists(t: string, a: Layer, b: Layer)
    ensures NewSpec(t, a) == NewSpec(t, b) <==> a.list == b.list
  {
    hide Get;
    GetSecond(TYPE, Str(t), TAGS, List(a.list));
    GetSecond(TYPE, Str(t), TAGS, List(b.list));
  }

  lemma SameMerge(operation: string, ps: seq<Field>, a: Layer, b: Layer)
    requires WithLayer(operation, ps, a).Some?
    ensures WithLayer(operation, ps, b).Some?
    ensures Elements(ps, SPECS).Some?
    ensures var was, types := Elements(ps, SPECS).value, ResourceTypes(operation);
            WithLayer(operation, ps, a) == WithLayer(operation, ps, b)
            <==> SameOnSpecs(was, types, a, b) && (a.list == b.list || forall t :: t in types ==> t in SeenTypes(was, types))
  {
    hide Get, Put, MergeSpecs, NewSpecs, SameOnSpecs, SeenTypes, ResourceTypes, Elements;
    var was, types := Elements(ps, SPECS).value, ResourceTypes(operation);
    var seen := SeenTypes(was, types);
    MergesAnyway(was, types, a, b);
    MergeSpecsAt(was, types, a);
    MergeSpecsAt(was, types, b);
    SameFront(was, types, a, b);
    SameNew(types, seen, a, b);
    var x, y := MergedSpecs(was, types, a).value, MergedSpecs(was, types, b).value;
    GetPut(ps, SPECS, List(x), SPECS);
    GetPut(ps, SPECS, List(y), SPECS);
    assert x[..|was|] == MergeSpecs(was, types, a).value && y[..|was|] == MergeSpecs(was, types, b).value;
    assert x[|was|..] == NewSpecs(types, seen, a) && y[|was|..] == NewSpecs(types, seen, b);
  }

  /** The caller's own tags already end in exactly the tags the second merge
      would leave over, and hold no other under a key of the first. */
  ghost predicate AlreadyLast(own: seq<Value>, first: map<string, string>, second: map<string, string>) {
    var kept, left := Survivors(own, second.Keys), GateTagList(first - second.Keys);
    |left| <= |kept| && kept[|kept| - |left|..] == left
    && forall t :: t in kept[..|kept| - |left|] ==> Survives(t, first.Keys)
  }

  lemma {:induction false} SurvivorsTwice(own: seq<Value>, few: set<string>, more: set<string>)
    ensures Survivors(Survivors(own, more), few) == Survivors(own, few + more)
  {
    hide UnderGateKey;
    if own != [] {
      SurvivorsTwice(own[1..], few, more);
      if own[0].Object? { UnderEither(own[0], few, more); }
      if Survives(own[0], more) { assert Survivors(own, more)[1..] == Survivors(own[1..], more); }
      assert [] + Survivors(own[1..], more) == Survivors(own[1..], more);
    }
  }

  lemma Regroup(a: seq<Value>, b: seq<Value>, c: seq<Value>)
    ensures a + (b + c) == (a + b) + c
  {
  }

  lemma {:induction false} SurvivorsAppend(x: seq<Value>, y: seq<Value>, keys: set<string>)
    ensures Survivors(x + y, keys) == Survivors(x, keys) + Survivors(y, keys)
  {
    hide Survives;
    if x == [] {
      assert x + y == y;
    } else {
      var head := if Survives(x[0], keys) then [x[0]] else [];
      assert (x + y)[0] == x[0] && (x + y)[1..] == x[1..] + y;
      SurvivorsAppend(x[1..], y, keys);
      Regroup(head, Survivors(x[1..], keys), Survivors(y, keys));
    }
  }

  lemma {:induction false} AllSurvive(x: seq<Value>, keys: set<string>)
    requires forall t :: t in x ==> Survives(t, keys)
    ensures Survivors(x, keys) == x
  {
    hide Survives;
    if x != [] {
      assert x[0] in x;
      AllSurvive(x[1..], keys);
    }
  }

  lemma {:induction false} NoneSurvive(x: seq<Value>, keys: set<string>)
    requires forall t :: t in x ==> !Survives(t, keys)
    ensures Survivors(x, keys) == []
  {
    hide Survives;
    if x != [] {
      assert x[0] in x;
      NoneSurvive(x[1..], keys);
    }
  }

  lemma LeftAreGates(first: map<string, string>, gone: set<string>)
    ensures forall t :: t in GateTagList(first - gone) ==> !Survives(t, first.Keys)
  {
    hide GateTagList, GateTag, Get;
    GateTagListMembers(first - gone);
    forall t | t in GateTagList(first - gone) ensures !Survives(t, first.Keys) {
      UnderEither(t, (first - gone).Keys, first.Keys);
      assert (first - gone).Keys + first.Keys == first.Keys;
    }
  }

  /** One tag list comes out the same exactly when the leftovers were there already. */
  lemma SameList(own: seq<Value>, first: map<string, string>, second: map<string, string>)
    ensures SameTags(own, Both(first, second), LayerOf(second)) <==> AlreadyLast(own, first, second)
  {
    hide Survives, GateTagList, Survivors;
    var kept, left, tags := Survivors(own, second.Keys), GateTagList(first - second.Keys), GateTagList(second);
    var outer := Survivors(own, first.Keys + second.Keys);
    SurvivorsTwice(own, first.Keys, second.Keys);
    SurvivorsSurvive(kept, first.Keys);
    LeftAreGates(first, second.Keys);
    assert outer + (left + tags) == (outer + left) + tags;
    Cancel(outer + left, kept, tags);
    if outer + left == kept {
      assert kept[|kept| - |left|..] == left && kept[..|kept| - |left|] == outer;
    }
    if AlreadyLast(own, first, second) {
      var front := kept[..|kept| - |left|];
      assert kept == front + left;
      SurvivorsAppend(front, left, first.Keys);
      AllSurvive(front, first.Keys);
      NoneSurvive(left, first.Keys);
      assert front + [] == front;
    }
  }

  lemma Cancel(x: seq<Value>, y: seq<Value>, z: seq<Value>)
    ensures x + z == y + z <==> x == y
  {
    if x + z == y + z {
      assert |x| == |y|;
      assert x == (x + z)[..|x|] && y == (y + z)[..|x|];
    }
  }

  /** No tag of the first merge is left over: the second has all its keys, or the
      caller's parameters carried the leftovers before either merge, on a spec of
      every gate type. */
  ghost predicate NothingLeftOver(operation: string, ps: seq<Field>, first: map<string, string>, second: map<string, string>)
    requires Elements(ps, SPECS).Some?
  {
    var was, types := Elements(ps, SPECS).value, ResourceTypes(operation);
    first.Keys <= second.Keys
    || ((forall t :: t in types ==> t in SeenTypes(was, types))
        && forall s :: s in was && GateType(s, types).Some? ==>
             s.Object? && Elements(s.fields, TAGS).Some? && AlreadyLast(Elements(s.fields, TAGS).value, first, second))
  }

  lemma ListSize(tags: map<string, string>)
    ensures |GateTagList(tags)| == |tags.Keys|
  {
    hide Less;
  }

  lemma NoKeysLeft(first: map<string, string>, second: map<string, string>)
    ensures Both(first, second).list == GateTagList(second) <==> first.Keys <= second.Keys
    ensures first.Keys <= second.Keys ==> Both(first, second) == LayerOf(second)
  {
    hide GateTagList;
    var left := first - second.Keys;
    ListSize(left);
    if first.Keys <= second.Keys {
      assert forall k :: k !in left.Keys;
      assert |left.Keys| == 0;
      assert GateTagList(left) + GateTagList(second) == GateTagList(second);
      assert first.Keys + second.Keys == second.Keys;
    } else {
      var k :| k in first && k !in second;
      assert k in left.Keys;
      assert |Both(first, second).list| > |GateTagList(second)|;
    }
  }

  /** When the second merge alone would have given the same: exactly when nothing
      of the first is left over (or there was no first merge at all; and a second
      without tags reproduces parameters only if the first did not change them). */
  lemma SecondMergeAloneIff(service: string, operation: string, ps: seq<Field>, first: map<string, string>,
                            second: map<string, string>, taggable: bool)
    requires WithGateTags(service, operation, ps, first, taggable).Some?
    ensures Applies(service, operation, first, taggable) ==> Elements(ps, SPECS).Some?
    ensures WithGateTags(service, operation, WithGateTags(service, operation, ps, first, taggable).value, second, taggable)
            == WithGateTags(service, operation, ps, second, taggable)
            <==> !Applies(service, operation, first, taggable)
                 || (if second == map[] then WithGateTags(service, operation, ps, first, taggable) == Some(ps)
                     else NothingLeftOver(operation, ps, first, second))
  {
    hide WithLayer, ResourceTypes, Elements, GateTagList, SameOnSpecs, NothingLeftOver;
    if Applies(service, operation, first, taggable) && second != map[] {
      TwoMergesAreOne(service, operation, ps, first, second, taggable);
      SameMerge(operation, ps, Both(first, second), LayerOf(second));
      LeftOverIff(operation, ps, first, second);
    } else if Applies(service, operation, first, taggable) {
      SameMerge(operation, ps, LayerOf(first), LayerOf(first));
    }
  }

  lemma LeftOverIff(operation: string, ps: seq<Field>, first: map<string, string>, second: map<string, string>)
    requires Elements(ps, SPECS).Some?
    requires WithLayer(operation, ps, LayerOf(second)).Some?
    ensures var was, types := Elements(ps, SPECS).value, ResourceTypes(operation);
            var a, b := Both(first, second), LayerOf(second);
            NothingLeftOver(operation, ps, first, second)
            <==> SameOnSpecs(was, types, a, b) && (a.list == b.list || forall t :: t in types ==> t in SeenTypes(was, types))
  {
    hide WithLayer, ResourceTypes, GateTagList, AlreadyLast, SameTags, GateType, SeenTypes, Both;
    var was, types := Elements(ps, SPECS).value, ResourceTypes(operation);
    hide Elements;
    NoKeysLeft(first, second);
    forall s | s in was && GateType(s, types).Some? && s.Object? && Elements(s.fields, TAGS).Some?
      ensures SameOnSpec(s, types, Both(first, second), LayerOf(second))
              <==> AlreadyLast(Elements(s.fields, TAGS).value, first, second)
    {
      SameList(Elements(s.fields, TAGS).value, first, second);
    }
    if first.Keys <= second.Keys { SpecsRead(operation, ps, LayerOf(second)); }
  }

  /** A merge that succeeds has read the tags of every spec of a gate type. */
  lemma SpecsRead(operation: string, ps: seq<Field>, l: Layer)
    requires WithLayer(operation, ps, l).Some?
    ensures Elements(ps, SPECS).Some?
    ensures SameOnSpecs(Elements(ps, SPECS).value, ResourceTypes(operation), l, l)
  {
    hide ResourceTypes, Elements, GateType, MergeSpec, MergeSpecs;
    var was, types := Elements(ps, SPECS).value, ResourceTypes(operation);
    MergeSpecsAt(was, types, l);
    forall s | s in was ensures SameOnSpec(s, types, l, l) {
      var i :| 0 <= i < |was| && was[i] == s;
      if GateType(s, types).Some? { MergedElements(s, types, l); }
    }
  }

  /** In particular a second merge under at least the keys of the first leaves no
      trace of it: merging is idempotent. */
  lemma SecondMergeReplacesFirst(service: string, operation: string, ps: seq<Field>, first: map<string, string>,
                                 second: map<string, string>, taggable: bool)
    requires first.Keys <= second.Keys
    requires WithGateTags(service, operation, ps, first, taggable).Some?
    ensures WithGateTags(service, operation, WithGateTags(service, operation, ps, first, taggable).value, second, taggable)
            == WithGateTags(service, operation, ps, second, taggable)
  {
    hide WithGateTags;
    SecondMergeAloneIff(service, operation, ps, first, second, taggable);
    if Applies(service, operation, first, taggable) {
      var k :| k in first;
      assert k in second;
    }
  }
}
