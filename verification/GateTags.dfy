/** `with_gate_tags`: the ticket's tags merged into the TagSpecifications of a
    resource-creating call, before the parameters are hashed and approved. */
module GateTags {
  import opened Wrappers
  import opened Json
  import opened TextOrder

  // ------------------------------------------------- Python's dictionaries

  /** `d.get(key)` */
  function Get(fields: seq<Field>, key: string): Option<Value> {
    if fields == [] then None
    else if fields[0].key == key then Some(fields[0].val)
    else Get(fields[1..], key)
  }

  /** `{**d, key: v}`: an existing key keeps its place, a new one goes last. */
  function Put(fields: seq<Field>, key: string, v: Value): (r: seq<Field>)
    ensures |r| >= |fields| && r != []
  {
    if fields == [] then [Field(key, v)]
    else if fields[0].key == key then [Field(key, v)] + fields[1..]
    else [fields[0]] + Put(fields[1..], key, v)
  }

  predicate Falsy(v: Value) {
    v == Null || v == Bool(false) || v == Int(0) || v == Str("") || v == List([]) || v == Object([])
  }

  /** What `for x in v` runs over; `None` where Python raises TypeError. */
  function Iterate(v: Value): Option<seq<Value>> {
    match v
    case List(items) => Some(items)
    case Str(s) => Some(seq(|s|, i requires 0 <= i < |s| => Str([s[i]])))
    case Object(fields) => Some(seq(|fields|, i requires 0 <= i < |fields| => Str(fields[i].key)))
    case _ => None
  }

  /** `for x in (d.get(key) or [])` */
  function Elements(fields: seq<Field>, key: string): Option<seq<Value>> {
    match Get(fields, key)
    case None => Some([])
    case Some(v) => if Falsy(v) then Some([]) else Iterate(v)
  }

  // -------------------------------------------------------------- the merge

  const SPECS := "TagSpecifications"
  const TYPE := "ResourceType"
  const TAGS := "Tags"

  /** `TAGGABLE_ON_CREATE` */
  function ResourceTypes(operation: string): seq<string> {
    match operation
    case "RunInstances" => ["instance", "volume", "network-interface"]
    case "CreateSecurityGroup" => ["security-group"]
    case "CreateVolume" => ["volume"]
    case "CreateSnapshot" => ["snapshot"]
    case "CreateKeyPair" => ["key-pair"]
    case "ImportKeyPair" => ["key-pair"]
    case _ => []
  }

  function GateTag(key: string, value: string): Value {
    Object([Field("Key", Str(key)), Field("Value", Str(value))])
  }

  function TagList(keys: seq<string>, tags: map<string, string>): (r: seq<Value>)
    requires forall k :: k in keys ==> k in tags
    ensures |r| == |keys|
    ensures forall i :: 0 <= i < |keys| ==> r[i] == GateTag(keys[i], tags[keys[i]])
  {
    if keys == [] then [] else [GateTag(keys[0], tags[keys[0]])] + TagList(keys[1..], tags)
  }

  /** The ticket's tags in key order. */
  function GateTagList(tags: map<string, string>): seq<Value> {
    TagList(SortedKeys(tags.Keys), tags)
  }

  /** The resource type of a spec the gate tags, if it is one. */
  function GateType(spec: Value, types: seq<string>): Option<string> {
    if !spec.Object? then None
    else match Get(spec.fields, TYPE)
      case Some(Str(t)) => if t in types then Some(t) else None
      case _ => None
  }

  /** A list or dictionary cannot be looked up in a dictionary. */
  predicate Unhashable(o: Option<Value>) {
    o.Some? && (o.value.List? || o.value.Object?)
  }

  predicate UnderGateKey(tag: Value, keys: set<string>)
    requires tag.Object?
  {
    match Get(tag.fields, "Key")
    case Some(Str(k)) => k in keys
    case _ => false
  }

  /** The caller's tags that stay: dictionaries under keys the gate does not
      set. `None` where the key test raises. */
  function Kept(tags: seq<Value>, keys: set<string>): Option<seq<Value>> {
    if tags == [] then Some([])
    else if !tags[0].Object? then Kept(tags[1..], keys)
    else if Unhashable(Get(tags[0].fields, "Key")) then None
    else
      var rest :- Kept(tags[1..], keys);
      Some(if UnderGateKey(tags[0], keys) then rest else [tags[0]] + rest)
  }

  /** What one merge puts into a spec: `list`, in place of the entries under
      `keys`. */
  datatype Layer = Layer(keys: set<string>, list: seq<Value>)

  function LayerOf(tags: map<string, string>): Layer {
    Layer(tags.Keys, GateTagList(tags))
  }

  function MergeSpec(spec: Value, types: seq<string>, l: Layer): Option<Value> {
    match GateType(spec, types)
    case None => Some(spec)
    case Some(t) =>
      var elements :- Elements(spec.fields, TAGS);
      var kept :- Kept(elements, l.keys);
      Some(Object(Put(Put(spec.fields, TYPE, Str(t)), TAGS, List(kept + l.list))))
  }

  function MergeSpecs(specs: seq<Value>, types: seq<string>, l: Layer): Option<seq<Value>> {
    if specs == [] then Some([])
    else
      var n := |specs| - 1;
      var front :- MergeSpecs(specs[..n], types, l);
      var last :- MergeSpec(specs[n], types, l);
      Some(front + [last])
  }

  function SeenTypes(specs: seq<Value>, types: seq<string>): set<string> {
    set s | s in specs && GateType(s, types).Some? :: GateType(s, types).value
  }

  function NewSpec(t: string, l: Layer): Value {
    Object([Field(TYPE, Str(t)), Field(TAGS, List(l.list))])
  }

  function NewSpecs(types: seq<string>, seen: set<string>, l: Layer): seq<Value> {
    if types == [] then []
    else
      var n := |types| - 1;
      NewSpecs(types[..n], seen, l) + (if types[n] in seen then [] else [NewSpec(types[n], l)])
  }

  /** The merged TagSpecifications of `specs`. */
  function MergedSpecs(specs: seq<Value>, types: seq<string>, l: Layer): Option<seq<Value>> {
    var merged :- MergeSpecs(specs, types, l);
    Some(merged + NewSpecs(types, SeenTypes(specs, types), l))
  }

  predicate Applies(service: string, operation: string, tags: map<string, string>, taggable: bool) {
    service == "ec2" && ResourceTypes(operation) != [] && tags != map[] && taggable
  }

  /** `with_gate_tags` on the entries of a parameter dictionary; `taggable` says
      whether the operation has a TagSpecifications member. */
  function WithGateTags(service: string, operation: string, parameters: seq<Field>, tags: map<string, string>,
                        taggable: bool): Option<seq<Field>> {
    if !Applies(service, operation, tags, taggable) then Some(parameters)
    else WithLayer(operation, parameters, LayerOf(tags))
  }

  function WithLayer(operation: string, parameters: seq<Field>, l: Layer): Option<seq<Field>> {
    var existing :- Elements(parameters, SPECS);
    var merged :- MergedSpecs(existing, ResourceTypes(operation), l);
    Some(Put(parameters, SPECS, List(merged)))
  }

  /** The two loops of the source over the existing specs and over the types. */
  method MergeGateTags(existing: seq<Value>, types: seq<string>, tags: map<string, string>)
    returns (r: Option<seq<Value>>)
    ensures r == MergedSpecs(existing, types, LayerOf(tags))
  {
    hide Elements, Kept, Get, Put, GateTagList, NewSpecs;
    var l := LayerOf(tags);
    var merged: seq<Value> := [];
    var seen: set<string> := {};
    for i := 0 to |existing|
      invariant MergeSpecs(existing[..i], types, l) == Some(merged)
      invariant seen == SeenTypes(existing[..i], types)
    {
      var spec := existing[i];
      assert existing[..i + 1] == existing[..i] + [spec];
      MergeSpecsSnoc(existing[..i], spec, types, l);
      var t := GateType(spec, types);
      if t.None? {
        merged := merged + [spec];
      } else {
        seen := seen + {t.value};
        var one := MergeSpec(spec, types, l);
        if one.None? {
          FailedPrefix(existing, i + 1, types, l);
          return None;
        }
        merged := merged + [one.value];
      }
    }
    assert existing[..|existing|] == existing;
    var added := AddMissingTypes(types, seen, l);
    return Some(merged + added);
  }

  method AddMissingTypes(types: seq<string>, seen: set<string>, l: Layer) returns (added: seq<Value>)
    ensures added == NewSpecs(types, seen, l)
  {
    added := [];
    for j := 0 to |types|
      invariant added == NewSpecs(types[..j], seen, l)
    {
      assert types[..j + 1][..j] == types[..j];
      if types[j] !in seen {
        added := added + [NewSpec(types[j], l)];
      }
    }
    assert types[..|types|] == types;
  }

  lemma {:induction false} FailedPrefix(specs: seq<Value>, n: nat, types: seq<string>, l: Layer)
    requires n <= |specs| && MergeSpecs(specs[..n], types, l).None?
    ensures MergeSpecs(specs, types, l).None?
    decreases |specs|
  {
    if n < |specs| {
      var m := |specs| - 1;
      assert specs[..m][..n] == specs[..n];
      FailedPrefix(specs[..m], n, types, l);
    } else {
      assert specs[..n] == specs;
    }
  }

  // ------------------------------------------------- facts on dictionaries

  lemma {:induction false} GetPut(fields: seq<Field>, key: string, v: Value, other: string)
    ensures Get(Put(fields, key, v), other) == if other == key then Some(v) else Get(fields, other)
  {
    if fields != [] && fields[0].key != key {
      GetPut(fields[1..], key, v, other);
      assert Put(fields, key, v)[1..] == Put(fields[1..], key, v);
    } else if fields != [] {
      assert Put(fields, key, v)[1..] == fields[1..];
    }
  }

  lemma {:induction false} PutPut(fields: seq<Field>, key: string, v: Value, w: Value)
    ensures Put(Put(fields, key, v), key, w) == Put(fields, key, w)
  {
    var once := Put(fields, key, v);
    if fields != [] && fields[0].key != key {
      PutPut(fields[1..], key, v, w);
      assert once[1..] == Put(fields[1..], key, v);
    } else if fields != [] {
      assert once[1..] == fields[1..];
    } else {
      assert once[1..] == [];
    }
  }

  /** Putting back what is there changes nothing. */
  lemma {:induction false} PutSame(fields: seq<Field>, key: string, v: Value)
    requires Get(fields, key) == Some(v)
    ensures Put(fields, key, v) == fields
  {
    if fields[0].key != key {
      PutSame(fields[1..], key, v);
    }
    assert fields == [fields[0]] + fields[1..];
  }

  // ------------------------------------------------------ the merge contract

  /** A tag dictionary holding one of the gate's own tags. */
  ghost predicate IsGateTag(tag: Value, tags: map<string, string>) {
    exists k :: k in tags && tag == GateTag(k, tags[k])
  }

  /** A spec of a gate type names every gate tag with its value, and whatever it
      holds under the key of one is exactly that. */
  ghost predicate Tagged(spec: Value, tags: map<string, string>) {
    spec.Object? && Get(spec.fields, "Tags").Some? && Get(spec.fields, "Tags").value.List?
    && var list := Get(spec.fields, "Tags").value.items;
       (forall k :: k in tags ==> Object([Field("Key", Str(k)), Field("Value", Str(tags[k]))]) in list)
       && (forall t :: t in list ==> t.Object?)
       && (forall t, k :: t in list && t.Object? && k in tags && Get(t.fields, "Key") == Some(Str(k)) ==>
             t == Object([Field("Key", Str(k)), Field("Value", Str(tags[k]))]))
  }

  /** The same in terms of the gate's own list. */
  lemma TaggedBy(spec: Value, tags: map<string, string>)
    requires spec.Object? && Get(spec.fields, TAGS).Some? && Get(spec.fields, TAGS).value.List?
    requires forall k :: k in tags ==> GateTag(k, tags[k]) in Get(spec.fields, TAGS).value.items
    requires forall t :: t in Get(spec.fields, TAGS).value.items ==>
               t.Object? && (UnderGateKey(t, tags.Keys) ==> IsGateTag(t, tags))
    ensures Tagged(spec, tags)
  {
    hide Get;
    var list := Get(spec.fields, TAGS).value.items;
    forall t, k | t in list && t.Object? && k in tags && Get(t.fields, "Key") == Some(Str(k))
      ensures t == Object([Field("Key", Str(k)), Field("Value", Str(tags[k]))])
    {
      var l :| l in tags && t == GateTag(l, tags[l]);
      KeyOfGateTag(l, tags[l]);
    }
  }

  lemma KeyOfGateTag(k: string, v: string)
    ensures GateTag(k, v).Object? && Get(GateTag(k, v).fields, "Key") == Some(Str(k))
  {
  }

  lemma GateTagShape(k: string, tags: map<string, string>)
    requires k in tags
    ensures var t := GateTag(k, tags[k]); t.Object? && UnderGateKey(t, tags.Keys) && IsGateTag(t, tags)
  {
  }

  lemma GateTagListMembers(tags: map<string, string>)
    ensures forall k :: k in tags ==> GateTag(k, tags[k]) in GateTagList(tags)
    ensures forall t :: t in GateTagList(tags) ==> IsGateTag(t, tags) && t.Object? && UnderGateKey(t, tags.Keys)
  {
    hide GateTag, TagList, Get, UnderGateKey, IsGateTag;
    var keys := SortedKeys(tags.Keys);
    forall k | k in tags ensures GateTag(k, tags[k]) in GateTagList(tags) {
      assert k in keys;
      var i :| 0 <= i < |keys| && keys[i] == k;
      assert GateTagList(tags)[i] == GateTag(k, tags[k]);
    }
    forall t | t in GateTagList(tags)
      ensures IsGateTag(t, tags) && t.Object? && UnderGateKey(t, tags.Keys)
    {
      var i :| 0 <= i < |keys| && GateTagList(tags)[i] == t;
      assert keys[i] in tags;
      GateTagShape(keys[i], tags);
    }
  }

  /** The caller's dictionaries under other keys survive, in order, and only
      they do. */
  ghost predicate Survives(t: Value, keys: set<string>) {
    t.Object? && forall k :: k in keys ==> Get(t.fields, "Key") != Some(Str(k))
  }

  lemma SurvivesIff(t: Value, keys: set<string>)
    ensures Survives(t, keys) <==> t.Object? && !UnderGateKey(t, keys)
  {
    hide Get;
  }

  ghost function Survivors(tags: seq<Value>, keys: set<string>): seq<Value> {
    if tags == [] then []
    else (if Survives(tags[0], keys) then [tags[0]] else []) + Survivors(tags[1..], keys)
  }

  lemma {:induction false} KeptAreSurvivors(tags: seq<Value>, keys: set<string>)
    requires Kept(tags, keys).Some?
    ensures Kept(tags, keys).value == Survivors(tags, keys)
  {
    hide Survives, UnderGateKey;
    if tags != [] {
      SurvivesIff(tags[0], keys);
      KeptAreSurvivors(tags[1..], keys);
    }
  }

  /** One spec of a gate type after one merge. */
  lemma MergedSpecExtends(spec: Value, types: seq<string>, l: Layer)
    requires GateType(spec, types).Some? && MergeSpec(spec, types, l).Some?
    ensures var m := MergeSpec(spec, types, l).value; GateType(m, types) == GateType(spec, types) && Extends(m, spec, l)
  {
    hide Survives;
    var t := GateType(spec, types).value;
    var kept := Kept(Elements(spec.fields, TAGS).value, l.keys).value;
    KeptAreSurvivors(Elements(spec.fields, TAGS).value, l.keys);
    PutSame(spec.fields, TYPE, Str(t));
    var list := List(kept + l.list);
    var m := Object(Put(spec.fields, TAGS, list));
    forall key ensures Get(m.fields, key) == if key == TAGS then Some(list) else Get(spec.fields, key) {
      GetPut(spec.fields, TAGS, list, key);
    }
  }

  lemma MergedSpecIsTagged(spec: Value, types: seq<string>, tags: map<string, string>)
    requires GateType(spec, types).Some? && MergeSpec(spec, types, LayerOf(tags)).Some?
    ensures var m := MergeSpec(spec, types, LayerOf(tags)).value;
            Tagged(m, tags) && GateType(m, types) == GateType(spec, types) && Extends(m, spec, LayerOf(tags))
  {
    hide Survives, UnderGateKey, IsGateTag, GateTagList, MergeSpec, GateType;
    MergedSpecExtends(spec, types, LayerOf(tags));
    SurvivorsSurvive(Elements(spec.fields, TAGS).value, tags.Keys);
    GateTagListMembers(tags);
    hide Survivors, Tagged;
    SurvivesMeans(tags.Keys);
    TaggedBy(MergeSpec(spec, types, LayerOf(tags)).value, tags);
  }

  lemma {:induction false} SurvivorsSurvive(tags: seq<Value>, keys: set<string>)
    ensures forall t :: t in Survivors(tags, keys) ==> Survives(t, keys)
  {
    if tags != [] { SurvivorsSurvive(tags[1..], keys); }
  }

  lemma SurvivesMeans(keys: set<string>)
    ensures forall t :: Survives(t, keys) ==> t.Object? && !UnderGateKey(t, keys)
  {
    forall t | Survives(t, keys) ensures t.Object? && !UnderGateKey(t, keys) { SurvivesIff(t, keys); }
  }

  lemma {:induction false} MergeSpecsAt(specs: seq<Value>, types: seq<string>, l: Layer)
    requires MergeSpecs(specs, types, l).Some?
    ensures |MergeSpecs(specs, types, l).value| == |specs|
    ensures forall i :: 0 <= i < |specs| ==>
              MergeSpec(specs[i], types, l) == Some(MergeSpecs(specs, types, l).value[i])
  {
    if specs != [] {
      var n := |specs| - 1;
      MergeSpecsAt(specs[..n], types, l);
      assert forall i :: 0 <= i < n ==> specs[..n][i] == specs[i];
    }
  }

  lemma {:induction false} NewSpecsCover(types: seq<string>, seen: set<string>, l: Layer)
    ensures forall s :: s in NewSpecs(types, seen, l) ==> exists t :: t in types && t !in seen && s == NewSpec(t, l)
    ensures forall t :: t in types && t !in seen ==> NewSpec(t, l) in NewSpecs(types, seen, l)
  {
    if types != [] {
      var n := |types| - 1;
      NewSpecsCover(types[..n], seen, l);
      assert types == types[..n] + [types[n]];
    }
  }

  /** `now` is the caller's spec with its own tags under other keys, in order,
      followed by the gate's. */
  ghost predicate Extends(now: Value, spec: Value, l: Layer) {
    now.Object? && spec.Object? && Elements(spec.fields, TAGS).Some?
    && Get(now.fields, TAGS) == Some(List(Survivors(Elements(spec.fields, TAGS).value, l.keys) + l.list))
    && (forall key :: key != TAGS ==> Get(now.fields, key) == Get(spec.fields, key))
  }

  /** The whole contract of one merge: every gate type is covered, every spec of
      a gate type is tagged, the caller's specs keep their places, those of other
      types unchanged, and no other parameter is touched. */
  lemma MergeContract(service: string, operation: string, ps: seq<Field>, tags: map<string, string>, taggable: bool)
    requires Applies(service, operation, tags, taggable)
    requires WithGateTags(service, operation, ps, tags, taggable).Some?
    ensures var out := WithGateTags(service, operation, ps, tags, taggable).value;
            var types := ResourceTypes(operation);
            Elements(ps, SPECS).Some? && Get(out, SPECS).Some? && Get(out, SPECS).value.List?
            && var was, now := Elements(ps, SPECS).value, Get(out, SPECS).value.items;
               |was| <= |now|
               && (forall key :: key != SPECS ==> Get(out, key) == Get(ps, key))
               && (forall i :: 0 <= i < |was| && GateType(was[i], types).None? ==> now[i] == was[i])
               && (forall i :: 0 <= i < |was| && GateType(was[i], types).Some? ==> Extends(now[i], was[i], LayerOf(tags)))
               && (forall i :: 0 <= i < |was| ==> GateType(now[i], types) == GateType(was[i], types))
               && (forall s :: s in now && GateType(s, types).Some? ==> Tagged(s, tags))
               && (forall t :: t in types ==> exists s :: s in now && GateType(s, types) == Some(t))
               && (forall i :: |was| <= i < |now| ==> GateType(now[i], types).Some?)
  {
    hide GateTagList, Get, Put, GateType, MergeSpec, MergeSpecs, NewSpecs, ResourceTypes, Elements, Tagged, Extends;
    var types := ResourceTypes(operation);
    var was := Elements(ps, SPECS).value;
    var front := MergeSpecs(was, types, LayerOf(tags)).value;
    var seen := SeenTypes(was, types);
    var added := NewSpecs(types, seen, LayerOf(tags));
    var now := front + added;
    forall key ensures Get(Put(ps, SPECS, List(now)), key) == if key == SPECS then Some(List(now)) else Get(ps, key) {
      GetPut(ps, SPECS, List(now), key);
    }
    MergeSpecsAt(was, types, LayerOf(tags));
    NewSpecsCover(types, seen, LayerOf(tags));
    forall i | 0 <= i < |was|
      ensures GateType(front[i], types) == GateType(was[i], types)
      ensures GateType(was[i], types).Some? ==> Tagged(front[i], tags) && Extends(front[i], was[i], LayerOf(tags))
      ensures GateType(was[i], types).None? ==> front[i] == was[i]
    {
      MergedSpec(was[i], types, tags);
    }
    forall s | s in added ensures Tagged(s, tags) && GateType(s, types).Some? {
      var t :| t in types && t !in seen && s == NewSpec(t, LayerOf(tags));
      NewSpecIsTagged(t, types, tags);
    }
    forall t | t in types ensures exists s :: s in now && GateType(s, types) == Some(t) {
      if t in seen {
        var s :| s in was && GateType(s, types) == Some(t);
        var i :| 0 <= i < |was| && was[i] == s;
        assert front[i] in now;
      } else {
        NewSpecIsTagged(t, types, tags);
        assert NewSpec(t, LayerOf(tags)) in now;
      }
    }
  }

  lemma MergedSpec(spec: Value, types: seq<string>, tags: map<string, string>)
    requires MergeSpec(spec, types, LayerOf(tags)).Some?
    ensures var m := MergeSpec(spec, types, LayerOf(tags)).value;
            GateType(m, types) == GateType(spec, types)
            && (GateType(spec, types).Some? ==> Tagged(m, tags) && Extends(m, spec, LayerOf(tags)))
            && (GateType(spec, types).None? ==> m == spec)
  {
    if GateType(spec, types).Some? { MergedSpecIsTagged(spec, types, tags); }
  }

  lemma GetSecond(k: string, v: Value, l: string, w: Value)
    requires k != l
    ensures Get([Field(k, v), Field(l, w)], k) == Some(v)
    ensures Get([Field(k, v), Field(l, w)], l) == Some(w)
    ensures Put([Field(k, v), Field(l, w)], k, v) == [Field(k, v), Field(l, w)]
    ensures forall u :: Put([Field(k, v), Field(l, w)], l, u) == [Field(k, v), Field(l, u)]
  {
    var tail := [Field(l, w)];
    assert [Field(k, v), Field(l, w)][1..] == tail;
    assert tail[1..] == [];
  }

  lemma ListElements(fields: seq<Field>, key: string, items: seq<Value>)
    requires Get(fields, key) == Some(List(items))
    ensures Elements(fields, key) == Some(items)
  {
  }

  lemma NewSpecIsTagged(t: string, types: seq<string>, tags: map<string, string>)
    requires t in types
    ensures GateType(NewSpec(t, LayerOf(tags)), types) == Some(t)
    ensures Tagged(NewSpec(t, LayerOf(tags)), tags)
    ensures Elements(NewSpec(t, LayerOf(tags)).fields, TAGS) == Some(GateTagList(tags))
  {
    hide GateTagList, Get, Put, GateTag, Tagged, IsGateTag, UnderGateKey;
    GetSecond(TYPE, Str(t), TAGS, List(GateTagList(tags)));
    ListElements(NewSpec(t, LayerOf(tags)).fields, TAGS, GateTagList(tags));
    GateTagListMembers(tags);
    TaggedBy(NewSpec(t, LayerOf(tags)), tags);
  }

  lemma MergeSpecsSnoc(specs: seq<Value>, last: Value, types: seq<string>, l: Layer)
    ensures MergeSpecs(specs + [last], types, l) ==
            if MergeSpecs(specs, types, l).Some? && MergeSpec(last, types, l).Some?
            then Some(MergeSpecs(specs, types, l).value + [MergeSpec(last, types, l).value])
            else None
  {
    hide MergeSpec;
    assert (specs + [last])[..|specs|] == specs;
  }
}
