/** The tag merge in the words of the AWS call: which field holds what, for which
    operations, in what order, and for which parameters the merge raises. */
module TagValues {
  import opened Wrappers
  import opened Json
  import opened TextOrder
  import opened GateTags

  /** The operations whose resources of type `t` are tagged. */
  function CreatorsOf(t: string): set<string> {
    match t
    case "instance" => {"RunInstances"}
    case "network-interface" => {"RunInstances"}
    case "volume" => {"RunInstances", "CreateVolume"}
    case "security-group" => {"CreateSecurityGroup"}
    case "snapshot" => {"CreateSnapshot"}
    case "key-pair" => {"CreateKeyPair", "ImportKeyPair"}
    case _ => {}
  }

  lemma TypesAndCreators(operation: string, t: string)
    ensures t in ResourceTypes(operation) <==> operation in CreatorsOf(t)
    ensures forall i, j :: 0 <= i < j < |ResourceTypes(operation)| ==> ResourceTypes(operation)[i] != ResourceTypes(operation)[j]
  {
  }

  /** After a merge every resource type the operation creates has a specification,
      and every specification of such a type names every tag with its value. */
  lemma MergeNamesEveryTag(operation: string, ps: seq<Field>, tags: map<string, string>, t: string)
    requires tags != map[] && operation in CreatorsOf(t)
    requires WithGateTags("ec2", operation, ps, tags, true).Some?
    ensures var out := WithGateTags("ec2", operation, ps, tags, true).value;
            Get(out, "TagSpecifications").Some? && Get(out, "TagSpecifications").value.List?
            && var specs := Get(out, "TagSpecifications").value.items;
               (exists s :: s in specs && s.Object? && Get(s.fields, "ResourceType") == Some(Str(t)))
               && forall s :: s in specs && s.Object? && Get(s.fields, "ResourceType") == Some(Str(t)) ==> Tagged(s, tags)
  {
    hide WithGateTags, Get, Extends, Elements, Tagged, LayerOf;
    TypesAndCreators(operation, t);
    MergeContract("ec2", operation, ps, tags, true);
    var specs := Get(WithGateTags("ec2", operation, ps, tags, true).value, "TagSpecifications").value.items;
    forall s | s in specs ensures GateType(s, ResourceTypes(operation)) == Some(t)
                                  <==> s.Object? && Get(s.fields, "ResourceType") == Some(Str(t)) {
      hide ResourceTypes;
    }
  }

  /** Nothing is tagged but what an EC2 operation creates. */
  lemma OthersAreUntouched(service: string, operation: string, ps: seq<Field>, tags: map<string, string>, taggable: bool)
    requires service != "ec2" || (forall t :: operation !in CreatorsOf(t)) || tags == map[] || !taggable
    ensures WithGateTags(service, operation, ps, tags, taggable) == Some(ps)
  {
    if ResourceTypes(operation) != [] { TypesAndCreators(operation, ResourceTypes(operation)[0]); }
  }

  /** The list holds the tags under `keys`, ascending, with their values. */
  ghost predicate Spells(list: seq<Value>, keys: seq<string>, tags: map<string, string>) {
    Ascending(keys) && |list| == |keys| && (forall k :: k in keys <==> k in tags)
    && forall i :: 0 <= i < |keys| ==> list[i] == Object([Field("Key", Str(keys[i])), Field("Value", Str(tags[keys[i]]))])
  }

  lemma GateTagsInOrder(tags: map<string, string>)
    ensures exists keys :: Spells(GateTagList(tags), keys, tags)
  {
    assert Spells(GateTagList(tags), SortedKeys(tags.Keys), tags);
  }

  // -------------------------------------------------------- where it raises

  /** `for x in v` raises on a true value or a number other than zero. */
  predicate NotIterable(o: Option<Value>) {
    o == Some(Bool(true)) || (o.Some? && o.value.Int? && o.value.n != 0)
  }

  /** A dictionary whose key cannot be looked up in a dictionary. */
  predicate BadTag(t: Value) {
    t.Object? && Get(t.fields, "Key").Some? && (Get(t.fields, "Key").value.List? || Get(t.fields, "Key").value.Object?)
  }

  /** A specification of a gate type with unusable tags. */
  predicate BadSpec(s: Value, types: seq<string>) {
    s.Object? && (exists t :: t in types && Get(s.fields, "ResourceType") == Some(Str(t)))
    && (NotIterable(Get(s.fields, "Tags"))
        || exists t :: t in Elements(s.fields, "Tags").value && BadTag(t))
  }

  lemma ElementsIff(fields: seq<Field>, key: string)
    ensures Elements(fields, key).None? <==> NotIterable(Get(fields, key))
  {
    hide Get;
  }

  /** What the loops run over: the items of a list, the characters of a string, the
      keys of a dictionary, and nothing for a missing or empty value. */
  lemma ElementsAre(fields: seq<Field>, key: string)
    requires !NotIterable(Get(fields, key))
    ensures var o, e := Get(fields, key), Elements(fields, key);
            e.Some?
            && (o in {None, Some(Null), Some(Bool(false)), Some(Int(0))} ==> e.value == [])
            && (o.Some? && o.value.List? ==> e.value == o.value.items)
            && (o.Some? && o.value.Str? ==>
                  |e.value| == |o.value.s|
                  && forall i :: 0 <= i < |o.value.s| ==> e.value[i] == Str([o.value.s[i]]))
            && (o.Some? && o.value.Object? ==>
                  |e.value| == |o.value.fields|
                  && forall i :: 0 <= i < |o.value.fields| ==> e.value[i] == Str(o.value.fields[i].key))
  {
    hide Get;
  }

  lemma {:induction false} KeptIff(list: seq<Value>, keys: set<string>)
    ensures Kept(list, keys).None? <==> exists t :: t in list && BadTag(t)
  {
    hide Get, UnderGateKey;
    if list != [] {
      assert list == [list[0]] + list[1..];
      KeptIff(list[1..], keys);
      assert BadTag(list[0]) <==> list[0].Object? && Unhashable(Get(list[0].fields, "Key"));
    }
  }

  lemma SpecIff(s: Value, types: seq<string>, l: Layer)
    ensures MergeSpec(s, types, l).None? <==> BadSpec(s, types)
  {
    if s.Object? {
      ElementsIff(s.fields, "Tags");
      if Elements(s.fields, "Tags").Some? { KeptIff(Elements(s.fields, "Tags").value, l.keys); }
      hide Get, Kept, Elements, BadTag;
    }
  }

  lemma {:induction false} SpecsIff(specs: seq<Value>, types: seq<string>, l: Layer)
    ensures MergeSpecs(specs, types, l).None? <==> exists s :: s in specs && BadSpec(s, types)
  {
    hide MergeSpec, BadSpec;
    if specs != [] {
      var n := |specs| - 1;
      SpecsIff(specs[..n], types, l);
      SpecIff(specs[n], types, l);
      assert specs == specs[..n] + [specs[n]];
    }
  }

  /** The merge raises if and only if the call's TagSpecifications, the Tags of one
      of its specifications of a tagged type, or the Key of one of those tags is of a
      kind the loops cannot take. */
  lemma MergeRaisesIff(operation: string, ps: seq<Field>, tags: map<string, string>)
    requires tags != map[] && exists t :: operation in CreatorsOf(t)
    ensures WithGateTags("ec2", operation, ps, tags, true).None?
            <==> NotIterable(Get(ps, "TagSpecifications"))
                 || exists s :: s in Elements(ps, "TagSpecifications").value && BadSpec(s, ResourceTypes(operation))
  {
    var t :| operation in CreatorsOf(t);
    TypesAndCreators(operation, t);
    ElementsIff(ps, "TagSpecifications");
    hide ResourceTypes, Elements, NotIterable, BadSpec, GateTagList;
    if Elements(ps, SPECS).Some? { SpecsIff(Elements(ps, SPECS).value, ResourceTypes(operation), LayerOf(tags)); }
  }
}
