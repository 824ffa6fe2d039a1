/**
 * LarvaStageAttributes: the framework's standard attributes, the eleven
 * new ones, and two of its own, maternal age and oil globule volume,
 * both doubles defaulting to 0. It keeps its own copy of the statics.
 */
module LarvaAttributes {
  import opened Wrappers
  import opened OrderedKeys
  import opened AttributeValues
  import opened NewAttributes
  import opened AttributeRows
  import opened AttributeSchema

  /** Number of keys the larva class adds after the new keys. */
  const NumLarvaAttributes: nat := 2

  const PropMaternalAge: string := "maternal age"
  const PropOGV: string := "oil globule volume"

  /** The larva class's own keys, in the order they are added and parsed. */
  const LarvaKeys: seq<string> := [PropMaternalAge, PropOGV]

  /** The descriptors the larva class registers for its own keys: both doubles. */
  const LarvaKinds: map<string, AttrKind> := map[PropMaternalAge := DoubleKind, PropOGV := DoubleKind]

  /** The defaults the larva constructor stores for its own keys: both 0.0. */
  const LarvaDefaults: map<string, Value> := map[PropMaternalAge := DoubleValue(0.0), PropOGV := DoubleValue(0.0)]

  /**
   * The larva layout: all keys are the base keys, the new keys, maternal
   * age and oil globule volume; both own keys have double descriptors and
   * default 0.0; totNumAttributes is numAttributes + 11 + 2.
   */
  function LarvaLayout(base: BaseSchema, newKinds: map<string, AttrKind>, sep: char): (l: Layout)
    ensures AllKeys(l) == base.keys + NewKeyOrder + [PropMaternalAge, PropOGV]
    ensures AllKinds(l) == base.kinds + newKinds + LarvaKinds
    ensures Defaults(l) == base.defaults + NewDefaults + LarvaDefaults
    ensures TotNumAttributes(l) == |base.keys| + NumNewAttributes + NumLarvaAttributes
  {
    Layout(base, newKinds, LarvaKeys, LarvaKinds, LarvaDefaults, sep)
  }

  /** The larva layout over a base schema disjoint from the new and larva keys is valid. */
  lemma LarvaLayoutValid(base: BaseSchema, newKinds: map<string, AttrKind>, sep: char)
    requires ValidBase(base, NewKeyOrder + LarvaKeys)
    requires newKinds.Keys == (set k | k in NewKeyOrder)
    ensures ValidLayout(LarvaLayout(base, newKinds, sep))
  {
    var l := LarvaLayout(base, newKinds, sep);
    NewKeysShape();
    assert PropMaternalAge !in NewKeyOrder && PropOGV !in NewKeyOrder;
    DistinctConcat(NewKeyOrder, LarvaKeys);
    assert OwnKeys(l) == NewKeyOrder + LarvaKeys;
    LarvaMapKeys();
  }

  /** The larva descriptors and defaults have exactly the larva keys. */
  lemma LarvaMapKeys()
    ensures LarvaKinds.Keys == (set k | k in LarvaKeys)
    ensures LarvaDefaults.Keys == (set k | k in LarvaKeys)
  {
  }

  /**
   * setValues of the larva class, as written: the new keys from field
   * numAttributes on, then maternal age from field numAttributes + 11
   * and oil globule volume from field numAttributes + 12, each stage
   * stopping the parse at a missing or bad field. It is one run of
   * ParseKeys over the new keys followed by the larva keys.
   */
  lemma LarvaSetValuesOrder(values: map<string, Value>, kinds: map<string, AttrKind>, strv: seq<string>,
                            n: nat, codec: Codec)
    requires forall k :: k in NewKeyOrder + LarvaKeys ==> k in kinds
    ensures ParseKeys(values, NewKeyOrder + LarvaKeys, kinds, strv, n, codec) ==
      var first := ParseKeys(values, NewKeyOrder, kinds, strv, n, codec);
      if first.1 != Parsed then first
      else if n + 11 >= |strv| then (first.0, MissingValue(n + 11))
      else match StoreField(first.0, PropMaternalAge, strv[n + 11], kinds, codec)
        case None => (first.0, BadValue(n + 11))
        case Some(withAge) =>
          if n + 12 >= |strv| then (withAge, MissingValue(n + 12))
          else match StoreField(withAge, PropOGV, strv[n + 12], kinds, codec)
            case None => (withAge, BadValue(n + 12))
            case Some(withOGV) => (withOGV, Parsed)
  {
    NewKeysShape();
    assert PropMaternalAge in NewKeyOrder + LarvaKeys && PropOGV in NewKeyOrder + LarvaKeys;
    ParseKeysAppend(values, NewKeyOrder, LarvaKeys, kinds, strv, n, codec);
    var first := ParseKeys(values, NewKeyOrder, kinds, strv, n, codec);
    if first.1 == Parsed && n + 11 < |strv| {
      assert LarvaKeys[1..] == [PropOGV] && [PropOGV][1..] == [];
      var withAge := StoreField(first.0, PropMaternalAge, strv[n + 11], kinds, codec);
      if withAge.Some? && n + 12 < |strv| {
        var withOGV := StoreField(withAge.value, PropOGV, strv[n + 12], kinds, codec);
        if withOGV.Some? {
          assert ParseKeys(withAge.value, [PropOGV], kinds, strv, n + 12, codec)
              == ParseKeys(withOGV.value, [], kinds, strv, n + 13, codec);
        }
      }
    }
  }

  /** Maternal age and oil globule volume both default to 0. */
  lemma LarvaOwnDefaults(base: BaseSchema, newKinds: map<string, AttrKind>, sep: char)
    ensures Defaults(LarvaLayout(base, newKinds, sep))[PropMaternalAge] == DoubleValue(0.0)
    ensures Defaults(LarvaLayout(base, newKinds, sep))[PropOGV] == DoubleValue(0.0)
  {
  }

  /** An instance of LarvaStageAttributes: of that class, over the larva layout. */
  ghost predicate IsLarvaAttributes(atts: StageAttributes)
  {
    && atts.stageClass == LarvaClass
    && atts.statics.layout == LarvaLayout(atts.statics.layout.base, atts.statics.layout.newKinds, atts.statics.layout.sep)
  }

  /** new LarvaStageAttributes(typeName): the base and new defaults, maternal age and oil globule volume 0. */
  method NewLarvaAttributes(statics: AttributeStatics, typeName: string) returns (atts: StageAttributes)
    requires statics.Valid() && statics.registry.ValuesValid()
    requires statics.layout == LarvaLayout(statics.layout.base, statics.layout.newKinds, statics.layout.sep)
    modifies statics`allKeys, statics`kinds, statics.aKeys, statics.registry
    ensures fresh(atts) && atts.Valid() && atts.Complete() && IsLarvaAttributes(atts)
    ensures atts.statics == statics && atts.typeName == typeName
    ensures atts.mapValues[PropMaternalAge] == DoubleValue(0.0) && atts.mapValues[PropOGV] == DoubleValue(0.0)
    ensures atts.mapValues == Defaults(statics.layout)
  {
    atts := new StageAttributes(statics, LarvaClass, typeName);
    LarvaOwnDefaults(statics.layout.base, statics.layout.newKinds, statics.layout.sep);
  }

  /** clone: a larva instance with the same type name and the value of every key. */
  method Clone(atts: StageAttributes) returns (clone: StageAttributes)
    requires atts.Valid() && atts.Complete() && IsLarvaAttributes(atts)
    modifies atts.statics`allKeys, atts.statics`kinds, atts.statics.aKeys, atts.statics.registry
    ensures atts.Valid() && fresh(clone) && clone.Valid() && clone.Complete() && IsLarvaAttributes(clone)
    ensures clone.statics == atts.statics && clone.typeName == atts.typeName
    ensures clone.mapValues.Keys == (set k | k in atts.statics.allKeys)
    ensures forall k :: k in atts.statics.allKeys ==> clone.mapValues[k] == atts.mapValues[k]
  {
    clone := atts.Clone();
  }

  /**
   * createInstance: a larva instance named by the row's first field, its
   * values parsed from the row; none when the row is empty or a field is
   * missing or bad.
   */
  method CreateInstance(atts: StageAttributes, strv: seq<string>, baseValues: map<string, Value>, codec: Codec)
    returns (created: StageAttributes?, outcome: RowOutcome)
    requires atts.Valid() && IsLarvaAttributes(atts)
    modifies atts.statics`allKeys, atts.statics`kinds, atts.statics.aKeys, atts.statics.registry
    ensures atts.Valid()
    ensures |strv| == 0 ==> created == null && outcome == MissingValue(0)
    ensures |strv| > 0 ==>
      outcome == ParseKeys(Defaults(atts.statics.layout) + baseValues, OwnKeys(atts.statics.layout),
                           AllKinds(atts.statics.layout), strv, |atts.statics.layout.base.keys|, codec).1
    ensures created != null <==> outcome == Parsed
    ensures created != null ==>
      && fresh(created) && created.Valid() && created.Complete() && IsLarvaAttributes(created)
      && created.statics == atts.statics && created.typeName == strv[0]
      && created.mapValues == ParseKeys(Defaults(atts.statics.layout) + baseValues, OwnKeys(atts.statics.layout),
                                        AllKinds(atts.statics.layout), strv, |atts.statics.layout.base.keys|, codec).0
  {
    created, outcome := atts.CreateInstance(strv, baseValues, codec);
  }
}
