/**
 * AdultStageAttributes: the attributes of the second framework base class
 * (AbstractLHSAttributes2) followed by the eleven new keys, every one of
 * which it registers with a double descriptor. It keeps its own copy of
 * the statics.
 */
module AdultAttributes {
  import opened OrderedKeys
  import opened AttributeValues
  import opened NewAttributes
  import opened AttributeRows
  import opened AttributeSchema

  /** A double descriptor for each key. */
  function DoubleKinds(keys: seq<string>): map<string, AttrKind>
  {
    map k | k in keys :: DoubleKind
  }

  /**
   * The descriptor loop of finishInstantiation: every new key, in turn,
   * gets a double descriptor; the map holds those keys and nothing else.
   */
  method RegisterAsDouble(registered: map<string, AttrKind>, newKeys: seq<string>) returns (m: map<string, AttrKind>)
    ensures forall k :: k in m <==> k in registered || k in newKeys
    ensures forall k :: k in newKeys ==> m[k] == DoubleKind
    ensures forall k :: k in registered && k !in newKeys ==> m[k] == registered[k]
    ensures m == registered + DoubleKinds(newKeys)
  {
    m := registered;
    var i := 0;
    while i < |newKeys|
      invariant 0 <= i <= |newKeys|
      invariant m == registered + DoubleKinds(newKeys[..i])
    {
      assert newKeys[..i + 1] == newKeys[..i] + [newKeys[i]];
      m := m[newKeys[i] := DoubleKind];
      i := i + 1;
    }
    assert newKeys[..i] == newKeys;
  }

  /**
   * mapAllAttributes as finishInstantiation fills it: the second base
   * class's descriptors, then the descriptor loop over the new keys; this
   * is the descriptor map of the adult layout.
   */
  method AdultDescriptors(base2: BaseSchema, sep: char) returns (m: map<string, AttrKind>)
    ensures m == AllKinds(AdultLayout(base2, sep))
  {
    m := RegisterAsDouble(map[] + base2.kinds, NewKeyOrder);
  }

  /**
   * The adult layout over the second base schema: all keys are its keys
   * then the new keys, each new key with a double descriptor; the class
   * has no keys of its own.
   */
  function AdultLayout(base2: BaseSchema, sep: char): (l: Layout)
    ensures AllKeys(l) == base2.keys + NewKeyOrder
    ensures AllKinds(l) == base2.kinds + DoubleKinds(NewKeyOrder)
    ensures Defaults(l) == base2.defaults + NewDefaults
    ensures TotNumAttributes(l) == |base2.keys| + NumNewAttributes
  {
    var l := Layout(base2, DoubleKinds(NewKeyOrder), [], map[], map[], sep);
    assert NewKeyOrder + [] == NewKeyOrder;
    assert base2.kinds + DoubleKinds(NewKeyOrder) + map[] == base2.kinds + DoubleKinds(NewKeyOrder);
    assert base2.defaults + NewDefaults + map[] == base2.defaults + NewDefaults;
    l
  }

  /** The adult layout over a well-formed second base schema is valid. */
  lemma AdultLayoutValid(base2: BaseSchema, sep: char)
    requires ValidBase(base2, NewKeyOrder)
    ensures ValidLayout(AdultLayout(base2, sep))
  {
    NewKeysShape();
    assert NewKeyOrder + [] == NewKeyOrder;
  }

  /**
   * The adult descriptors and defaults disagree on "attached": the
   * descriptor is a double while the default stored by getNewMapValues
   * is a boolean.
   */
  lemma AdultAttachedKinds(base2: BaseSchema, sep: char)
    requires ValidBase(base2, NewKeyOrder)
    ensures AllKinds(AdultLayout(base2, sep))[PropAttached] == DoubleKind
    ensures Defaults(AdultLayout(base2, sep))[PropAttached].BoolValue?
  {
    NewKeysShape();
    NewDefaultsShape();
    assert PropAttached in NewKeyOrder;
  }

  /** An instance of AdultStageAttributes: of that class, over the adult layout. */
  ghost predicate IsAdultAttributes(atts: StageAttributes)
  {
    && atts.stageClass == AdultClass
    && atts.statics.layout == AdultLayout(atts.statics.layout.base, atts.statics.layout.sep)
  }

  /** new AdultStageAttributes(typeName): the second base class's defaults and the new defaults. */
  method NewAdultAttributes(statics: AttributeStatics, typeName: string) returns (atts: StageAttributes)
    requires statics.Valid() && statics.registry.ValuesValid()
    requires statics.layout == AdultLayout(statics.layout.base, statics.layout.sep)
    modifies statics`allKeys, statics`kinds, statics.aKeys, statics.registry
    ensures fresh(atts) && atts.Valid() && atts.Complete() && IsAdultAttributes(atts)
    ensures atts.statics == statics && atts.typeName == typeName
    ensures atts.mapValues == Defaults(statics.layout)
  {
    atts := new StageAttributes(statics, AdultClass, typeName);
  }

  /** clone: an adult instance with the same type name and the value of every key. */
  method Clone(atts: StageAttributes) returns (clone: StageAttributes)
    requires atts.Valid() && atts.Complete() && IsAdultAttributes(atts)
    modifies atts.statics`allKeys, atts.statics`kinds, atts.statics.aKeys, atts.statics.registry
    ensures atts.Valid() && fresh(clone) && clone.Valid() && clone.Complete() && IsAdultAttributes(clone)
    ensures clone.statics == atts.statics && clone.typeName == atts.typeName
    ensures clone.mapValues.Keys == (set k | k in atts.statics.allKeys)
    ensures forall k :: k in atts.statics.allKeys ==> clone.mapValues[k] == atts.mapValues[k]
  {
    clone := atts.Clone();
  }

  /**
   * createInstance: an adult instance named by the row's first field, its
   * values parsed from the row; none when the row is empty or a field is
   * missing or bad.
   */
  method CreateInstance(atts: StageAttributes, strv: seq<string>, baseValues: map<string, Value>, codec: Codec)
    returns (created: StageAttributes?, outcome: RowOutcome)
    requires atts.Valid() && IsAdultAttributes(atts)
    modifies atts.statics`allKeys, atts.statics`kinds, atts.statics.aKeys, atts.statics.registry
    ensures atts.Valid()
    ensures |strv| == 0 ==> created == null && outcome == MissingValue(0)
    ensures |strv| > 0 ==>
      outcome == ParseKeys(Defaults(atts.statics.layout) + baseValues, OwnKeys(atts.statics.layout),
                           AllKinds(atts.statics.layout), strv, |atts.statics.layout.base.keys|, codec).1
    ensures created != null <==> outcome == Parsed
    ensures created != null ==>
      && fresh(created) && created.Valid() && created.Complete() && IsAdultAttributes(created)
      && created.statics == atts.statics && created.typeName == strv[0]
      && created.mapValues == ParseKeys(Defaults(atts.statics.layout) + baseValues, OwnKeys(atts.statics.layout),
                                        AllKinds(atts.statics.layout), strv, |atts.statics.layout.base.keys|, codec).0
  {
    created, outcome := atts.CreateInstance(strv, baseValues, codec);
  }
}
