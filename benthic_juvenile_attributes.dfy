/**
 * BenthicJuvenileStageAttributes: an AbstractPOPAttributes subclass that adds nothing but its
 * own clone and createInstance, each returning a benthic juvenile instance.
 */
module BenthicJuvenileAttributes {
  import opened AttributeValues
  import opened AttributeRows
  import opened AttributeSchema
  import opened POPAttributes

  /** An instance of BenthicJuvenileStageAttributes: of that class, over the POP layout. */
  ghost predicate IsBenthicJuvenileAttributes(atts: StageAttributes)
  {
    atts.stageClass == BenthicJuvenileClass && IsPOPLayout(atts.statics.layout)
  }

  /** new BenthicJuvenileStageAttributes(typeName): the POP defaults, the statics filled. */
  method NewBenthicJuvenileAttributes(statics: AttributeStatics, typeName: string) returns (atts: StageAttributes)
    requires statics.Valid() && statics.registry.ValuesValid() && IsPOPLayout(statics.layout)
    modifies statics`allKeys, statics`kinds, statics.aKeys, statics.registry
    ensures fresh(atts) && atts.Valid() && atts.Complete() && IsBenthicJuvenileAttributes(atts)
    ensures atts.statics == statics && atts.typeName == typeName
    ensures atts.mapValues == Defaults(statics.layout)
    ensures old(statics.kinds) != map[] && old(statics.registry.newMapValues) != map[] ==>
      unchanged(statics`allKeys, statics`kinds, statics.aKeys, statics.registry)
  {
    atts := new StageAttributes(statics, BenthicJuvenileClass, typeName);
  }

  /** clone: a benthic juvenile instance with the same type name and the value of every key. */
  method Clone(atts: StageAttributes) returns (clone: StageAttributes)
    requires atts.Valid() && atts.Complete() && IsBenthicJuvenileAttributes(atts)
    modifies atts.statics`allKeys, atts.statics`kinds, atts.statics.aKeys, atts.statics.registry
    ensures atts.Valid() && fresh(clone) && clone.Valid() && clone.Complete() && IsBenthicJuvenileAttributes(clone)
    ensures clone.statics == atts.statics && clone.typeName == atts.typeName
    ensures clone.mapValues.Keys == (set k | k in atts.statics.allKeys)
    ensures forall k :: k in atts.statics.allKeys ==> clone.mapValues[k] == atts.mapValues[k]
  {
    clone := atts.Clone();
  }

  /**
   * createInstance: a benthic juvenile instance named by the row's first field,
   * its values parsed from the row; none when the row is empty or a
   * field is missing or bad.
   */
  method CreateInstance(atts: StageAttributes, strv: seq<string>, baseValues: map<string, Value>, codec: Codec)
    returns (created: StageAttributes?, outcome: RowOutcome)
    requires atts.Valid() && IsBenthicJuvenileAttributes(atts)
    modifies atts.statics`allKeys, atts.statics`kinds, atts.statics.aKeys, atts.statics.registry
    ensures atts.Valid()
    ensures |strv| == 0 ==> created == null && outcome == MissingValue(0)
    ensures |strv| > 0 ==>
      outcome == ParseKeys(Defaults(atts.statics.layout) + baseValues, OwnKeys(atts.statics.layout),
                           AllKinds(atts.statics.layout), strv, |atts.statics.layout.base.keys|, codec).1
    ensures created != null <==> outcome == Parsed
    ensures created != null ==>
      && fresh(created) && created.Valid() && created.Complete() && IsBenthicJuvenileAttributes(created)
      && created.statics == atts.statics && created.typeName == strv[0]
      && created.mapValues == ParseKeys(Defaults(atts.statics.layout) + baseValues, OwnKeys(atts.statics.layout),
                                        AllKinds(atts.statics.layout), strv, |atts.statics.layout.base.keys|, codec).0
  {
    created, outcome := atts.CreateInstance(strv, baseValues, codec);
  }
}
