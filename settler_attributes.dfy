/**
 * SettlerStageAttributes: an AbstractPOPAttributes subclass that adds nothing but its
 * own clone and createInstance, each returning a settler instance.
 */
module SettlerAttributes {
  import opened AttributeValues
  import opened AttributeRows
  import opened AttributeSchema
  import opened POPAttributes

  /** An instance of SettlerStageAttributes: of that class, over the POP layout. */
  ghost predicate IsSettlerAttributes(atts: StageAttributes)
  {
    atts.stageClass == SettlerClass && IsPOPLayout(atts.statics.layout)
  }

  /** new SettlerStageAttributes(typeName): the POP defaults, the statics filled. */
  method NewSettlerAttributes(statics: AttributeStatics, typeName: string) returns (atts: StageAttributes)
    requires statics.Valid() && statics.registry.ValuesValid() && IsPOPLayout(statics.layout)
    modifies statics`allKeys, statics`kinds, statics.aKeys, statics.registry
    ensures fresh(atts) && atts.Valid() && atts.Complete() && IsSettlerAttributes(atts)
    ensures atts.statics == statics && atts.typeName == typeName
    ensures atts.mapValues == Defaults(statics.layout)
  {
    atts := new StageAttributes(statics, SettlerClass, typeName);
  }

  /** clone: a settler instance with the same type name and the value of every key. */
  method Clone(atts: StageAttributes) returns (clone: StageAttributes)
    requires atts.Valid() && atts.Complete() && IsSettlerAttributes(atts)
    modifies atts.statics`allKeys, atts.statics`kinds, atts.statics.aKeys, atts.statics.registry
    ensures atts.Valid() && fresh(clone) && clone.Valid() && clone.Complete() && IsSettlerAttributes(clone)
    ensures clone.statics == atts.statics && clone.typeName == atts.typeName
    ensures clone.mapValues.Keys == (set k | k in atts.statics.allKeys)
    ensures forall k :: k in atts.statics.allKeys ==> clone.mapValues[k] == atts.mapValues[k]
  {
    clone := atts.Clone();
  }

  /**
   * createInstance: a settler instance named by the row's first field,
   * its values parsed from the row; none when the row is empty or a
   * field is missing or bad.
   */
  method CreateInstance(atts: StageAttributes, strv: seq<string>, baseValues: map<string, Value>, codec: Codec)
    returns (created: StageAttributes?, outcome: RowOutcome)
    requires atts.Valid() && IsSettlerAttributes(atts)
    modifies atts.statics`allKeys, atts.statics`kinds, atts.statics.aKeys, atts.statics.registry
    ensures atts.Valid()
    ensures |strv| == 0 ==> created == null && outcome == MissingValue(0)
    ensures |strv| > 0 ==>
      outcome == ParseKeys(Defaults(atts.statics.layout) + baseValues, OwnKeys(atts.statics.layout),
                           AllKinds(atts.statics.layout), strv, |atts.statics.layout.base.keys|, codec).1
    ensures created != null <==> outcome == Parsed
    ensures created != null ==>
      && fresh(created) && created.Valid() && created.Complete() && IsSettlerAttributes(created)
      && created.statics == atts.statics && created.typeName == strv[0]
      && created.mapValues == ParseKeys(Defaults(atts.statics.layout) + baseValues, OwnKeys(atts.statics.layout),
                                        AllKinds(atts.statics.layout), strv, |atts.statics.layout.base.keys|, codec).0
  {
    created, outcome := atts.CreateInstance(strv, baseValues, codec);
  }
}
