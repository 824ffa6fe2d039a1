/**
 * AbstractPOPAttributes: the statics shared by the benthic juvenile and
 * settler attributes classes. Its rows are the framework's standard
 * attributes (AbstractLHSAttributes) followed by the eleven new ones; it
 * defines no keys of its own.
 */
module POPAttributes {
  import opened OrderedKeys
  import opened AttributeValues
  import opened NewAttributes
  import opened AttributeSchema

  /**
   * The layout of AbstractPOPAttributes over a base schema, the
   * descriptors registered for the new keys and the separator: all keys
   * are the base keys then the new keys, and totNumAttributes is
   * numAttributes + numNewAttributes.
   */
  function POPLayout(base: BaseSchema, newKinds: map<string, AttrKind>, sep: char): (l: Layout)
    ensures OwnKeys(l) == NewKeyOrder
    ensures AllKeys(l) == base.keys + NewKeyOrder
    ensures AllKinds(l) == base.kinds + newKinds
    ensures Defaults(l) == base.defaults + NewDefaults
    ensures TotNumAttributes(l) == |base.keys| + NumNewAttributes
  {
    var l := Layout(base, newKinds, [], map[], map[], sep);
    assert NewKeyOrder + [] == NewKeyOrder;
    assert base.kinds + newKinds + map[] == base.kinds + newKinds;
    assert base.defaults + NewDefaults + map[] == base.defaults + NewDefaults;
    l
  }

  /** A layout is the POP layout when the class adds no keys of its own. */
  predicate IsPOPLayout(l: Layout)
  {
    l.classKeys == [] && l.classKinds == map[] && l.classDefaults == map[]
  }

  /** The POP layout over a well-formed base schema and a descriptor for each new key is valid. */
  lemma POPLayoutValid(base: BaseSchema, newKinds: map<string, AttrKind>, sep: char)
    requires ValidBase(base, NewKeyOrder)
    requires newKinds.Keys == (set k | k in NewKeyOrder)
    ensures ValidLayout(POPLayout(base, newKinds, sep)) && IsPOPLayout(POPLayout(base, newKinds, sep))
  {
    NewKeysShape();
  }

  /**
   * getKeys on a POP instance: the base keys after typeName and then the
   * eleven new keys, totNumAttributes - 1 of them (the size of aKeys).
   */
  lemma POPKeys(atts: StageAttributes)
    requires atts.Valid() && IsPOPLayout(atts.statics.layout)
    ensures atts.GetKeys() == atts.statics.layout.base.keys[1..] + NewKeyOrder
    ensures |atts.GetKeys()| == |atts.statics.layout.base.keys| + NumNewAttributes - 1
  {
    assert OwnKeys(atts.statics.layout) == NewKeyOrder + [] == NewKeyOrder;
  }
}
