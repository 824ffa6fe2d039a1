/**
 * The code every POP attributes class repeats over its own key list: the
 * static key set, descriptor map and key array filled by the first
 * instance (finishInstantiation), and the instance methods that read,
 * print and parse an instance's values by position. AbstractPOPAttributes
 * (used by the benthic juvenile and settler classes), LarvaStageAttributes
 * and AdultStageAttributes each declare their own copy of these statics;
 * here each is one AttributeStatics object built from that class's Layout.
 */
module AttributeSchema {
  import opened Wrappers
  import opened OrderedKeys
  import opened AttributeValues
  import opened NewAttributes
  import opened AttributeRows

  /** The concrete attributes class an instance belongs to. */
  datatype StageClass = BenthicJuvenileClass | SettlerClass | LarvaClass | AdultClass

  /**
   * What one attributes class puts in its statics: its framework base
   * class's schema, the descriptors it registers for the eleven new keys,
   * the keys it defines itself after those (with their descriptors and
   * default values), and the framework's field separator cc.
   */
  datatype Layout = Layout(base: BaseSchema, newKinds: map<string, AttrKind>, classKeys: seq<string>,
                           classKinds: map<string, AttrKind>, classDefaults: map<string, Value>, sep: char)

  /** The keys that follow the base class's keys in a row. */
  function OwnKeys(l: Layout): seq<string>
  {
    NewKeyOrder + l.classKeys
  }

  /** allKeys once filled: the base keys, the new keys, then the class's own. */
  function AllKeys(l: Layout): seq<string>
  {
    l.base.keys + OwnKeys(l)
  }

  /** mapAllAttributes once filled. */
  function AllKinds(l: Layout): map<string, AttrKind>
  {
    l.base.kinds + l.newKinds + l.classKinds
  }

  /** mapValues of a freshly constructed instance. */
  function Defaults(l: Layout): map<string, Value>
  {
    l.base.defaults + NewDefaults + l.classDefaults
  }

  /** totNumAttributes. */
  function TotNumAttributes(l: Layout): nat
  {
    |l.base.keys| + NumNewAttributes + |l.classKeys|
  }

  /** The base class's keys, the new keys and the class's keys are all distinct, and each has a descriptor and a default. */
  ghost predicate ValidLayout(l: Layout)
  {
    && ValidBase(l.base, OwnKeys(l))
    && Distinct(OwnKeys(l))
    && l.newKinds.Keys == (set k | k in NewKeyOrder)
    && l.classKinds.Keys == (set k | k in l.classKeys)
    && l.classDefaults.Keys == (set k | k in l.classKeys)
  }

  /** The layouts the statics of a class can be built over. */
  type WellFormedLayout = l: Layout | ValidLayout(l)
    witness Layout(BaseSchema([TypeNameKey], map[TypeNameKey := StringKind], map[TypeNameKey := TextValue("")]),
                   map k | k in NewKeyOrder :: DoubleKind, [], map[], map[], ',')

  /**
   * A valid layout's keys are totNumAttributes distinct keys headed by
   * typeName, each with a descriptor and a default.
   */
  lemma LayoutFacts(l: Layout)
    requires ValidLayout(l)
    ensures |AllKeys(l)| == TotNumAttributes(l) >= 1
    ensures AllKeys(l)[0] == TypeNameKey && TypeNameKey !in OwnKeys(l)
    ensures Distinct(AllKeys(l))
  {
    BaseDisjoint(l.base, OwnKeys(l));
    DistinctConcat(l.base.keys, OwnKeys(l));
  }

  /** Every key of a valid layout has a descriptor and a default. */
  lemma LayoutCovered(l: Layout)
    requires ValidLayout(l)
    ensures forall k :: k in AllKeys(l) ==> k in AllKinds(l) && k in Defaults(l)
  {
    NewDefaultKeys();
    GroupsCovered(l.base, l.newKinds, NewDefaults, l.classKinds, l.classDefaults, NewKeyOrder, l.classKeys);
  }

  /** Three groups of keys, each group with a descriptor and a default per key. */
  lemma GroupsCovered(base: BaseSchema, newKinds: map<string, AttrKind>, newDefaults: map<string, Value>,
                      classKinds: map<string, AttrKind>, classDefaults: map<string, Value>,
                      news: seq<string>, cls: seq<string>)
    requires base.kinds.Keys == (set k | k in base.keys) && base.defaults.Keys == (set k | k in base.keys)
    requires newKinds.Keys == (set k | k in news) && newDefaults.Keys == (set k | k in news)
    requires classKinds.Keys == (set k | k in cls) && classDefaults.Keys == (set k | k in cls)
    ensures forall k :: k in base.keys + (news + cls) ==>
      k in base.kinds + newKinds + classKinds && k in base.defaults + newDefaults + classDefaults
  {
  }

  /** A fresh instance has a default for exactly the layout's keys. */
  lemma LayoutDefaultKeys(l: Layout)
    requires ValidLayout(l)
    ensures Defaults(l).Keys == (set k | k in AllKeys(l))
    ensures forall k :: k in Defaults(l) <==> k in AllKeys(l)
  {
    NewDefaultKeys();
  }

  /** Adding the three groups of keys to an empty ordered set, in order, yields the layout's keys. */
  lemma LayoutByAdds(l: Layout)
    requires ValidLayout(l)
    ensures AddAll(AddAll(AddAll([], l.base.keys), NewKeyOrder), l.classKeys) == AllKeys(l)
  {
    BaseDisjoint(l.base, OwnKeys(l));
    AddAllGroups(l.base.keys, NewKeyOrder, l.classKeys);
  }

  /** putAll into an empty map yields the map put. */
  lemma EmptyUnion(m: map<string, AttrKind>)
    ensures map[] + m == m
  {
  }

  /**
   * A printed row read back: when the base class's part of the row has
   * one field per base key and no printed value holds the separator,
   * parsing the split row from field numAttributes on (as setValues does)
   * succeeds, gives every own key the value it was printed from, and
   * leaves every other key as it was.
   */
  lemma CSVRoundTrip(l: Layout, init: map<string, Value>, values: map<string, Value>, codec: Codec, baseCSV: string)
    requires ValidLayout(l) && RoundTrips(codec)
    requires forall k :: k in AllKeys(l) ==> k in values
    requires |Split(baseCSV, l.sep)| == |l.base.keys|
    requires Unseparated(Formatted(values, OwnKeys(l), AllKinds(l), codec), l.sep)
    ensures var row := Split(baseCSV + Suffix(Formatted(values, OwnKeys(l), AllKinds(l), codec), l.sep), l.sep);
      var parsed := ParseKeys(init, OwnKeys(l), AllKinds(l), row, |l.base.keys|, codec);
      && parsed.1 == Parsed
      && (forall k :: k in OwnKeys(l) ==> k in parsed.0 && parsed.0[k] == values[k])
      && (forall k :: k in init && k !in OwnKeys(l) ==> k in parsed.0 && parsed.0[k] == init[k])
  {
    LayoutFacts(l);
    RowRoundTrip(init, values, OwnKeys(l), AllKinds(l), codec, baseCSV, l.sep);
  }

  /**
   * getCSVHeader and getCSV line up: under the same conditions, the
   * header and the row have totNumAttributes fields each, and every field
   * after the base class's holds the printed value of the key the header
   * names at that position.
   */
  lemma HeaderNamesRowFields(l: Layout, values: map<string, Value>, codec: Codec, baseCSV: string)
    requires ValidLayout(l)
    requires forall k :: k in AllKeys(l) ==> k in values
    requires |Split(baseCSV, l.sep)| == |l.base.keys|
    requires Unseparated(AllKeys(l), l.sep)
    requires Unseparated(Formatted(values, OwnKeys(l), AllKinds(l), codec), l.sep)
    ensures var header := Split(Join(AllKeys(l), l.sep), l.sep);
      var row := Split(baseCSV + Suffix(Formatted(values, OwnKeys(l), AllKinds(l), codec), l.sep), l.sep);
      var n := |l.base.keys|;
      && |header| == |row| == TotNumAttributes(l)
      && forall i :: n <= i < |row| ==>
           header[i] == OwnKeys(l)[i - n]
           && row[i] == codec.format(AllKinds(l)[OwnKeys(l)[i - n]], values[OwnKeys(l)[i - n]])
  {
    HeaderAligned(l.base.keys, OwnKeys(l), values, AllKinds(l), codec, baseCSV, l.sep);
  }


  /**
   * The static fields of one attributes class: allKeys, mapAllAttributes
   * (as the descriptor kind of each key) and aKeys, plus the NewAttributes
   * statics it shares with the other classes. Both collections start empty
   * and are filled together by the first instance.
   */
  class AttributeStatics {
    const layout: WellFormedLayout
    const registry: NewAttributeRegistry
    const aKeys: array<string>
    var allKeys: seq<string>
    var kinds: map<string, AttrKind>

    /** The statics are either untouched or completely filled. */
    ghost predicate Valid()
      reads this`allKeys, this`kinds, registry`newKeys, aKeys
    {
      && registry.KeysValid()
      && aKeys.Length == TotNumAttributes(layout) - 1
      && (kinds == map[] ==> allKeys == [])
      && (kinds != map[] ==> Populated())
    }

    /** The statics once filled, stated without the case split of Valid. */
    ghost predicate Filled()
      reads this`allKeys, this`kinds, registry`newKeys, aKeys
    {
      && aKeys.Length == TotNumAttributes(layout) - 1
      && Populated()
    }

    /** Filled statics are valid. */
    lemma FilledValid()
      ensures Filled() ==> Valid() && Populated() && kinds != map[]
    {
      if Filled() {
        LayoutCovered(layout);
        assert allKeys[0] in kinds;
      }
    }

    /** Filled statics hold a descriptor for every key. */
    lemma FilledCovered()
      ensures Filled() ==> forall k :: k in allKeys ==> k in kinds
    {
      if Filled() {
        LayoutCovered(layout);
      }
    }

    /** The state finishInstantiation leaves: all keys in order, every descriptor, and aKeys holding every key but typeName. */
    ghost predicate Populated()
      reads this`allKeys, this`kinds, registry`newKeys, aKeys
    {
      && allKeys == AllKeys(layout) && |allKeys| > 0
      && kinds == AllKinds(layout)
      && aKeys[..] == allKeys[1..]
      && registry.newKeys == NewKeyOrder
    }

    /** The static initialisers: empty collections and an aKeys array of totNumAttributes - 1 slots. */
    constructor (layout: Layout, registry: NewAttributeRegistry)
      requires ValidLayout(layout) && registry.KeysValid()
      ensures Valid() && this.layout == layout && this.registry == registry
      ensures allKeys == [] && kinds == map[] && fresh(aKeys)
    {
      this.layout := layout;
      this.registry := registry;
      aKeys := new string[TotNumAttributes(layout) - 1](_ => "");
      allKeys := [];
      kinds := map[];
    }

    /** The key half of finishInstantiation: the base keys, the new keys and the class's keys, added in that order. */
    method AddKeys(newKeys: seq<string>)
      requires ValidLayout(layout) && allKeys == [] && newKeys == NewKeyOrder
      modifies this`allKeys
      ensures allKeys == AllKeys(layout)
    {
      allKeys := AddAll(allKeys, layout.base.keys);
      allKeys := AddAll(allKeys, newKeys);
      allKeys := AddAll(allKeys, layout.classKeys);
      LayoutByAdds(layout);
    }

    /**
     * The static half of finishInstantiation: on an empty descriptor map,
     * register the base, new and class descriptors, add the three groups
     * of keys to allKeys and copy all keys but typeName into aKeys. Once
     * filled, nothing changes.
     */
    method FinishStatics()
      requires Valid()
      modifies this`allKeys, this`kinds, aKeys, registry`newKeys
      ensures Valid() && Populated()
      ensures old(kinds) != map[] ==> unchanged(this`allKeys, this`kinds, aKeys, registry`newKeys)
    {
      if kinds == map[] {
        kinds := kinds + layout.base.kinds;
        kinds := kinds + layout.newKinds;
        kinds := kinds + layout.classKinds;
        EmptyUnion(layout.base.kinds);
        var newKeys := registry.GetNewKeys();
        AddKeys(newKeys);
        LayoutFacts(layout);
        LayoutCovered(layout);
        assert TypeNameKey in kinds;
        CopyTail(allKeys, aKeys);
      }
    }

    /** finishInstantiation's part on the statics: fill them, then fetch the shared defaults of the new keys. */
    method FinishInstantiation() returns (newValues: map<string, Value>)
      requires Valid() && registry.ValuesValid()
      modifies this`allKeys, this`kinds, aKeys, registry`newKeys, registry`newMapValues
      ensures Valid() && Populated() && registry.ValuesValid()
      ensures newValues == registry.newMapValues == NewDefaults
      ensures layout.base.defaults + newValues + layout.classDefaults == Defaults(layout)
      ensures old(kinds) != map[] && old(registry.newMapValues) != map[] ==> unchanged(this`allKeys, this`kinds, aKeys, registry)
    {
      FinishStatics();
      newValues := registry.GetNewMapValues();
    }
  }

  /** Filled statics stay filled, with the same default map, while their keys, descriptors, aKeys and registry stay the same. */
  twostate lemma FilledKept(st: AttributeStatics)
    ensures unchanged(st`allKeys, st`kinds, st.aKeys, st.registry) ==>
      && (old(st.Filled()) ==> st.Filled())
      && st.registry.newMapValues == old(st.registry.newMapValues)
  {
  }

  /** The values of the given keys, where the source has them. */
  function Restrict(source: map<string, Value>, keys: seq<string>): (r: map<string, Value>)
    ensures forall k :: k in r <==> k in keys && k in source
    ensures forall k :: k in r ==> r[k] == source[k]
  {
    map k | k in keys && k in source :: source[k]
  }

  /**
   * One attributes instance: its class, its type name and its map of
   * values, with the statics of its class.
   */
  class StageAttributes {
    const statics: AttributeStatics
    const stageClass: StageClass
    var typeName: string
    var mapValues: map<string, Value>

    /** The class's statics are filled, and so is the shared default map. */
    ghost predicate Valid()
      reads statics`allKeys, statics`kinds, statics.aKeys, statics.registry`newKeys, statics.registry`newMapValues
    {
      statics.Filled() && statics.registry.newMapValues == NewDefaults
    }

    /** Every key has a value. */
    ghost predicate Complete()
      reads this`mapValues, statics`allKeys
    {
      forall k :: k in statics.allKeys ==> k in mapValues
    }

    /**
     * new X(typeName): the base constructor's defaults, then what
     * finishInstantiation does: fill the statics if they are empty, and
     * add the defaults of the new keys and of the class's own keys. The
     * statics are filled before the instance's map is set; the two touch
     * disjoint state, so the order does not change the result.
     */
    constructor (statics: AttributeStatics, stageClass: StageClass, typeName: string)
      requires statics.Valid() && statics.registry.ValuesValid()
      modifies statics`allKeys, statics`kinds, statics.aKeys, statics.registry
      ensures Valid() && Complete()
      ensures this.statics == statics && this.stageClass == stageClass && this.typeName == typeName
      ensures mapValues == Defaults(statics.layout)
      ensures old(statics.kinds) != map[] && old(statics.registry.newMapValues) != map[] ==>
        unchanged(statics`allKeys, statics`kinds, statics.aKeys, statics.registry)
    {
      this.statics := statics;
      this.stageClass := stageClass;
      this.typeName := typeName;
      var newValues := statics.FinishInstantiation();
      mapValues := statics.layout.base.defaults + newValues + statics.layout.classDefaults;
      new;
      LayoutDefaultKeys(statics.layout);
    }

    /** setValue(key, value): the framework setter, storing one value. */
    method SetValue(key: string, value: Value)
      modifies this`mapValues
      ensures mapValues == old(mapValues)[key := value]
    {
      mapValues := mapValues[key := value];
    }

    /** The loop of clone: setValue(key, source value) for every key, in order. */
    method CopyValues(source: map<string, Value>, keys: seq<string>)
      requires forall k :: k in keys ==> k in source
      requires forall k :: k in mapValues <==> k in keys
      modifies this`mapValues
      ensures forall k :: k in mapValues <==> k in keys
      ensures forall k :: k in keys ==> mapValues[k] == source[k]
    {
      var i := 0;
      while i < |keys|
        invariant 0 <= i <= |keys|
        invariant forall k :: k in mapValues <==> k in keys
        invariant forall n :: 0 <= n < i ==> mapValues[keys[n]] == source[keys[n]]
      {
        SetValue(keys[i], source[keys[i]]);
        i := i + 1;
      }
    }

    /**
     * The loop of setAttributes(atts) in a life stage: setValue(key,
     * source value) for every key given, in order.
     */
    method StoreValues(source: map<string, Value>, keys: seq<string>)
      requires forall k :: k in keys ==> k in source
      modifies this`mapValues
      ensures mapValues == old(mapValues) + Restrict(source, keys)
    {
      var i := 0;
      while i < |keys|
        invariant 0 <= i <= |keys|
        invariant mapValues == old(mapValues) + Restrict(source, keys[..i])
      {
        assert keys[..i + 1] == keys[..i] + [keys[i]];
        SetValue(keys[i], source[keys[i]]);
        i := i + 1;
      }
      assert keys[..i] == keys;
    }

    /**
     * getKeys: the aKeys array, which holds every key but typeName, in
     * row order: the base keys after typeName, then the class's own keys.
     */
    function GetKeys(): (keys: seq<string>)
      reads this, statics, statics.registry, statics.aKeys
      requires Valid()
      ensures keys == statics.layout.base.keys[1..] + OwnKeys(statics.layout)
      ensures |keys| == TotNumAttributes(statics.layout) - 1
      ensures TypeNameKey !in keys && Distinct(keys)
      ensures Complete() ==> forall k :: k in keys ==> k in mapValues
    {
      LayoutFacts(statics.layout);
      DistinctTail(statics.allKeys);
      statics.aKeys[..]
    }

    /** getAttributes: the values of every key but typeName, in the order of getKeys. */
    method GetAttributes() returns (atts: seq<Value>)
      requires Valid() && Complete()
      ensures |atts| == TotNumAttributes(statics.layout) - 1
      ensures forall i :: 0 <= i < |atts| ==> atts[i] == mapValues[GetKeys()[i]]
    {
      LayoutFacts(statics.layout);
      atts := [];
      var keys := statics.allKeys;
      var it := 1;
      while it < |keys|
        invariant 1 <= it <= |keys| && |atts| == it - 1
        invariant forall i :: 0 <= i < |atts| ==> atts[i] == mapValues[keys[i + 1]]
      {
        atts := atts + [mapValues[keys[it]]];
        it := it + 1;
      }
    }

    /** getArrayList: the base class's list followed by the value of each of the class's own keys, in order. */
    method GetArrayList(baseList: seq<Value>) returns (a: seq<Value>)
      requires Valid() && Complete()
      ensures |a| == |baseList| + |OwnKeys(statics.layout)| && a[..|baseList|] == baseList
      ensures forall i :: 0 <= i < |OwnKeys(statics.layout)| ==>
        a[|baseList| + i] == mapValues[OwnKeys(statics.layout)[i]]
    {
      LayoutFacts(statics.layout);
      var keys := statics.registry.newKeys + statics.layout.classKeys;
      a := baseList;
      var i := 0;
      while i < |keys|
        invariant 0 <= i <= |keys| && |a| == |baseList| + i && a[..|baseList|] == baseList
        invariant forall n :: 0 <= n < i ==> a[|baseList| + n] == mapValues[keys[n]]
      {
        a := a + [mapValues[keys[i]]];
        i := i + 1;
      }
    }

    /**
     * getCSV: the base class's row, then the separator and the printed
     * value of each of the class's own keys. When no printed value holds
     * the separator, the row splits into the base row's fields followed by
     * those values.
     */
    method GetCSV(baseCSV: string, codec: Codec) returns (str: string)
      requires Valid() && Complete()
      ensures str == baseCSV + Suffix(Formatted(mapValues, OwnKeys(statics.layout), statics.kinds, codec), statics.layout.sep)
      ensures var fields := Formatted(mapValues, OwnKeys(statics.layout), statics.kinds, codec);
        Unseparated(fields, statics.layout.sep) ==>
          Split(str, statics.layout.sep) == Split(baseCSV, statics.layout.sep) + fields
    {
      LayoutFacts(statics.layout);
      var keys := statics.registry.newKeys + statics.layout.classKeys;
      str := AppendFields(baseCSV, mapValues, keys, statics.kinds, codec, statics.layout.sep);
      var fields := Formatted(mapValues, keys, statics.kinds, codec);
      if Unseparated(fields, statics.layout.sep) {
        SplitAppended(baseCSV, fields, statics.layout.sep);
      }
    }

    /**
     * getCSVHeader: every key, typeName first, joined by the separator;
     * when no key holds the separator it splits back into the keys, so
     * its i-th field names the i-th field of a row.
     */
    method GetCSVHeader() returns (str: string)
      requires Valid()
      ensures str == Join(statics.allKeys, statics.layout.sep)
      ensures Unseparated(statics.allKeys, statics.layout.sep) ==>
        Split(str, statics.layout.sep) == AllKeys(statics.layout)
    {
      LayoutFacts(statics.layout);
      str := JoinKeys(statics.allKeys, statics.layout.sep);
      if Unseparated(statics.allKeys, statics.layout.sep) {
        SplitJoin(statics.allKeys, statics.layout.sep);
      }
    }

    /**
     * setValueFromString: ignored for typeName; otherwise the key's
     * descriptor parses the field and the value is stored. A field that
     * does not parse (the NumberFormatException) leaves the values as
     * they were and is reported by ok == false.
     */
    method SetValueFromString(key: string, field: string, codec: Codec) returns (ok: bool)
      requires Valid()
      requires key == TypeNameKey || key in statics.kinds
      modifies this`mapValues
      ensures Valid()
      ensures key == TypeNameKey ==> ok && mapValues == old(mapValues)
      ensures key != TypeNameKey ==> ok == codec.parse(statics.kinds[key], field).Some?
      ensures key != TypeNameKey && ok ==> mapValues == old(mapValues)[key := codec.parse(statics.kinds[key], field).value]
      ensures !ok ==> mapValues == old(mapValues)
    {
      var stored := StoreField(mapValues, key, field, statics.kinds, codec);
      ok := stored.Some?;
      if ok {
        mapValues := stored.value;
      }
    }

    /**
     * setValues: the base class stores its own fields (given here as
     * baseValues), then the class's own keys are parsed from the fields
     * that follow the base class's numAttributes fields, one field per
     * key. A missing or bad field stops the parse with the values stored
     * so far.
     */
    method SetValues(strv: seq<string>, baseValues: map<string, Value>, codec: Codec) returns (outcome: RowOutcome)
      requires Valid()
      modifies this`mapValues
      ensures Valid() && (old(Complete()) ==> Complete())
      ensures (mapValues, outcome) == ParseKeys(old(mapValues) + baseValues, OwnKeys(statics.layout), statics.kinds,
                                          strv, |statics.layout.base.keys|, codec)
    {
      LayoutFacts(statics.layout);
      mapValues := mapValues + baseValues;
      var j := |statics.layout.base.keys|;
      var keys := statics.registry.newKeys + statics.layout.classKeys;
      ParseKeysFrame(mapValues, keys, statics.kinds, strv, j, codec);
      mapValues, outcome := ParseRow(mapValues, keys, statics.kinds, strv, j, codec);
    }

    /**
     * clone: a new instance of the same class and type name, given the
     * value of every key in allKeys; it carries no other key.
     */
    method Clone() returns (clone: StageAttributes)
      requires Valid() && Complete()
      modifies statics`allKeys, statics`kinds, statics.aKeys, statics.registry
      ensures Valid() && fresh(clone) && clone.Valid() && clone.Complete()
      ensures clone.statics == statics && clone.stageClass == stageClass && clone.typeName == typeName
      ensures clone.mapValues.Keys == (set k | k in statics.allKeys)
      ensures forall k :: k in statics.allKeys ==> clone.mapValues[k] == mapValues[k]
    {
      clone := Sibling(typeName);
      LayoutDefaultKeys(statics.layout);
      clone.CopyValues(mapValues, statics.allKeys);
    }

    /**
     * new X(typeName) where X is this instance's class: a fresh instance
     * holding the class's defaults; the statics, already filled, stay as
     * they are.
     */
    method Sibling(typeName: string) returns (s: StageAttributes)
      requires Valid()
      modifies statics`allKeys, statics`kinds, statics.aKeys, statics.registry
      ensures fresh(s) && s.Valid() && s.Complete()
      ensures s.statics == statics && s.stageClass == stageClass && s.typeName == typeName
      ensures s.mapValues == Defaults(statics.layout)
      ensures unchanged(statics`allKeys, statics`kinds, statics.aKeys, statics.registry)
    {
      statics.FilledValid();
      assert PropAttached in NewDefaults;
      s := new StageAttributes(statics, stageClass, typeName);
    }

    /**
     * createInstance: a new instance of the same class whose type name is
     * the row's first field, then setValues on the row. An empty row has
     * no first field (the IndexOutOfBoundsException at index 0); a failure
     * inside setValues propagates, so no instance is returned.
     */
    method CreateInstance(strv: seq<string>, baseValues: map<string, Value>, codec: Codec)
      returns (atts: StageAttributes?, outcome: RowOutcome)
      requires Valid()
      modifies statics`allKeys, statics`kinds, statics.aKeys, statics.registry
      ensures Valid()
      ensures |strv| == 0 ==> atts == null && outcome == MissingValue(0)
      ensures |strv| > 0 ==> outcome == ParseKeys(Defaults(statics.layout) + baseValues, OwnKeys(statics.layout), AllKinds(statics.layout),
                             strv, |statics.layout.base.keys|, codec).1
      ensures atts != null <==> outcome == Parsed
      ensures atts != null ==>
        && fresh(atts) && atts.Valid() && atts.Complete()
        && atts.statics == statics && atts.stageClass == stageClass && atts.typeName == strv[0]
        && atts.mapValues == ParseKeys(Defaults(statics.layout) + baseValues, OwnKeys(statics.layout),
                                       AllKinds(statics.layout), strv, |statics.layout.base.keys|, codec).0
    {
      if |strv| == 0 {
        return null, MissingValue(0);
      }
      var created := Sibling(strv[0]);
      outcome := created.SetValues(strv, baseValues, codec);
      atts := if outcome == Parsed then created else null;
    }
  }
}
