/**
 * The eleven attributes every POP life stage adds to the framework's
 * standard ones: their keys in order, their default values, and the
 * lazily filled static set and map that hold them.
 */
module NewAttributes {
  import opened OrderedKeys
  import opened AttributeValues

  /** Number of non-standard attributes. */
  const NumNewAttributes: nat := 11

  const PropAttached: string := "attached"
  const PropSize: string := "size (cm)"
  const PropWeight: string := "weight (kg)"
  const PropTemperature: string := "temperature deg C"
  const PropSalinity: string := "salinity"
  const PropBathymetry: string := "bathymetry"
  const PropRomsvar1: string := "romsvar1"
  const PropRomsvar2: string := "romsvar2"
  const PropRomsvar3: string := "romsvar3"
  const PropRomsvar4: string := "romsvar4"
  const PropRomsvar5: string := "romsvar5"

  /** The new keys in the order getNewKeys adds them. */
  const NewKeyOrder: seq<string> :=
    [PropAttached, PropSize, PropWeight, PropTemperature, PropSalinity, PropBathymetry,
     PropRomsvar1, PropRomsvar2, PropRomsvar3, PropRomsvar4, PropRomsvar5]

  /** The default value of each new key, as getNewMapValues stores it. */
  const NewDefaults: map<string, Value> :=
    map[PropAttached := BoolValue(false),
        PropSize := DoubleValue(0.0),
        PropWeight := DoubleValue(0.0),
        PropTemperature := DoubleValue(-1.0),
        PropSalinity := DoubleValue(-1.0),
        PropBathymetry := DoubleValue(-1.0),
        PropRomsvar1 := DoubleValue(-1.0),
        PropRomsvar2 := DoubleValue(-1.0),
        PropRomsvar3 := DoubleValue(-1.0),
        PropRomsvar4 := DoubleValue(-1.0),
        PropRomsvar5 := DoubleValue(-1.0)]

  /** The new keys are numNewAttributes distinct keys, none of them typeName. */
  lemma NewKeysShape()
    ensures |NewKeyOrder| == NumNewAttributes
    ensures Distinct(NewKeyOrder)
    ensures TypeNameKey !in NewKeyOrder
  {
  }

  /** The eleven additions of getNewKeys, starting from the empty set, give the new keys in order. */
  lemma NewKeysByAdds()
    ensures Add(Add(Add(Add(Add(Add(Add(Add(Add(Add(Add([], PropAttached), PropSize), PropWeight), PropTemperature), PropSalinity), PropBathymetry), PropRomsvar1), PropRomsvar2), PropRomsvar3), PropRomsvar4), PropRomsvar5) == NewKeyOrder
  {
    FirstNewKeysByAdds();
    LastNewKeysByAdds();
  }

  /** The first five additions give the first five new keys. */
  lemma FirstNewKeysByAdds()
    ensures Add(Add(Add(Add(Add([], PropAttached), PropSize), PropWeight), PropTemperature), PropSalinity) == NewKeyOrder[..5]
  {
    NewKeysShape();
    assert NewKeyOrder[..0] == [];
    AddNext(NewKeyOrder[..0], NewKeyOrder, 0);
    AddNext(NewKeyOrder[..1], NewKeyOrder, 1);
    AddNext(NewKeyOrder[..2], NewKeyOrder, 2);
    AddNext(NewKeyOrder[..3], NewKeyOrder, 3);
    AddNext(NewKeyOrder[..4], NewKeyOrder, 4);
  }

  /** The remaining six additions, after the first five keys, give all the new keys. */
  lemma LastNewKeysByAdds()
    ensures Add(Add(Add(Add(Add(Add(NewKeyOrder[..5], PropBathymetry), PropRomsvar1), PropRomsvar2), PropRomsvar3), PropRomsvar4), PropRomsvar5) == NewKeyOrder
  {
    NewKeysShape();
    AddNext(NewKeyOrder[..5], NewKeyOrder, 5);
    AddNext(NewKeyOrder[..6], NewKeyOrder, 6);
    AddNext(NewKeyOrder[..7], NewKeyOrder, 7);
    AddNext(NewKeyOrder[..8], NewKeyOrder, 8);
    AddNext(NewKeyOrder[..9], NewKeyOrder, 9);
    AddNext(NewKeyOrder[..10], NewKeyOrder, 10);
    assert NewKeyOrder[..11] == NewKeyOrder;
  }

  /** The default map has a value for exactly the new keys. */
  lemma NewDefaultKeys()
    ensures NewDefaults.Keys == (set k | k in NewKeyOrder)
  {
  }

  /** Size and weight start at 0; attached, the one boolean default, at false. */
  lemma NewDefaultsShape()
    ensures forall k :: k in NewDefaults ==> (NewDefaults[k].BoolValue? <==> k == PropAttached)
    ensures NewDefaults[PropAttached] == BoolValue(false)
    ensures NewDefaults[PropSize] == DoubleValue(0.0) && NewDefaults[PropWeight] == DoubleValue(0.0)
  {
  }

  /** The eight sampled covariates, temperature to romsvar5, start at -1. */
  lemma NewDefaultCovariates()
    ensures forall i :: 3 <= i < |NewKeyOrder| ==> NewDefaults[NewKeyOrder[i]] == DoubleValue(-1.0)
  {
  }

  /**
   * The class NewAttributes: its two static collections, each filled on the
   * first call that finds it empty.
   */
  class NewAttributeRegistry {
    var newKeys: seq<string>
    var newMapValues: map<string, Value>

    /** The key set is either still empty or completely filled. */
    ghost predicate KeysValid()
      reads this`newKeys
    {
      newKeys == [] || newKeys == NewKeyOrder
    }

    /** The default map is either still empty or completely filled. */
    ghost predicate ValuesValid()
      reads this`newMapValues
    {
      newMapValues == map[] || newMapValues == NewDefaults
    }

    /** The static initialisers: both collections start empty. */
    constructor ()
      ensures KeysValid() && ValuesValid() && newKeys == [] && newMapValues == map[]
    {
      newKeys := [];
      newMapValues := map[];
    }

    /** getNewKeys: fills the ordered set on an empty set only, so every call returns the same keys. */
    method GetNewKeys() returns (keys: seq<string>)
      requires KeysValid()
      modifies this`newKeys
      ensures KeysValid()
      ensures keys == newKeys == NewKeyOrder
      ensures old(newKeys) != [] ==> newKeys == old(newKeys)
    {
      if newKeys == [] {
        var key: string;
        key := PropAttached; newKeys := Add(newKeys, key);
        key := PropSize; newKeys := Add(newKeys, key);
        key := PropWeight; newKeys := Add(newKeys, key);
        key := PropTemperature; newKeys := Add(newKeys, key);
        key := PropSalinity; newKeys := Add(newKeys, key);
        key := PropBathymetry; newKeys := Add(newKeys, key);
        key := PropRomsvar1; newKeys := Add(newKeys, key);
        key := PropRomsvar2; newKeys := Add(newKeys, key);
        key := PropRomsvar3; newKeys := Add(newKeys, key);
        key := PropRomsvar4; newKeys := Add(newKeys, key);
        key := PropRomsvar5; newKeys := Add(newKeys, key);
      }
      NewKeysByAdds();
      keys := newKeys;
    }

    /** getNewMapValues: fills the default map on an empty map only, so every call returns the same defaults. */
    method GetNewMapValues() returns (values: map<string, Value>)
      requires ValuesValid()
      modifies this`newMapValues
      ensures ValuesValid()
      ensures values == newMapValues == NewDefaults
      ensures old(newMapValues) != map[] ==> newMapValues == old(newMapValues)
    {
      if newMapValues == map[] {
        newMapValues := newMapValues[PropAttached := BoolValue(false)];
        newMapValues := newMapValues[PropSize := DoubleValue(0.0)];
        newMapValues := newMapValues[PropWeight := DoubleValue(0.0)];
        newMapValues := newMapValues[PropTemperature := DoubleValue(-1.0)];
        newMapValues := newMapValues[PropSalinity := DoubleValue(-1.0)];
        newMapValues := newMapValues[PropBathymetry := DoubleValue(-1.0)];
        newMapValues := newMapValues[PropRomsvar1 := DoubleValue(-1.0)];
        newMapValues := newMapValues[PropRomsvar2 := DoubleValue(-1.0)];
        newMapValues := newMapValues[PropRomsvar3 := DoubleValue(-1.0)];
        newMapValues := newMapValues[PropRomsvar4 := DoubleValue(-1.0)];
        newMapValues := newMapValues[PropRomsvar5 := DoubleValue(-1.0)];
      }
      values := newMapValues;
    }
  }
}
