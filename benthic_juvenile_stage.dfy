/**
 * BenthicJuvenileStage: one benthic juvenile agent (or super-individual)
 * with its attributes object, its parameter values and the state its time
 * step changes. The ocean interpolator, Math.exp, the growth and mortality
 * functions and the life-stage factory appear as inputs.
 */
module BenthicJuvenile {
  import opened Wrappers
  import opened AttributeValues
  import opened NewAttributes
  import opened AttributeRows
  import opened AttributeSchema
  import opened POPAttributes
  import opened BenthicJuvenileAttributes
  import opened BenthicJuvenileRules

  /**
   * A BenthicJuvenileStageParameters object: the value of each parameter
   * the stage reads (None when the object has none for that key) and the
   * selected growth and mortality functions.
   */
  datatype StageParameters = StageParameters(
    isSuperIndividual: Option<bool>, horizRWP: Option<real>, initialSize: Option<real>,
    initialWeight: Option<real>, minStageDuration: Option<real>, maxStageDuration: Option<real>,
    minSize: Option<real>, randomizeTransitions: Option<bool>,
    growth: GrowthFunction, mortality: MortalityFunction)

  /** params.getValue(key, default). */
  function ParamOr<T>(o: Option<T>, default: T): T
  {
    if o.Some? then o.value else default
  }

  /** The instance fields that hold parameter values. */
  datatype Settings = Settings(isSuperIndividual: bool, horizRWP: real, initialSize: real, initialWeight: real,
                               minStageDuration: real, maxStageDuration: real, minSize: real,
                               randomizeTransitions: bool)

  /**
   * setParameterValues: each field takes the parameter's value, keeping
   * its current value when there is none, except randomizeTransitions,
   * which defaults to true.
   */
  function SettingsFrom(p: StageParameters, current: Settings): Settings
  {
    Settings(ParamOr(p.isSuperIndividual, current.isSuperIndividual), ParamOr(p.horizRWP, current.horizRWP),
             ParamOr(p.initialSize, current.initialSize), ParamOr(p.initialWeight, current.initialWeight),
             ParamOr(p.minStageDuration, current.minStageDuration), ParamOr(p.maxStageDuration, current.maxStageDuration),
             ParamOr(p.minSize, current.minSize), ParamOr(p.randomizeTransitions, true))
  }

  /**
   * The instance fields kept in step with the attributes object by
   * updateAttributes and updateVariables. The part kept by the framework
   * class AbstractLHS (start time, time, active, alive, age, age in stage
   * and number) is taken to be stored under the standard keys.
   */
  datatype Variables = Variables(startTime: real, time: real, active: bool, alive: bool, age: real,
                                 ageInStage: real, number: real, size: real, weight: real, env: Env)

  /** updateVariables: each field takes its attribute value, keeping its current value when there is none. */
  function ReadVariables(m: map<string, Value>, v: Variables): Variables
  {
    Variables(RealOr(m, StartTimeKey, v.startTime), RealOr(m, TimeKey, v.time),
              BoolOr(m, ActiveKey, v.active), BoolOr(m, AliveKey, v.alive),
              RealOr(m, AgeKey, v.age), RealOr(m, AgeInStageKey, v.ageInStage), RealOr(m, NumberKey, v.number),
              RealOr(m, PropSize, v.size), RealOr(m, PropWeight, v.weight),
              Env(RealOr(m, PropTemperature, v.env.temperature), RealOr(m, PropSalinity, v.env.salinity),
                  RealOr(m, PropBathymetry, v.env.bathymetry),
                  RealOr(m, PropRomsvar1, v.env.romsvar1), RealOr(m, PropRomsvar2, v.env.romsvar2),
                  RealOr(m, PropRomsvar3, v.env.romsvar3), RealOr(m, PropRomsvar4, v.env.romsvar4),
                  RealOr(m, PropRomsvar5, v.env.romsvar5)))
  }

  /** updateAttributes: the values it stores, one per field. */
  function WrittenVariables(v: Variables): map<string, Value>
  {
    map[StartTimeKey := DoubleValue(v.startTime), TimeKey := DoubleValue(v.time),
        ActiveKey := BoolValue(v.active), AliveKey := BoolValue(v.alive),
        AgeKey := DoubleValue(v.age), AgeInStageKey := DoubleValue(v.ageInStage), NumberKey := DoubleValue(v.number),
        PropSize := DoubleValue(v.size), PropWeight := DoubleValue(v.weight),
        PropSalinity := DoubleValue(v.env.salinity), PropTemperature := DoubleValue(v.env.temperature),
        PropBathymetry := DoubleValue(v.env.bathymetry),
        PropRomsvar1 := DoubleValue(v.env.romsvar1), PropRomsvar2 := DoubleValue(v.env.romsvar2),
        PropRomsvar3 := DoubleValue(v.env.romsvar3), PropRomsvar4 := DoubleValue(v.env.romsvar4),
        PropRomsvar5 := DoubleValue(v.env.romsvar5)]
  }

  /**
   * updateVariables right after updateAttributes changes nothing: the
   * fields read back exactly what was stored.
   */
  lemma ReadWrittenVariables(m: map<string, Value>, v: Variables, current: Variables)
    ensures ReadVariables(m + WrittenVariables(v), current) == v
  {
    ReadWrittenLife(m, v, current);
    ReadWrittenGrowth(m, v, current);
    ReadWrittenEnv(m, v, current);
  }

  /** The clock and life fields read back after updateAttributes. */
  lemma ReadWrittenLife(m: map<string, Value>, v: Variables, current: Variables)
    ensures var r := ReadVariables(m + WrittenVariables(v), current);
      r.startTime == v.startTime && r.time == v.time && r.active == v.active && r.alive == v.alive
  {
    var w := m + WrittenVariables(v);
    assert w[StartTimeKey] == DoubleValue(v.startTime) && w[TimeKey] == DoubleValue(v.time);
    assert w[ActiveKey] == BoolValue(v.active) && w[AliveKey] == BoolValue(v.alive);
  }

  /** The age, number and growth fields read back after updateAttributes. */
  lemma ReadWrittenGrowth(m: map<string, Value>, v: Variables, current: Variables)
    ensures var r := ReadVariables(m + WrittenVariables(v), current);
      r.age == v.age && r.ageInStage == v.ageInStage && r.number == v.number && r.size == v.size && r.weight == v.weight
  {
    var w := m + WrittenVariables(v);
    assert w[AgeKey] == DoubleValue(v.age) && w[AgeInStageKey] == DoubleValue(v.ageInStage);
    assert w[NumberKey] == DoubleValue(v.number) && w[PropSize] == DoubleValue(v.size);
    assert w[PropWeight] == DoubleValue(v.weight);
  }

  /** The environment fields read back after updateAttributes. */
  lemma ReadWrittenEnv(m: map<string, Value>, v: Variables, current: Variables)
    ensures ReadVariables(m + WrittenVariables(v), current).env == v.env
  {
    var w := m + WrittenVariables(v);
    assert w[PropTemperature] == DoubleValue(v.env.temperature);
    assert w[PropSalinity] == DoubleValue(v.env.salinity) && w[PropBathymetry] == DoubleValue(v.env.bathymetry);
    assert w[PropRomsvar1] == DoubleValue(v.env.romsvar1) && w[PropRomsvar2] == DoubleValue(v.env.romsvar2);
    assert w[PropRomsvar3] == DoubleValue(v.env.romsvar3) && w[PropRomsvar4] == DoubleValue(v.env.romsvar4);
    assert w[PropRomsvar5] == DoubleValue(v.env.romsvar5);
  }

  /** Two value maps agree on the given keys: the same presence and the same values. */
  ghost predicate AgreeOn(m1: map<string, Value>, m2: map<string, Value>, keys: set<string>)
  {
    forall k :: k in keys ==> (k in m1 <==> k in m2) && (k in m1 ==> m1[k] == m2[k])
  }

  /** The three lineage keys. */
  const LineageKeys: set<string> := {IdKey, ParentIdKey, OrigIdKey}

  /** The resets setInfoFromIndividual and setInfoFromSuperIndividual end with. */
  function Revived(m: map<string, Value>): map<string, Value>
  {
    m[AgeInStageKey := DoubleValue(0.0)][ActiveKey := BoolValue(true)][AliveKey := BoolValue(true)]
  }

  /** Reading the fields back after the resets: age in stage 0, active and alive. */
  lemma ReadRevived(m: map<string, Value>, v: Variables)
    ensures var r := ReadVariables(Revived(m), v);
      r.ageInStage == 0.0 && r.active && r.alive
  {
  }

  /**
   * What setInfoFromSuperIndividual stores over the copied values: the
   * agent's own id, the old agent's id as parentID and the handed-over
   * number, then the resets.
   */
  function HandedOver(m: map<string, Value>, ownId: int, parentId: Value, handedOver: real): map<string, Value>
  {
    Revived(m[IdKey := LongValue(ownId)][ParentIdKey := parentId][NumberKey := DoubleValue(handedOver)])
  }

  /** Reading the fields back after the hand-over: that number, age in stage 0, active and alive. */
  lemma ReadHandedOver(m: map<string, Value>, ownId: int, parentId: Value, handedOver: real, v: Variables)
    ensures var r := ReadVariables(HandedOver(m, ownId, parentId, handedOver), v);
      r.number == handedOver && r.ageInStage == 0.0 && r.active && r.alive
  {
  }

  /** The hand-over keeps the copied origID. */
  lemma HandedOverKeepsOrigin(m: map<string, Value>, src: map<string, Value>, keys: seq<string>,
                              ownId: int, parentId: Value, handedOver: real)
    requires forall k :: k in keys ==> k in src
    ensures OrigIdKey in keys ==> HandedOver(m + Restrict(src, keys), ownId, parentId, handedOver)[OrigIdKey] == src[OrigIdKey]
  {
  }

  /** The resets leave the stored id alone. */
  lemma RevivedKeepsId(m: map<string, Value>, default: int)
    ensures LongOr(Revived(m), IdKey, default) == LongOr(m, IdKey, default)
  {
  }

  /** Copying the given keys of src and then the resets keep src's value of every lineage key copied. */
  lemma RevivedKeepsLineage(m: map<string, Value>, src: map<string, Value>, keys: seq<string>)
    requires forall k :: k in keys ==> k in src
    ensures forall k :: k in LineageKeys && k in keys ==> Revived(m + Restrict(src, keys))[k] == src[k]
  {
  }

  /** Placing the particle and storing the fields leave the lineage keys alone. */
  lemma PlacedKeepsLineage(m: map<string, Value>, v: Variables)
    ensures AgreeOn(m[HorizTypeKey := IntValue(HorizLL)][VertTypeKey := IntValue(VertH)] + WrittenVariables(v), m, LineageKeys)
  {
    var placed := m[HorizTypeKey := IntValue(HorizLL)][VertTypeKey := IntValue(VertH)];
    var w := WrittenVariables(v);
    LineageNotWritten(v);
    forall k | k in LineageKeys
      ensures (k in placed + w <==> k in m) && (k in placed + w ==> (placed + w)[k] == m[k])
    {
      assert k != HorizTypeKey && k != VertTypeKey && k !in w;
    }
  }

  /** updateAttributes stores none of the lineage keys. */
  lemma LineageNotWritten(v: Variables)
    ensures forall k :: k in LineageKeys ==> k !in WrittenVariables(v)
  {
    var w := WrittenVariables(v);
    assert IdKey !in w && ParentIdKey !in w && OrigIdKey !in w;
  }

  /** The initial values Java gives the parameter fields, which have no initializer. */
  const InitialSettings: Settings := Settings(false, 0.0, 0.0, 0.0, 0.0, 0.0, 0.0, false)

  /**
   * The attributes the constructor creates: a fresh benthic juvenile
   * instance whose id, parentID and origID are all the new id.
   */
  method NewStageAttributes(statics: AttributeStatics, typeName: string, newId: int) returns (a: StageAttributes)
    requires statics.Valid() && statics.registry.ValuesValid() && IsPOPLayout(statics.layout)
    modifies statics`allKeys, statics`kinds, statics.aKeys, statics.registry
    ensures fresh(a) && a.Valid() && a.Complete() && IsBenthicJuvenileAttributes(a)
    ensures a.statics == statics && a.typeName == typeName
    ensures a.mapValues == Defaults(statics.layout)[IdKey := LongValue(newId)][ParentIdKey := LongValue(newId)]
                                                   [OrigIdKey := LongValue(newId)]
    ensures old(statics.kinds) != map[] && old(statics.registry.newMapValues) != map[] ==>
      unchanged(statics`allKeys, statics`kinds, statics.aKeys, statics.registry)
  {
    a := NewBenthicJuvenileAttributes(statics, typeName);
    SetLineageIds(a, newId);
  }

  /** The constructor's three setValue calls: id, parentID and origID all get the new id. */
  method SetLineageIds(a: StageAttributes, newId: int)
    requires a.Valid() && a.Complete()
    modifies a`mapValues
    ensures a.Valid() && a.Complete()
    ensures a.mapValues == old(a.mapValues)[IdKey := LongValue(newId)][ParentIdKey := LongValue(newId)]
                                           [OrigIdKey := LongValue(newId)]
  {
    a.SetValue(IdKey, LongValue(newId));
    a.SetValue(ParentIdKey, LongValue(newId));
    a.SetValue(OrigIdKey, LongValue(newId));
  }

  /**
   * new BenthicJuvenileStage(typeName): the framework gives the id (newId)
   * and the inherited fields (inherited); a fresh attributes object gets
   * the id as id, parentID and origID; then the stage is built around it.
   */
  method NewStage(typeName: string, newId: int, inherited: Variables, statics: AttributeStatics,
                  newParams: Option<StageParameters>) returns (s: BenthicJuvenileStage)
    requires statics.Valid() && statics.registry.ValuesValid() && IsPOPLayout(statics.layout)
    modifies statics`allKeys, statics`kinds, statics.aKeys, statics.registry
    ensures fresh(s) && s.Valid() && s.atts.Complete() && fresh(s.atts) && s.atts.statics == statics && s.atts.typeName == typeName
    ensures s.typeName == typeName && s.id == newId && s.numTrans == Num(0.0) && s.output == []
    ensures s.vars == inherited.(size := 0.0, weight := 0.0, env := Env(0.0, 0.0, 0.0, 0.0, 0.0, 0.0, 0.0, 0.0))
    ensures s.atts.mapValues == Defaults(statics.layout)[IdKey := LongValue(newId)][ParentIdKey := LongValue(newId)]
                                                        [OrigIdKey := LongValue(newId)]
    ensures newParams.Some? ==> s.params == newParams && s.settings == SettingsFrom(newParams.value, InitialSettings)
                                && s.fcnGrowth == newParams.value.growth && s.fcnMort == newParams.value.mortality
    ensures newParams.None? ==> s.params == None && s.settings == InitialSettings
                                && s.fcnGrowth == OtherGrowth && s.fcnMort == OtherMortality
    ensures old(statics.kinds) != map[] && old(statics.registry.newMapValues) != map[] ==>
      unchanged(statics`allKeys, statics`kinds, statics.aKeys, statics.registry)
  {
    var a := NewStageAttributes(statics, typeName, newId);
    s := new BenthicJuvenileStage(typeName, newId, inherited, a, newParams);
  }

  /**
   * The agent createInstance builds for benthic juvenile attributes with
   * the given type name, values and keys: a new agent, which takes the
   * values, settles its ids as CreatedLineageAsWritten says and is
   * initialized.
   */
  method NewStageFrom(typeName: string, values: map<string, Value>, keys: seq<string>, newId: int, inherited: Variables,
                      statics: AttributeStatics, newParams: Option<StageParameters>, i3d: Option<Ocean>)
    returns (lhs: BenthicJuvenileStage)
    requires statics.Valid() && statics.registry.ValuesValid() && IsPOPLayout(statics.layout)
    requires statics.kinds != map[] && statics.registry.newMapValues != map[]
    requires forall k :: k in keys ==> k in values
    modifies statics`allKeys, statics`kinds, statics.aKeys, statics.registry
    ensures fresh(lhs) && fresh(lhs.atts) && lhs.typeName == typeName && lhs.atts.statics == statics
    ensures lhs.atts.stageClass == BenthicJuvenileClass && lhs.stageTransRate == 0.0
    ensures unchanged(statics`allKeys, statics`kinds, statics.aKeys, statics.registry)
    ensures var created := Defaults(statics.layout)[IdKey := LongValue(newId)][ParentIdKey := LongValue(newId)]
                             [OrigIdKey := LongValue(newId)] + Restrict(values, keys);
      && lhs.id == CreatedLineageAsWritten(created, newId).id
      && AgreeOn(lhs.atts.mapValues, CreatedLineageAsWritten(created, newId).values, LineageKeys)
  {
    lhs := NewStage(typeName, newId, inherited, statics, newParams);
    lhs.TakeCreated(values, keys, i3d);
  }

  class BenthicJuvenileStage {
    /** The life stage's type name. */
    const typeName: string
    /** The BenthicJuvenileStageAttributes object. */
    const atts: StageAttributes
    /** The parameters object, if one was set. */
    var params: Option<StageParameters>

    var id: int
    /**
     * The fields kept in step with the attributes (start time, time,
     * active, alive, age, age in stage, number, size, weight and the
     * sampled environment), held as one record.
     */
    var vars: Variables
    var attached: bool
    /** The transition pool of a super-individual. */
    var numTrans: Dbl
    /** The Lagrangian particle's grid position. */
    var pos: Pos
    var loc: Location
    /** The list getMetamorphosedIndividuals returns. */
    var output: seq<object>
    /** The fields that hold parameter values, held as one record. */
    var settings: Settings
    /** Declared and read but never assigned, so it keeps its initial 0. */
    var stageTransRate: real
    var fcnGrowth: GrowthFunction
    var fcnMort: MortalityFunction

    /** The attributes are benthic juvenile attributes with filled statics; stageTransRate is 0. */
    ghost predicate Valid()
      reads this`stageTransRate, atts.statics`allKeys, atts.statics`kinds, atts.statics.aKeys,
        atts.statics.registry`newKeys, atts.statics.registry`newMapValues
    {
      && atts.Valid() && IsBenthicJuvenileAttributes(atts)
      && stageTransRate == 0.0
    }

    /**
     * The fields the constructor sets around the attributes object a it
     * created: its id, size, weight and the environment at 0, the parameter
     * fields at Java's initial values; then the parameters are set.
     */
    constructor (typeName: string, newId: int, inherited: Variables, a: StageAttributes,
                 newParams: Option<StageParameters>)
      requires a.Valid() && IsBenthicJuvenileAttributes(a)
      ensures Valid() && atts == a
      ensures this.typeName == typeName && id == newId && numTrans == Num(0.0) && output == []
      ensures vars == inherited.(size := 0.0, weight := 0.0, env := Env(0.0, 0.0, 0.0, 0.0, 0.0, 0.0, 0.0, 0.0))
      ensures newParams.Some? ==> params == newParams && settings == SettingsFrom(newParams.value, InitialSettings)
                                  && fcnGrowth == newParams.value.growth && fcnMort == newParams.value.mortality
      ensures newParams.None? ==> params == None && settings == InitialSettings
                                  && fcnGrowth == OtherGrowth && fcnMort == OtherMortality
    {
      this.typeName := typeName;
      atts := a;
      params := None;
      id := newId;
      vars := inherited.(size := 0.0, weight := 0.0, env := Env(0.0, 0.0, 0.0, 0.0, 0.0, 0.0, 0.0, 0.0));
      numTrans := Num(0.0);
      output := [];
      settings := InitialSettings;
      stageTransRate := 0.0;
      fcnGrowth := OtherGrowth;
      fcnMort := OtherMortality;
      new;
      SetParameters(newParams);
    }

    /** setParameters: only a benthic juvenile parameters object is taken; anything else is ignored. */
    method SetParameters(newParams: Option<StageParameters>)
      modifies this`params, this`settings, this`fcnGrowth, this`fcnMort
      ensures newParams.None? ==> params == old(params) && settings == old(settings)
                                  && fcnGrowth == old(fcnGrowth) && fcnMort == old(fcnMort)
      ensures newParams.Some? ==>
        && params == newParams
        && settings == SettingsFrom(newParams.value, old(settings))
        && fcnGrowth == newParams.value.growth && fcnMort == newParams.value.mortality
    {
      if newParams.Some? {
        params := newParams;
        SetParameterValues();
        SetIBMFunctions();
      }
    }

    /** setIBMFunctions: the growth and mortality functions selected in the parameters. */
    method SetIBMFunctions()
      requires params.Some?
      modifies this`fcnGrowth, this`fcnMort
      ensures fcnGrowth == params.value.growth && fcnMort == params.value.mortality
    {
      fcnGrowth := params.value.growth;
      fcnMort := params.value.mortality;
    }

    /** setParameterValues: the parameter values, with the current values (and true) as defaults. */
    method SetParameterValues()
      requires params.Some?
      modifies this`settings
      ensures settings == SettingsFrom(params.value, old(settings))
    {
      var p := params.value;
      var s := settings;
      s := s.(isSuperIndividual := ParamOr(p.isSuperIndividual, s.isSuperIndividual));
      s := s.(horizRWP := ParamOr(p.horizRWP, s.horizRWP));
      s := s.(initialSize := ParamOr(p.initialSize, s.initialSize));
      s := s.(initialWeight := ParamOr(p.initialWeight, s.initialWeight));
      s := s.(minStageDuration := ParamOr(p.minStageDuration, s.minStageDuration));
      s := s.(maxStageDuration := ParamOr(p.maxStageDuration, s.maxStageDuration));
      s := s.(minSize := ParamOr(p.minSize, s.minSize));
      s := s.(randomizeTransitions := ParamOr(p.randomizeTransitions, true));
      settings := s;
    }

    /** updateAttributes: every kept field is stored in the attributes. */
    method UpdateAttributes()
      modifies atts`mapValues
      ensures atts.mapValues == old(atts.mapValues) + WrittenVariables(vars)
    {
      atts.mapValues := atts.mapValues + WrittenVariables(vars);
    }

    /** updateVariables: every kept field is read back from the attributes. */
    method UpdateVariables()
      modifies this`vars
      ensures vars == ReadVariables(atts.mapValues, old(vars))
    {
      var m := atts.mapValues;
      var v := vars;
      v := v.(startTime := RealOr(m, StartTimeKey, v.startTime), time := RealOr(m, TimeKey, v.time));
      v := v.(active := BoolOr(m, ActiveKey, v.active), alive := BoolOr(m, AliveKey, v.alive));
      v := v.(age := RealOr(m, AgeKey, v.age), ageInStage := RealOr(m, AgeInStageKey, v.ageInStage));
      v := v.(number := RealOr(m, NumberKey, v.number));
      v := v.(size := RealOr(m, PropSize, v.size), weight := RealOr(m, PropWeight, v.weight));
      v := v.(env := v.env.(temperature := RealOr(m, PropTemperature, v.env.temperature),
                            salinity := RealOr(m, PropSalinity, v.env.salinity),
                            bathymetry := RealOr(m, PropBathymetry, v.env.bathymetry)));
      v := v.(env := v.env.(romsvar1 := RealOr(m, PropRomsvar1, v.env.romsvar1),
                            romsvar2 := RealOr(m, PropRomsvar2, v.env.romsvar2),
                            romsvar3 := RealOr(m, PropRomsvar3, v.env.romsvar3),
                            romsvar4 := RealOr(m, PropRomsvar4, v.env.romsvar4),
                            romsvar5 := RealOr(m, PropRomsvar5, v.env.romsvar5)));
      vars := v;
    }

    /** setStartTime: start time and time, in the fields and in the attributes. */
    method SetStartTime(newTime: real)
      modifies this`vars, atts`mapValues
      ensures vars == old(vars).(startTime := newTime, time := newTime)
      ensures atts.mapValues == old(atts.mapValues)[StartTimeKey := DoubleValue(newTime)][TimeKey := DoubleValue(newTime)]
    {
      vars := vars.(startTime := newTime);
      vars := vars.(time := vars.startTime);
      atts.SetValue(StartTimeKey, DoubleValue(vars.startTime));
      atts.SetValue(TimeKey, DoubleValue(vars.time));
    }

    /** setActive: the field and the attribute. */
    method SetActive(b: bool)
      modifies this`vars, atts`mapValues
      ensures vars == old(vars).(active := b)
      ensures atts.mapValues == old(atts.mapValues)[ActiveKey := BoolValue(b)]
    {
      vars := vars.(active := b);
      atts.SetValue(ActiveKey, BoolValue(b));
    }

    /** setAlive: the field and the attribute. */
    method SetAlive(b: bool)
      modifies this`vars, atts`mapValues
      ensures vars == old(vars).(alive := b)
      ensures atts.mapValues == old(atts.mapValues)[AliveKey := BoolValue(b)]
    {
      vars := vars.(alive := b);
      atts.SetValue(AliveKey, BoolValue(b));
    }

    /**
     * The state initialize leaves, given the attribute values m, the kept
     * fields v, the position p and the location l it started from: the
     * fields are read from m and time is the start time; the pool is
     * empty; with an ocean, the particle is placed from the stored
     * horizontal and vertical types and positions, the location and
     * environment are sampled there, the position types become
     * HORIZ_LL and VERT_H and the fields are stored; without one nothing
     * else changes.
     */
    ghost predicate Initialized(m: map<string, Value>, v: Variables, p: Pos, l: Location, i3d: Option<Ocean>)
      reads this, atts
    {
      var read := ReadVariables(m, v);
      && numTrans == Num(0.0)
      && (i3d.None? ==>
            && vars == read.(time := read.startTime)
            && pos == p && loc == l && atts.mapValues == m)
      && (i3d.Some? ==>
            && pos == InitialPos(i3d.value, IntOr(m, HorizTypeKey, -1), IntOr(m, VertTypeKey, -1),
                                 RealOr(m, HorizPos1Key, 0.0), RealOr(m, HorizPos2Key, 0.0), RealOr(m, VertPosKey, 0.0))
            && loc == LocationAt(i3d.value, pos)
            && vars == read.(time := read.startTime, env := EnvAt(i3d.value, pos))
            && atts.mapValues == m[HorizTypeKey := IntValue(HorizLL)][VertTypeKey := IntValue(VertH)] + WrittenVariables(vars))
    }

    /** initialize: see Initialized. */
    method Initialize(i3d: Option<Ocean>)
      modifies this`vars, this`numTrans, this`pos, this`loc, atts`mapValues
      ensures Initialized(old(atts.mapValues), old(vars), old(pos), old(loc), i3d)
      ensures AgreeOn(atts.mapValues, old(atts.mapValues), LineageKeys)
    {
      UpdateVariables();
      vars := vars.(time := vars.startTime);
      numTrans := Num(0.0);
      if i3d.Some? {
        PlaceIn(i3d.value);
      }
    }

    /**
     * The part of initialize that needs the grid: the initial position from
     * the position attributes, the horizontal and vertical position types
     * set to latitude/longitude and height above bottom, the location and
     * environment there, and every kept field stored.
     */
    method PlaceIn(o: Ocean)
      modifies this`vars, this`pos, this`loc, atts`mapValues
      ensures var m := old(atts.mapValues);
        && pos == InitialPos(o, IntOr(m, HorizTypeKey, -1), IntOr(m, VertTypeKey, -1),
                             RealOr(m, HorizPos1Key, 0.0), RealOr(m, HorizPos2Key, 0.0), RealOr(m, VertPosKey, 0.0))
        && loc == LocationAt(o, pos)
        && vars == old(vars).(env := EnvAt(o, pos))
        && atts.mapValues == m[HorizTypeKey := IntValue(HorizLL)][VertTypeKey := IntValue(VertH)] + WrittenVariables(vars)
      ensures AgreeOn(atts.mapValues, old(atts.mapValues), LineageKeys)
    {
      var hType := IntOr(atts.mapValues, HorizTypeKey, -1);
      var vType := IntOr(atts.mapValues, VertTypeKey, -1);
      var xPos := RealOr(atts.mapValues, HorizPos1Key, 0.0);
      var yPos := RealOr(atts.mapValues, HorizPos2Key, 0.0);
      var zPos := RealOr(atts.mapValues, VertPosKey, 0.0);
      var ij := InitialIJ(o, hType, xPos, yPos);
      var z := o.bathymetricDepth(ij.0, ij.1);
      var ssh := o.ssh(ij.0, ij.1);
      var k := InitialK(vType, zPos, z, ssh, o.n as real, (h: real) => o.kFromZ(ij.0, ij.1, h));
      pos := Pos(ij.0, ij.1, k);
      atts.SetValue(HorizTypeKey, IntValue(HorizLL));
      atts.SetValue(VertTypeKey, IntValue(VertH));
      UpdatePosition(o, pos);
      InterpolateEnvVars(o, pos);
      UpdateAttributes();
      PlacedKeepsLineage(old(atts.mapValues), vars);
    }

    /** updatePosition: the location sampled at a position. */
    method UpdatePosition(i3d: Ocean, p: Pos)
      modifies this`loc
      ensures loc == LocationAt(i3d, p)
    {
      loc := LocationAt(i3d, p);
    }

    /** interpolateEnvVars: the environment sampled at a position; no other kept field changes. */
    method InterpolateEnvVars(i3d: Ocean, p: Pos)
      modifies this`vars
      ensures vars == old(vars).(env := EnvAt(i3d, p))
    {
      vars := vars.(env := EnvAt(i3d, p));
    }

    /**
     * calcUV: the agent is always attached, so the velocity is zero
     * (the swimming speed is computed but not used).
     */
    method CalcUV(dt: real) returns (u: real, v: real)
      modifies this`attached
      ensures attached && u == 0.0 && v == 0.0
    {
      attached := true;
      u, v := 0.0, 0.0;
    }

    /**
     * updateNum: the mortality rate from the mortality function (at the
     * current temperature), decay factors from exp, and the abundance as
     * AbundanceAfter computes it; no other kept field changes.
     */
    method UpdateNum(dt: real, exp: real -> real)
      modifies this`vars, this`numTrans
      ensures var m := MortalityRate(fcnMort, vars.env.temperature);
        Abundance(vars.number, numTrans)
          == AbundanceAfter(Abundance(old(vars.number), old(numTrans)), vars.ageInStage >= settings.minStageDuration,
                            m, stageTransRate, exp(DecayExponent(dt, m)), exp(DecayExponent(dt, m + stageTransRate)))
      ensures vars == old(vars).(number := vars.number)
    {
      var mortalityRate := MortalityRate(fcnMort, vars.env.temperature);
      var totRate := mortalityRate;
      if vars.ageInStage >= settings.minStageDuration {
        totRate := totRate + stageTransRate;
        numTrans := TransitionPool(numTrans, exp(DecayExponent(dt, mortalityRate)), stageTransRate, totRate,
                                   vars.number, exp(DecayExponent(dt, totRate)));
      }
      vars := vars.(number := Decayed(vars.number, exp(DecayExponent(dt, totRate))));
    }

    /**
     * updateAge: both ages advance by dt in days; past maxStageDuration
     * the agent dies and stops; no other kept field changes.
     */
    method UpdateAge(dt: real)
      modifies this`vars
      ensures var ageInStage := old(vars).ageInStage + dt / DaySecs;
        vars == old(vars).(age := old(vars).age + dt / DaySecs, ageInStage := ageInStage,
                           alive := old(vars).alive && !(ageInStage > settings.maxStageDuration),
                           active := old(vars).active && !(ageInStage > settings.maxStageDuration))
    {
      vars := vars.(age := vars.age + dt / DaySecs);
      vars := vars.(ageInStage := vars.ageInStage + dt / DaySecs);
      if vars.ageInStage > settings.maxStageDuration {
        vars := vars.(alive := false, active := false);
      }
    }

    /** updateSize: the size the growth function gives; no other kept field changes. */
    method UpdateSize(dt: real)
      modifies this`vars
      ensures vars == old(vars).(size := GrowSize(fcnGrowth, old(vars).size, dt))
    {
      vars := vars.(size := GrowSize(fcnGrowth, vars.size, dt));
    }

    /**
     * step: the agent is pinned to the bottom (K = 0) at its horizontal
     * position, time advances by dt, the abundance decays (at the
     * temperature from before the step), the agent ages and grows, the
     * location and environment are sampled at the position the step
     * started from, an agent at the grid edge dies and stops, and the
     * fields are stored; start time and weight do not change.
     */
    method Step(dt: real, i3d: Ocean, exp: real -> real)
      modifies this`pos, this`attached, this`vars, this`numTrans, this`loc, atts`mapValues
      ensures attached && pos == Pos(old(pos).i, old(pos).j, 0.0)
      ensures vars.startTime == old(vars).startTime && vars.weight == old(vars).weight
      ensures vars.time == old(vars).time + dt
      ensures var m := MortalityRate(fcnMort, old(vars).env.temperature);
        Abundance(vars.number, numTrans)
          == AbundanceAfter(Abundance(old(vars).number, old(numTrans)), old(vars).ageInStage >= settings.minStageDuration,
                            m, stageTransRate, exp(DecayExponent(dt, m)), exp(DecayExponent(dt, m + stageTransRate)))
      ensures vars.age == old(vars).age + dt / DaySecs && vars.ageInStage == old(vars).ageInStage + dt / DaySecs
      ensures vars.size == GrowSize(fcnGrowth, old(vars).size, dt)
      ensures vars.env == EnvAt(i3d, old(pos))
      ensures var edge := i3d.atGridEdge(old(pos));
        && vars.alive == (old(vars).alive && !(vars.ageInStage > settings.maxStageDuration) && !edge)
        && vars.active == (old(vars).active && !(vars.ageInStage > settings.maxStageDuration) && !edge)
        && loc == (if edge then LocationAt(i3d, old(pos)).(gridCellID := i3d.gridCellID(old(pos)))
                   else LocationAt(i3d, old(pos)))
      ensures atts.mapValues == old(atts.mapValues) + WrittenVariables(vars)
    {
      var p := pos;
      var u, v := CalcUV(dt);
      if attached {
        pos := Pos(p.i, p.j, 0.0);
      }
      vars := vars.(time := vars.time + dt);
      DecayAndAge(dt, exp);
      GrowAndSample(dt, i3d, p);
      UpdateAttributes();
    }

    /** The first half of step's updates: updateNum, then updateAge. */
    method DecayAndAge(dt: real, exp: real -> real)
      modifies this`vars, this`numTrans
      ensures var m := MortalityRate(fcnMort, old(vars).env.temperature);
        Abundance(vars.number, numTrans)
          == AbundanceAfter(Abundance(old(vars).number, old(numTrans)), old(vars).ageInStage >= settings.minStageDuration,
                            m, stageTransRate, exp(DecayExponent(dt, m)), exp(DecayExponent(dt, m + stageTransRate)))
      ensures var ageInStage := old(vars).ageInStage + dt / DaySecs;
        vars == old(vars).(number := vars.number, age := old(vars).age + dt / DaySecs, ageInStage := ageInStage,
                           alive := old(vars).alive && !(ageInStage > settings.maxStageDuration),
                           active := old(vars).active && !(ageInStage > settings.maxStageDuration))
    {
      UpdateNum(dt, exp);
      UpdateAge(dt);
    }

    /**
     * The second half of step's updates at the position p: updatePosition,
     * updateSize, interpolateEnvVars and the grid-edge check.
     */
    method GrowAndSample(dt: real, i3d: Ocean, p: Pos)
      modifies this`vars, this`loc
      ensures var edge := i3d.atGridEdge(p);
        && vars == old(vars).(size := GrowSize(fcnGrowth, old(vars).size, dt), env := EnvAt(i3d, p),
                              alive := old(vars).alive && !edge, active := old(vars).active && !edge)
        && loc == (if edge then LocationAt(i3d, p).(gridCellID := i3d.gridCellID(p)) else LocationAt(i3d, p))
    {
      UpdatePosition(i3d, p);
      UpdateSize(dt);
      InterpolateEnvVars(i3d, p);
      if i3d.atGridEdge(p) {
        vars := vars.(alive := false, active := false);
        loc := loc.(gridCellID := i3d.gridCellID(p));
      }
    }

    /**
     * createMetamorphosedIndividuals: the factory's agents (None when the
     * factory throws; Some([]) when it returns null, which adds nothing to
     * the output but is a normal return). A super-individual hands over its pool and, once
     * the factory returns, empties it; an individual, once the factory
     * returns, dies and stops.
     */
    method CreateMetamorphosedIndividuals(created: Option<seq<object>>) returns (nLHSs: Option<seq<object>>)
      modifies this`numTrans, this`vars
      ensures nLHSs == created
      ensures numTrans == (if settings.isSuperIndividual && created.Some? then Num(0.0) else old(numTrans))
      ensures var dies := !settings.isSuperIndividual && created.Some?;
        vars == old(vars).(alive := old(vars).alive && !dies, active := old(vars).active && !dies)
    {
      nLHSs := created;
      if created.Some? {
        if settings.isSuperIndividual {
          numTrans := Num(0.0);
        } else {
          vars := vars.(alive := false, active := false);
        }
      }
    }

    /**
     * getMetamorphosedIndividuals: the output is cleared, then filled with
     * the factory's agents when the agent is eligible and is an individual
     * or has a positive pool. A factory returning null is Some([]): the
     * pool is reset, or the individual dies, and nothing is added.
     */
    method GetMetamorphosedIndividuals(dt: real, created: Option<seq<object>>) returns (out: seq<object>)
      modifies this`output, this`numTrans, this`vars
      ensures var fires := Transitions(Eligible(vars.ageInStage, dt, settings.minStageDuration, vars.size, settings.minSize),
                                       old(numTrans), settings.isSuperIndividual);
        && out == output
        && output == (if fires && created.Some? then created.value else [])
        && numTrans == (if fires && settings.isSuperIndividual && created.Some? then Num(0.0) else old(numTrans))
        && var dies := fires && !settings.isSuperIndividual && created.Some?;
           vars == old(vars).(alive := old(vars).alive && !dies, active := old(vars).active && !dies)
      ensures settings.isSuperIndividual && !Positive(old(numTrans)) ==> output == [] && numTrans == old(numTrans)
    {
      var dtp := 0.25 * (dt / DaySecs);
      output := [];
      if vars.ageInStage + dtp >= settings.minStageDuration && vars.size >= settings.minSize {
        if Positive(numTrans) || !settings.isSuperIndividual {
          var nLHSs := CreateMetamorphosedIndividuals(created);
          if nLHSs.Some? {
            output := output + nLHSs.value;
          }
        }
      }
      out := output;
    }

    /**
     * setAttributes(LifeStageAttributesInterface): the value of every key
     * of the given attributes is copied, the id is taken from the result
     * and the fields are read back.
     */
    method SetAttributesFrom(newAtts: StageAttributes)
      requires newAtts.Valid() && newAtts.Complete()
      modifies atts`mapValues, this`id, this`vars
      ensures atts.mapValues == old(atts.mapValues) + Restrict(old(newAtts.mapValues), old(newAtts.GetKeys()))
      ensures id == LongOr(atts.mapValues, IdKey, old(id))
      ensures vars == ReadVariables(atts.mapValues, old(vars))
    {
      TakeValues(newAtts.mapValues, newAtts.GetKeys());
    }

    /** The copy setAttributes makes: the values of the given keys, the id from the result, the fields read back. */
    method TakeValues(source: map<string, Value>, keys: seq<string>)
      requires forall k :: k in keys ==> k in source
      modifies atts`mapValues, this`id, this`vars
      ensures atts.mapValues == old(atts.mapValues) + Restrict(source, keys)
      ensures id == LongOr(atts.mapValues, IdKey, old(id))
      ensures vars == ReadVariables(atts.mapValues, old(vars))
    {
      atts.StoreValues(source, keys);
      id := LongOr(atts.mapValues, IdKey, id);
      UpdateVariables();
    }

    /**
     * setAttributes(String[]): the row is parsed into the attributes (a
     * missing or bad field ends the call with that outcome); then the
     * lineage ids are settled as RowLineage says and the agent is
     * initialized.
     */
    method SetAttributesFromRow(strv: seq<string>, baseValues: map<string, Value>, codec: Codec, i3d: Option<Ocean>)
      returns (outcome: RowOutcome)
      requires Valid()
      modifies atts`mapValues, this`id, this`vars, this`numTrans, this`pos, this`loc
      ensures var parsed := ParseKeys(old(atts.mapValues) + baseValues, NewKeyOrder, atts.statics.kinds, strv,
                                      |atts.statics.layout.base.keys|, codec);
        && outcome == parsed.1
        && (outcome != Parsed ==>
              && atts.mapValues == parsed.0 && id == old(id) && vars == old(vars)
              && numTrans == old(numTrans) && pos == old(pos) && loc == old(loc))
        && (outcome == Parsed ==>
              && id == RowLineage(parsed.0, old(id)).id
              && Initialized(RowLineage(parsed.0, old(id)).values, old(vars), old(pos), old(loc), i3d))
    {
      POPKeys(atts);
      assert OwnKeys(atts.statics.layout) == NewKeyOrder;
      outcome := atts.SetValues(strv, baseValues, codec);
      if outcome != Parsed {
        return;
      }
      SettleAndInitialize(i3d);
    }

    /** What setAttributes(String[]) does after a complete parse: the ids settled as RowLineage says, then initialize. */
    method SettleAndInitialize(i3d: Option<Ocean>)
      modifies atts`mapValues, this`id, this`vars, this`numTrans, this`pos, this`loc
      ensures id == RowLineage(old(atts.mapValues), old(id)).id
      ensures Initialized(RowLineage(old(atts.mapValues), old(id)).values, old(vars), old(pos), old(loc), i3d)
    {
      SettleRowLineage();
      Initialize(i3d);
    }

    /** The id handling of setAttributes(String[]) after a complete parse, as RowLineage says. */
    method SettleRowLineage()
      modifies atts`mapValues, this`id
      ensures atts.mapValues == RowLineage(old(atts.mapValues), old(id)).values
      ensures id == RowLineage(old(atts.mapValues), old(id)).id
    {
      var aid := LongOr(atts.mapValues, IdKey, id);
      if aid == -1 {
        atts.SetValue(IdKey, LongValue(id));
      } else {
        id := aid;
      }
      aid := LongOr(atts.mapValues, ParentIdKey, id);
      if aid == -1 {
        atts.SetValue(ParentIdKey, LongValue(id));
      }
      aid := LongOr(atts.mapValues, OrigIdKey, id);
      if aid == -1 {
        atts.SetValue(OrigIdKey, LongValue(id));
      }
    }

    /**
     * The resets that end setInfoFromIndividual: age in stage 0, active
     * and alive stored, the id read from the attributes and the fields
     * read back.
     */
    method Revive()
      modifies atts`mapValues, this`id, this`vars
      ensures atts.mapValues == Revived(old(atts.mapValues))
      ensures id == LongOr(atts.mapValues, IdKey, old(id))
      ensures vars == ReadVariables(atts.mapValues, old(vars))
    {
      atts.SetValue(AgeInStageKey, DoubleValue(0.0));
      atts.SetValue(ActiveKey, BoolValue(true));
      atts.SetValue(AliveKey, BoolValue(true));
      id := LongOr(atts.mapValues, IdKey, id);
      UpdateVariables();
    }

    /**
     * The resets that end setInfoFromSuperIndividual: the agent's own id
     * (in the field and the attributes), the old agent's id as parentID,
     * the handed-over number, age in stage 0, active and alive; then the
     * fields are read back.
     */
    method HandOver(ownId: int, parentId: Value, handedOver: real)
      modifies atts`mapValues, this`id, this`vars
      ensures atts.mapValues == HandedOver(old(atts.mapValues), ownId, parentId, handedOver)
      ensures id == ownId
      ensures vars == ReadVariables(atts.mapValues, old(vars))
    {
      id := ownId;
      atts.SetValue(IdKey, LongValue(ownId));
      atts.SetValue(ParentIdKey, parentId);
      atts.SetValue(NumberKey, DoubleValue(handedOver));
      atts.SetValue(AgeInStageKey, DoubleValue(0.0));
      atts.SetValue(ActiveKey, BoolValue(true));
      atts.SetValue(AliveKey, BoolValue(true));
      UpdateVariables();
    }

    /**
     * setInfoFromIndividual: the old agent's attributes are copied, the
     * age in stage is reset and the agent is active and alive; the id,
     * parentID and origID stay those of the old agent.
     */
    method SetInfoFromIndividual(oldAtts: StageAttributes)
      requires oldAtts.Valid() && oldAtts.Complete()
      modifies atts`mapValues, this`id, this`vars
      ensures var copied := old(atts.mapValues) + Restrict(old(oldAtts.mapValues), old(oldAtts.GetKeys()));
        && atts.mapValues == Revived(copied)
        && id == LongOr(copied, IdKey, old(id))
        && vars == ReadVariables(atts.mapValues, ReadVariables(copied, old(vars)))
      ensures forall k :: k in LineageKeys && k in old(oldAtts.GetKeys()) ==> atts.mapValues[k] == old(oldAtts.mapValues)[k]
      ensures vars.ageInStage == 0.0 && vars.active && vars.alive
    {
      SetAttributesFrom(oldAtts);
      ghost var copied := atts.mapValues;
      ghost var copiedVars := vars;
      Revive();
      ReadRevived(copied, copiedVars);
      RevivedKeepsId(copied, old(id));
      RevivedKeepsLineage(old(atts.mapValues), old(oldAtts.mapValues), old(oldAtts.GetKeys()));
    }

    /**
     * setInfoFromSuperIndividual: the old agent's attributes are copied,
     * then the agent keeps its own id, its parentID becomes the old
     * agent's id and its number the handed-over pool; the age in stage is
     * reset and the agent is active and alive.
     */
    method SetInfoFromSuperIndividual(oldAtts: StageAttributes, handedOver: real)
      requires oldAtts.Valid() && oldAtts.Complete() && oldAtts != atts && IdKey in oldAtts.mapValues
      modifies atts`mapValues, this`id, this`vars
      ensures var copied := old(atts.mapValues) + Restrict(old(oldAtts.mapValues), old(oldAtts.GetKeys()));
        && atts.mapValues == HandedOver(copied, old(id), old(oldAtts.mapValues)[IdKey], handedOver)
        && vars == ReadVariables(atts.mapValues, ReadVariables(copied, old(vars)))
      ensures id == old(id)
      ensures OrigIdKey in old(oldAtts.GetKeys()) ==> atts.mapValues[OrigIdKey] == old(oldAtts.mapValues)[OrigIdKey]
      ensures vars.number == handedOver && vars.ageInStage == 0.0 && vars.active && vars.alive
    {
      var idc := id;
      SetAttributesFrom(oldAtts);
      ghost var copied := atts.mapValues;
      ghost var copiedVars := vars;
      HandOver(idc, oldAtts.mapValues[IdKey], handedOver);
      ReadHandedOver(copied, idc, old(oldAtts.mapValues)[IdKey], handedOver, copiedVars);
      HandedOverKeepsOrigin(old(atts.mapValues), old(oldAtts.mapValues), old(oldAtts.GetKeys()), idc,
                            old(oldAtts.mapValues)[IdKey], handedOver);
    }

    /**
     * createInstance(LifeStageAttributesInterface): for benthic juvenile
     * attributes, a new agent (with the framework's next id and the
     * parameters created for the type name) takes their values, settles
     * its ids as CreatedLineageAsWritten says and is initialized; for any
     * other attributes the source ends in a NullPointerException, here
     * null.
     */
    method CreateInstance(theAtts: StageAttributes, newId: int, inherited: Variables, newParams: Option<StageParameters>,
                          i3d: Option<Ocean>)
      returns (lhs: BenthicJuvenileStage?)
      requires Valid() && theAtts.Valid() && theAtts.Complete()
      modifies atts.statics`allKeys, atts.statics`kinds, atts.statics.aKeys, atts.statics.registry
      ensures Valid()
      ensures theAtts.stageClass != BenthicJuvenileClass ==> lhs == null
      ensures theAtts.stageClass == BenthicJuvenileClass ==>
        && lhs != null && fresh(lhs) && fresh(lhs.atts) && lhs.Valid()
        && lhs.typeName == theAtts.typeName && lhs.atts.statics == atts.statics
        && var created := Defaults(atts.statics.layout)[IdKey := LongValue(newId)][ParentIdKey := LongValue(newId)]
                              [OrigIdKey := LongValue(newId)] + Restrict(theAtts.mapValues, old(theAtts.GetKeys()));
           && lhs.id == CreatedLineageAsWritten(created, newId).id
           && AgreeOn(lhs.atts.mapValues, CreatedLineageAsWritten(created, newId).values, LineageKeys)
    {
      if theAtts.stageClass != BenthicJuvenileClass {
        return null;
      }
      atts.statics.FilledValid();
      assert PropAttached in NewDefaults;
      lhs := NewStageFrom(theAtts.typeName, theAtts.mapValues, theAtts.GetKeys(), newId, inherited, atts.statics,
                          newParams, i3d);
      FilledKept(atts.statics);
    }

    /**
     * The rest of createInstance on the new agent: the values are copied,
     * the ids settled as CreatedLineageAsWritten says and the agent
     * initialized.
     */
    method TakeCreated(values: map<string, Value>, keys: seq<string>, i3d: Option<Ocean>)
      requires forall k :: k in keys ==> k in values
      modifies atts`mapValues, this`id, this`vars, this`numTrans, this`pos, this`loc
      ensures var created := old(atts.mapValues) + Restrict(values, keys);
        && id == CreatedLineageAsWritten(created, old(id)).id
        && AgreeOn(atts.mapValues, CreatedLineageAsWritten(created, old(id)).values, LineageKeys)
    {
      var newID := id;
      TakeValues(values, keys);
      SettleCreatedLineage(newID);
      Initialize(i3d);
    }

    /**
     * The id handling of createInstance after the copy, as
     * CreatedLineageAsWritten says; the id is the copied one (newId when
     * none was copied).
     */
    method SettleCreatedLineage(newID: int)
      requires id == LongOr(atts.mapValues, IdKey, newID)
      modifies atts`mapValues, this`id
      ensures atts.mapValues == CreatedLineageAsWritten(old(atts.mapValues), newID).values
      ensures id == CreatedLineageAsWritten(old(atts.mapValues), newID).id
    {
      if LongOr(atts.mapValues, IdKey, id) == -1 {
        id := newID;
        atts.SetValue(IdKey, LongValue(newID));
      }
      if ParentIdKey in atts.mapValues && atts.mapValues[ParentIdKey] == LongValue(-1) {
        atts.SetValue(ParentIdKey, LongValue(-1));
      }
      if OrigIdKey in atts.mapValues && atts.mapValues[OrigIdKey] == LongValue(-1) {
        atts.SetValue(OrigIdKey, LongValue(-1));
      }
    }
  }
}
