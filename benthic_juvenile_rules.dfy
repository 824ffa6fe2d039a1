/**
 * The rules the benthic juvenile stage applies on each time step and when
 * agents are created: abundance bookkeeping, ageing, growth, the
 * metamorphosis decision, the choice of the initial vertical grid index and
 * the lineage ids written into a new agent's attributes. The stage class
 * is specified in terms of these functions.
 */
module BenthicJuvenileRules {
  import opened Wrappers
  import opened AttributeValues
  import opened NewAttributes

  /** Seconds per day (DAY_SECS of the framework). */
  const DaySecs: real := 86400.0

  /**
   * A Java double that may have become NaN. Doubles are modelled as reals;
   * NaN is kept only where the source produces it (0/0 in updateNum).
   */
  datatype Dbl = Num(v: real) | NaN

  /** The comparison x > 0 of a double: false for NaN. */
  predicate Positive(d: Dbl)
  {
    d.Num? && d.v > 0.0
  }

  /** The transition pool holds nothing: it is 0 or NaN. */
  predicate PoolEmpty(d: Dbl)
  {
    d.NaN? || d.v == 0.0
  }

  /** The facts of Math.exp the model relies on. */
  ghost predicate ExpLike(exp: real -> real)
  {
    && exp(0.0) == 1.0
    && (forall x :: exp(x) > 0.0)
    && (forall x :: x <= 0.0 ==> exp(x) <= 1.0)
  }

  /** Model of the mortality functions the stage recognises (fcnMort). */
  datatype MortalityFunction =
    | ConstantMortality(rate: real)
    | TemperatureMortality(rateAt: real -> real)
    | OtherMortality

  /** Model of the growth functions the stage recognises (fcnGrowth). */
  datatype GrowthFunction =
    | ExponentialGrowth(grow: (real, real) -> real)
    | LinearGrowth(grow: (real, real) -> real)
    | ConstantGrowth(rate: real)
    | OtherGrowth

  /**
   * The mortality rate of updateNum, per day: the constant function's
   * value, the temperature-dependent function at the current temperature,
   * and 0 for any other function or none.
   */
  function MortalityRate(f: MortalityFunction, temperature: real): real
  {
    match f
    case ConstantMortality(rate) => rate
    case TemperatureMortality(rateAt) => rateAt(temperature)
    case OtherMortality => 0.0
  }

  /**
   * updateSize: the exponential and linear functions compute the new
   * size from (dt in days, size); a constant function gives a daily rate
   * added over dt; any other function leaves the size as it is.
   */
  function GrowSize(f: GrowthFunction, size: real, dt: real): real
  {
    match f
    case ExponentialGrowth(grow) => grow(dt / DaySecs, size)
    case LinearGrowth(grow) => grow(dt / DaySecs, size)
    case ConstantGrowth(rate) => size + rate * dt / DaySecs
    case OtherGrowth => size
  }

  /**
   * What updateSize does to the size: an unrecognised function leaves it
   * as it is; constant growth at a non-negative rate over a non-negative
   * step never shrinks it, and leaves it unchanged exactly when the rate or
   * the step is 0.
   */
  lemma GrowthCases(f: GrowthFunction, size: real, dt: real)
    ensures f.OtherGrowth? ==> GrowSize(f, size, dt) == size
    ensures f.ConstantGrowth? && f.rate >= 0.0 && dt >= 0.0 ==> GrowSize(f, size, dt) >= size
    ensures f.ConstantGrowth? ==> (GrowSize(f, size, dt) == size <==> f.rate == 0.0 || dt == 0.0)
  {
    if f.ConstantGrowth? {
      var g := f.rate * dt;
      assert GrowSize(f, size, dt) == size + g / DaySecs;
      if f.rate >= 0.0 && dt >= 0.0 {
        NonNegativeProduct(f.rate, dt);
      }
      if f.rate != 0.0 && dt != 0.0 {
        assert g != 0.0;
      }
    }
  }

  /** The two abundance fields updateNum changes. */
  datatype Abundance = Abundance(number: real, numTrans: Dbl)

  /**
   * The new transition pool: the old pool decayed by mortality plus the
   * share stageTransRate / totRate of the individuals leaving number. With
   * totRate 0 the share is 0/0 (or x/0 times 0), so the pool becomes NaN;
   * a NaN pool stays NaN.
   */
  function TransitionPool(numTrans: Dbl, survival: real, stageTransRate: real, totRate: real,
                          number: real, decayTot: real): Dbl
  {
    if numTrans.NaN? || totRate == 0.0 then NaN
    else Num(numTrans.v * survival + (stageTransRate / totRate) * number * (1.0 - decayTot))
  }

  /**
   * updateNum: before minStageDuration only mortality acts and number
   * decays by the survival factor exp(-dt*m/DAY_SECS); from then on the
   * stage-transition rate s adds to the total rate, number decays by
   * exp(-dt*(m+s)/DAY_SECS) and the pool is fed.
   */
  function AbundanceAfter(a: Abundance, inWindow: bool, m: real, s: real, survival: real, decayTot: real): Abundance
  {
    if inWindow then
      Abundance(Decayed(a.number, decayTot), TransitionPool(a.numTrans, survival, s, m + s, a.number, decayTot))
    else
      Abundance(Decayed(a.number, survival), a.numTrans)
  }

  /** An amount after decay by a factor. */
  function Decayed(x: real, factor: real): real
  {
    x * factor
  }

  /** The exponent of a decay factor: -dt*rate/DAY_SECS, for dt in seconds and a rate per day. */
  function DecayExponent(dt: real, rate: real): real
  {
    -dt * rate / DaySecs
  }

  /** For a non-negative time step and rate, the decay factor exp(-dt*rate/DAY_SECS) lies in (0, 1]. */
  lemma DecayBounds(exp: real -> real, dt: real, rate: real)
    requires ExpLike(exp) && dt >= 0.0 && rate >= 0.0
    ensures 0.0 < exp(DecayExponent(dt, rate)) <= 1.0
  {
    assert dt * rate >= 0.0;
    assert DecayExponent(dt, rate) <= 0.0;
  }

  /** With no recognised mortality function the rate is 0, so the decay factor is exp(0) = 1. */
  lemma NoDecay(exp: real -> real, dt: real, temperature: real)
    requires ExpLike(exp)
    ensures MortalityRate(OtherMortality, temperature) == 0.0
    ensures exp(DecayExponent(dt, MortalityRate(OtherMortality, temperature))) == 1.0
  {
    assert DecayExponent(dt, 0.0) == 0.0;
  }

  /** Before minStageDuration the pool is untouched and number decays by mortality alone. */
  lemma AbundanceBeforeWindow(a: Abundance, m: real, s: real, survival: real, decayTot: real)
    ensures AbundanceAfter(a, false, m, s, survival, decayTot).numTrans == a.numTrans
    ensures AbundanceAfter(a, false, m, s, survival, decayTot).number == Decayed(a.number, survival)
  {
  }

  /** 0 <= x * f <= x for 0 <= x and 0 < f <= 1. */
  lemma ScaleDown(x: real, f: real)
    requires 0.0 <= x && 0.0 < f <= 1.0
    ensures 0.0 <= Decayed(x, f) <= x
  {
    assert x * f <= x * 1.0;
  }

  /**
   * With decay factors in (0, 1], non-negative rates and a positive total
   * rate in the transition window, number and the pool stay non-negative
   * and number never increases.
   */
  lemma AbundanceStaysNonNegative(a: Abundance, inWindow: bool, m: real, s: real, survival: real, decayTot: real)
    requires 0.0 < survival <= 1.0 && 0.0 < decayTot <= 1.0
    requires m >= 0.0 && s >= 0.0 && (inWindow ==> m + s > 0.0)
    requires a.number >= 0.0 && (a.numTrans.Num? ==> a.numTrans.v >= 0.0)
    ensures 0.0 <= AbundanceAfter(a, inWindow, m, s, survival, decayTot).number <= a.number
    ensures a.numTrans.Num? ==> AbundanceAfter(a, inWindow, m, s, survival, decayTot).numTrans.Num?
    ensures a.numTrans.Num? ==> AbundanceAfter(a, inWindow, m, s, survival, decayTot).numTrans.v >= 0.0
  {
    NumberDecays(a, inWindow, m, s, survival, decayTot);
    if inWindow && a.numTrans.Num? {
      PoolStaysNonNegative(a.numTrans.v, survival, s, m + s, a.number, decayTot);
      assert AbundanceAfter(a, inWindow, m, s, survival, decayTot).numTrans
          == TransitionPool(Num(a.numTrans.v), survival, s, m + s, a.number, decayTot);
    }
  }

  /** number decays by a factor in (0, 1], in either regime. */
  lemma NumberDecays(a: Abundance, inWindow: bool, m: real, s: real, survival: real, decayTot: real)
    requires 0.0 < survival <= 1.0 && 0.0 < decayTot <= 1.0 && a.number >= 0.0
    ensures 0.0 <= AbundanceAfter(a, inWindow, m, s, survival, decayTot).number <= a.number
  {
    if inWindow {
      ScaleDown(a.number, decayTot);
    } else {
      ScaleDown(a.number, survival);
    }
  }

  /** The pool fed from non-negative quantities is non-negative. */
  lemma PoolStaysNonNegative(pool: real, survival: real, s: real, tot: real, number: real, decayTot: real)
    requires pool >= 0.0 && survival > 0.0 && s >= 0.0 && tot > 0.0 && number >= 0.0 && decayTot <= 1.0
    ensures TransitionPool(Num(pool), survival, s, tot, number, decayTot).Num?
    ensures TransitionPool(Num(pool), survival, s, tot, number, decayTot).v >= 0.0
  {
    NonNegativeProduct(pool, survival);
    NonNegativeQuotient(s, tot);
    NonNegativeProduct(s / tot, number);
    NonNegativeProduct(s / tot * number, 1.0 - decayTot);
  }

  /** The quotient of a non-negative real by a positive one is non-negative. */
  lemma NonNegativeQuotient(x: real, y: real)
    requires x >= 0.0 && y > 0.0
    ensures x / y >= 0.0
  {
  }

  /** The product of two non-negative reals is non-negative. */
  lemma NonNegativeProduct(x: real, y: real)
    requires x >= 0.0 && y >= 0.0
    ensures x * y >= 0.0
  {
  }

  /** In the transition window with a total rate of 0 the pool becomes NaN (0/0). */
  lemma AbundanceZeroRatesNaN(a: Abundance, m: real, s: real, survival: real, decayTot: real)
    requires m + s == 0.0
    ensures AbundanceAfter(a, true, m, s, survival, decayTot).numTrans == NaN
  {
  }

  /**
   * Without mortality (survival factor 1), what leaves number enters the
   * pool: number plus the pool is conserved in the transition window.
   */
  lemma AbundanceConserved(a: Abundance, s: real, decayTot: real)
    requires s != 0.0 && a.numTrans.Num?
    ensures var r := AbundanceAfter(a, true, 0.0, s, 1.0, decayTot);
      r.numTrans.Num? && r.number + r.numTrans.v == a.number + a.numTrans.v
  {
    assert 0.0 + s == s;
    assert s / s == 1.0;
    calc {
      a.number * decayTot + (a.numTrans.v * 1.0 + (s / s) * a.number * (1.0 - decayTot));
      a.number * decayTot + a.numTrans.v + a.number * (1.0 - decayTot);
      a.number + a.numTrans.v;
    }
  }

  /**
   * With stageTransRate 0 (the stage never assigns it) an empty pool stays
   * empty: the pool is 0 after initialize and is never filled.
   */
  lemma PoolStaysEmpty(a: Abundance, inWindow: bool, m: real, survival: real, decayTot: real)
    requires PoolEmpty(a.numTrans)
    ensures PoolEmpty(AbundanceAfter(a, inWindow, m, 0.0, survival, decayTot).numTrans)
  {
    if inWindow && a.numTrans.Num? && m + 0.0 != 0.0 {
      assert a.numTrans.v * survival == 0.0;
      assert 0.0 / (m + 0.0) == 0.0;
    }
  }

  /**
   * The size and age test of getMetamorphosedIndividuals: the age in
   * stage a quarter of a time step ahead has reached minStageDuration and
   * the size has reached minSize.
   */
  predicate Eligible(ageInStage: real, dt: real, minStageDuration: real, size: real, minSize: real)
  {
    ageInStage + 0.25 * (dt / DaySecs) >= minStageDuration && size >= minSize
  }

  /** An eligible agent transitions when it is an ordinary individual or its pool is positive. */
  predicate Transitions(eligible: bool, numTrans: Dbl, isSuperIndividual: bool)
  {
    eligible && (Positive(numTrans) || !isSuperIndividual)
  }

  /**
   * Which agents transition: an ineligible one never does, an eligible
   * individual always does, and an eligible super-individual exactly when
   * its pool is positive (never when it is NaN).
   */
  lemma TransitionCases(eligible: bool, numTrans: Dbl, isSuperIndividual: bool)
    ensures !eligible ==> !Transitions(eligible, numTrans, isSuperIndividual)
    ensures eligible && !isSuperIndividual ==> Transitions(eligible, numTrans, isSuperIndividual)
    ensures isSuperIndividual ==> (Transitions(eligible, numTrans, isSuperIndividual) <==> eligible && numTrans.Num? && numTrans.v > 0.0)
    ensures numTrans == NaN && isSuperIndividual ==> !Transitions(eligible, numTrans, isSuperIndividual)
  {
  }

  /** A super-individual whose pool is not positive (numTrans <= 0, or NaN) never transitions. */
  lemma EmptyPoolNeverTransitions(eligible: bool, numTrans: Dbl)
    requires !Positive(numTrans)
    ensures !Transitions(eligible, numTrans, true)
  {
  }

  /** Codes of the framework's position types (Types is not part of this model; the values are distinct placeholders). */
  const HorizXY: int := 1
  const HorizLL: int := 2
  const VertK: int := 1
  const VertZ: int := 2
  const VertH: int := 3
  const VertDH: int := 4

  /** A grid position (I, J, K) of the Lagrangian particle. */
  datatype Pos = Pos(i: real, j: real, k: real)

  /**
   * The ocean-grid interpolator (i3d) as a set of oracles: horizontal
   * conversions to grid indices, bathymetric depth and sea-surface height
   * at (I, J), the number N of vertical layers, conversions between depth
   * and K, and the fields sampled at a position.
   */
  datatype Ocean = Ocean(
    ijFromXY: (real, real) -> (real, real),
    ijFromLL: (real, real) -> (real, real),
    bathymetricDepth: (real, real) -> real,
    ssh: (real, real) -> real,
    n: int,
    kFromZ: (real, real, real) -> real,
    zFromK: (real, real, real) -> real,
    lat: Pos -> real,
    lon: Pos -> real,
    temperature: Pos -> real,
    salinity: Pos -> real,
    value: (Pos, string) -> real,
    atGridEdge: Pos -> bool,
    gridCellID: Pos -> string)

  /**
   * The initial horizontal grid indices: converted from projected or
   * geographic coordinates (latitude is horizPos2), used as they are for
   * any other horizontal type.
   */
  function InitialIJ(o: Ocean, hType: int, xPos: real, yPos: real): (real, real)
  {
    if hType == HorizXY then o.ijFromXY(xPos, yPos)
    else if hType == HorizLL then o.ijFromLL(yPos, xPos)
    else (xPos, yPos)
  }

  /**
   * The initial vertical index K as initialize computes it from the
   * vertical type, the requested vertical position, the bathymetric depth
   * z, the sea-surface height and N; kAt converts a depth at the chosen
   * (I, J) to K.
   */
  function InitialK(vType: int, zPos: real, z: real, ssh: real, n: real, kAt: real -> real): real
  {
    if vType == VertK then
      if zPos < 0.0 then 0.0 else if zPos > n then n else zPos
    else if vType == VertZ then
      if zPos < -z then 0.0 else if zPos > ssh then n else kAt(zPos)
    else if vType == VertH then
      if zPos > z then 0.0 else if zPos < -ssh then n else kAt(-zPos)
    else if vType == VertDH then
      if zPos < 0.0 then 0.0 else if zPos > z + ssh then n else kAt(-(z - zPos))
    else 0.0
  }

  /**
   * The requested position as a height above mean sea level: a depth
   * (VERT_Z, negative downwards), a positive depth (VERT_H) or a distance
   * off the bottom (VERT_DH).
   */
  function Elevation(vType: int, zPos: real, z: real): real
  {
    if vType == VertZ then zPos else if vType == VertH then -zPos else zPos - z
  }

  /**
   * For the three depth conventions K is 0 below the bottom, N above the
   * surface and kAt of the height otherwise: the three branches of
   * initialize are one rule in different coordinates.
   */
  lemma InitialKByElevation(vType: int, zPos: real, z: real, ssh: real, n: real, kAt: real -> real)
    requires vType == VertZ || vType == VertH || vType == VertDH
    ensures var e := Elevation(vType, zPos, z);
      InitialK(vType, zPos, z, ssh, n, kAt) == if e < -z then 0.0 else if e > ssh then n else kAt(e)
  {
    if vType == VertDH {
      assert (zPos < 0.0) == (zPos - z < -z);
      assert (zPos > z + ssh) == (zPos - z > ssh);
      assert -(z - zPos) == zPos - z;
    }
  }

  /** For VERT_K the requested index is clamped to [0, N]; any other unknown type gives 0. */
  lemma InitialKIndex(vType: int, zPos: real, z: real, ssh: real, n: real, kAt: real -> real)
    requires n >= 0.0
    ensures vType == VertK ==> 0.0 <= InitialK(vType, zPos, z, ssh, n, kAt) <= n
    ensures vType == VertK && 0.0 <= zPos <= n ==> InitialK(vType, zPos, z, ssh, n, kAt) == zPos
    ensures vType !in {VertK, VertZ, VertH, VertDH} ==> InitialK(vType, zPos, z, ssh, n, kAt) == 0.0
  {
  }

  /** When kAt stays within [0, N], so does the initial K, whatever the vertical type. */
  lemma InitialKInGrid(vType: int, zPos: real, z: real, ssh: real, n: real, kAt: real -> real)
    requires n >= 0.0
    requires forall h :: 0.0 <= kAt(h) <= n
    ensures 0.0 <= InitialK(vType, zPos, z, ssh, n, kAt) <= n
  {
    if vType == VertZ {
      assert 0.0 <= kAt(zPos) <= n;
    } else if vType == VertH {
      assert 0.0 <= kAt(-zPos) <= n;
    } else if vType == VertDH {
      assert 0.0 <= kAt(-(z - zPos)) <= n;
    }
  }

  /** The initial grid position of initialize. */
  function InitialPos(o: Ocean, hType: int, vType: int, xPos: real, yPos: real, zPos: real): Pos
  {
    var ij := InitialIJ(o, hType, xPos, yPos);
    var z := o.bathymetricDepth(ij.0, ij.1);
    var ssh := o.ssh(ij.0, ij.1);
    Pos(ij.0, ij.1, InitialK(vType, zPos, z, ssh, o.n as real, (h: real) => o.kFromZ(ij.0, ij.1, h)))
  }

  /** The environmental fields the stage samples (interpolateEnvVars). */
  datatype Env = Env(temperature: real, salinity: real, bathymetry: real,
                     romsvar1: real, romsvar2: real, romsvar3: real, romsvar4: real, romsvar5: real)

  /** interpolateEnvVars at a position. */
  function EnvAt(o: Ocean, p: Pos): Env
  {
    Env(o.temperature(p), o.salinity(p), o.bathymetricDepth(p.i, p.j),
        o.value(p, PropRomsvar1), o.value(p, PropRomsvar2), o.value(p, PropRomsvar3),
        o.value(p, PropRomsvar4), o.value(p, PropRomsvar5))
  }

  /** Where the agent is (updatePosition): total depth, depth, latitude, longitude and grid cell. */
  datatype Location = Location(totalDepth: real, depth: real, lat: real, lon: real, gridCellID: string)

  /** The decimal digits of a natural number (Long.toString). */
  function Digits(n: nat): string
    decreases n
  {
    var d := ['0', '1', '2', '3', '4', '5', '6', '7', '8', '9'][n % 10];
    if n < 10 then [d] else Digits(n / 10) + [d]
  }

  /** Long.toString of an integer. */
  function LongString(n: int): string
  {
    if n < 0 then "-" + Digits(-n) else Digits(n)
  }

  /** Math.round: the nearest integer, halves rounded up. */
  function Round(x: real): int
  {
    (x + 0.5).Floor
  }

  /** updatePosition at a position: the cell name is "I_J" of the rounded indices. */
  function LocationAt(o: Ocean, p: Pos): Location
  {
    Location(o.bathymetricDepth(p.i, p.j), -o.zFromK(p.i, p.j, p.k), o.lat(p), o.lon(p),
             LongString(Round(p.i)) + "_" + LongString(Round(p.j)))
  }

  /** The ids and the rest of an agent's attribute values. */
  datatype Lineage = Lineage(values: map<string, Value>, id: int)

  /**
   * setAttributes(String[]) after the row is parsed: an attribute id of
   * -1 takes the instance id, otherwise the instance adopts the attribute
   * id; then a parentID or origID of -1 takes that id.
   */
  function RowLineage(values: map<string, Value>, id: int): Lineage
  {
    var aid := LongOr(values, IdKey, id);
    var withId := if aid == -1 then values[IdKey := LongValue(id)] else values;
    var newId := if aid == -1 then id else aid;
    var withParent := if LongOr(withId, ParentIdKey, newId) == -1 then withId[ParentIdKey := LongValue(newId)] else withId;
    var withOrig := if LongOr(withParent, OrigIdKey, newId) == -1 then withParent[OrigIdKey := LongValue(newId)] else withParent;
    Lineage(withOrig, newId)
  }

  /**
   * What setAttributes(String[]) leaves: the id is the attribute id, or
   * the instance id when the attribute id was -1 (and then stored); an id
   * other than -1 leaves no -1 among the three ids; a parentID or origID
   * of -1 (or absent while the id is -1) becomes the id; a valid parentID
   * or origID is kept, and every other value is untouched.
   */
  lemma RowLineageIds(values: map<string, Value>, id: int)
    ensures var r := RowLineage(values, id); var aid := LongOr(values, IdKey, id);
      && r.id == (if aid == -1 then id else aid)
      && LongOr(r.values, IdKey, r.id) == r.id
      && (id != -1 ==>
            && r.id != -1
            && LongOr(r.values, ParentIdKey, r.id) != -1
            && LongOr(r.values, OrigIdKey, r.id) != -1)
      && (LongOr(values, ParentIdKey, r.id) == -1 ==> ParentIdKey in r.values && r.values[ParentIdKey] == LongValue(r.id))
      && (LongOr(values, OrigIdKey, r.id) == -1 ==> OrigIdKey in r.values && r.values[OrigIdKey] == LongValue(r.id))
      && (LongOr(values, ParentIdKey, r.id) != -1 ==> LongOr(r.values, ParentIdKey, r.id) == LongOr(values, ParentIdKey, r.id))
      && (LongOr(values, OrigIdKey, r.id) != -1 ==> LongOr(r.values, OrigIdKey, r.id) == LongOr(values, OrigIdKey, r.id))
      && (forall k :: k != IdKey && k != ParentIdKey && k != OrigIdKey ==>
            (k in r.values <==> k in values) && (k in values ==> r.values[k] == values[k]))
  {
    var r := RowLineage(values, id);
    var aid := LongOr(values, IdKey, id);
    var withId := if aid == -1 then values[IdKey := LongValue(id)] else values;
    assert LongOr(withId, ParentIdKey, r.id) == LongOr(values, ParentIdKey, r.id);
    assert LongOr(withId, OrigIdKey, r.id) == LongOr(values, OrigIdKey, r.id);
  }

  /**
   * createInstance(atts) as written: an attribute id of -1 is replaced by
   * the new instance's id; a parentID or origID of -1 is written back as
   * -1.
   */
  function CreatedLineageAsWritten(values: map<string, Value>, newId: int): Lineage
  {
    var copiedId := LongOr(values, IdKey, newId);
    var withId := if LongOr(values, IdKey, copiedId) == -1 then values[IdKey := LongValue(newId)] else values;
    var id := if LongOr(values, IdKey, copiedId) == -1 then newId else copiedId;
    var withParent := if ParentIdKey in withId && withId[ParentIdKey] == LongValue(-1)
                      then withId[ParentIdKey := LongValue(-1)] else withId;
    var withOrig := if OrigIdKey in withParent && withParent[OrigIdKey] == LongValue(-1)
                    then withParent[OrigIdKey := LongValue(-1)] else withParent;
    Lineage(withOrig, id)
  }

  /** As written, a parentID of -1 survives createInstance although the documentation promises the id. */
  lemma CreatedLineageAsWrittenKeepsUnset(values: map<string, Value>, newId: int)
    requires ParentIdKey in values && values[ParentIdKey] == LongValue(-1)
    ensures CreatedLineageAsWritten(values, newId).values[ParentIdKey] == LongValue(-1)
  {
  }

  /** A concrete agent whose parentID stays -1 under createInstance as written. */
  lemma CreatedLineageAsWrittenExample()
    ensures var values := map[IdKey := LongValue(7), ParentIdKey := LongValue(-1), OrigIdKey := LongValue(-1)];
      && CreatedLineageAsWritten(values, 3).id == 7
      && CreatedLineageAsWritten(values, 3).values[ParentIdKey] == LongValue(-1)
      && CreatedLineageAsWritten(values, 3).values[OrigIdKey] == LongValue(-1)
  {
    var values := map[IdKey := LongValue(7), ParentIdKey := LongValue(-1), OrigIdKey := LongValue(-1)];
    assert LongOr(values, IdKey, 3) == 7;
  }

  /**
   * createInstance(atts) as documented: the id handling is as written,
   * and a parentID or origID of -1 is set to the id.
   */
  function CreatedLineage(values: map<string, Value>, newId: int): Lineage
  {
    var copiedId := LongOr(values, IdKey, newId);
    var withId := if LongOr(values, IdKey, copiedId) == -1 then values[IdKey := LongValue(newId)] else values;
    var id := if LongOr(values, IdKey, copiedId) == -1 then newId else copiedId;
    var withParent := if ParentIdKey in withId && withId[ParentIdKey] == LongValue(-1)
                      then withId[ParentIdKey := LongValue(id)] else withId;
    var withOrig := if OrigIdKey in withParent && withParent[OrigIdKey] == LongValue(-1)
                    then withParent[OrigIdKey := LongValue(id)] else withParent;
    Lineage(withOrig, id)
  }

  /**
   * As documented, a parentID or origID of -1 is set to the new
   * instance's id; with an id other than -1 none of its three ids is -1;
   * a parentID or origID other than -1 is kept, and the id agrees with the
   * code as written.
   */
  lemma CreatedLineageSetsIds(values: map<string, Value>, newId: int)
    requires newId != -1
    ensures var r := CreatedLineage(values, newId);
      && r.id != -1
      && r.id == CreatedLineageAsWritten(values, newId).id
      && LongOr(r.values, IdKey, r.id) == r.id
      && (ParentIdKey in values && values[ParentIdKey] == LongValue(-1) ==> r.values[ParentIdKey] == LongValue(r.id))
      && (OrigIdKey in values && values[OrigIdKey] == LongValue(-1) ==> r.values[OrigIdKey] == LongValue(r.id))
      && (ParentIdKey in values ==> ParentIdKey in r.values && r.values[ParentIdKey] != LongValue(-1))
      && (OrigIdKey in values ==> OrigIdKey in r.values && r.values[OrigIdKey] != LongValue(-1))
      && (ParentIdKey in values && values[ParentIdKey] != LongValue(-1) ==> r.values[ParentIdKey] == values[ParentIdKey])
      && (OrigIdKey in values && values[OrigIdKey] != LongValue(-1) ==> r.values[OrigIdKey] == values[OrigIdKey])
  {
    var copiedId := LongOr(values, IdKey, newId);
    var withId := if LongOr(values, IdKey, copiedId) == -1 then values[IdKey := LongValue(newId)] else values;
    var id := if LongOr(values, IdKey, copiedId) == -1 then newId else copiedId;
    assert id != -1;
    assert LongOr(withId, IdKey, id) == id;
  }
}
