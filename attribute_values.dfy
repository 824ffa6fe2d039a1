/**
 * Attribute values, attribute descriptors and the unseen framework base
 * schema shared by all POP attribute classes.
 */
module AttributeValues {
  import opened Wrappers
  import opened OrderedKeys

  /** The boxed Java object held in an attributes map for one key. */
  datatype Value =
    | BoolValue(flag: bool)
    | DoubleValue(x: real)
    | LongValue(n: int)
    | IntValue(i: int)
    | TextValue(text: string)

  /** The value class of an attribute descriptor (an IBMAttribute subclass). */
  datatype AttrKind = BooleanKind | DoubleKind | LongKind | IntegerKind | StringKind

  /**
   * Parsing and printing of one attribute value, done in the source by the
   * descriptor's parseValue and getValueAsString. A parse result of None
   * stands for a NumberFormatException.
   */
  datatype Codec = Codec(parse: (AttrKind, string) -> Option<Value>, format: (AttrKind, Value) -> string)

  /** Every value printed by the codec parses back to itself. */
  ghost predicate RoundTrips(codec: Codec)
  {
    forall kind: AttrKind, v: Value :: codec.parse(kind, codec.format(kind, v)) == Some(v)
  }

  /** Keys of the framework's standard attributes (LifeStageAttributesInterface). */
  const TypeNameKey: string := "typeName"
  const IdKey: string := "id"
  const ParentIdKey: string := "parentID"
  const OrigIdKey: string := "origID"
  const StartTimeKey: string := "startTime"
  const TimeKey: string := "time"
  const HorizTypeKey: string := "horizType"
  const VertTypeKey: string := "vertType"
  const HorizPos1Key: string := "horizPos1"
  const HorizPos2Key: string := "horizPos2"
  const VertPosKey: string := "vertPos"
  const ActiveKey: string := "active"
  const AliveKey: string := "alive"
  const AgeKey: string := "age"
  const AgeInStageKey: string := "ageInStage"
  const NumberKey: string := "number"

  /**
   * The static information of an unseen framework base class
   * (AbstractLHSAttributes or AbstractLHSAttributes2): its ordered keys
   * (numAttributes of them, typeName first), the descriptor kind of each
   * key, and the default values its constructor stores.
   */
  datatype BaseSchema = BaseSchema(keys: seq<string>, kinds: map<string, AttrKind>, defaults: map<string, Value>)

  /** The base schema is well formed and shares no key with `extra`. */
  ghost predicate ValidBase(b: BaseSchema, extra: seq<string>)
  {
    && |b.keys| > 0
    && b.keys[0] == TypeNameKey
    && Distinct(b.keys)
    && b.kinds.Keys == (set k | k in b.keys)
    && b.defaults.Keys == (set k | k in b.keys)
    && forall k :: k in extra ==> k !in b.keys
  }

  /** A valid base schema's keys and the extra keys are disjoint, seen from either side. */
  lemma BaseDisjoint(b: BaseSchema, extra: seq<string>)
    requires ValidBase(b, extra)
    ensures forall k :: k in b.keys ==> k !in extra
    ensures TypeNameKey in b.keys && TypeNameKey !in extra
  {
    assert b.keys[0] in b.keys;
  }

  /** getValue(key, default) for a long-valued attribute. */
  function LongOr(m: map<string, Value>, key: string, default: int): int
  {
    if key in m && m[key].LongValue? then m[key].n else default
  }

  /** getValue(key, default) for an int-valued attribute. */
  function IntOr(m: map<string, Value>, key: string, default: int): int
  {
    if key in m && m[key].IntValue? then m[key].i else default
  }

  /** getValue(key, default) for a double-valued attribute. */
  function RealOr(m: map<string, Value>, key: string, default: real): real
  {
    if key in m && m[key].DoubleValue? then m[key].x else default
  }

  /** getValue(key, default) for a boolean-valued attribute. */
  function BoolOr(m: map<string, Value>, key: string, default: bool): bool
  {
    if key in m && m[key].BoolValue? then m[key].flag else default
  }
}
