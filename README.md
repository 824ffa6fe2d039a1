# POP benthic juvenile stage and attribute schema, in Dafny

This project models two parts of the DisMELS Pacific ocean perch (POP)
individual-based model.

**The benthic juvenile life stage** (`BenthicJuvenileStage`) is one agent, or
one super-individual standing for many fish, on the sea floor. On each time
step it is pinned to the bottom layer of the ocean grid. Its clock advances,
its abundance decays by mortality while a transition pool fills, it ages, it
grows, it samples the environment, and it can die at the maximum stage
duration or at the grid edge. When old and large enough it metamorphoses into
the next stage: a super-individual hands over its pool, while an ordinary
individual dies after one transition. New agents get their lineage ids (id,
parentID, origID) from attribute rows, from attribute objects, or from the
agent they succeed. `initialize` places the agent on the grid from one of
four vertical-position conventions.

**The POP attribute classes** (`NewAttributes`, `AbstractPOPAttributes`,
`LarvaStageAttributes`, `AdultStageAttributes`,
`BenthicJuvenileStageAttributes`, `SettlerStageAttributes`) share one schema:
the framework's standard keys (typeName first), then eleven POP keys
(attached, size, weight, temperature, salinity, bathymetry, romsvar1–5), then,
for larvae only, maternal age and oil globule volume. The first instance of a
class fills the class's static key set, descriptor map and key array. Each
instance holds a map of values. It is written as a delimited row and a
header, and read back from a `String[]` row by a positional parser with two
error exits: a missing field and a field that does not parse.

Module layout:

- `ordered_keys.dfy`:
  - the insertion-ordered key set (`LinkedHashSet.add`/`addAll`);
  - distinctness;
  - joining and splitting delimited rows.
- `attribute_values.dfy`:
  - attribute values and descriptor kinds;
  - the value codec;
  - the unseen framework base schema.
- `new_attributes.dfy`: the eleven new keys, their defaults and the lazily
  filled `NewAttributes` statics (class `NewAttributeRegistry`).
- `attribute_rows.dfy`:
  - the positional row parser `ParseKeys` and its loop `ParseRow`;
  - the printing loops;
  - the read-back lemmas;
  - the dialog findings.
- `attribute_schema.dfy`:
  - the per-class layout;
  - the class statics (`AttributeStatics`, filled by `finishInstantiation`);
  - the instance class `StageAttributes` with its getters, printers, parsers,
    `clone` and `createInstance`.
- The class-specific layouts and wrappers: `pop_attributes.dfy`,
  `larva_attributes.dfy`, `adult_attributes.dfy`,
  `benthic_juvenile_attributes.dfy`, `settler_attributes.dfy`.
- `benthic_juvenile_rules.dfy`: the stage's rules as functions, with lemmas
  about them. These cover abundance, growth, the metamorphosis test, the
  initial K and the lineage ids.
- `benthic_juvenile_stage.dfy`: the stage as a class whose methods update its
  fields and its attributes object, each method specified by the functions of
  the rules module.

Inputs that stand for code outside the model:
- The ocean interpolator `i3d` is the `Ocean` record of oracles.
- `Math.exp` is a function parameter constrained by `ExpLike`.
- The growth and mortality functions are the `GrowthFunction` and
  `MortalityFunction` datatypes.
- The value parsers and printers of the attribute descriptors are the `Codec`.
- The base classes' own parts of `setValues`, `getCSV` and `getArrayList` are
  the `baseValues`, `baseCSV` and `baseList` parameters.
- The life-stage factory's results are `created`, `newId` and `newParams`.
- The fields inherited from the framework class `AbstractLHS` are the
  `inherited` record.

## Model

| member | source | states |
|---|---|---|
| NewAttributes.NewKeysShape | src/wts/models/DisMELS/IBMs/POP/NewAttributes.java:19-31 | There are numNewAttributes = 11 new keys. They are distinct and none is typeName. |
| NewAttributes.NewKeysByAdds | src/wts/models/DisMELS/IBMs/POP/NewAttributes.java:44-55 | The eleven `add` calls of getNewKeys, from an empty set, yield exactly the key order attached, size, weight, temperature, salinity, bathymetry, romsvar1..5. |
| NewAttributes.FirstNewKeysByAdds | src/wts/models/DisMELS/IBMs/POP/NewAttributes.java:45-49 | The first five additions yield the first five keys, in order. |
| NewAttributes.LastNewKeysByAdds | src/wts/models/DisMELS/IBMs/POP/NewAttributes.java:50-55 | The last six additions complete the eleven keys, in order. |
| NewAttributes.NewDefaultKeys | src/wts/models/DisMELS/IBMs/POP/NewAttributes.java:62-72 | The default map has a value for exactly the new keys. |
| NewAttributes.NewDefaultsShape | src/wts/models/DisMELS/IBMs/POP/NewAttributes.java:62-64 | attached defaults to false and is the only boolean; size and weight default to 0. |
| NewAttributes.NewDefaultCovariates | src/wts/models/DisMELS/IBMs/POP/NewAttributes.java:65-72 | temperature, salinity, bathymetry and romsvar1-5 default to -1. |
| NewAttributes.NewAttributeRegistry.constructor | src/wts/models/DisMELS/IBMs/POP/NewAttributes.java:33-34 | Both static collections start empty. |
| NewAttributes.NewAttributeRegistry.GetNewKeys | src/wts/models/DisMELS/IBMs/POP/NewAttributes.java:41-58 | Returns the eleven keys in order. It fills the set only when the set is empty, so a second call changes nothing and returns the same keys. |
| NewAttributes.NewAttributeRegistry.GetNewMapValues | src/wts/models/DisMELS/IBMs/POP/NewAttributes.java:60-75 | Returns the default map. It fills the map only when the map is empty, so repeated calls return the same map. |
| OrderedKeys.AddKeeps | src/wts/models/DisMELS/IBMs/POP/NewAttributes.java:45 | LinkedHashSet.add keeps the earlier keys in place, grows the set by at most one, makes the key present and keeps the keys distinct. |
| OrderedKeys.AddAllKeeps | src/wts/models/DisMELS/IBMs/POP/AbstractPOPAttributes.java:91-92 | addAll keeps the earlier keys as a prefix, adds exactly the given keys and keeps distinctness. |
| OrderedKeys.AddAllFresh | src/wts/models/DisMELS/IBMs/POP/AbstractPOPAttributes.java:91-92 | addAll of distinct keys that are all absent appends them in order. |
| OrderedKeys.AddAllPresent | src/wts/models/DisMELS/IBMs/POP/AbstractPOPAttributes.java:91-92 | addAll of keys that are all present changes nothing. |
| OrderedKeys.AddAllGroups | src/wts/models/DisMELS/IBMs/POP/Larva/LarvaStageAttributes.java:111-114 | Adding three disjoint groups of distinct keys to an empty set appends them, in order. |
| OrderedKeys.AddAllPair | src/wts/models/DisMELS/IBMs/POP/AbstractPOPAttributes.java:91-92 | Adding two disjoint groups of distinct keys to an empty set appends them, in order. |
| OrderedKeys.CopyTail | src/wts/models/DisMELS/IBMs/POP/AbstractPOPAttributes.java:93-95 | The iterator loop that skips typeName fills the array with exactly the keys after the first, in order. |
| OrderedKeys.SplitJoin | src/wts/models/DisMELS/IBMs/POP/AbstractPOPAttributes.java:161-166 | A header joined from fields that do not contain the separator splits back into those fields. |
| OrderedKeys.JoinSnoc | src/wts/models/DisMELS/IBMs/POP/AbstractPOPAttributes.java:164 | One more iteration of the header loop joins one more field. |
| AttributeValues.BaseDisjoint | src/wts/models/DisMELS/IBMs/POP/AbstractPOPAttributes.java:91-92 | The framework's keys, typeName among them, share no key with the keys added after them. |
| AttributeRows.StoreField | src/wts/models/DisMELS/IBMs/POP/AbstractPOPAttributes.java:292-298 | setValueFromString ignores typeName. For any other key it fails (a NumberFormatException) exactly when the descriptor rejects the field; otherwise it stores the parsed value under the key. |
| AttributeRows.ParseKeysStep | src/wts/models/DisMELS/IBMs/POP/AbstractPOPAttributes.java:237 | One iteration of the parsing loop: skip typeName, stop at a bad field, or store the field and continue with the next key at the next index. |
| AttributeRows.ParseKeysOutcome | src/wts/models/DisMELS/IBMs/POP/AbstractPOPAttributes.java:235-251 | The parse succeeds if and only if every key has a field and every non-typeName field parses. A missing field is reported at the first index past the row, with every earlier field parsed. A bad field is reported at its own index, inside the run, with every earlier field parsed. |
| AttributeRows.ParseKeysFrame | src/wts/models/DisMELS/IBMs/POP/AbstractPOPAttributes.java:237 | Parsing changes only the keys of the run; other keys keep their values and no new key appears. |
| AttributeRows.ParseKeysStores | src/wts/models/DisMELS/IBMs/POP/AbstractPOPAttributes.java:235-237 | After a successful parse over distinct keys, the i-th key holds the value parsed from field numAttributes + i. |
| AttributeRows.ParseRow | src/wts/models/DisMELS/IBMs/POP/AbstractPOPAttributes.java:235-237 | The loop with index j advancing alongside the key iterator computes exactly ParseKeys: the same values and the same outcome. |
| AttributeRows.ParseKeysAppend | src/wts/models/DisMELS/IBMs/POP/Larva/LarvaStageAttributes.java:281-284 | Parsing two runs of keys from consecutive fields is parsing their concatenation. A failure in the first run ends the parse. |
| AttributeRows.Formatted | src/wts/models/DisMELS/IBMs/POP/AbstractPOPAttributes.java:283-289 | Each key is printed by its descriptor, one field per key, in key order. |
| AttributeRows.ParseFormatted | src/wts/models/DisMELS/IBMs/POP/AbstractPOPAttributes.java:232-237 | Fields printed from distinct non-typeName keys parse back into exactly the printed values, when the codec round-trips. |
| AttributeRows.AppendFields | src/wts/models/DisMELS/IBMs/POP/AbstractPOPAttributes.java:148-150 | The getCSV loop appends the separator and the printed value of each key, in key order. |
| AttributeRows.JoinKeys | src/wts/models/DisMELS/IBMs/POP/AbstractPOPAttributes.java:162-165 | The getCSVHeader loop yields the first key, then the separator and each further key. |
| AttributeRows.SplitAppended | src/wts/models/DisMELS/IBMs/POP/AbstractPOPAttributes.java:146-151 | A row followed by appended fields that do not contain the separator splits into the row's fields and then those fields. |
| AttributeRows.RowRoundTrip | src/wts/models/DisMELS/IBMs/POP/AbstractPOPAttributes.java:146-151 | A row written by getCSV is split and parsed from the field after the base fields. This succeeds and restores every printed value. |
| AttributeRows.HeaderAligned | src/wts/models/DisMELS/IBMs/POP/AbstractPOPAttributes.java:146-166 | Split, the header and the row have the same number of fields, and each own field sits under its key. |
| AttributeRows.BadValueKeyAsWrittenIsWrong | src/wts/models/DisMELS/IBMs/POP/AbstractPOPAttributes.java:254-255 | As written, the bad-value message names aKeys[j-2]: the key before the one whose field strv[j-1] it quotes, never that key itself. |
| AttributeRows.BadValueKeyNamesRejectedKey | src/wts/models/DisMELS/IBMs/POP/AbstractPOPAttributes.java:251-255 | With aKeys[j-1], the message names the key whose descriptor rejected the quoted field. That key is not typeName and has a descriptor. |
| AttributeRows.MissingValueDialogAsWrittenFails | src/wts/models/DisMELS/IBMs/POP/AbstractPOPAttributes.java:242-244 | As written, the "Prior values" loop runs to strv[j-1] = strv[length], past the row. It always throws, so the dialog is never shown. |
| AttributeRows.MissingValueDialogLists | src/wts/models/DisMELS/IBMs/POP/AbstractPOPAttributes.java:242-244 | With the loop bound j - 1, the message lists every field of the row. |
| AttributeSchema.LayoutFacts | src/wts/models/DisMELS/IBMs/POP/AbstractPOPAttributes.java:53-60 | A class's keys are totNumAttributes distinct keys, with typeName first and typeName not among the keys after the base keys. |
| AttributeSchema.LayoutCovered | src/wts/models/DisMELS/IBMs/POP/AbstractPOPAttributes.java:87-92 | Every key has a descriptor and a default. |
| AttributeSchema.LayoutDefaultKeys | src/wts/models/DisMELS/IBMs/POP/AbstractPOPAttributes.java:97-98 | A fresh instance has a value for exactly the class's keys. |
| AttributeSchema.LayoutByAdds | src/wts/models/DisMELS/IBMs/POP/AbstractPOPAttributes.java:91-92 | The addAll calls of finishInstantiation, from an empty set, yield the base keys, then the new keys, then the class's keys. |
| AttributeSchema.CSVRoundTrip | src/wts/models/DisMELS/IBMs/POP/AbstractPOPAttributes.java:146-151 | A row printed by getCSV, split and parsed from field numAttributes on as setValues does, parses completely. It gives every own key the value it was printed from and leaves other keys alone. |
| AttributeSchema.HeaderNamesRowFields | src/wts/models/DisMELS/IBMs/POP/AbstractPOPAttributes.java:146-166 | Split, getCSVHeader and getCSV both have totNumAttributes fields. Every field after the base fields holds the printed value of the key the header names there. |
| AttributeSchema.AttributeStatics.FilledValid | src/wts/models/DisMELS/IBMs/POP/AbstractPOPAttributes.java:87-96 | Filled statics are in the state finishInstantiation leaves. |
| AttributeSchema.AttributeStatics.FilledCovered | src/wts/models/DisMELS/IBMs/POP/AbstractPOPAttributes.java:89-92 | Filled statics have a descriptor for every key. |
| AttributeSchema.AttributeStatics.constructor | src/wts/models/DisMELS/IBMs/POP/AbstractPOPAttributes.java:56-60 | allKeys and mapAllAttributes start empty, aKeys is a fresh array, and the statics are in their valid unfilled state. |
| AttributeSchema.AttributeStatics.AddKeys | src/wts/models/DisMELS/IBMs/POP/AbstractPOPAttributes.java:91-92 | allKeys becomes the base keys followed by the new keys and the class's keys. |
| AttributeSchema.AttributeStatics.FinishStatics | src/wts/models/DisMELS/IBMs/POP/AbstractPOPAttributes.java:86-96 | The first call fills allKeys, the descriptors and aKeys, where aKeys holds every key but typeName. Once filled, a call changes nothing. |
| AttributeSchema.AttributeStatics.FinishInstantiation | src/wts/models/DisMELS/IBMs/POP/AbstractPOPAttributes.java:86-99 | Fills the statics and returns the new-key defaults. The base, new and class defaults together make the instance defaults. Once filled, nothing changes. |
| AttributeSchema.Restrict | src/wts/models/DisMELS/IBMs/POP/BenthicJuvenile/BenthicJuvenileStage.java:276 | The values of exactly the given keys that the source has. |
| AttributeSchema.StageAttributes.constructor | src/wts/models/DisMELS/IBMs/POP/AbstractPOPAttributes.java:81-84 | A new instance of its class with the given typeName. Its values are the class defaults, and the statics are filled. |
| AttributeSchema.StageAttributes.SetValue | src/wts/models/DisMELS/IBMs/POP/AbstractPOPAttributes.java:296 | Stores one value under one key; nothing else changes. |
| AttributeSchema.StageAttributes.CopyValues | src/wts/models/DisMELS/IBMs/POP/BenthicJuvenile/BenthicJuvenileStageAttributes.java:82 | The clone loop: afterwards every key holds the source's value, and no other key is present. |
| AttributeSchema.StageAttributes.StoreValues | src/wts/models/DisMELS/IBMs/POP/BenthicJuvenile/BenthicJuvenileStage.java:276 | The copy loop of setAttributes overwrites exactly the given keys with the source's values. |
| AttributeSchema.StageAttributes.GetKeys | src/wts/models/DisMELS/IBMs/POP/AbstractPOPAttributes.java:206-208 | aKeys is the base keys after typeName, then the class's own keys. There are totNumAttributes - 1 of them, distinct, typeName not among them, each with a value. |
| AttributeSchema.StageAttributes.GetAttributes | src/wts/models/DisMELS/IBMs/POP/AbstractPOPAttributes.java:131-138 | totNumAttributes - 1 values; the i-th is the value of the i-th key of getKeys. |
| AttributeSchema.StageAttributes.GetArrayList | src/wts/models/DisMELS/IBMs/POP/AbstractPOPAttributes.java:119-123 | The base list unchanged, followed by the value of each own key, in order. |
| AttributeSchema.StageAttributes.GetCSV | src/wts/models/DisMELS/IBMs/POP/AbstractPOPAttributes.java:146-151 | The base row, then the separator and printed value of each own key. It splits into the base fields followed by those values. |
| AttributeSchema.StageAttributes.GetCSVHeader | src/wts/models/DisMELS/IBMs/POP/AbstractPOPAttributes.java:161-166 | Every key, typeName first, joined by cc. It splits back into the keys. |
| AttributeSchema.StageAttributes.SetValueFromString | src/wts/models/DisMELS/IBMs/POP/AbstractPOPAttributes.java:292-298 | typeName is ignored. Otherwise the value is stored exactly when the field parses, and a rejected field leaves the values unchanged and is reported. |
| AttributeSchema.StageAttributes.SetValues | src/wts/models/DisMELS/IBMs/POP/AbstractPOPAttributes.java:232-237 | After the base class's values, the own keys are parsed from the fields starting at numAttributes. The result and outcome are those of ParseKeys, and the values stay complete. |
| AttributeSchema.StageAttributes.Clone | src/wts/models/DisMELS/IBMs/POP/BenthicJuvenile/BenthicJuvenileStageAttributes.java:80-84 | A fresh instance of the same class and typeName whose value of every key equals the original's, with no other key. |
| AttributeSchema.StageAttributes.Sibling | src/wts/models/DisMELS/IBMs/POP/BenthicJuvenile/BenthicJuvenileStageAttributes.java:81 | A fresh instance of this instance's class with the class defaults; the already-filled statics stay unchanged. |
| AttributeSchema.StageAttributes.CreateInstance | src/wts/models/DisMELS/IBMs/POP/BenthicJuvenile/BenthicJuvenileStageAttributes.java:94-98 | An empty row has no typeName, so nothing is created. Otherwise the instance is named by strv[0] and holds exactly what setValues parses. It is returned if and only if the parse succeeds. |
| POPAttributes.POPLayout | src/wts/models/DisMELS/IBMs/POP/AbstractPOPAttributes.java:53-60 | The keys are the base keys followed by the eleven new keys, and totNumAttributes = numAttributes + 11. The defaults are the base defaults and the new defaults. |
| POPAttributes.POPLayoutValid | src/wts/models/DisMELS/IBMs/POP/AbstractPOPAttributes.java:86-96 | Over a well-formed base schema, the POP layout is valid and adds no keys of its own. |
| POPAttributes.POPKeys | src/wts/models/DisMELS/IBMs/POP/AbstractPOPAttributes.java:206-208 | getKeys is the base keys after typeName, then the new keys: numAttributes + 11 - 1 of them. |
| LarvaAttributes.LarvaLayout | src/wts/models/DisMELS/IBMs/POP/Larva/LarvaStageAttributes.java:100-124 | The keys are the base keys, then the new keys, then maternal age and oil globule volume, and totNumAttributes = numAttributes + 11 + 2. Both larva keys are doubles that default to 0. |
| LarvaAttributes.LarvaLayoutValid | src/wts/models/DisMELS/IBMs/POP/Larva/LarvaStageAttributes.java:100-118 | Over a base schema disjoint from the new and larva keys, the layout is valid. |
| LarvaAttributes.LarvaMapKeys | src/wts/models/DisMELS/IBMs/POP/Larva/LarvaStageAttributes.java:108-123 | The larva descriptors and defaults cover exactly the two larva keys. |
| LarvaAttributes.LarvaSetValuesOrder | src/wts/models/DisMELS/IBMs/POP/Larva/LarvaStageAttributes.java:278-284 | The new keys come from field numAttributes on, maternal age from numAttributes + 11 and OGV from numAttributes + 12. This is one positional run over the new keys followed by the larva keys. |
| LarvaAttributes.LarvaOwnDefaults | src/wts/models/DisMELS/IBMs/POP/Larva/LarvaStageAttributes.java:122-123 | Maternal age and oil globule volume default to 0.0. |
| LarvaAttributes.NewLarvaAttributes | src/wts/models/DisMELS/IBMs/POP/Larva/LarvaStageAttributes.java:95-124 | A new larva instance holding the class defaults, with maternal age and OGV at 0. |
| LarvaAttributes.Clone | src/wts/models/DisMELS/IBMs/POP/Larva/LarvaStageAttributes.java:132-136 | A larva instance with the same typeName and the value of every key. |
| LarvaAttributes.CreateInstance | src/wts/models/DisMELS/IBMs/POP/Larva/LarvaStageAttributes.java:146-150 | Named by strv[0], with values from setValues. Returned if and only if the row parses; nothing is created for an empty row. |
| AdultAttributes.AdultDescriptors | src/wts/models/DisMELS/IBMs/POP/Adult/AdultStageAttributes.java:82-88 | putAll of the second base class's descriptors followed by the descriptor loop yields exactly the descriptor map of the adult layout. |
| AdultAttributes.RegisterAsDouble | src/wts/models/DisMELS/IBMs/POP/Adult/AdultStageAttributes.java:84-88 | The descriptor loop gives every new key a double descriptor and keeps the other descriptors. |
| AdultAttributes.AdultLayout | src/wts/models/DisMELS/IBMs/POP/Adult/AdultStageAttributes.java:79-97 | The keys are the AbstractLHSAttributes2 keys followed by the new keys, each new key a double. totNumAttributes = numAttributes + 11. |
| AdultAttributes.AdultLayoutValid | src/wts/models/DisMELS/IBMs/POP/Adult/AdultStageAttributes.java:89-93 | Over a well-formed second base schema, the adult layout is valid. |
| AdultAttributes.AdultAttachedKinds | src/wts/models/DisMELS/IBMs/POP/Adult/AdultStageAttributes.java:84-96 | attached has a double descriptor but a boolean default. |
| AdultAttributes.NewAdultAttributes | src/wts/models/DisMELS/IBMs/POP/Adult/AdultStageAttributes.java:48-51 | A new adult instance holding the second base class's defaults and the new defaults. |
| AdultAttributes.Clone | src/wts/models/DisMELS/IBMs/POP/Adult/AdultStageAttributes.java:59-63 | An adult instance with the same typeName and the value of every key. |
| AdultAttributes.CreateInstance | src/wts/models/DisMELS/IBMs/POP/Adult/AdultStageAttributes.java:73-77 | Named by strv[0], with values from setValues starting at AbstractLHSAttributes2.numAttributes. Returned if and only if the row parses. |
| BenthicJuvenileAttributes.NewBenthicJuvenileAttributes | src/wts/models/DisMELS/IBMs/POP/BenthicJuvenile/BenthicJuvenileStageAttributes.java:70-72 | A new benthic juvenile instance holding the POP defaults. |
| BenthicJuvenileAttributes.Clone | src/wts/models/DisMELS/IBMs/POP/BenthicJuvenile/BenthicJuvenileStageAttributes.java:80-84 | The same typeName and the same value for every key in allKeys. |
| BenthicJuvenileAttributes.CreateInstance | src/wts/models/DisMELS/IBMs/POP/BenthicJuvenile/BenthicJuvenileStageAttributes.java:94-98 | typeName is strv[0]. The values are exactly those setValues parses, and the instance exists if and only if the parse succeeds. |
| SettlerAttributes.NewSettlerAttributes | src/wts/models/DisMELS/IBMs/POP/Settler/SettlerStageAttributes.java:65-67 | A new settler instance holding the POP defaults, in the POP key order. |
| SettlerAttributes.Clone | src/wts/models/DisMELS/IBMs/POP/Settler/SettlerStageAttributes.java:75-79 | The same typeName and the same value for every key in allKeys. |
| SettlerAttributes.CreateInstance | src/wts/models/DisMELS/IBMs/POP/Settler/SettlerStageAttributes.java:89-93 | typeName is strv[0]. The values are exactly those setValues parses, and the instance exists if and only if the parse succeeds. |
| BenthicJuvenileRules.GrowthCases | src/wts/models/DisMELS/IBMs/POP/BenthicJuvenile/BenthicJuvenileStage.java:691-719 | An unrecognised growth function leaves the size unchanged. Constant growth at rate >= 0 over dt >= 0 never shrinks the size, and leaves it unchanged exactly when the rate or dt is 0. |
| BenthicJuvenileRules.DecayBounds | src/wts/models/DisMELS/IBMs/POP/BenthicJuvenile/BenthicJuvenileStage.java:746-749 | For a non-negative step and rate, exp(-dt*rate/DAY_SECS) lies in (0, 1]. |
| BenthicJuvenileRules.NoDecay | src/wts/models/DisMELS/IBMs/POP/BenthicJuvenile/BenthicJuvenileStage.java:726-749 | With no recognised mortality function (neither constant nor temperature-dependent, or none) the rate at any temperature is 0, and the decay factor is exactly 1. |
| BenthicJuvenileRules.AbundanceBeforeWindow | src/wts/models/DisMELS/IBMs/POP/BenthicJuvenile/BenthicJuvenileStage.java:741-749 | Before minStageDuration, numTrans is untouched and number decays by mortality alone. |
| BenthicJuvenileRules.AbundanceStaysNonNegative | src/wts/models/DisMELS/IBMs/POP/BenthicJuvenile/BenthicJuvenileStage.java:741-749 | With non-negative rates, factors in (0, 1] and a positive total rate in the window, number and numTrans stay non-negative and number never increases. |
| BenthicJuvenileRules.NumberDecays | src/wts/models/DisMELS/IBMs/POP/BenthicJuvenile/BenthicJuvenileStage.java:749 | number decays in either regime: 0 <= new number <= old number. |
| BenthicJuvenileRules.PoolStaysNonNegative | src/wts/models/DisMELS/IBMs/POP/BenthicJuvenile/BenthicJuvenileStage.java:746-747 | The pool fed from non-negative quantities, with a positive total rate, is a non-negative number. |
| BenthicJuvenileRules.AbundanceZeroRatesNaN | src/wts/models/DisMELS/IBMs/POP/BenthicJuvenile/BenthicJuvenileStage.java:741-747 | In the window with a total rate of 0, numTrans becomes NaN (0/0). |
| BenthicJuvenileRules.AbundanceConserved | src/wts/models/DisMELS/IBMs/POP/BenthicJuvenile/BenthicJuvenileStage.java:741-749 | Without mortality (survival factor 1) and with a non-zero transition rate, what leaves number enters the pool: number + numTrans is conserved. |
| BenthicJuvenileRules.PoolStaysEmpty | src/wts/models/DisMELS/IBMs/POP/BenthicJuvenile/BenthicJuvenileStage.java:743-747 | With stageTransRate 0 (never assigned), an empty pool stays empty. |
| BenthicJuvenileRules.TransitionCases | src/wts/models/DisMELS/IBMs/POP/BenthicJuvenile/BenthicJuvenileStage.java:447-448 | An ineligible agent never transitions and an eligible individual always does. An eligible super-individual transitions if and only if numTrans > 0, so never when it is NaN. |
| BenthicJuvenileRules.EmptyPoolNeverTransitions | src/wts/models/DisMELS/IBMs/POP/BenthicJuvenile/BenthicJuvenileStage.java:448 | A super-individual whose numTrans is not positive (<= 0, or NaN) never transitions, even when eligible. |
| BenthicJuvenileRules.InitialKByElevation | src/wts/models/DisMELS/IBMs/POP/BenthicJuvenile/BenthicJuvenileStage.java:539-551 | For VERT_Z, VERT_H and VERT_DH, K is 0 below the bottom, N above the surface, and calcKfromZ of the converted height otherwise. |
| BenthicJuvenileRules.InitialKIndex | src/wts/models/DisMELS/IBMs/POP/BenthicJuvenile/BenthicJuvenileStage.java:534-538 | For VERT_K, zPos is clamped to [0, N] and kept when inside. Any other unknown type gives K = 0. |
| BenthicJuvenileRules.InitialKInGrid | src/wts/models/DisMELS/IBMs/POP/BenthicJuvenile/BenthicJuvenileStage.java:534-551 | When calcKfromZ stays within [0, N], the initial K does too, for every vertical type. |
| BenthicJuvenileRules.RowLineageIds | src/wts/models/DisMELS/IBMs/POP/BenthicJuvenile/BenthicJuvenileStage.java:243-258 | An attribute id of -1 takes the instance id; otherwise the instance takes the attribute id. A parentID or origID of -1 (or absent while the id is -1) is set to the id, stored as a long. Afterwards, with an id other than -1, none of id, parentID and origID is -1. Valid parentID and origID are kept, and every other value is untouched. |
| BenthicJuvenileRules.CreatedLineageAsWrittenKeepsUnset | src/wts/models/DisMELS/IBMs/POP/BenthicJuvenile/BenthicJuvenileStage.java:203-206 | As written, a parentID of -1 stays -1 after createInstance. |
| BenthicJuvenileRules.CreatedLineageAsWrittenExample | src/wts/models/DisMELS/IBMs/POP/BenthicJuvenile/BenthicJuvenileStage.java:196-210 | Take an agent with id 7 and parentID and origID -1: as written, it keeps both at -1. |
| BenthicJuvenileRules.CreatedLineageSetsIds | src/wts/models/DisMELS/IBMs/POP/BenthicJuvenile/BenthicJuvenileStage.java:180-210 | As documented, a parentID or origID of -1 is set to the new agent's id, so the agent has an id other than -1 and no -1 parentID or origID. It keeps valid ones and computes the same id as the code. |
| BenthicJuvenile.ReadWrittenVariables | src/wts/models/DisMELS/IBMs/POP/BenthicJuvenile/BenthicJuvenileStage.java:859-889 | updateVariables right after updateAttributes reads back exactly the fields stored. |
| BenthicJuvenile.ReadWrittenLife | src/wts/models/DisMELS/IBMs/POP/BenthicJuvenile/BenthicJuvenileStage.java:859-860 | Start time, time, active and alive read back after they are stored. |
| BenthicJuvenile.ReadWrittenGrowth | src/wts/models/DisMELS/IBMs/POP/BenthicJuvenile/BenthicJuvenileStage.java:861-862 | Age, age in stage, number, size and weight read back after they are stored. |
| BenthicJuvenile.ReadWrittenEnv | src/wts/models/DisMELS/IBMs/POP/BenthicJuvenile/BenthicJuvenileStage.java:863-870 | The sampled environment reads back after it is stored. |
| BenthicJuvenile.ReadRevived | src/wts/models/DisMELS/IBMs/POP/BenthicJuvenile/BenthicJuvenileStage.java:300-302 | After the resets, the fields read back age in stage 0, active and alive. |
| BenthicJuvenile.ReadHandedOver | src/wts/models/DisMELS/IBMs/POP/BenthicJuvenile/BenthicJuvenileStage.java:346-349 | After the hand-over, the fields read back number = numTrans, age in stage 0, active and alive. |
| BenthicJuvenile.HandedOverKeepsOrigin | src/wts/models/DisMELS/IBMs/POP/BenthicJuvenile/BenthicJuvenileStage.java:339-349 | The hand-over keeps the copied origID. |
| BenthicJuvenile.RevivedKeepsId | src/wts/models/DisMELS/IBMs/POP/BenthicJuvenile/BenthicJuvenileStage.java:300-303 | The resets leave the stored id alone, so `id = atts.getID()` picks up the old agent's id. |
| BenthicJuvenile.RevivedKeepsLineage | src/wts/models/DisMELS/IBMs/POP/BenthicJuvenile/BenthicJuvenileStage.java:297-303 | After copying and the resets, id, parentID and origID are the old agent's. |
| BenthicJuvenile.PlacedKeepsLineage | src/wts/models/DisMELS/IBMs/POP/BenthicJuvenile/BenthicJuvenileStage.java:557-569 | Setting the position types and updateAttributes leave id, parentID and origID alone. |
| BenthicJuvenile.LineageNotWritten | src/wts/models/DisMELS/IBMs/POP/BenthicJuvenile/BenthicJuvenileStage.java:859-871 | updateAttributes stores none of id, parentID and origID. |
| BenthicJuvenile.NewStageAttributes | src/wts/models/DisMELS/IBMs/POP/BenthicJuvenile/BenthicJuvenileStage.java:143-146 | A fresh benthic juvenile attributes object with the defaults, and the new id as id, parentID and origID. |
| BenthicJuvenile.SetLineageIds | src/wts/models/DisMELS/IBMs/POP/BenthicJuvenile/BenthicJuvenileStage.java:144-146 | id, parentID and origID are set to the new id and nothing else changes. |
| BenthicJuvenile.NewStage | src/wts/models/DisMELS/IBMs/POP/BenthicJuvenile/BenthicJuvenileStage.java:140-150 | A fresh agent: its attributes carry the new id three times, size, weight and the environment are 0, numTrans is 0, and the parameters are set when the factory made benthic juvenile ones. |
| BenthicJuvenile.NewStageFrom | src/wts/models/DisMELS/IBMs/POP/BenthicJuvenile/BenthicJuvenileStage.java:195-212 | The new agent built from benthic juvenile attributes has the id and lineage keys that the copy and the id fix-up give, as written. stageTransRate is 0 and the statics stay unchanged. |
| BenthicJuvenile.BenthicJuvenileStage.constructor | src/wts/models/DisMELS/IBMs/POP/BenthicJuvenile/BenthicJuvenileStage.java:140-150 | The fields around a new attributes object: the id, numTrans 0, an empty output, and size, weight and the environment at 0. The parameter fields are at their initial values, or taken from the parameters when given. |
| BenthicJuvenile.BenthicJuvenileStage.SetParameters | src/wts/models/DisMELS/IBMs/POP/BenthicJuvenile/BenthicJuvenileStage.java:373-382 | Benthic juvenile parameters are taken with their values and functions; anything else changes nothing. |
| BenthicJuvenile.BenthicJuvenileStage.SetIBMFunctions | src/wts/models/DisMELS/IBMs/POP/BenthicJuvenile/BenthicJuvenileStage.java:387-391 | The growth and mortality functions selected in the parameters. |
| BenthicJuvenile.BenthicJuvenileStage.SetParameterValues | src/wts/models/DisMELS/IBMs/POP/BenthicJuvenile/BenthicJuvenileStage.java:396-413 | Each field takes its parameter, keeping its value when there is none; randomizeTransitions defaults to true. stageTransRate is not assigned. |
| BenthicJuvenile.BenthicJuvenileStage.UpdateAttributes | src/wts/models/DisMELS/IBMs/POP/BenthicJuvenile/BenthicJuvenileStage.java:859-871 | Every kept field is stored under its key, and no other key changes. |
| BenthicJuvenile.BenthicJuvenileStage.UpdateVariables | src/wts/models/DisMELS/IBMs/POP/BenthicJuvenile/BenthicJuvenileStage.java:877-889 | Every kept field is read from its key, keeping its value when the key is absent. |
| BenthicJuvenile.BenthicJuvenileStage.SetStartTime | src/wts/models/DisMELS/IBMs/POP/BenthicJuvenile/BenthicJuvenileStage.java:778-783 | startTime and time become the new time, in the fields and in the attributes. |
| BenthicJuvenile.BenthicJuvenileStage.SetActive | src/wts/models/DisMELS/IBMs/POP/BenthicJuvenile/BenthicJuvenileStage.java:791-794 | active in the field and in the attributes. |
| BenthicJuvenile.BenthicJuvenileStage.SetAlive | src/wts/models/DisMELS/IBMs/POP/BenthicJuvenile/BenthicJuvenileStage.java:802-805 | alive in the field and in the attributes. |
| BenthicJuvenile.BenthicJuvenileStage.Initialize | src/wts/models/DisMELS/IBMs/POP/BenthicJuvenile/BenthicJuvenileStage.java:502-571 | The fields are read from the attributes, time = startTime and numTrans = 0. With a grid, the particle is placed at InitialPos and horizType and vertType become HORIZ_LL and VERT_H. The location and environment are then sampled, and the fields stored. Lineage ids are untouched. |
| BenthicJuvenile.BenthicJuvenileStage.PlaceIn | src/wts/models/DisMELS/IBMs/POP/BenthicJuvenile/BenthicJuvenileStage.java:520-569 | Places the particle at the position from the stored types and positions, with K chosen as InitialK says. Sets the position types, samples location and environment there, and stores the fields. |
| BenthicJuvenile.BenthicJuvenileStage.UpdatePosition | src/wts/models/DisMELS/IBMs/POP/BenthicJuvenile/BenthicJuvenileStage.java:752-759 | The location sampled at the position, with the cell named "I_J" from the rounded indices. |
| BenthicJuvenile.BenthicJuvenileStage.InterpolateEnvVars | src/wts/models/DisMELS/IBMs/POP/BenthicJuvenile/BenthicJuvenileStage.java:761-770 | The eight environmental fields sampled at the position; nothing else changes. |
| BenthicJuvenile.BenthicJuvenileStage.CalcUV | src/wts/models/DisMELS/IBMs/POP/BenthicJuvenile/BenthicJuvenileStage.java:623-672 | attached is set to true and the velocity is zero. |
| BenthicJuvenile.BenthicJuvenileStage.UpdateNum | src/wts/models/DisMELS/IBMs/POP/BenthicJuvenile/BenthicJuvenileStage.java:725-750 | number and numTrans become what AbundanceAfter gives, for the mortality rate at the current temperature and the window test ageInStage >= minStageDuration. Nothing else changes. |
| BenthicJuvenile.BenthicJuvenileStage.UpdateAge | src/wts/models/DisMELS/IBMs/POP/BenthicJuvenile/BenthicJuvenileStage.java:678-685 | age and ageInStage each gain dt/DAY_SECS. alive and active become false exactly when the new ageInStage > maxStageDuration, and nothing else changes. |
| BenthicJuvenile.BenthicJuvenileStage.UpdateSize | src/wts/models/DisMELS/IBMs/POP/BenthicJuvenile/BenthicJuvenileStage.java:691-719 | size becomes GrowSize of the selected growth function, unchanged for any other function; nothing else changes. GrowthCases states what this does to the size. |
| BenthicJuvenile.BenthicJuvenileStage.Step | src/wts/models/DisMELS/IBMs/POP/BenthicJuvenile/BenthicJuvenileStage.java:574-615 | See the Step paragraph after this table. |
| BenthicJuvenile.BenthicJuvenileStage.DecayAndAge | src/wts/models/DisMELS/IBMs/POP/BenthicJuvenile/BenthicJuvenileStage.java:602-603 | updateNum then updateAge, as their own contracts state. |
| BenthicJuvenile.BenthicJuvenileStage.GrowAndSample | src/wts/models/DisMELS/IBMs/POP/BenthicJuvenile/BenthicJuvenileStage.java:604-613 | Location, size and environment at the position. At the grid edge the agent dies and stops and the cell ID is taken from getGridCellID. |
| BenthicJuvenile.BenthicJuvenileStage.CreateMetamorphosedIndividuals | src/wts/models/DisMELS/IBMs/POP/BenthicJuvenile/BenthicJuvenileStage.java:456-493 | Returns the factory's agents. Once the factory returns, a super-individual resets numTrans to 0 and keeps alive and active, while an individual sets alive = active = false. If the factory throws (None), nothing changes. A factory returning null is Some([]): a normal return that resets the pool or ends the individual and adds no agent. |
| BenthicJuvenile.BenthicJuvenileStage.GetMetamorphosedIndividuals | src/wts/models/DisMELS/IBMs/POP/BenthicJuvenile/BenthicJuvenileStage.java:443-454 | The output is cleared. It is filled only when ageInStage + 0.25*dt/DAY_SECS >= minStageDuration, size >= minSize, and the agent is an individual or has numTrans > 0. A super-individual with numTrans not positive (<= 0, or NaN) gets an empty list and keeps its pool. A factory returning null is Some([]): the output stays empty. |
| BenthicJuvenile.BenthicJuvenileStage.SetAttributesFrom | src/wts/models/DisMELS/IBMs/POP/BenthicJuvenile/BenthicJuvenileStage.java:274-279 | Copies the value of every key of getKeys, reads id from the result, and reads the fields back. |
| BenthicJuvenile.BenthicJuvenileStage.TakeValues | src/wts/models/DisMELS/IBMs/POP/BenthicJuvenile/BenthicJuvenileStage.java:276-278 | The copy, the id from the result and the fields read back. |
| BenthicJuvenile.BenthicJuvenileStage.SetAttributesFromRow | src/wts/models/DisMELS/IBMs/POP/BenthicJuvenile/BenthicJuvenileStage.java:240-260 | See the SetAttributesFromRow paragraph after this table. |
| BenthicJuvenile.BenthicJuvenileStage.SettleAndInitialize | src/wts/models/DisMELS/IBMs/POP/BenthicJuvenile/BenthicJuvenileStage.java:243-259 | The id handling as RowLineage says, then initialize on the result. |
| BenthicJuvenile.BenthicJuvenileStage.SettleRowLineage | src/wts/models/DisMELS/IBMs/POP/BenthicJuvenile/BenthicJuvenileStage.java:243-258 | The values and id become those of RowLineage. |
| BenthicJuvenile.BenthicJuvenileStage.Revive | src/wts/models/DisMELS/IBMs/POP/BenthicJuvenile/BenthicJuvenileStage.java:300-303 | ageInStage 0, active and alive are stored, the id is read from the attributes, and the fields are read back. |
| BenthicJuvenile.BenthicJuvenileStage.HandOver | src/wts/models/DisMELS/IBMs/POP/BenthicJuvenile/BenthicJuvenileStage.java:342-349 | Sets the own id, parentID = the old agent's id, number = numTrans, ageInStage 0, and active and alive; then reads the fields back. |
| BenthicJuvenile.BenthicJuvenileStage.SetInfoFromIndividual | src/wts/models/DisMELS/IBMs/POP/BenthicJuvenile/BenthicJuvenileStage.java:286-312 | The old agent's attributes are copied and ageInStage is reset, with active and alive. id, parentID and origID are the old agent's, and the fields read back ageInStage 0, active and alive. |
| BenthicJuvenile.BenthicJuvenileStage.SetInfoFromSuperIndividual | src/wts/models/DisMELS/IBMs/POP/BenthicJuvenile/BenthicJuvenileStage.java:319-358 | The own id is kept, parentID becomes the old agent's id and origID is copied. number = numTrans, ageInStage 0, and active and alive. |
| BenthicJuvenile.BenthicJuvenileStage.CreateInstance | src/wts/models/DisMELS/IBMs/POP/BenthicJuvenile/BenthicJuvenileStage.java:191-214 | For benthic juvenile attributes, a fresh valid agent with their typeName, whose id and lineage keys are those the copy and the id handling as written give. For any other attributes, null: the source's NullPointerException. |
| BenthicJuvenile.BenthicJuvenileStage.TakeCreated | src/wts/models/DisMELS/IBMs/POP/BenthicJuvenile/BenthicJuvenileStage.java:197-212 | The copy and the id handling as written, then initialize, which leaves the lineage keys alone. |
| BenthicJuvenile.BenthicJuvenileStage.SettleCreatedLineage | src/wts/models/DisMELS/IBMs/POP/BenthicJuvenile/BenthicJuvenileStage.java:198-210 | The values and id become those of CreatedLineageAsWritten. |

**Step.** The agent is attached and its position is (I, J, 0), so it stays on
the bottom at the same horizontal indices. Time advances by exactly dt, while
start time and weight keep their values. The abundance is updated as
updateNum says. Both ages gain dt/DAY_SECS, and the size is as updateSize
gives. The environment is sampled at the position the step started from. The
agent dies and stops past maxStageDuration or at the grid edge. Finally, the
fields are stored.

**SetAttributesFromRow.** The outcome is that of setValues. A missing or bad
field leaves the parsed values in place and changes no field. A complete parse
settles the ids as RowLineage says and initializes the agent.

The stage methods follow the code as written: `CreateInstance` and
`NewStageFrom` use CreatedLineageAsWritten. The documented behaviour is
CreatedLineage, and CreatedLineageSetsIds proves what it promises:
a parentID or origID of -1 becomes the new id.

In the same way, the parser `ParseKeys` reports a bad field at its own index
and a missing field past the end of the row. BadValueKey and the corrected
dialog loop state what the two messages should show.

## Left out

- The life-stage factory (`LHS_Factory`) is represented only by its results:
  the new id, the parameters object, and the agents it creates.
  - `createInstance(String[])` (BenthicJuvenileStage.java:166-171) only
    combines the factory with `createInstance(atts)`, so it is not modelled
    separately.
- The ocean interpolator, `LagrangianParticle` and `Math.exp` are oracles.
  - The particle's predictor/corrector advection (581-600) is unreachable
    because calcUV always sets attached.
  - The swimming-speed function, the sunrise/sunset computation and the
    random-walk velocity in calcUV are left out. The first two results are
    unused and the random walk is dead code.
- Tracks and `updateTrack`, `startTrack` and `setLagrangianParticle` in
  setInfoFrom*, the stage's `clone`, and getReport/getReportHeader are left
  out: they are track and particle bookkeeping.
- The trivial getters (getAttributes, getParameters, isActive, isAlive,
  class-name getters, isSuperIndividual) and getSpawnedIndividuals, which only
  clears the output, are not modelled.
- Java doubles are reals, except numTrans, which keeps NaN because updateNum
  can produce it. The decay factors come from an `exp` parameter that is
  positive, equal to 1 at 0 and below 1 for negative arguments.
- The codes of `Types` (HORIZ_LL, VERT_K, ...) and the framework's DAY_SECS
  are from a class that is not part of this model. The position codes are
  distinct placeholder values, and DAY_SECS is 86400.
- The duplicate second ExponentialGrowthFunction branch of updateSize
  (701-706) cannot be reached and has no counterpart.
- The unused minDepth and maxDepth fields have no counterpart.
- The framework base classes AbstractLHSAttributes and AbstractLHSAttributes2
  are each a `BaseSchema` (keys with typeName first, descriptors and defaults).
  - Their own parts of setValues, getCSV and getArrayList are the inputs
    `baseValues`, `baseCSV` and `baseList`.
  - The AbstractLHS part of updateAttributes and updateVariables is assumed to
    store start time, time, active, alive, age, age in stage and number under
    the standard keys.
- `NewAttributes.getNewMapAttributes` is called by finishInstantiation but is
  not in NewAttributes.java; its descriptors are the layout's `newKinds`.
- getCSVHeaderShortNames, getShortNames and getClasses are left out: they
  read descriptor short names and value classes, which are not modelled.
  `getValueAsString` and `parseValue` are the codec.
- The message dialogs and the logger are left out. An exception that setValues
  rethrows is its `MissingValue` or `BadValue` outcome, and the staged
  attributes are returned as null.
- Several fields of one object are grouped into records: the kept fields
  into `Variables`, the parameter fields into `Settings` and the particle
  position into `Pos`. initialize and step are split into helper methods
  (PlaceIn, DecayAndAge, GrowAndSample) that run the same statements in the
  same order.
- AttributeSchema.StageAttributes.constructor fills the statics before it
  sets the instance's map, while the Java constructor chain stores the base
  defaults first. The two touch disjoint state.
- `getValue(key, default)` on a value of another type throws a
  ClassCastException in Java. LongOr, IntOr, RealOr and BoolOr return the
  default instead.
- BenthicJuvenile.BenthicJuvenileStage.Step: assumes the interpolator is
  present; step with a null i3d ends in a NullPointerException that is not
  modelled. It also assumes that `lp.getIJK()` returns a copy that the
  following `lp.setIJK` does not alias, so the environment and the grid-edge
  test are sampled at the position from before the bottom-pinning.
- BenthicJuvenile.BenthicJuvenileStage.CreateInstance: states the new agent's
  typeName, validity, id and lineage keys. It does not state the rest of the
  values after initialize, which Initialize's own contract states.
  The keys it copies are read from theAtts before the new agent is
  constructed; constructing an agent does not change theAtts' keys. For
  attributes of another class the Java method throws a NullPointerException
  (initialize on a null agent); the model returns null instead.
- BenthicJuvenile.NewStageFrom: states the id and lineage keys of the new
  agent, as CreateInstance does, not its whole state.
- BenthicJuvenile.BenthicJuvenileStage.TakeCreated: states the id and lineage
  keys only. The rest of the state is Initialize's contract.
- BenthicJuvenile.BenthicJuvenileStage.SetInfoFromSuperIndividual: requires
  the old agent's attributes object to differ from this agent's, and to hold
  an id. The Java method does not check this; the framework always passes a
  different agent.

## Findings

| source | as written | input that shows it | evidently intended | confidence | as-written member | corrected member |
|---|---|---|---|---|---|---|
| src/wts/models/DisMELS/IBMs/POP/BenthicJuvenile/BenthicJuvenileStage.java:203-210 | a parentID or origID of -1 is written back as -1 | attributes with id 7, parentID -1, origID -1 | set parentID and origID to the id, as the comment at 180-181 says | high; not executed | BenthicJuvenileRules.CreatedLineageAsWrittenExample | BenthicJuvenileRules.CreatedLineageSetsIds |
| src/wts/models/DisMELS/IBMs/POP/AbstractPOPAttributes.java:254 | the bad-value message names aKeys[j-2] | any row whose field at index i (i >= 1) fails to parse: the message names allKeys[i-1] | aKeys[j-1], the key of the quoted field strv[j-1] | high; not executed | AttributeRows.BadValueKeyAsWrittenIsWrong | AttributeRows.BadValueKeyNamesRejectedKey |
| src/wts/models/DisMELS/IBMs/POP/AbstractPOPAttributes.java:244 | the "Prior values" loop reads strv[i] for i < j, where j = strv.length + 1 | any row too short for the new keys | stop at i < j - 1, listing every field of the row | high; not executed | AttributeRows.MissingValueDialogAsWrittenFails | AttributeRows.MissingValueDialogLists |

The same two message defects recur in LarvaStageAttributes.java (289-291,
301) and AdultStageAttributes.java (228-230, 240).
