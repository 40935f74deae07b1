# jrgen in Dafny

jrgen is a Java library that fills objects with random values. A
`JrgenContext` owns four things:

- the `Settings`: bounds on numbers, string alphabets, container sizes and
  the year range;
- a `DefaultWorkflow`: an ordered list of type builders;
- an `AbstractTypeHandler`: the concrete class to use for an interface;
- a mapping from classes to JSON configurations.

The configurations name candidate values per property. `generate` asks each
type builder in turn for an object of the requested type. The first builder
that does not answer null decides. These are the builders:

- primitive and wrapper scalars, drawn by `DefaultGenerator`;
- enums;
- arrays, collections and maps, whose elements are generated recursively;
- configuration-based beans, whose properties come from the configuration
  candidates, from a per-field configuration, or recursively from the workflow;
- immutable classes, built through a constructor from positional data.

The model follows the library's own split into modules:

- `Types`: the value and type universe.
- `JrgenUtil`: validation, and the bounded draw `getNumberFromRange`.
- `Draws`: `java.util.Random`, as nondeterministic choice.
- `Settings`: the settings class and its default values.
- `DefaultGenerator`: scalar values.
- `Configuration`: `ConfigurationImpl`, with `equals` and `hashCode`.
- `AbstractTypeHandler` and `TransientPropertyHandler`.
- `Workflow`: `DefaultWorkflow`'s list of builders.
- `Environment`: the value snapshot a generation reads. It holds the
  settings, the mapping and the registrations. It also holds the reflection
  and Jackson "oracles":
  - `describe`: the bean properties of a class;
  - `convert`: `ObjectMapper.convertValue`;
  - `constructors` and `newInstance`;
  - `custom`: user-supplied builders;
  - `findClass`: `Class.forName`.
- `ScalarBuilders`, `Containers`, `ConfigurationResolution` and
  `ImmutableBuilder`: the type builders.
- `Engine`: the workflow pass and the builders that recurse into it. A
  `fuel` parameter counts the nested workflow calls that are still allowed.
  Running out of fuel is the `StackOverflowError` a cyclic type would cause.
- `JrgenContext`: the facade.

How the model represents the Java program:

- Exceptions are `Result.Err` and `Status.Threw` values.
- Java `null` is `None` or the value `Null`.
- Random draws are nondeterministic choices; the model makes no claim about
  their distribution.
- The clock's current year is a parameter.

## Model

| member | source | states |
|---|---|---|
| JrgenUtil.ValidateMaxMin | src/main/java/com/github/jrgen/util/JrgenUtil.java:111-115 | throws, with the min-greater-than-max error, exactly when max < min |
| JrgenUtil.ValidatePositiveNumber | src/main/java/com/github/jrgen/util/JrgenUtil.java:140-144 | throws exactly for a negative number; zero passes |
| JrgenUtil.ValidateNonNullArgument | src/main/java/com/github/jrgen/util/JrgenUtil.java:154-163 | throws an IllegalArgumentException exactly for null |
| JrgenUtil.NumberFromRangeAsWritten | src/main/java/com/github/jrgen/util/JrgenUtil.java:91-99 | the range draw as written, in 64-bit arithmetic; fails exactly when max < min |
| JrgenUtil.NumberFromRange | src/main/java/com/github/jrgen/util/JrgenUtil.java:91-99 | the documented draw: fails exactly when max < min; otherwise lies in [min, max] |
| JrgenUtil.NumberFromRangeReachesAll | src/main/java/com/github/jrgen/util/JrgenUtil.java:91-99 | every value of [min, max] is the result of some draw |
| JrgenUtil.AsWrittenNeverReachesMax | src/main/java/com/github/jrgen/util/JrgenUtil.java:95-98 | as written, a range wider than one never yields max |
| JrgenUtil.AsWrittenDefaultContainerRange | src/main/java/com/github/jrgen/util/JrgenUtil.java:98 | as written, the range [0, 10] of random container sizes never yields 10 |
| JrgenUtil.AsWrittenOverflowsWideRange | src/main/java/com/github/jrgen/util/JrgenUtil.java:98 | as written, max - min wraps for [-2^62, 2^62]; the draw at 0.5 gives Long.MIN_VALUE, below min |
| JrgenUtil.AsWrittenInRangeForInt32Bounds | src/main/java/com/github/jrgen/util/JrgenUtil.java:91-99 | as written, int-sized bounds give a value in [min, max] |
| Draws.NumberFromRange | src/main/java/com/github/jrgen/util/JrgenUtil.java:91-99 | a fresh draw fails exactly when max < min; otherwise it lies in [min, max] |
| Settings.Defaults | src/main/java/com/github/jrgen/settings/Settings.java:155-190 | the default values respect the non-negative size and length bounds; container sizes are random, with minContainerSize <= maxContainerSize, so the default size draw never throws (see Containers.ContainerSize) |
| Settings.Settings.GetInstance | src/main/java/com/github/jrgen/settings/Settings.java:155-190 | the new settings hold the defaults; the maximum year is the current year; the only resource is /jrgen-resources |
| Settings.Settings.AddResource | src/main/java/com/github/jrgen/settings/Settings.java:211-213 | adds to the live resource set: insertion order, no duplicates, other settings unchanged |
| Settings.Settings.ClearResources | src/main/java/com/github/jrgen/settings/Settings.java:211-213 | empties the live resource set and keeps the other settings |
| Settings.Settings.SetMaxContainerSize | src/main/java/com/github/jrgen/settings/Settings.java:234-241 | rejects a negative value and changes nothing; otherwise stores it and only it |
| Settings.Settings.SetMinContainerSize | src/main/java/com/github/jrgen/settings/Settings.java:262-269 | rejects a negative value and changes nothing; otherwise stores it and only it |
| Settings.Settings.SetDefaultStringLength | src/main/java/com/github/jrgen/settings/Settings.java:474-481 | rejects a negative value and changes nothing; otherwise stores it and only it |
| Settings.Settings.SetDefaultContainerSize | src/main/java/com/github/jrgen/settings/Settings.java:288-290 | stores the value unchecked; nothing else changes |
| Settings.Settings.SetRandomContainerSize | src/main/java/com/github/jrgen/settings/Settings.java:318-320 | stores the flag; nothing else changes |
| Settings.Settings.SetNullOnEmptySet | src/main/java/com/github/jrgen/settings/Settings.java:344-346 | stores the flag; nothing else changes |
| Settings.Settings.SetNotNull | src/main/java/com/github/jrgen/settings/Settings.java:374-376 | stores the flag; nothing else changes |
| Settings.Settings.SetAlphaUsed | src/main/java/com/github/jrgen/settings/Settings.java:400-402 | stores the flag; nothing else changes |
| Settings.Settings.SetDigitsUsed | src/main/java/com/github/jrgen/settings/Settings.java:426-428 | stores the flag; nothing else changes |
| Settings.Settings.SetSpecialsUsed | src/main/java/com/github/jrgen/settings/Settings.java:452-454 | stores the flag; nothing else changes |
| Settings.Settings.SetMaxIntValue | src/main/java/com/github/jrgen/settings/Settings.java:499-501 | stores the bound unchecked; nothing else changes |
| Settings.Settings.SetMinIntValue | src/main/java/com/github/jrgen/settings/Settings.java:519-521 | stores the bound unchecked; nothing else changes |
| Settings.Settings.SetGenerateUndefined | src/main/java/com/github/jrgen/settings/Settings.java:543-545 | stores the flag; nothing else changes |
| Settings.Settings.SetMaxLongValue | src/main/java/com/github/jrgen/settings/Settings.java:563-565 | stores the bound unchecked; nothing else changes |
| Settings.Settings.SetMinLongValue | src/main/java/com/github/jrgen/settings/Settings.java:583-585 | stores the bound unchecked; nothing else changes |
| Settings.Settings.SetMinYear | src/main/java/com/github/jrgen/settings/Settings.java:605-607 | stores the bound unchecked; nothing else changes |
| Settings.Settings.SetMaxYear | src/main/java/com/github/jrgen/settings/Settings.java:627-629 | stores the bound unchecked; nothing else changes |
| Settings.Settings.SetMinShortValue | src/main/java/com/github/jrgen/settings/Settings.java:649-651 | stores the bound unchecked; nothing else changes |
| Settings.Settings.SetMaxShortValue | src/main/java/com/github/jrgen/settings/Settings.java:671-673 | stores the bound unchecked; nothing else changes |
| Settings.Settings.SetMaxByteValue | src/main/java/com/github/jrgen/settings/Settings.java:693-695 | stores the bound unchecked; nothing else changes |
| Settings.Settings.SetMinByteValue | src/main/java/com/github/jrgen/settings/Settings.java:715-717 | stores the bound unchecked; nothing else changes |
| DefaultGenerator.ToUpper | src/main/java/com/github/jrgen/generator/DefaultGenerator.java:115-156 | upper-casing a lower-case letter gives an upper-case letter |
| DefaultGenerator.AlphabetsAreRanges | src/main/java/com/github/jrgen/generator/DefaultGenerator.java:59-61 | the alphabet constants hold lower-case letters, digits, and specials that are neither |
| DefaultGenerator.Choices | src/main/java/com/github/jrgen/generator/DefaultGenerator.java:115-156 | a character class is offered exactly when its flag is set |
| DefaultGenerator.CreateCharacter | src/main/java/com/github/jrgen/generator/DefaultGenerator.java:101-105 | a lower-case letter or a digit |
| DefaultGenerator.CreateString | src/main/java/com/github/jrgen/generator/DefaultGenerator.java:115-156 | null exactly when no class is enabled; otherwise defaultStringLength characters, each from an enabled class |
| DefaultGenerator.DefaultStringsHaveNoSpecials | src/main/java/com/github/jrgen/settings/Settings.java:155-190 | under the default settings a string character is a letter or a digit, never a special |
| DefaultGenerator.CreateDate | src/main/java/com/github/jrgen/generator/DefaultGenerator.java:247-265 | negative year bounds and inverted year bounds are the two errors; otherwise a real calendar date with the year in range |
| DefaultGenerator.DateAsWritten | src/main/java/com/github/jrgen/generator/DefaultGenerator.java:255-264 | the date the lenient calendar makes of the drawn 0-based day index: always a real date; a non-zero index is kept as the day; index 0 rolls back to the last day of the month before |
| DefaultGenerator.AsWrittenDateLeavesYearRange | src/main/java/com/github/jrgen/generator/DefaultGenerator.java:258-262 | as written, day index 0 in January gives 31 December of the year before minYear, outside the range |
| DefaultGenerator.AsWrittenMissesLastDay | src/main/java/com/github/jrgen/generator/DefaultGenerator.java:258-262 | as written, the last day of a month is never produced |
| DefaultGenerator.CreateValue | src/main/java/com/github/jrgen/generator/DefaultGenerator.java:278-331 | an unsupported class is an error; a scalar class fails exactly under bad bounds; otherwise the value conforms to the settings |
| Configuration.ConfigurationImpl.constructor | src/main/java/com/github/jrgen/configuration/ConfigurationImpl.java:27-29 | all fields are null |
| Configuration.ConfigurationImpl.WithFields | src/main/java/com/github/jrgen/configuration/ConfigurationImpl.java:41-47 | stores the three fields as given |
| Configuration.ConfigurationImpl.SetResource | src/main/java/com/github/jrgen/configuration/ConfigurationImpl.java:50-52 | replaces the resource only |
| Configuration.ConfigurationImpl.SetNamespaces | src/main/java/com/github/jrgen/configuration/ConfigurationImpl.java:76-78 | replaces the namespaces only |
| Configuration.ConfigurationImpl.SetData | src/main/java/com/github/jrgen/configuration/ConfigurationImpl.java:87-89 | replaces the data only |
| Configuration.ConfigurationImpl.Equals | src/main/java/com/github/jrgen/configuration/ConfigurationImpl.java:104-128 | equal exactly when the other is non-null with the same three fields |
| Configuration.ConfigurationImpl.HashCode | src/main/java/com/github/jrgen/configuration/ConfigurationImpl.java:92-101 | 31-based combination of the three field hashes, null hashing to 0, congruent modulo 2^32 to the exact value; all-null fields give 29791 |
| Configuration.Wrap32 | src/main/java/com/github/jrgen/configuration/ConfigurationImpl.java:92-101 | the result is congruent to its argument modulo 2^32, as int arithmetic wraps |
| Configuration.EqualsSymmetric | src/main/java/com/github/jrgen/configuration/ConfigurationImpl.java:104-128 | equals is symmetric |
| Configuration.EqualsConsistentWithHashCode | src/main/java/com/github/jrgen/configuration/ConfigurationImpl.java:92-128 | equal configurations have equal hash codes |
| Configuration.EmptyConfigurationHash | src/main/java/com/github/jrgen/configuration/ConfigurationImpl.java:92-101 | all-null fields hash to 29791 |
| AbstractTypeHandler.FindAbstractType | src/main/java/com/github/jrgen/typehandler/AbstractTypeHandler.java:59-61 | the registered class exactly when one is registered |
| AbstractTypeHandler.FindAbstractTypeAsJavaType | src/main/java/com/github/jrgen/typehandler/AbstractTypeHandler.java:72-77 | the lookup goes by the raw class of the type |
| AbstractTypeHandler.FindAbstractTypeDefaultJavaType | src/main/java/com/github/jrgen/typehandler/AbstractTypeHandler.java:91-95 | the registered replacement, or the type itself when none is registered |
| AbstractTypeHandler.SubstitutionIdempotent | src/main/java/com/github/jrgen/typehandler/AbstractTypeHandler.java:91-95 | substituting twice is substituting once when no replacement is itself registered |
| AbstractTypeHandler.AbstractTypeHandler.constructor | src/main/java/com/github/jrgen/typehandler/AbstractTypeHandler.java:47-49 | starts with no registrations |
| AbstractTypeHandler.AbstractTypeHandler.RegisterAbstractType | src/main/java/com/github/jrgen/typehandler/AbstractTypeHandler.java:108-111 | adds or overwrites one registration |
| AbstractTypeHandler.AbstractTypeHandler.RemoveAbstractType | src/main/java/com/github/jrgen/typehandler/AbstractTypeHandler.java:122-124 | removes one registration and returns the previous one |
| AbstractTypeHandler.AbstractTypeHandler.RemoveAllAbstractTypes | src/main/java/com/github/jrgen/typehandler/AbstractTypeHandler.java:130-132 | no registrations remain |
| TransientPropertyHandler.TransientPropertyHandler.constructor | src/main/java/com/github/jrgen/typehandler/TransientPropertyHandler.java:40-42 | the map is empty |
| TransientPropertyHandler.TransientPropertyHandler.FromMap | src/main/java/com/github/jrgen/typehandler/TransientPropertyHandler.java:53-58 | a null map is rejected; otherwise it is stored |
| TransientPropertyHandler.TransientPropertyHandler.AddProperties | src/main/java/com/github/jrgen/typehandler/TransientPropertyHandler.java:70-82 | the class's set gains the properties; other classes are unchanged |
| TransientPropertyHandler.TransientPropertyHandler.AddPropertiesOfType | src/main/java/com/github/jrgen/typehandler/TransientPropertyHandler.java:93-95 | the raw class's set gains the properties; every other class keeps its set |
| TransientPropertyHandler.TransientPropertyHandler.Remove | src/main/java/com/github/jrgen/typehandler/TransientPropertyHandler.java:106-108 | removes the class's entry and returns the previous set |
| TransientPropertyHandler.TransientPropertyHandler.RemoveProperties | src/main/java/com/github/jrgen/typehandler/TransientPropertyHandler.java:121-136 | false and no change for an unknown class; otherwise the properties leave the set |
| TransientPropertyHandler.TransientPropertyHandler.RemovePropertiesOfType | src/main/java/com/github/jrgen/typehandler/TransientPropertyHandler.java:147-149 | false and no change for a raw class without an entry; otherwise true exactly when a name was present, the names leave the set, and an emptied set loses its entry |
| TransientPropertyHandler.TransientPropertyHandler.GetProperties | src/main/java/com/github/jrgen/typehandler/TransientPropertyHandler.java:160-162 | the set for the raw class, or null when there is none |
| TransientPropertyHandler.TransientPropertyHandler.SetTransientPropertiesMap | src/main/java/com/github/jrgen/typehandler/TransientPropertyHandler.java:185-190 | a null map is rejected with no change; otherwise it replaces the map |
| TransientPropertyHandler.AddThenRemove | src/main/java/com/github/jrgen/typehandler/TransientPropertyHandler.java:70-136 | calling addProperties and then removeProperties with the same names on a class without an entry restores the handler's map, and reports a removal exactly when a name was given |
| Workflow.DefaultWorkflow.constructor | src/main/java/com/github/jrgen/workflow/DefaultWorkflow.java:36-38 | no builders |
| Workflow.DefaultWorkflow.FindTypeBuilder | src/main/java/com/github/jrgen/workflow/DefaultWorkflow.java:55-65 | found exactly when the builder is in the list, at a position that holds it |
| Workflow.DefaultWorkflow.AddTypeBuilder | src/main/java/com/github/jrgen/workflow/DefaultWorkflow.java:68-70 | appends one builder |
| Workflow.DefaultWorkflow.AddTypeBuilders | src/main/java/com/github/jrgen/workflow/DefaultWorkflow.java:84-86 | appends the builders in order |
| Workflow.DefaultWorkflow.RemoveTypeBuilder | src/main/java/com/github/jrgen/workflow/DefaultWorkflow.java:73-76 | true exactly when the builder was present; then its first occurrence is removed and the rest keep their order |
| Workflow.AddThenRemove | src/main/java/com/github/jrgen/workflow/DefaultWorkflow.java:68-76 | calling addTypeBuilder and then removeTypeBuilder with a builder the list lacks finds it and restores the list |
| Environment.Convert | src/main/java/com/github/jrgen/typebuilder/ImmutableTypeBuilder.java:98-136 | null converts to null; a value that cannot be converted is an IllegalArgumentException |
| ScalarBuilders.PrimitiveBuild | src/main/java/com/github/jrgen/typebuilder/PrimitiveTypeBuilder.java:47-65 | null for a non-scalar class or bad bounds; otherwise a value that conforms to the settings, primitives via their wrapper class |
| ScalarBuilders.DefaultsAdmitEveryScalar | src/main/java/com/github/jrgen/typebuilder/PrimitiveTypeBuilder.java:47-65 | under the default settings every scalar class can be generated |
| ScalarBuilders.EnumBuild | src/main/java/com/github/jrgen/typebuilder/EnumTypeBuilder.java:40-53 | null for a non-enum; an error for an enum without constants; otherwise one of its constants |
| Containers.ContainerSize | src/main/java/com/github/jrgen/typebuilder/ListLikeTypeBuilder.java:37-69 | a random size fails exactly on inverted bounds; otherwise the size is allowed by the settings |
| Containers.RandomSizesAreNatural | src/main/java/com/github/jrgen/typebuilder/ListLikeTypeBuilder.java:37-69 | under valid settings a random size is non-negative |
| Containers.EmptyCollection | src/main/java/com/github/jrgen/typebuilder/CollectionTypeBuilder.java:46-63 | an empty list or set of the requested shape |
| Containers.EmptyMap | src/main/java/com/github/jrgen/typebuilder/MapTypeBuilder.java:47-87 | an empty map |
| Containers.CopyIntoCollection | src/main/java/com/github/jrgen/typebuilder/CollectionTypeBuilder.java:52-58 | as written, a null array is a NullPointerException; otherwise the elements are added to the collection |
| Containers.MapOfPairsKeys | src/main/java/com/github/jrgen/typebuilder/MapTypeBuilder.java:47-87 | the keys are exactly the drawn keys, and there are no more entries than draws |
| Containers.MapOfPairsLastWins | src/main/java/com/github/jrgen/typebuilder/MapTypeBuilder.java:47-87 | a key drawn twice keeps its last value |
| Containers.MapOfPairsDistinct | src/main/java/com/github/jrgen/typebuilder/MapTypeBuilder.java:47-87 | distinct keys give one entry per draw |
| ConfigurationResolution.ResolveByObjectConfig | src/main/java/com/github/jrgen/typebuilder/ConfigurationBasedTypeBuilder.java:111-128 | fails exactly when a property has no candidates; otherwise each property gets one of its candidates |
| ConfigurationResolution.ResolveByFieldConfig | src/main/java/com/github/jrgen/typebuilder/ConfigurationBasedTypeBuilder.java:130-153 | fails exactly when an unstaged field's configuration has an empty candidate list; keeps staged values; an unstaged configured field gains a map drawn from its configuration exactly when that configuration has data; nothing else is added |
| Types.MissingExactly | src/main/java/com/github/jrgen/typebuilder/ConfigurationBasedTypeBuilder.java:162-172 | the properties the workflow is asked for are exactly the described ones whose name is not yet staged |
| ImmutableBuilder.ParseInt | src/main/java/com/github/jrgen/typebuilder/ImmutableTypeBuilder.java:77-96 | Integer.valueOf: an optional sign and digits within the int range |
| ImmutableBuilder.ToDecimal | src/main/java/com/github/jrgen/typebuilder/ImmutableTypeBuilder.java:77-96 | a non-empty string of digits |
| ImmutableBuilder.ParseIntOfDecimal | src/main/java/com/github/jrgen/typebuilder/ImmutableTypeBuilder.java:77-96 | parsing the decimal of an index gives the index back |
| ImmutableBuilder.ConfigDataToArray | src/main/java/com/github/jrgen/typebuilder/ImmutableTypeBuilder.java:77-96 | empty data gives null; fails exactly when a drawn property is not a valid index; otherwise each slot is drawn from its property |
| ImmutableBuilder.PositionalDataFillsEverySlot | src/main/java/com/github/jrgen/typebuilder/ImmutableTypeBuilder.java:77-96 | properties "0".."n-1" fill every slot from their own candidates |
| ImmutableBuilder.ConvertAll | src/main/java/com/github/jrgen/typebuilder/ImmutableTypeBuilder.java:98-136 | succeeds exactly when every argument converts, with the converted values |
| ImmutableBuilder.FirstConstructedIsFirstSuccess | src/main/java/com/github/jrgen/typebuilder/ImmutableTypeBuilder.java:98-136 | the object comes from the first constructor that succeeds, and every earlier constructor failed |
| ImmutableBuilder.ConvertArrayToObject | src/main/java/com/github/jrgen/typebuilder/ImmutableTypeBuilder.java:98-136 | the loop returns the first constructed object, or null |
| ImmutableBuilder.ImmutableBuild | src/main/java/com/github/jrgen/typebuilder/ImmutableTypeBuilder.java:64-75 | null without an exact configuration or with empty data; fails exactly on a bad index; otherwise, in both directions, the object the first workable constructor makes from the drawn slots, and null exactly when none works |
| Engine.Decision | src/main/java/com/github/jrgen/workflow/DefaultWorkflow.java:41-52 | null exactly when every builder declined; otherwise one of the outcomes |
| Engine.DecisionIsFirstDecisive | src/main/java/com/github/jrgen/workflow/DefaultWorkflow.java:43-48 | the decision is the first outcome that is not null |
| Engine.DecisionAfterNulls | src/main/java/com/github/jrgen/workflow/DefaultWorkflow.java:41-52 | after only null outcomes, the last outcome decides |
| Engine.Dispatch | src/main/java/com/github/jrgen/workflow/DefaultWorkflow.java:41-52 | asks the builders in list order and returns the first outcome that is not null: each outcome admissible for its builder, every earlier one null, the pass stopping only at a decisive outcome; no fuel left is a stack overflow |
| Engine.BuildWith | src/main/java/com/github/jrgen/workflow/DefaultWorkflow.java:41-65 | each builder's outcome is admissible for it (guard, exceptions, shape); an array's or collection's elements are the slots' workflow results in order, a map holds the put of its converted key/value results, and a configured object is its staged phases converted |
| Engine.DefaultWorkflowBuildsEnums | src/main/java/com/github/jrgen/context/JrgenContext.java:447-464 | with the default builders, an enum with constants yields one of them |
| Engine.PrimitiveFirstBuildsScalars | src/main/java/com/github/jrgen/typebuilder/PrimitiveTypeBuilder.java:47-65 | with the primitive builder first and good bounds, a scalar class yields a conforming value |
| Engine.ListLikeBuild | src/main/java/com/github/jrgen/typebuilder/ListLikeTypeBuilder.java:37-69 | bad bounds and negative sizes fail; size 0 gives null or empty by nullOnEmptySet; otherwise slot i holds the object of the i-th workflow call for the element type, and an exception or a null for a primitive slot ends the build |
| Engine.ArrayBuild | src/main/java/com/github/jrgen/typebuilder/ArrayTypeBuilder.java:42-49 | null for non-arrays; otherwise the list-like builder's array, slots and exceptions |
| Engine.CollectionBuild | src/main/java/com/github/jrgen/typebuilder/CollectionTypeBuilder.java:46-63 | null for non-collections; exceptions of the list-like builder pass through; a null array gives null; otherwise a list of the array's elements in order, or the set of them |
| Engine.MapBuild | src/main/java/com/github/jrgen/typebuilder/MapTypeBuilder.java:47-87 | null for non-maps; size 0 gives null or empty by nullOnEmptySet; otherwise one slot per draw, and the map is the put, in slot order, of each slot's converted key and value results, a null key making no value call and no entry; the first exception of a slot ends the build |
| Engine.MapSlotBuild | src/main/java/com/github/jrgen/typebuilder/MapTypeBuilder.java:78-83 | one loop iteration: a workflow call for the key, one for the value only when the key is not null, then the entry of both converted, none, or the exception |
| Engine.PutSlots | src/main/java/com/github/jrgen/typebuilder/MapTypeBuilder.java:77-84 | n slots in order, the map being the put of their entries; the first exception ends the loop |
| Engine.EntriesStep | src/main/java/com/github/jrgen/typebuilder/MapTypeBuilder.java:81-82 | a slot's entry updates the map built so far, a later equal key replacing the earlier |
| Engine.FillMissing | src/main/java/com/github/jrgen/typebuilder/ConfigurationBasedTypeBuilder.java:155-173 | the workflow is asked, in description order, for exactly the described properties not yet staged; each is stored with its call's object; staged entries stay; an exception ends the fill and is the last call's |
| Engine.ResolveUndefined | src/main/java/com/github/jrgen/typebuilder/ConfigurationBasedTypeBuilder.java:175-195 | a type without properties leaves the nested map; otherwise the map's missing properties of that type are filled, each with its own workflow call's object |
| Engine.GenerateDefaultsForUndefined | src/main/java/com/github/jrgen/typebuilder/ConfigurationBasedTypeBuilder.java:197-214 | nothing when generateUndefined is off; a nested map under an undescribed key fails; keys are kept; each nested map is completed by the workflow calls for its declared type, other values stay |
| Engine.CompleteByWorkflow | src/main/java/com/github/jrgen/typebuilder/ConfigurationBasedTypeBuilder.java:101-105 | when generateUndefined is set, the workflow fills the missing properties and then completes the nested maps; every described property ends staged, only described ones are added, staged values are kept or extended; otherwise nothing changes |
| Engine.ConfigBuild | src/main/java/com/github/jrgen/typebuilder/ConfigurationBasedTypeBuilder.java:76-109 | empty candidates fail; an undescribed class gives null; otherwise the phases ran in order (object configuration, field configurations, workflow fill, nested completion) and the result is their staged map converted to the substituted class, null when empty |
| Engine.PhasesSummary | src/main/java/com/github/jrgen/typebuilder/ConfigurationBasedTypeBuilder.java:76-109 | what the phases stage: only configured or described properties, each configured one from its candidates, and every described one when generateUndefined is set |
| Engine.Target | src/main/java/com/github/jrgen/typebuilder/ConfigurationBasedTypeBuilder.java:72-80 | the class is substituted through the handler the builder captured when it was made |
| Engine.ObjectData | src/main/java/com/github/jrgen/typebuilder/ConfigurationBasedTypeBuilder.java:83-87 | the candidates of the configuration registered for exactly that class, none without one |
| JrgenContext.AddAll | src/main/java/com/github/jrgen/context/JrgenContext.java:205-225 | LinkedHashSet.addAll: union, prefix kept, no duplicates introduced |
| JrgenContext.MappingOfDomain | src/main/java/com/github/jrgen/context/JrgenContext.java:475-487 | a class is mapped exactly when some configuration names it |
| JrgenContext.MappingOfLastWins | src/main/java/com/github/jrgen/context/JrgenContext.java:475-487 | a mapped class maps to the last configuration naming it |
| JrgenContext.MappingOfUnique | src/main/java/com/github/jrgen/context/JrgenContext.java:475-487 | a class named by one configuration maps to it |
| JrgenContext.JrgenContext.constructor | src/main/java/com/github/jrgen/context/JrgenContext.java:145-154 | uninitialised, empty mapping, fresh empty workflow and handler; the configuration builder's handler is that handler |
| JrgenContext.JrgenContext.InitializeWorkflow | src/main/java/com/github/jrgen/context/JrgenContext.java:447-464 | with no builders set, installs the seven default builders in order in both lists, the configuration builder capturing the current handler; otherwise changes nothing |
| JrgenContext.JrgenContext.BuildConfigurationMapping | src/main/java/com/github/jrgen/context/JrgenContext.java:475-487 | succeeds exactly when every configuration has namespaces, and then adds MappingOf; otherwise a NullPointerException |
| JrgenContext.JrgenContext.MapNamespaces | src/main/java/com/github/jrgen/context/JrgenContext.java:478-485 | adds one configuration's classes |
| JrgenContext.JrgenContext.InitializeContext | src/main/java/com/github/jrgen/context/JrgenContext.java:205-225 | adds the loaded configurations, installs the workflow (capturing the handler), builds the mapping, and is initialised exactly when that succeeds |
| JrgenContext.JrgenContext.Generate | src/main/java/com/github/jrgen/context/JrgenContext.java:268-282 | not initialised is an error; otherwise the workflow's decision for the type, a null one replaced by the empty map converted to the type when isNotNull is set |
| JrgenContext.JrgenContext.GenerateN | src/main/java/com/github/jrgen/context/JrgenContext.java:343-351 | a non-positive count gives an empty list; otherwise count elements, each what one generate call for the type returns; an exception ends the list and is that call's |
| JrgenContext.JrgenContext.GenerateMap | src/main/java/com/github/jrgen/context/JrgenContext.java:322-329 | what generate returns for the map type with those key and value types |
| JrgenContext.JrgenContext.SetSettings | src/main/java/com/github/jrgen/context/JrgenContext.java:358-360 | replaces the settings only |
| JrgenContext.JrgenContext.SetWorkflow | src/main/java/com/github/jrgen/context/JrgenContext.java:367-369 | replaces the workflow only |
| JrgenContext.JrgenContext.SetTypeBuilders | src/main/java/com/github/jrgen/context/JrgenContext.java:378-380 | replaces the builder list only |
| JrgenContext.JrgenContext.SetAbstractTypeHandler | src/main/java/com/github/jrgen/context/JrgenContext.java:439-441 | replaces the handler only; the configuration builder keeps the handler it captured |

## Left out

- Float, double and BigDecimal values and their bounds are left out. So are the float setters and `getNumberFromRange(double, double)`. Floating scalars are produced as `FloatingV` without a value.
- JSON resource loading and file I/O are left out. The configurations read from the resources are given to `InitializeContext` as a value.
- Jackson's `ObjectMapper` and Java reflection are left out. They are oracles in the environment: bean description, conversion, constructors, instantiation, custom builders and class lookup. So is the object-mapper getter and setter.
- Messages, logging and `toString` are left out.
- Settings `getExtension` is left out.
- The model uses values, not shared references:
  - the type map holds configuration values, not references to them;
  - `getResources` and `getTransientPropertiesMap` return live objects; the model offers `AddResource` and `ClearResources` instead;
  - resolving undefined properties mutates the shared JSON candidate maps in place; the model returns a new map.
- Engine.GenerateDefaultsForUndefined: only nested records are descended into; map values (`MapV`) are not.
- Null candidate lists, and element-type mismatches in `Array.set`, are left out. The one mismatch modelled is a null into a primitive array.
- Converting the empty collection or map to the requested class is assumed to succeed. A `ClassCastException` from a `TreeSet` is left out.
- ImmutableBuilder.ParseInt: accepts ASCII digits only. `Integer.valueOf` also accepts other Unicode digits.
- The order of the public constructors is the order the oracle gives.
- The `Class` overload `generate(Class, int)` behaves as `generate(JavaType, int)` and is not modelled apart. The map overload `generate(Class, Class, Class)` is `GenerateMap`.
- Only `DefaultWorkflow` is modelled; other `Workflow` implementations are not.
- Null arguments to setters are not modelled, because references are non-null here.
- JrgenContext `getTypeMap` returns an unmodifiable view. The model reads the map field directly.
- JrgenUtil.NumberFromRangeAsWritten: the double product `nextDouble() * (max - min)` is taken exactly, without rounding to 53 bits.
- DefaultGenerator.CreateDate: the corrected date never gives 29 February, because the month table gives February 28 days. The model does not decide leap years for that date. The as-written `DateAsWritten` can give 29 February, when index 0 in a leap year's March rolls back.
- Engine.Dispatch: stack depth is modelled as `fuel`. `StackOverflowError` is the `Err(StackOverflow)` outcome when the fuel runs out.
- The transient property handler is not consulted by the builders, as in the source.
- Engine.ArrayBuild is a method rather than a function, because it delegates to the imperative list-like builder.
- Engine.Dispatch: each recorded outcome carries its builder's guard, exceptions and shape (`Admissible`). The ties of contents to nested workflow calls are stated by `BuildWith` and by each builder, and are not passed up through the pass.
- Engine.BuildWith: each builder's ghost record (the drawn size, the slots' calls, the phases) appears only inside an existential. The bound of a set collection's size by the drawn size is not passed on.
- Draws.NumberFromRange: generation (`ContainerSize`, `CreateValue`, `CreateDate`) uses the documented inclusive draw, not the as-written `NumberFromRangeAsWritten`. Generated sizes and numbers can reach max, and wide long ranges do not overflow.
- DefaultGenerator.CreateDate: generation uses the corrected day (index + 1). The as-written roll-back into the month or year before (`DateAsWritten`) is not generated.
- Engine.CollectionBuild: generation gives null for a null array, the corrected behaviour. The as-written `NullPointerException` is `CopyIntoCollection` only.
- Engine.ConfigBuild: substitutes through the handler captured when the default builders were installed, as the builder's constructor does. A later `setAbstractTypeHandler` does not reach it.

## Findings

| source | as written | input that shows it | evidently intended | confidence | as-written member | corrected member |
|---|---|---|---|---|---|---|
| src/main/java/com/github/jrgen/util/JrgenUtil.java:95-98 | `min + (long)(nextDouble() * (max - min))` is at most max - 1 when the range is wider than one | min 0, max 10: no draw gives 10, so random container sizes never reach maxContainerSize | a value in [min, max], max included, as documented | not executed | JrgenUtil.AsWrittenNeverReachesMax | JrgenUtil.NumberFromRange |
| src/main/java/com/github/jrgen/util/JrgenUtil.java:98 | `max - min` is computed in long arithmetic and wraps | min -2^62, max 2^62, nextDouble 0.5 gives Long.MIN_VALUE, below min | a value in [min, max] for every min <= max | not executed | JrgenUtil.AsWrittenOverflowsWideRange | JrgenUtil.NumberFromRange |
| src/main/java/com/github/jrgen/generator/DefaultGenerator.java:258-262 | the day is drawn as a 0-based index but set as DAY_OF_MONTH, which is 1-based and lenient | January with index 0 gives 31 December of the year before; the last day of a month is never drawn | a day in [1, days of the month] | not executed | DefaultGenerator.AsWrittenDateLeavesYearRange | DefaultGenerator.CreateDate |
| src/main/java/com/github/jrgen/typebuilder/CollectionTypeBuilder.java:52-58 | the array from the list-like builder is copied without a null check | nullOnEmptySet true and a drawn size of 0: the array is null and `Array.getLength(null)` throws NullPointerException | null, as for an empty array under nullOnEmptySet | not executed | Containers.CopyIntoCollection | Engine.CollectionBuild |
