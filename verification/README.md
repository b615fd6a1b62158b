# A verified model of the tiramisu builder generator

`BuilderGenerator` writes a fluent builder class for a target class. It collects the
declared fields of the target's superclass chain, skipping ignored classes and the
upper bound's superclass. It gives every field a builder name, renaming fields whose
names clash to `<name>In<DeclaringClass>`. It gives every field a setter name: the bare
prefix `with` when the field's type is unique and omission is on, otherwise `with`
plus the capitalized builder name. It then prints the builder:

- tracking setters, plus an overload that takes an existing companion builder;
- `clear()`, which calls every setter with the JVM default;
- `_withDefaults()`, which calls every setter with its own slot;
- `startingFrom(instance)`;
- a `build()` that injects, by reflection, the fields whose setter was called (the
  "sparse" policy);
- the imports.

The committed builders `TripleSubBuilder`, `SubBuilder`, `SomeFieldClassBuilder`,
`DoubleSubBuilder` and `TestClassBuilder` are the generator's output. `BuilderTest`
exercises `SubBuilder`.

The model has these modules:

- **Descriptors** holds what reflection would report: classes, fields, types and the
  configuration.
- **Casing** holds `lowercase` and `capitalize`.
- **Collection** holds `fields()`, and the collection the upper bound's documentation
  describes.
- **Naming** holds builder field names and setter names, with injectivity under a stated
  naming discipline and counterexamples without it.
- **Emission** holds what the generator prints, as structured declarations and as text:
  setters and companion overloads, cleared-value literals and their read-back, the
  `clear()` and `_withDefaults()` calls, the `build()` injections, imports, the
  rendered file and the overwrite decision.
- **Resolution** holds Java overload resolution on the emitted setters, reduced to
  exact-type matching. It proves that every emitted call reaches its own field's setter.
- **Runtime** holds the behaviour of any emitted builder as a state machine: slots,
  `fieldsToSet` and the held result.
- **Semantics** ties the two halves together: running the emitted bodies of `clear()`,
  `_withDefaults()`, `startingFrom` and `build()` is the corresponding runtime
  operation.
- **Fixtures**, **Validation** and **Builders** evaluate the generator on the TripleSub
  hierarchy. The naming reproduces every field, setter name, `clear()` call and
  `build()` routing of the committed `TripleSubBuilder`. They also state the runtime
  facts of the other committed builders and of `BuilderTest`.

Where the documentation and the code disagree, the model follows the code:

- **The upper bound.** The documentation says the collection goes "up to this upper
  bound, inclusive" and that a non-ancestor bound includes everything. The code only
  skips the bound's direct superclass. `Collect` is the code; `CollectUpToBound` is the
  documented behaviour.
- **`startingFrom`.** The sparse-policy documentation promises that a builder started
  from an existing instance only overwrites fields whose setter was called. The emitted
  `startingFrom` calls `clear()`, which marks every field as set.
- **`_withDefaults()`.** Its NOTE says earlier calls will have no effect, and its
  Javadoc marks default values as not yet implemented. The placeholder body the
  generator emits does not yet do what the NOTE describes: it calls every setter with
  its own current value, so earlier calls still take effect. Only the hand-trimmed
  `SubBuilder` version discards them.

## Model

| member | source | states |
|---|---|---|
| Casing.Lowercase | tiramisu-util/src/test/java/com/tiramisu/domain/builder/generator/BuilderGenerator.java:496-498 | Only the first character changes. It is never upper case afterwards. An upper-case first character becomes its lower-case partner, and any other string is returned unchanged. |
| Casing.Capitalize | tiramisu-util/src/test/java/com/tiramisu/domain/builder/generator/BuilderGenerator.java:500-502 | Only the first character changes. It is never lower case afterwards. A lower-case first character becomes its upper-case partner, and any other string is returned unchanged. |
| Casing.LowercaseUndoesCapitalize | tiramisu-util/src/test/java/com/tiramisu/domain/builder/generator/BuilderGenerator.java:496-502 | `lowercase(capitalize(s)) == s` for every name that does not start upper case, which covers every builder field name. |
| Casing.CapitalizeUndoesLowercase | tiramisu-util/src/test/java/com/tiramisu/domain/builder/generator/BuilderGenerator.java:496-502 | `capitalize(lowercase(s)) == s` for every string that does not start lower case. |
| Casing.CapitalizeInjective | tiramisu-util/src/test/java/com/tiramisu/domain/builder/generator/BuilderGenerator.java:500-502 | Two builder field names (neither starting upper case) that capitalize to the same string are equal. This is why distinct builder names give distinct full setter names. |
| Collection.Collect | tiramisu-util/src/test/java/com/tiramisu/domain/builder/generator/BuilderGenerator.java:196-205 | A field is collected exactly when some level of the superclass chain declares it and that level is neither ignored nor the upper bound's direct superclass. |
| Collection.CollectedDeclaringLevel | tiramisu-util/src/test/java/com/tiramisu/domain/builder/generator/BuilderGenerator.java:199-203 | Every collected field comes from the chain level of its own declaring class, and that class passed the level test. |
| Collection.CollectNoDup | tiramisu-util/src/test/java/com/tiramisu/domain/builder/generator/BuilderGenerator.java:196-205 | On a well-formed chain no field is collected twice and every collected field has a name. The list is therefore a faithful enumeration of the `HashSet`. |
| Collection.RootBoundRemovesOnlyIgnored | tiramisu-util/src/test/java/com/tiramisu/domain/builder/generator/BuilderGenerator.java:200 | With a `null` bound, or a bound whose superclass is `null` (`Object`), the bound removes nothing: only the ignored classes are dropped. |
| Collection.BoundRemovesOnlyItsSuperclass | tiramisu-util/src/test/java/com/tiramisu/domain/builder/generator/BuilderGenerator.java:200-201 | The bounded collection is a subset of the unbounded one. A field is missing from it exactly when its declaring class is the bound's direct superclass. |
| Collection.LevelsAboveBoundSuperclassCollected | tiramisu-util/src/test/java/com/tiramisu/domain/builder/generator/BuilderGenerator.java:199-203 | As written: with the bound on the chain, every non-ignored level two or more steps above it is still collected. |
| Collection.NonAncestorBoundDropsItsSuperclass | tiramisu-util/src/test/java/com/tiramisu/domain/builder/generator/BuilderGenerator.java:200 | As written: a bound that is not on the chain still removes the level that is its own superclass. |
| Collection.CollectedKeyIdentifies | tiramisu-util/src/test/java/com/tiramisu/domain/builder/generator/BuilderGenerator.java:196-205 | Two collected fields with the same name and declaring class are the same field. So the (name, class) pair that `setField` receives identifies a field. |
| Collection.CollectUpToBoundContents | tiramisu-util/src/test/java/com/tiramisu/domain/builder/generator/BuilderGenerator.java:45-47 | Corrected collection: a field is collected exactly when a non-ignored level declares it and no level below that one is the bound. |
| Collection.UpToBoundStopsAtBound | tiramisu-util/src/test/java/com/tiramisu/domain/builder/generator/BuilderGenerator.java:45-47 | Corrected collection with the bound on the chain: every non-ignored level up to and including the bound is collected, and no level above the bound is. |
| Collection.UpToBoundAtRootIsWhole | tiramisu-util/src/test/java/com/tiramisu/domain/builder/generator/BuilderGenerator.java:45-47 | Corrected collection with a `null` bound, the root class, or a class that is not an ancestor: the whole hierarchy minus the ignored classes is collected, as the documentation promises. |
| Naming.BuilderFieldName | tiramisu-util/src/test/java/com/tiramisu/domain/builder/generator/BuilderGenerator.java:217-223 | A builder field name keeps the field name's characters after the first and never starts upper case. |
| Naming.SharedIffCountAboveOne | tiramisu-util/src/test/java/com/tiramisu/domain/builder/generator/BuilderGenerator.java:213-218 | The occurrence count of a field's name is above one exactly when another collected field has the same name. |
| Naming.SharesTypeIffCountAboveOne | tiramisu-util/src/test/java/com/tiramisu/domain/builder/generator/BuilderGenerator.java:183-187 | The occurrence count of a field's type is above one exactly when another collected field has the same type. |
| Naming.BuilderFieldNameRule | tiramisu-util/src/test/java/com/tiramisu/domain/builder/generator/BuilderGenerator.java:217-223 | The builder name is `lowercase(name + "In" + DeclaringSimpleName)` exactly when another field has the same name. Otherwise it is `lowercase(name)`. |
| Naming.SameNameDistinctBuilderNames | tiramisu-util/src/test/java/com/tiramisu/domain/builder/generator/BuilderGenerator.java:218-220 | Two fields with the same name declared in classes with different simple names get different builder names. |
| Naming.BuilderFieldNameShape | tiramisu-util/src/test/java/com/tiramisu/domain/builder/generator/BuilderGenerator.java:217-223 | For a name that starts lower case, the builder name is the name itself, or the name followed by `In` and the declaring class's simple name when the name is shared. |
| Naming.DistinctBuilderNamesPair | tiramisu-util/src/test/java/com/tiramisu/domain/builder/generator/BuilderGenerator.java:210-225 | Under the naming discipline, any two collected fields get different builder names. |
| Naming.BuilderNamesInjective | tiramisu-util/src/test/java/com/tiramisu/domain/builder/generator/BuilderGenerator.java:210-225 | Under the naming discipline, builder names are pairwise distinct. So the builder's fields, setter parameters and `fieldsToSet` keys do not clash. |
| Naming.FieldNamedLikeDisambiguatedNameCollides | tiramisu-util/src/test/java/com/tiramisu/domain/builder/generator/BuilderGenerator.java:217-223 | Without the discipline naming is not injective: fields `a` in two classes plus a field called `aInB` give two fields the builder name `aInB`. |
| Naming.LowercaseCollides | tiramisu-util/src/test/java/com/tiramisu/domain/builder/generator/BuilderGenerator.java:222 | Without the discipline naming is not injective: fields `Foo` and `foo` both get the builder name `foo`. |
| Naming.SetterName | tiramisu-util/src/test/java/com/tiramisu/domain/builder/generator/BuilderGenerator.java:178-193 | A setter name is either the bare prefix or the prefix followed by the capitalized builder name. |
| Naming.SetterNameRule | tiramisu-util/src/test/java/com/tiramisu/domain/builder/generator/BuilderGenerator.java:178-193 | With omission off every setter has its full name. With omission on, a setter is the bare prefix exactly when no other collected field has its type, and has its full name exactly when one does. The full name is never the bare prefix. |
| Naming.FullSetterNamesDistinct | tiramisu-util/src/test/java/com/tiramisu/domain/builder/generator/BuilderGenerator.java:181-188 | Two fields with different builder names whose setters are not bare get different setter names. |
| Emission.ReadyNamed | tiramisu-util/src/test/java/com/tiramisu/domain/builder/generator/BuilderGenerator.java:174-176 | A ready (collected and enumerated) field order has only named fields. |
| Emission.ClearedValue | tiramisu-util/src/test/java/com/tiramisu/domain/builder/generator/BuilderGenerator.java:374-394 | The emitted cleared value reads back as the JVM default of the field's type. A primitive literal carries its own type. A reference literal is a typed `(Type) null` exactly when the setter is bare or has a companion overload, and an untyped `null` otherwise. |
| Emission.ReadLiteralRoundTrip | tiramisu-util/src/test/java/com/tiramisu/domain/builder/generator/BuilderGenerator.java:378-392 | Reading back the text of each cleared-value literal gives its value and static type. |
| Emission.PrimZeroRoundTrip | tiramisu-util/src/test/java/com/tiramisu/domain/builder/generator/BuilderGenerator.java:378-385 | Each of the eight primitive zero literals reads back as that primitive's default with its primitive type. |
| Emission.TypedNullRoundTrip | tiramisu-util/src/test/java/com/tiramisu/domain/builder/generator/BuilderGenerator.java:390 | `(Type) null` reads back as `null` with static type `Type`. |
| Emission.SettersOfContents | tiramisu-util/src/test/java/com/tiramisu/domain/builder/generator/BuilderGenerator.java:322-355 | The setters emitted for a list of fields are exactly the primary setters of those fields plus the companion overloads of the fields whose type has an existing builder. |
| Emission.SettersShape | tiramisu-util/src/test/java/com/tiramisu/domain/builder/generator/BuilderGenerator.java:322-355 | Every setter tracks its slot exactly under the sparse policy. Each field's primary setter is emitted and takes the field's type. A companion overload is emitted for a field exactly when its type has an existing builder. |
| Emission.SettersTrackUnderSparse | tiramisu-util/src/test/java/com/tiramisu/domain/builder/generator/BuilderGenerator.java:329-331 | Every emitted setter adds its slot to `fieldsToSet` exactly when the sparse policy is on. |
| Emission.CompanionOverloadIff | tiramisu-util/src/test/java/com/tiramisu/domain/builder/generator/BuilderGenerator.java:337-353 | A setter with the field's setter name that fills its slot from a builder exists exactly when the field's type is a key of the existing-builders map. |
| Emission.CompanionOverloadOwner | tiramisu-util/src/test/java/com/tiramisu/domain/builder/generator/BuilderGenerator.java:337-353 | A companion overload that fills a field's slot is that field's companion setter, and the field's type has an existing builder. |
| Emission.AddImportIfMissing | tiramisu-util/src/test/java/com/tiramisu/domain/builder/generator/BuilderGenerator.java:263-268 | Adding one class keeps the earlier imports as a prefix, adds nothing but that class, and never duplicates an entry. |
| Emission.AddImports | tiramisu-util/src/test/java/com/tiramisu/domain/builder/generator/BuilderGenerator.java:255-258 | Adding a list of classes keeps the earlier imports as a prefix, ends up with exactly the old imports plus the new classes, and never duplicates an entry. |
| Emission.FieldTypeClasses | tiramisu-util/src/test/java/com/tiramisu/domain/builder/generator/BuilderGenerator.java:255-258 | The classes requested for fields are exactly the reference types of the fields. Primitive types are filtered out. |
| Emission.ImportRequestsContents | tiramisu-util/src/test/java/com/tiramisu/domain/builder/generator/BuilderGenerator.java:241-258 | The import requests start with `Field`. They contain a class exactly when it is `Field`, `InvocationTargetException` without an accessible default constructor, `HashSet`/`Set` under the sparse policy, or a field's reference type. |
| Emission.Imports | tiramisu-util/src/test/java/com/tiramisu/domain/builder/generator/BuilderGenerator.java:241-268 | The emitted imports have no duplicates and start with `Field`. A class is imported exactly under the conditions the import requests name. |
| Emission.SetterLinesTrackIff | tiramisu-util/src/test/java/com/tiramisu/domain/builder/generator/BuilderGenerator.java:325-334 | A setter's text contains the `fieldsToSet.add` line exactly when the setter tracks. |
| Emission.InvocationLines | tiramisu-util/src/test/java/com/tiramisu/domain/builder/generator/BuilderGenerator.java:367-369 | One emitted statement per invocation, in order. |
| Emission.Render | tiramisu-util/src/test/java/com/tiramisu/domain/builder/generator/BuilderGenerator.java:152-169 | The emitted file opens with the target's package statement and closes with the class's closing brace. |
| Emission.GenerateFile | tiramisu-util/src/test/java/com/tiramisu/domain/builder/generator/BuilderGenerator.java:137-150 | A file is produced exactly when overwriting is allowed or no file exists yet. A produced file ends with the closing brace. |
| Resolution.Candidates | tiramisu-util/src/test/java/com/tiramisu/domain/builder/generator/BuilderGenerator.java:322-355 | Overload resolution never yields more candidates than there are setters. |
| Resolution.CandidatesConcat | tiramisu-util/src/test/java/com/tiramisu/domain/builder/generator/BuilderGenerator.java:322-355 | Candidates of concatenated setter lists are the concatenated candidates. |
| Resolution.BareSettersDifferInType | tiramisu-util/src/test/java/com/tiramisu/domain/builder/generator/BuilderGenerator.java:186-191 | A field with a bare setter shares its type with no other field. |
| Resolution.OtherPrimaryNotApplicable | tiramisu-util/src/test/java/com/tiramisu/domain/builder/generator/BuilderGenerator.java:325-326 | A call with a field's setter name and an argument that fits its type is not applicable to any other field's primary setter. |
| Resolution.CompanionNotApplicable | tiramisu-util/src/test/java/com/tiramisu/domain/builder/generator/BuilderGenerator.java:341-342 | A call with a field's setter name and an argument fitting the field's type is not applicable to any companion overload. |
| Resolution.GroupCandidates | tiramisu-util/src/test/java/com/tiramisu/domain/builder/generator/BuilderGenerator.java:322-355 | Among the setters emitted for one field, such a call matches the primary setter of its own field only. |
| Resolution.CandidatesOfFields | tiramisu-util/src/test/java/com/tiramisu/domain/builder/generator/BuilderGenerator.java:322-355 | Among the setters of any duplicate-free list of fields, such a call matches exactly its own field's primary setter, if that field is in the list. |
| Resolution.CallResolvesToOwnSetter | tiramisu-util/src/test/java/com/tiramisu/domain/builder/generator/BuilderGenerator.java:322-355 | Among all emitted setters, such a call resolves to exactly its own field's primary setter. |
| Resolution.ClearCallResolves | tiramisu-util/src/test/java/com/tiramisu/domain/builder/generator/BuilderGenerator.java:367-369 | Each call `clear()` emits resolves to exactly its own field's primary setter. |
| Resolution.DefaultsCallResolves | tiramisu-util/src/test/java/com/tiramisu/domain/builder/generator/BuilderGenerator.java:406-409 | Each call `_withDefaults()` emits resolves to exactly its own field's primary setter. |
| Runtime.Create | tiramisu-util/src/test/java/com/tiramisu/domain/builder/generator/BuilderGenerator.java:312-317 | A new builder holds the JVM default in every slot, tracks nothing, and holds the freshly constructed result. |
| Runtime.Set | tiramisu-util/src/test/java/com/tiramisu/domain/builder/generator/BuilderGenerator.java:325-334 | A setter stores its argument in its own slot and leaves every other slot unchanged. It adds its slot to `fieldsToSet` exactly under the sparse policy and keeps the result. |
| Runtime.Clear | tiramisu-util/src/test/java/com/tiramisu/domain/TripleSubBuilder.java:183-202 | `clear()` puts every slot back to its JVM default. Under the sparse policy it marks every slot as set; otherwise tracking is unchanged. It keeps the result. |
| Runtime.ResetAll | tiramisu-util/src/test/java/com/tiramisu/domain/TripleSubBuilder.java:209-228 | `_withDefaults()` keeps every slot value and the result. Under the sparse policy it marks every slot as set. |
| Runtime.Untrack | tiramisu-util/src/test/java/com/tiramisu/domain/SomeFieldClassBuilder.java:55 | Emptying `fieldsToSet` keeps every slot value and the result. |
| Runtime.Build | tiramisu-util/src/test/java/com/tiramisu/domain/builder/generator/BuilderGenerator.java:434-472 | `build()` writes exactly the targets of the injected slots (the tracked ones under the sparse policy, all otherwise). Each written target gets its slot's value, and every other field of the result keeps its value. |
| Runtime.InjectedReachesTarget | tiramisu-util/src/test/java/com/tiramisu/domain/TripleSubBuilder.java:241-298 | An injected slot's value reaches its target field in the built object. |
| Runtime.BuildKeepsNonTargets | tiramisu-util/src/test/java/com/tiramisu/domain/TripleSubBuilder.java:241-298 | Fields of the result that no slot routes to are returned unchanged by `build()`. |
| Runtime.AfterBuild | tiramisu-util/src/test/java/com/tiramisu/domain/TripleSubBuilder.java:241-298 | After `build()` the builder holds the built object, with the injections applied, and changes neither the slots nor `fieldsToSet`. |
| Runtime.BuildAgainSameObject | tiramisu-util/src/test/java/com/tiramisu/domain/TripleSubBuilder.java:241-298 | Calling `build()` a second time, with no setter call in between, gives the same object as the first call. |
| Runtime.SetAll | tiramisu-util/src/test/java/com/tiramisu/domain/builder/generator/BuilderGenerator.java:325-334 | A setter chain marks the called slots under the sparse policy. It stores the last argument of each called slot, keeps the other slots and the result. |
| Runtime.RepeatedSetKeepsLast | tiramisu-util/src/test/java/com/tiramisu/domain/builder/generator/BuilderGenerator.java:325-334 | Calling the same setter twice is the same as calling it once with the second argument. |
| Runtime.SettersCommute | tiramisu-util/src/test/java/com/tiramisu/domain/builder/generator/BuilderGenerator.java:325-334 | Setters of different slots commute. |
| Runtime.WrittenIsInjectedTargets | tiramisu-util/src/test/java/com/tiramisu/domain/builder/generator/BuilderGenerator.java:461-472 | A field is written by `build()` exactly when it is the target of an injected slot. |
| Runtime.UntrackedBuildKeepsResult | tiramisu-util/src/test/java/com/tiramisu/domain/builder/generator/BuilderGenerator.java:76-80 | Under the sparse policy, building with nothing tracked returns the held result unchanged. |
| Runtime.SetThenBuild | tiramisu-util/src/test/java/com/tiramisu/domain/builder/generator/BuilderGenerator.java:461-472 | A value passed to a setter is what the built object holds in that slot's target field. |
| Runtime.ClearThenBuild | tiramisu-util/src/test/java/com/tiramisu/domain/TripleSubBuilder.java:183-202 | After `clear()`, `build()` returns the result with every routed field at its JVM default and every other field unchanged. |
| Runtime.StartingFromClearingThenBuild | tiramisu-util/src/test/java/com/tiramisu/domain/builder/generator/BuilderGenerator.java:417-429 | After the emitted `startingFrom(x)`, `build()` returns `x` with every routed field reset to its JVM default. |
| Runtime.StartingFromClearingLosesSeed | tiramisu-util/src/test/java/com/tiramisu/domain/builder/generator/BuilderGenerator.java:424 | As written: if the instance passed to `startingFrom` holds a non-default value in any routed field, the object `build()` gives back differs from that instance as it was passed: the instance's routed fields are zeroed. |
| Runtime.StartingFromUntrackingThenBuild | tiramisu-util/src/test/java/com/tiramisu/domain/SomeFieldClassBuilder.java:64-69 | Untracking `startingFrom(x)` followed by `build()` returns `x` itself. |
| Runtime.SeededSparseBuild | tiramisu-util/src/test/java/com/tiramisu/domain/builder/generator/BuilderGenerator.java:76-80 | After untracking `startingFrom(x)` and a setter chain, the built object holds the last argument in every called slot's target. Uncalled routed fields and all other fields of `x` keep their values. |
| Runtime.FreshChainBuild | tiramisu-util/src/test/java/com/tiramisu/domain/builder/BuilderTest.java:28-35 | On a fresh sparse builder a setter chain followed by `build()` writes the last argument of each called slot and leaves every other field of the constructed object unchanged. |
| Runtime.DefaultsKeepEarlierCalls | tiramisu-util/src/test/java/com/tiramisu/domain/builder/generator/BuilderGenerator.java:399-412 | After a setter chain and the emitted `_withDefaults()`, every routed field holds the chain's last argument for that slot, or the JVM default if the slot was not called. So earlier calls are not discarded: the placeholder body does not yet do what the method's NOTE describes. |
| Runtime.NotInjectedNotWritten | tiramisu-util/src/test/java/com/tiramisu/domain/builder/generator/BuilderGenerator.java:465-468 | A slot that is not injected does not write its target. |
| Runtime.FreshBuildIsDefault | tiramisu-util/src/test/java/com/tiramisu/domain/builder/generator/BuilderGenerator.java:76-80 | Under the sparse policy a builder with no setter called returns the constructed object unchanged. |
| Semantics.GeneratedLayoutWellFormed | tiramisu-util/src/test/java/com/tiramisu/domain/builder/generator/BuilderGenerator.java:291-297 | For a sound configuration and order, the emitted builder fields have distinct names and route to distinct target fields. |
| Semantics.SlotNameInLayout | tiramisu-util/src/test/java/com/tiramisu/domain/builder/generator/BuilderGenerator.java:291-297 | Every collected field has a slot under its builder name. |
| Semantics.PrimarySetterIsSet | tiramisu-util/src/test/java/com/tiramisu/domain/builder/generator/BuilderGenerator.java:325-334 | Running an emitted primary setter is the runtime `Set` on that field's slot. |
| Semantics.CompanionOverloadIsPrimaryOfBuilt | tiramisu-util/src/test/java/com/tiramisu/domain/builder/generator/BuilderGenerator.java:337-353 | Running a companion overload on a companion builder is the primary setter applied to that builder's `build()`. |
| Semantics.ClearCallStep | tiramisu-util/src/test/java/com/tiramisu/domain/builder/generator/BuilderGenerator.java:367-369 | Each emitted `clear()` call resolves, and running it sets its slot to the slot's JVM default. |
| Semantics.EmittedClearIsClear | tiramisu-util/src/test/java/com/tiramisu/domain/builder/generator/BuilderGenerator.java:360-372 | Running the emitted `clear()` body, one resolved call after another, is the runtime `Clear`. |
| Semantics.DefaultsCallStep | tiramisu-util/src/test/java/com/tiramisu/domain/builder/generator/BuilderGenerator.java:406-409 | Each emitted `_withDefaults()` call resolves, and running it sets its slot to its own current value. |
| Semantics.EmittedDefaultsIsResetAll | tiramisu-util/src/test/java/com/tiramisu/domain/builder/generator/BuilderGenerator.java:399-412 | Running the emitted `_withDefaults()` body is the runtime `ResetAll`. |
| Semantics.InjectionStep | tiramisu-util/src/test/java/com/tiramisu/domain/builder/generator/BuilderGenerator.java:461-472 | Each emitted guarded `setField` writes its slot's value into the field named by the slot's source field and declaring class, exactly when the slot is injected. |
| Semantics.InjectionsAgree | tiramisu-util/src/test/java/com/tiramisu/domain/builder/generator/BuilderGenerator.java:461-472 | The first k emitted injections perform exactly the runtime's first k injections. |
| Semantics.EmittedBuildIsBuild | tiramisu-util/src/test/java/com/tiramisu/domain/builder/generator/BuilderGenerator.java:434-472 | Running the emitted `build()` body is the runtime `Build`. |
| Semantics.EmittedStartingFromIsClearing | tiramisu-util/src/test/java/com/tiramisu/domain/builder/generator/BuilderGenerator.java:417-429 | Running the emitted `startingFrom` body is a no-op on `null`, and otherwise `clear()` followed by adopting the instance. |
| Semantics.EmptyTrackingStartingFromIsUntracking | tiramisu-util/src/test/java/com/tiramisu/domain/SomeFieldClassBuilder.java:64-69 | Running the older `startingFrom` body (empty the tracking set, adopt the instance) is the runtime untracking variant. |
| Semantics.ReflectiveBuildDropsSetterValue | tiramisu-util/src/test/java/com/tiramisu/domain/builder/generator/BuilderGenerator.java:453-459 | As written: the reflective `build()` returns the freshly constructed object untouched. A value passed to a setter never reaches it. |
| Semantics.ReflectiveBuildIsBuild | tiramisu-util/src/test/java/com/tiramisu/domain/builder/generator/BuilderGenerator.java:453-459 | Corrected reflective `build()`: injecting into the constructed object is the runtime `Build` with that object as result. |
| Semantics.SetIgnoresResult | tiramisu-util/src/test/java/com/tiramisu/domain/builder/generator/BuilderGenerator.java:477-487 | A setter does not depend on the held result. |
| Semantics.ReflectiveBuildKeepsSetterValue | tiramisu-util/src/test/java/com/tiramisu/domain/builder/generator/BuilderGenerator.java:453-459 | Corrected reflective `build()`: a value passed to a setter is in the returned object. |
| Validation.OrderNoDup | tiramisu-util/src/test/java/com/tiramisu/domain/TripleSubBuilder.java:20-37 | The 18 builder fields of the committed TripleSub builder come from 18 distinct fields. |
| Validation.PlainName | tiramisu-util/src/test/java/com/tiramisu/domain/builder/generator/BuilderGenerator.java:222 | A field whose name no other field shares, and which starts lower case, keeps its name as its builder name. |
| Validation.DisambiguatedName | tiramisu-util/src/test/java/com/tiramisu/domain/builder/generator/BuilderGenerator.java:218-220 | A field whose name another field shares gets its name followed by `In` and its declaring class's simple name. |
| Validation.BareSetterName | tiramisu-util/src/test/java/com/tiramisu/domain/builder/generator/BuilderGenerator.java:189-190 | With omission on, a field whose type no other field has gets the bare prefix as setter name. |
| Validation.FullSetterName | tiramisu-util/src/test/java/com/tiramisu/domain/builder/generator/BuilderGenerator.java:187-188 | A field whose type another field has gets the prefix followed by its capitalized builder name. |
| Validation.BuilderNameOfLongy | tiramisu-util/src/test/java/com/tiramisu/domain/TripleSubBuilder.java:20 | The generator's builder name for this field is `longy`, the name the committed builder uses. |
| Validation.SetterNameOfLongy | tiramisu-util/src/test/java/com/tiramisu/domain/TripleSubBuilder.java:46 | The generator's setter name for `longy` is `with`, the name the committed builder uses. |
| Validation.EmittedForLongy | tiramisu-util/src/test/java/com/tiramisu/domain/TripleSubBuilder.java:45-50 | For `longy` the generator emits exactly the tracking setter `with(long)`. It also emits the `clear()` call `with(0L)`, the `_withDefaults()` call `with(longy)` and the injection `setField("longy", TripleSub.class, longy)` under the `fieldsToSet` guard. |
| Validation.BuilderNameOfDoubley | tiramisu-util/src/test/java/com/tiramisu/domain/TripleSubBuilder.java:21 | The generator's builder name for this field is `doubley`, the name the committed builder uses. |
| Validation.SetterNameOfDoubley | tiramisu-util/src/test/java/com/tiramisu/domain/TripleSubBuilder.java:53 | The generator's setter name for `doubley` is `with`, the name the committed builder uses. |
| Validation.EmittedForDoubley | tiramisu-util/src/test/java/com/tiramisu/domain/TripleSubBuilder.java:52-57 | For `doubley` the generator emits exactly the tracking setter `with(double)`. It also emits the `clear()` call `with(0.0)`, the `_withDefaults()` call `with(doubley)` and the injection `setField("doubley", TripleSub.class, doubley)` under the `fieldsToSet` guard. |
| Validation.BuilderNameOfHereInSub | tiramisu-util/src/test/java/com/tiramisu/domain/TripleSubBuilder.java:22 | The generator's builder name for this field is `hereInSub`, the name the committed builder uses. |
| Validation.SetterNameOfHereInSub | tiramisu-util/src/test/java/com/tiramisu/domain/TripleSubBuilder.java:60 | The generator's setter name for `hereInSub` is `withHereInSub`, the name the committed builder uses. |
| Validation.EmittedForHereInSub | tiramisu-util/src/test/java/com/tiramisu/domain/TripleSubBuilder.java:59-64 | For `hereInSub` the generator emits exactly the tracking setter `withHereInSub(String)`. It also emits the `clear()` call `withHereInSub(null)`, the `_withDefaults()` call `withHereInSub(hereInSub)` and the injection `setField("here", Sub.class, hereInSub)` under the `fieldsToSet` guard. |
| Validation.BuilderNameOfDateInSub | tiramisu-util/src/test/java/com/tiramisu/domain/TripleSubBuilder.java:23 | The generator's builder name for this field is `dateInSub`, the name the committed builder uses. |
| Validation.SetterNameOfDateInSub | tiramisu-util/src/test/java/com/tiramisu/domain/TripleSubBuilder.java:67 | The generator's setter name for `dateInSub` is `withDateInSub`, the name the committed builder uses. |
| Validation.EmittedForDateInSub | tiramisu-util/src/test/java/com/tiramisu/domain/TripleSubBuilder.java:66-71 | For `dateInSub` the generator emits exactly the tracking setter `withDateInSub(String)`. It also emits the `clear()` call `withDateInSub(null)`, the `_withDefaults()` call `withDateInSub(dateInSub)` and the injection `setField("date", Sub.class, dateInSub)` under the `fieldsToSet` guard. |
| Validation.BuilderNameOfSomeChar | tiramisu-util/src/test/java/com/tiramisu/domain/TripleSubBuilder.java:24 | The generator's builder name for this field is `someChar`, the name the committed builder uses. |
| Validation.SetterNameOfSomeChar | tiramisu-util/src/test/java/com/tiramisu/domain/TripleSubBuilder.java:74 | The generator's setter name for `someChar` is `with`, the name the committed builder uses. |
| Validation.EmittedForSomeChar | tiramisu-util/src/test/java/com/tiramisu/domain/TripleSubBuilder.java:73-78 | For `someChar` the generator emits exactly the tracking setter `with(char)`. It also emits the `clear()` call `with('\u0000')`, the `_withDefaults()` call `with(someChar)` and the injection `setField("someChar", Sub.class, someChar)` under the `fieldsToSet` guard. |
| Validation.BuilderNameOfList | tiramisu-util/src/test/java/com/tiramisu/domain/TripleSubBuilder.java:25 | The generator's builder name for this field is `list`, the name the committed builder uses. |
| Validation.SetterNameOfList | tiramisu-util/src/test/java/com/tiramisu/domain/TripleSubBuilder.java:81 | The generator's setter name for `list` is `with`, the name the committed builder uses. |
| Validation.EmittedForList | tiramisu-util/src/test/java/com/tiramisu/domain/TripleSubBuilder.java:80-85 | For `list` the generator emits exactly the tracking setter `with(List)`. It also emits the `clear()` call `with((List) null)`, the `_withDefaults()` call `with(list)` and the injection `setField("list", Sub.class, list)` under the `fieldsToSet` guard. |
| Validation.BuilderNameOfShorty | tiramisu-util/src/test/java/com/tiramisu/domain/TripleSubBuilder.java:26 | The generator's builder name for this field is `shorty`, the name the committed builder uses. |
| Validation.SetterNameOfShorty | tiramisu-util/src/test/java/com/tiramisu/domain/TripleSubBuilder.java:88 | The generator's setter name for `shorty` is `with`, the name the committed builder uses. |
| Validation.EmittedForShorty | tiramisu-util/src/test/java/com/tiramisu/domain/TripleSubBuilder.java:87-92 | For `shorty` the generator emits exactly the tracking setter `with(short)`. It also emits the `clear()` call `with((short) 0)`, the `_withDefaults()` call `with(shorty)` and the injection `setField("shorty", TripleSub.class, shorty)` under the `fieldsToSet` guard. |
| Validation.BuilderNameOfDateInBase | tiramisu-util/src/test/java/com/tiramisu/domain/TripleSubBuilder.java:27 | The generator's builder name for this field is `dateInBase`, the name the committed builder uses. |
| Validation.SetterNameOfDateInBase | tiramisu-util/src/test/java/com/tiramisu/domain/TripleSubBuilder.java:95 | The generator's setter name for `dateInBase` is `with`, the name the committed builder uses. |
| Validation.EmittedForDateInBase | tiramisu-util/src/test/java/com/tiramisu/domain/TripleSubBuilder.java:94-99 | For `dateInBase` the generator emits exactly the tracking setter `with(Date)`. It also emits the `clear()` call `with((Date) null)`, the `_withDefaults()` call `with(dateInBase)` and the injection `setField("date", Base.class, dateInBase)` under the `fieldsToSet` guard. |
| Validation.BuilderNameOfHereInBase | tiramisu-util/src/test/java/com/tiramisu/domain/TripleSubBuilder.java:28 | The generator's builder name for this field is `hereInBase`, the name the committed builder uses. |
| Validation.SetterNameOfHereInBase | tiramisu-util/src/test/java/com/tiramisu/domain/TripleSubBuilder.java:102 | The generator's setter name for `hereInBase` is `withHereInBase`, the name the committed builder uses. |
| Validation.EmittedForHereInBase | tiramisu-util/src/test/java/com/tiramisu/domain/TripleSubBuilder.java:101-106 | For `hereInBase` the generator emits exactly the tracking setter `withHereInBase(String)`. It also emits the `clear()` call `withHereInBase(null)`, the `_withDefaults()` call `withHereInBase(hereInBase)` and the injection `setField("here", Base.class, hereInBase)` under the `fieldsToSet` guard. |
| Validation.BuilderNameOfHi | tiramisu-util/src/test/java/com/tiramisu/domain/TripleSubBuilder.java:29 | The generator's builder name for this field is `hi`, the name the committed builder uses. |
| Validation.SetterNameOfHi | tiramisu-util/src/test/java/com/tiramisu/domain/TripleSubBuilder.java:109 | The generator's setter name for `hi` is `with`, the name the committed builder uses. |
| Validation.EmittedForHi | tiramisu-util/src/test/java/com/tiramisu/domain/TripleSubBuilder.java:108-113 | For `hi` the generator emits exactly the tracking setter `with(int)`. It also emits the `clear()` call `with(0)`, the `_withDefaults()` call `with(hi)` and the injection `setField("hi", Base.class, hi)` under the `fieldsToSet` guard. |
| Validation.BuilderNameOfFieldWithBuilder | tiramisu-util/src/test/java/com/tiramisu/domain/TripleSubBuilder.java:30 | The generator's builder name for this field is `fieldWithBuilder`, the name the committed builder uses. |
| Validation.SetterNameOfFieldWithBuilder | tiramisu-util/src/test/java/com/tiramisu/domain/TripleSubBuilder.java:116 | The generator's setter name for `fieldWithBuilder` is `with`, the name the committed builder uses. |
| Validation.EmittedForFieldWithBuilder | tiramisu-util/src/test/java/com/tiramisu/domain/TripleSubBuilder.java:115-127 | For `fieldWithBuilder` the generator emits exactly the tracking setter `with(SomeFieldClass)` plus the companion overload `with(SomeFieldClassBuilder)`. It also emits the `clear()` call `with((SomeFieldClass) null)`, the `_withDefaults()` call `with(fieldWithBuilder)` and the injection `setField("fieldWithBuilder", Base.class, fieldWithBuilder)` under the `fieldsToSet` guard. |
| Validation.BuilderNameOfTriple | tiramisu-util/src/test/java/com/tiramisu/domain/TripleSubBuilder.java:31 | The generator's builder name for this field is `triple`, the name the committed builder uses. |
| Validation.SetterNameOfTriple | tiramisu-util/src/test/java/com/tiramisu/domain/TripleSubBuilder.java:130 | The generator's setter name for `triple` is `withTriple`, the name the committed builder uses. |
| Validation.EmittedForTriple | tiramisu-util/src/test/java/com/tiramisu/domain/TripleSubBuilder.java:129-134 | For `triple` the generator emits exactly the tracking setter `withTriple(String)`. It also emits the `clear()` call `withTriple(null)`, the `_withDefaults()` call `withTriple(triple)` and the injection `setField("triple", TripleSub.class, triple)` under the `fieldsToSet` guard. |
| Validation.BuilderNameOfNoLightInTheDark | tiramisu-util/src/test/java/com/tiramisu/domain/TripleSubBuilder.java:32 | The generator's builder name for this field is `noLightInTheDark`, the name the committed builder uses. |
| Validation.SetterNameOfNoLightInTheDark | tiramisu-util/src/test/java/com/tiramisu/domain/TripleSubBuilder.java:137 | The generator's setter name for `noLightInTheDark` is `with`, the name the committed builder uses. |
| Validation.EmittedForNoLightInTheDark | tiramisu-util/src/test/java/com/tiramisu/domain/TripleSubBuilder.java:136-141 | For `noLightInTheDark` the generator emits exactly the tracking setter `with(Long)`. It also emits the `clear()` call `with((Long) null)`, the `_withDefaults()` call `with(noLightInTheDark)` and the injection `setField("noLightInTheDark", TripleSub.class, noLightInTheDark)` under the `fieldsToSet` guard. |
| Validation.BuilderNameOfThereInSub | tiramisu-util/src/test/java/com/tiramisu/domain/TripleSubBuilder.java:33 | The generator's builder name for this field is `thereInSub`, the name the committed builder uses. |
| Validation.SetterNameOfThereInSub | tiramisu-util/src/test/java/com/tiramisu/domain/TripleSubBuilder.java:144 | The generator's setter name for `thereInSub` is `withThereInSub`, the name the committed builder uses. |
| Validation.EmittedForThereInSub | tiramisu-util/src/test/java/com/tiramisu/domain/TripleSubBuilder.java:143-148 | For `thereInSub` the generator emits exactly the tracking setter `withThereInSub(String)`. It also emits the `clear()` call `withThereInSub(null)`, the `_withDefaults()` call `withThereInSub(thereInSub)` and the injection `setField("there", Sub.class, thereInSub)` under the `fieldsToSet` guard. |
| Validation.BuilderNameOfFloaty | tiramisu-util/src/test/java/com/tiramisu/domain/TripleSubBuilder.java:34 | The generator's builder name for this field is `floaty`, the name the committed builder uses. |
| Validation.SetterNameOfFloaty | tiramisu-util/src/test/java/com/tiramisu/domain/TripleSubBuilder.java:151 | The generator's setter name for `floaty` is `with`, the name the committed builder uses. |
| Validation.EmittedForFloaty | tiramisu-util/src/test/java/com/tiramisu/domain/TripleSubBuilder.java:150-155 | For `floaty` the generator emits exactly the tracking setter `with(float)`. It also emits the `clear()` call `with(0.0f)`, the `_withDefaults()` call `with(floaty)` and the injection `setField("floaty", TripleSub.class, floaty)` under the `fieldsToSet` guard. |
| Validation.BuilderNameOfBytey | tiramisu-util/src/test/java/com/tiramisu/domain/TripleSubBuilder.java:35 | The generator's builder name for this field is `bytey`, the name the committed builder uses. |
| Validation.SetterNameOfBytey | tiramisu-util/src/test/java/com/tiramisu/domain/TripleSubBuilder.java:158 | The generator's setter name for `bytey` is `with`, the name the committed builder uses. |
| Validation.EmittedForBytey | tiramisu-util/src/test/java/com/tiramisu/domain/TripleSubBuilder.java:157-162 | For `bytey` the generator emits exactly the tracking setter `with(byte)`. It also emits the `clear()` call `with((byte) 0)`, the `_withDefaults()` call `with(bytey)` and the injection `setField("bytey", TripleSub.class, bytey)` under the `fieldsToSet` guard. |
| Validation.BuilderNameOfBooleany | tiramisu-util/src/test/java/com/tiramisu/domain/TripleSubBuilder.java:36 | The generator's builder name for this field is `booleany`, the name the committed builder uses. |
| Validation.SetterNameOfBooleany | tiramisu-util/src/test/java/com/tiramisu/domain/TripleSubBuilder.java:165 | The generator's setter name for `booleany` is `with`, the name the committed builder uses. |
| Validation.EmittedForBooleany | tiramisu-util/src/test/java/com/tiramisu/domain/TripleSubBuilder.java:164-169 | For `booleany` the generator emits exactly the tracking setter `with(boolean)`. It also emits the `clear()` call `with(false)`, the `_withDefaults()` call `with(booleany)` and the injection `setField("booleany", TripleSub.class, booleany)` under the `fieldsToSet` guard. |
| Validation.BuilderNameOfThereInBase | tiramisu-util/src/test/java/com/tiramisu/domain/TripleSubBuilder.java:37 | The generator's builder name for this field is `thereInBase`, the name the committed builder uses. |
| Validation.SetterNameOfThereInBase | tiramisu-util/src/test/java/com/tiramisu/domain/TripleSubBuilder.java:172 | The generator's setter name for `thereInBase` is `with`, the name the committed builder uses. |
| Validation.EmittedForThereInBase | tiramisu-util/src/test/java/com/tiramisu/domain/TripleSubBuilder.java:171-176 | For `thereInBase` the generator emits exactly the tracking setter `with(Integer)`. It also emits the `clear()` call `with((Integer) null)`, the `_withDefaults()` call `with(thereInBase)` and the injection `setField("there", Base.class, thereInBase)` under the `fieldsToSet` guard. |
| Validation.ChainWellFormed | tiramisu-util/src/test/java/com/tiramisu/domain/objects/TripleSub.java:6-23 | The TripleSub → Sub → Base → Object chain has distinct classes, and each level declares distinct, named fields that belong to it. |
| Validation.CollectedFields | tiramisu-util/src/test/java/com/tiramisu/domain/builder/generator/BuilderGenerator.java:196-205 | With the configured `Object` bound and DoubleSub ignored, the collection is TripleSub's, Sub's and Base's declared fields. |
| Validation.OrderEnumerates | tiramisu-util/src/test/java/com/tiramisu/domain/TripleSubBuilder.java:20-37 | The committed builder's field order is a duplicate-free enumeration of exactly the collected fields. |
| Validation.OrderBuilderNamesInjective | tiramisu-util/src/test/java/com/tiramisu/domain/TripleSubBuilder.java:20-37 | The 18 builder names the generator decides for TripleSub are pairwise distinct. |
| Validation.OrderReferenceClasses | tiramisu-util/src/test/java/com/tiramisu/domain/TripleSubBuilder.java:20-37 | Every reference-typed field of TripleSub has type String, List, Date, SomeFieldClass, Long or Integer. |
| Validation.ReferenceClassesApart | tiramisu-util/src/test/java/com/tiramisu/domain/TripleSubBuilder.java:2-11 | Those classes have pairwise distinct simple names, and none is called like the companion builder. |
| Validation.OrderReferenceTypesApart | tiramisu-util/src/test/java/com/tiramisu/domain/TripleSubBuilder.java:20-37 | Reference types of TripleSub's fields that print with the same simple name are the same type. |
| Validation.CompanionApartFromFieldTypes | tiramisu-util/src/test/java/com/tiramisu/domain/builder/generator/BuilderGenerator.java:70-74 | The companion builder's simple name differs from every field type's simple name. |
| Validation.TripleSubResolutionReady | tiramisu-util/src/test/java/com/tiramisu/domain/TripleSubBuilder.java:45-176 | TripleSub's configuration and order meet every condition under which each emitted call resolves to its own field's setter. |
| Validation.TripleSubSound | tiramisu-util/src/test/java/com/tiramisu/domain/builder/generator/BuilderGenerator.java:43-105 | The configuration the generator was run with, together with the committed order, is sound: the order enumerates the collection and calls resolve. |
| Validation.BoundAtTargetCollectsBase | tiramisu-util/src/test/java/com/tiramisu/domain/builder/generator/BuilderGenerator.java:200 | With the bound set to TripleSub itself, the code as written still collects every field of Base. The collection that stops at the bound collects none of them. |
| Builders.GeneratedRowA | tiramisu-util/src/test/java/com/tiramisu/domain/TripleSubBuilder.java:20-25 | Builder fields 1–6 that the generator decides (name, target field, cleared value) are the committed builder's. |
| Builders.GeneratedRowB | tiramisu-util/src/test/java/com/tiramisu/domain/TripleSubBuilder.java:26-31 | Builder fields 7–12 that the generator decides are the committed builder's. |
| Builders.GeneratedRowC | tiramisu-util/src/test/java/com/tiramisu/domain/TripleSubBuilder.java:32-37 | Builder fields 13–18 that the generator decides are the committed builder's. |
| Builders.TripleSubLayoutIsGenerated | tiramisu-util/src/test/java/com/tiramisu/domain/TripleSubBuilder.java:19-37 | The builder layout derived from the generator's decisions is exactly the committed TripleSub builder's: slots, `setField` routing and cleared values. |
| Builders.TripleSubBuilderWellFormed | tiramisu-util/src/test/java/com/tiramisu/domain/TripleSubBuilder.java:241-298 | The committed TripleSub builder's slots have distinct names and route to distinct fields. |
| Builders.TripleSubStartingFromLosesHi | tiramisu-util/src/test/java/com/tiramisu/domain/TripleSubBuilder.java:234-239 | Starting from an instance with `hi = 7` and building gives back `hi = 0`: the built object differs from the instance as it was passed. |
| Builders.TripleSubStartingFromNull | tiramisu-util/src/test/java/com/tiramisu/domain/TripleSubBuilder.java:234-239 | `startingFrom(null)` leaves the builder unchanged. |
| Builders.TripleSubCompanionOverload | tiramisu-util/src/test/java/com/tiramisu/domain/TripleSubBuilder.java:122-127 | `with(SomeFieldClassBuilder b)` makes the built TripleSub hold, in `Base.fieldWithBuilder`, what `b.build()` returns. |
| Builders.SubBuilderWellFormed | tiramisu-util/src/test/java/com/tiramisu/domain/SubBuilder.java:19-28 | The committed Sub builder's slots have distinct names and route to distinct fields. |
| Builders.SubWithDefaults | tiramisu-util/src/test/java/com/tiramisu/domain/SubBuilder.java:116-127 | Sub's `_withDefaults()` keeps the builder in a valid state. |
| Builders.SubDefaultsDiscardsCalls | tiramisu-util/src/test/java/com/tiramisu/domain/SubBuilder.java:116-127 | After any setter chain, Sub's `_withDefaults()` followed by `build()` returns the held result untouched: every earlier call is discarded. |
| Builders.BuilderTestChain | tiramisu-util/src/test/java/com/tiramisu/domain/builder/BuilderTest.java:28-34 | The chain in the test leaves the six called slots tracked with the test's values, and keeps the result. |
| Builders.BuilderTest | tiramisu-util/src/test/java/com/tiramisu/domain/builder/BuilderTest.java:38-43 | The built Sub holds the test's six values in the six routed fields the test asserts, and every other field keeps its value. |
| Builders.SomeFieldClassBuilderWellFormed | tiramisu-util/src/test/java/com/tiramisu/domain/SomeFieldClassBuilder.java:15-17 | The committed SomeFieldClass builder's slots are distinct and route to distinct fields. |
| Builders.SomeFieldClassWithDefaults | tiramisu-util/src/test/java/com/tiramisu/domain/SomeFieldClassBuilder.java:54-58 | SomeFieldClass's `_withDefaults()` keeps the builder in a valid state. |
| Builders.SomeFieldClassDefaultsKeepEarlierCalls | tiramisu-util/src/test/java/com/tiramisu/domain/SomeFieldClassBuilder.java:54-58 | After a setter chain, `_withDefaults()` and `build()` leave each field with the chain's last argument, or its JVM default if the slot was not called. Earlier calls do take effect: the placeholder body does not yet do what the NOTE at line 51 describes. |
| Builders.SomeFieldClassStartingFrom | tiramisu-util/src/test/java/com/tiramisu/domain/SomeFieldClassBuilder.java:64-69 | SomeFieldClass's `startingFrom` keeps the builder in a valid state. |
| Builders.SomeFieldClassStartingFromKeepsSeed | tiramisu-util/src/test/java/com/tiramisu/domain/SomeFieldClassBuilder.java:64-69 | Starting from an instance and building returns that instance. Starting from `null` changes nothing. |
| Builders.DoubleSubBuilderWellFormed | tiramisu-util/src/test/java/com/tiramisu/domain/DoubleSubBuilder.java:18-23 | The committed DoubleSub builder's slots are distinct and route to distinct fields. |
| Builders.TestClassBuilderWellFormed | tiramisu-util/src/test/java/com/tiramisu/domain/TestClassBuilder.java:18-22 | The committed TestClass builder's slots are distinct and route to distinct fields. |
| Builders.DoubleSubRouting | tiramisu-util/src/test/java/com/tiramisu/domain/DoubleSubBuilder.java:66-84 | A fresh DoubleSub builder builds the constructed object. `there` reaches `Sub.there` and `everywhere` reaches `DoubleSub.everywhere`. |
| Builders.TestClassRouting | tiramisu-util/src/test/java/com/tiramisu/domain/TestClassBuilder.java:58-73 | A fresh TestClass builder builds the constructed object. `date` reaches `Base.date` and `here` reaches `TestClass.here`. |
| Runtime.StartingFromClearing | tiramisu-util/src/test/java/com/tiramisu/domain/builder/generator/BuilderGenerator.java:417-429 | The emitted `startingFrom` keeps the builder in a valid state. |
| Runtime.StartingFromUntracking | tiramisu-util/src/test/java/com/tiramisu/domain/SomeFieldClassBuilder.java:64-69 | The untracking `startingFrom` keeps the builder in a valid state. |

## Left out

- File output, `main`, console messages and `printStackTrace` are left out. `GenerateFile` takes whether the file exists as a parameter and returns the lines instead of writing them.
- Object identity and aliasing are not modelled: an instance is a value (a map from fields to values). In Java, `startingFrom` stores the caller's own object and `build()` returns that same object, so its routed fields are overwritten in place; the companion overload `with(Builder)` holds the other builder's object by reference. The model states what the built object contains, not which object it is.
- With `DEFAULT_CONSTRUCTOR_OF_TARGET_CLASS_IS_ACCESSIBLE = false`, the builder field is still initialised with `new T()`, so a builder for a class whose default constructor really is inaccessible would not compile. The model treats the flag as selecting the `build()` body only.
- Every reflective injection is modelled as succeeding. The collected fields come from `getDeclaredFields()`, which also lists static and synthetic fields (a `serialVersionUID`, fields a coverage tool adds); the model's fields carry no static or synthetic flag and are treated like instance fields. The emitted `setField` catches any exception and only prints it, so in Java a `static final` field is never written and `build()` carries on; Runtime.Build and Semantics.EmittedBuildIsBuild promise that write, and the swallowed failure is not modelled.
- The semantics of the emitted code (Semantics.EmittedClearIsClear, Semantics.EmittedDefaultsIsResetAll, Semantics.EmittedBuildIsBuild, Semantics.EmittedStartingFromIsClearing, Resolution.ClearCallResolves, Resolution.DefaultsCallResolves) is stated only for configurations meeting `Sound`, that is `Ready` plus `ResolutionReady`: a well-formed chain, an order that enumerates the collection, distinct builder names, reference field types with distinct simple names, and companion builders whose simple names differ from every field type's. The generator accepts configurations outside these and prints a file that does not compile, which the model does not describe. Examples: two field types with the same simple name, such as `java.util.Date` and `java.sql.Date`, give two clashing imports; a companion builder named like a field type clashes with that type; builder-name collisions are shown by Naming.FieldNamedLikeDisambiguatedNameCollides and Naming.LowercaseCollides.
- Reflection is replaced by descriptor data. The superclass chain, declared fields, field types, simple names and `getSuperclass()` of the bound are inputs.
- The iteration order of the `HashSet` of fields is a parameter (`order`) that must enumerate the collection without duplicates. Every proof holds for any such order.
- `lowercase` and `capitalize` are modelled on ASCII letters only, with a locale-neutral mapping. `String.toLowerCase` and `toUpperCase` use the JVM's default locale, so under a Turkish or Azeri locale `capitalize("id")` gives `İd` and `lowercase("ID")` gives `ıD`; neither locale, nor scripts other than ASCII, is modelled.
- Casing.Lowercase and Casing.Capitalize require a non-empty string. In Java both throw on the empty string (`substring(0, 1)`), which line 111 of `BuilderGenerator.java` reaches for a target with an empty simple name. The emission members exclude that case with `cfg.target.simple != ""` instead of modelling the exception.
- Java overload resolution is modelled as exact matching of the argument's static type. Widening, boxing and the choice of a most specific method are not modelled. The resolution proofs need only exact matches because every emitted argument is a typed literal, a typed `null`, or the slot itself.
- Generic type arguments are erased (`List<ZonedDateTime>` is `List`), as `getSimpleName()` prints them.
- Floating-point values are stored and copied, never computed with. Their literals are compared as text.
- The rendered text leaves out the `@SuppressWarnings` line of the class header, the Javadoc comments of the constructor, `clear()`, `_withDefaults()` and `startingFrom`, and the `// TODO implement me!` suffix of each `_withDefaults()` call. Blank lines are rendered.
- Emission.RenderMembers has no contract. The rendered text is not compared line by line against the committed builders; the decisions it prints (names, calls, injections) are compared instead.
- Emission.Render states only the first and last line of the file, because the members in between are stated through their structured declarations.
- Resolution.Candidates states only a bound on its length. What it returns for emitted calls is stated by the resolution lemmas.
- Runtime.StartingFromClearing states only that the state stays valid. Its effect is stated by Runtime.StartingFromClearingThenBuild and Semantics.EmittedStartingFromIsClearing.
- Runtime.StartingFromUntracking states only that the state stays valid. Its effect is stated by Runtime.StartingFromUntrackingThenBuild and Runtime.SeededSparseBuild.
- Builders.SubWithDefaults states only that the state stays valid. Its effect is stated by Builders.SubDefaultsDiscardsCalls.
- Builders.SomeFieldClassWithDefaults states only that the state stays valid. Its effect is stated by Builders.SomeFieldClassDefaultsKeepEarlierCalls.
- Builders.SomeFieldClassStartingFrom states only that the state stays valid. Its effect is stated by Builders.SomeFieldClassStartingFromKeepsSeed.
- Builders.BuilderTest starts from any untracked Sub builder rather than the one `create()` constructs. The constructed `Sub` is left open because `Sub`'s constructor is not modelled.
- `Base.java` is not part of this model. Base's fields are read off the routing in the committed TripleSub builder.
- The committed `TripleSubBuilder` declares package `com.tiramisu.domain` and imports `Base`, `Sub` and `TripleSub`. The generator, run as configured, would print the target's own package `com.tiramisu.domain.objects`. It would import `Field`, `HashSet`, `Set` and every reference field type, `java.lang` types included, and not `Base`, `Sub` or `TripleSub`. The model states what the generator prints.
- The `DoubleSubBuilder` and `TestClassBuilder` came from an older configuration without `clear()`, `_withDefaults()` or `startingFrom`. Only their slots and routing are modelled.
- `SubBuilder` predates `fieldWithBuilder` and has a hand-trimmed `_withDefaults()`. It is modelled as committed, not as the generator would emit it now.
- The concrete lemmas about the DoubleSub and TestClass builders cover two slots each, chosen to exercise both declaring classes.

## Findings

| source | as written | input that shows it | evidently intended | confidence | as-written member | corrected member |
|---|---|---|---|---|---|---|
| tiramisu-util/src/test/java/com/tiramisu/domain/builder/generator/BuilderGenerator.java:453-459 | With an inaccessible default constructor, `build()` declares a local `_result_…` that shadows the builder's field. `setField` writes into the field, and the local, untouched, is returned. | Any field set before `build()` on a builder generated with `DEFAULT_CONSTRUCTOR_OF_TARGET_CLASS_IS_ACCESSIBLE = false`: the returned object lacks the value. | Inject into the newly constructed object and return it. | high; not executed | Semantics.ReflectiveBuildDropsSetterValue | Semantics.ReflectiveBuildKeepsSetterValue |
| tiramisu-util/src/test/java/com/tiramisu/domain/builder/generator/BuilderGenerator.java:424 | The emitted `startingFrom(instance)` calls `clear()`, which, under the sparse policy, marks every field as set with its JVM default. `build()` then writes every routed field of the instance, so the built object differs from the instance as it was passed: its routed fields are zeroed. | `TripleSubBuilder.startingFrom(x)` with `x.hi == 7`, then `build()`: the result has `hi == 0` (Builders.TripleSubStartingFromLosesHi). | Lines 76-79: a builder started from an instance overwrites only fields whose setter was called. Empty the tracking set, as the committed `SomeFieldClassBuilder` does. | high; not executed | Runtime.StartingFromClearingLosesSeed | Runtime.SeededSparseBuild |
| tiramisu-util/src/test/java/com/tiramisu/domain/builder/generator/BuilderGenerator.java:200 | Only the level equal to the bound's direct superclass is skipped. Levels further up are collected again, and a non-ancestor bound can remove a level. | `UPPER_BOUND_OF_HIERARCHY = TripleSub.class`: Sub is skipped but Base's fields are collected (Validation.BoundAtTargetCollectsBase). | Lines 45-47: collect from the target up to the bound, inclusive. Collect the whole hierarchy for `Object`, `null` or a non-ancestor. | medium; not executed | Collection.LevelsAboveBoundSuperclassCollected | Collection.UpToBoundStopsAtBound |
