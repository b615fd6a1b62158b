/**
 The builders committed next to the generator, as layouts of the runtime model:
 for each, its builder fields in declaration order, the `setField` pair each one is
 injected into, and the value its `clear()` passes. Where a committed builder was
 produced by an older version of the generator, its differing operations are
 defined here; the rest is the runtime model on its layout.
 */
module Builders {
  import opened Descriptors
  import opened Runtime
  import opened Fixtures
  import Naming
  import Semantics
  import Validation

  const TestClassClass := ClassRef("com.tiramisu.domain.test.TestClass", "TestClass")
  const TestBaseClass := ClassRef("com.tiramisu.domain.test.Base", "Base")

  /* ------------------------------------------------------------------------ */
  /*  TripleSubBuilder                                                        */
  /* ------------------------------------------------------------------------ */

  /** The eighteen builder fields of the TripleSub builder, in three rows of six. */
  const TripleSubSlotsA: seq<Slot> := [
    Slot("longy", FieldKey("longy", TripleSubClass), IntV(0)),
    Slot("doubley", FieldKey("doubley", TripleSubClass), FloatV(0.0)),
    Slot("hereInSub", FieldKey("here", SubClass), Null),
    Slot("dateInSub", FieldKey("date", SubClass), Null),
    Slot("someChar", FieldKey("someChar", SubClass), CharV(0 as char)),
    Slot("list", FieldKey("list", SubClass), Null)]
  const TripleSubSlotsB: seq<Slot> := [
    Slot("shorty", FieldKey("shorty", TripleSubClass), IntV(0)),
    Slot("dateInBase", FieldKey("date", BaseClass), Null),
    Slot("hereInBase", FieldKey("here", BaseClass), Null),
    Slot("hi", FieldKey("hi", BaseClass), IntV(0)),
    Slot("fieldWithBuilder", FieldKey("fieldWithBuilder", BaseClass), Null),
    Slot("triple", FieldKey("triple", TripleSubClass), Null)]
  const TripleSubSlotsC: seq<Slot> := [
    Slot("noLightInTheDark", FieldKey("noLightInTheDark", TripleSubClass), Null),
    Slot("thereInSub", FieldKey("there", SubClass), Null),
    Slot("floaty", FieldKey("floaty", TripleSubClass), FloatV(0.0)),
    Slot("bytey", FieldKey("bytey", TripleSubClass), IntV(0)),
    Slot("booleany", FieldKey("booleany", TripleSubClass), BoolV(false)),
    Slot("thereInBase", FieldKey("there", BaseClass), Null)]

  const TripleSubBuilderLayout := Layout(TripleSubSlotsA + TripleSubSlotsB + TripleSubSlotsC, true)

  /** Row A of the generated layout: the slots the generator derives for the
      fields at positions 0 to 5. */
  lemma GeneratedRowA(i: int)
    requires 0 <= i < 6
    ensures NamedFields(TripleSubOrder)
    ensures Semantics.GeneratedLayout(GeneratorConfig, TripleSubOrder).slots[i] == TripleSubSlotsA[i]
  {
    Validation.BuilderNameOfLongy();
    Validation.BuilderNameOfDoubley();
    Validation.BuilderNameOfHereInSub();
    Validation.BuilderNameOfDateInSub();
    Validation.BuilderNameOfSomeChar();
    Validation.BuilderNameOfList();
    assert i == 0 || i == 1 || i == 2 || i == 3 || i == 4 || i == 5;
  }

  /** Row B of the generated layout: the slots the generator derives for the
      fields at positions 6 to 11. */
  lemma GeneratedRowB(i: int)
    requires 6 <= i < 12
    ensures NamedFields(TripleSubOrder)
    ensures Semantics.GeneratedLayout(GeneratorConfig, TripleSubOrder).slots[i] == TripleSubSlotsB[i - 6]
  {
    Validation.BuilderNameOfShorty();
    Validation.BuilderNameOfDateInBase();
    Validation.BuilderNameOfHereInBase();
    Validation.BuilderNameOfHi();
    Validation.BuilderNameOfFieldWithBuilder();
    Validation.BuilderNameOfTriple();
    assert i == 6 || i == 7 || i == 8 || i == 9 || i == 10 || i == 11;
  }

  /** Row C of the generated layout: the slots the generator derives for the
      fields at positions 12 to 17. */
  lemma GeneratedRowC(i: int)
    requires 12 <= i < 18
    ensures NamedFields(TripleSubOrder)
    ensures Semantics.GeneratedLayout(GeneratorConfig, TripleSubOrder).slots[i] == TripleSubSlotsC[i - 12]
  {
    Validation.BuilderNameOfNoLightInTheDark();
    Validation.BuilderNameOfThereInSub();
    Validation.BuilderNameOfFloaty();
    Validation.BuilderNameOfBytey();
    Validation.BuilderNameOfBooleany();
    Validation.BuilderNameOfThereInBase();
    assert i == 12 || i == 13 || i == 14 || i == 15 || i == 16 || i == 17;
  }

  /** The committed TripleSub builder is what the generator emits for the TripleSub
      hierarchy: the same builder fields, in the same order, routed to the same
      fields, cleared to the same values, under the sparse policy. */
  lemma TripleSubLayoutIsGenerated()
    ensures NamedFields(TripleSubOrder)
    ensures Semantics.GeneratedLayout(GeneratorConfig, TripleSubOrder) == TripleSubBuilderLayout
  {
    Validation.OrderNamed();
    var g := Semantics.GeneratedLayout(GeneratorConfig, TripleSubOrder).slots;
    var t := TripleSubBuilderLayout.slots;
    forall i | 0 <= i < 18 ensures g[i] == t[i] {
      if i < 6 {
        GeneratedRowA(i);
      } else if i < 12 {
        GeneratedRowB(i);
      } else {
        GeneratedRowC(i);
      }
    }
  }

  /** Its builder names are distinct and so are the fields they route to. */
  lemma TripleSubBuilderWellFormed()
    ensures WellFormed(TripleSubBuilderLayout)
  {
    Validation.TripleSubSound();
    Semantics.GeneratedLayoutWellFormed(GeneratorConfig, TripleSubOrder);
    TripleSubLayoutIsGenerated();
  }

  /** The seed of the TripleSub builder's `startingFrom` does not survive `build()`:
      a TripleSub whose `hi` is 7 comes back with `hi` 0, so the built object differs
      from the seed as it was passed (in the generated code, the caller's own object
      has its `hi` zeroed in place). */
  lemma TripleSubStartingFromLosesHi(s: State, x: Instance)
    requires Valid(TripleSubBuilderLayout, s)
    requires x == map[FieldKey("hi", BaseClass) := IntV(7)]
    ensures WellFormed(TripleSubBuilderLayout)
    ensures var r := Build(TripleSubBuilderLayout, StartingFromClearing(TripleSubBuilderLayout, s, Some(x)));
            r != x && r[FieldKey("hi", BaseClass)] == IntV(0)
  {
    TripleSubBuilderWellFormed();
    var l := TripleSubBuilderLayout;
    assert l.slots[9] == Slot("hi", FieldKey("hi", BaseClass), IntV(0));
    StartingFromClearingLosesSeed(l, s, x, 9);
    StartingFromClearingThenBuild(l, s, x);
  }

  /** `startingFrom(null)` leaves the builder as it was. */
  lemma TripleSubStartingFromNull(s: State)
    requires Valid(TripleSubBuilderLayout, s)
    ensures WellFormed(TripleSubBuilderLayout)
    ensures StartingFromClearing(TripleSubBuilderLayout, s, None) == s
  {
    TripleSubBuilderWellFormed();
  }

  /** `with(SomeFieldClassBuilder b)` puts what `b.build()` returns into the
      `fieldWithBuilder` field of Base. */
  lemma TripleSubCompanionOverload(s: State, b: State)
    requires Valid(TripleSubBuilderLayout, s) && Valid(SomeFieldClassBuilderLayout, b)
    ensures WellFormed(TripleSubBuilderLayout) && WellFormed(SomeFieldClassBuilderLayout)
    ensures "fieldWithBuilder" in Names(TripleSubBuilderLayout)
    ensures var t := SetFromBuilder(TripleSubBuilderLayout, s, "fieldWithBuilder", SomeFieldClassBuilderLayout, b);
            FieldKey("fieldWithBuilder", BaseClass) in Build(TripleSubBuilderLayout, t)
    ensures var t := SetFromBuilder(TripleSubBuilderLayout, s, "fieldWithBuilder", SomeFieldClassBuilderLayout, b);
            Build(TripleSubBuilderLayout, t)[FieldKey("fieldWithBuilder", BaseClass)]
              == Obj(Build(SomeFieldClassBuilderLayout, b))
  {
    TripleSubBuilderWellFormed();
    SomeFieldClassBuilderWellFormed();
    var l := TripleSubBuilderLayout;
    assert l.slots[10] == Slot("fieldWithBuilder", FieldKey("fieldWithBuilder", BaseClass), Null);
    SetThenBuild(l, s, 10, Obj(Build(SomeFieldClassBuilderLayout, b)));
  }

  /* ------------------------------------------------------------------------ */
  /*  SubBuilder                                                              */
  /* ------------------------------------------------------------------------ */

  /** The nine builder fields of the Sub builder, produced before Base had
      `fieldWithBuilder`. */
  const SubBuilderLayout := Layout([
    Slot("thereInSub", FieldKey("there", SubClass), Null),
    Slot("hereInSub", FieldKey("here", SubClass), Null),
    Slot("dateInSub", FieldKey("date", SubClass), Null),
    Slot("someChar", FieldKey("someChar", SubClass), CharV(0 as char)),
    Slot("list", FieldKey("list", SubClass), Null),
    Slot("thereInBase", FieldKey("there", BaseClass), Null),
    Slot("dateInBase", FieldKey("date", BaseClass), Null),
    Slot("hereInBase", FieldKey("here", BaseClass), Null),
    Slot("hi", FieldKey("hi", BaseClass), IntV(0))], true)

  lemma SubBuilderWellFormed()
    ensures WellFormed(SubBuilderLayout)
  {
    var sl := SubBuilderLayout.slots;
    forall i, j | 0 <= i < j < |sl| ensures sl[i].name != sl[j].name && sl[i].target != sl[j].target {
      assert sl[i].name[0] != sl[j].name[0] || |sl[i].name| != |sl[j].name|;
    }
  }

  /** `_withDefaults()` of the Sub builder: it empties the tracking set and calls
      no setter. */
  function SubWithDefaults(s: State): (r: State)
    requires Valid(SubBuilderLayout, s)
    ensures Valid(SubBuilderLayout, r)
  {
    Untrack(SubBuilderLayout, s)
  }

  /** Every setter called before the Sub builder's `_withDefaults()` is lost:
      `build()` returns the held object unchanged. */
  lemma SubDefaultsDiscardsCalls(s: State, calls: seq<Call>)
    requires Valid(SubBuilderLayout, s) && CallsKnown(SubBuilderLayout, calls)
    ensures WellFormed(SubBuilderLayout)
    ensures Build(SubBuilderLayout, SubWithDefaults(SetAll(SubBuilderLayout, s, calls))) == s.result
  {
    SubBuilderWellFormed();
    UntrackedBuildKeepsResult(SubBuilderLayout, SubWithDefaults(SetAll(SubBuilderLayout, s, calls)));
  }

  /** The setter chain of the builder test, on a Sub builder with nothing tracked
      as `create()` returns one: `with(list)`, `withHereInSub`, `withHereInBase`,
      `withThereInSub`, `with(15)` for the Integer `there` of Base and `with(date)`
      for the Date of Base. No setter is called twice, so each value is the one
      the chain leaves in its own builder field, and each is tracked. */
  method BuilderTestChain(s: State, list: Value, hereInSub: string, thereInSub: string, date: Value) returns (t: State)
    requires Valid(SubBuilderLayout, s) && s.fieldsToSet == {}
    ensures Valid(SubBuilderLayout, t) && t.result == s.result
    ensures "list" in t.fieldsToSet && "hereInSub" in t.fieldsToSet && "hereInBase" in t.fieldsToSet
    ensures "thereInSub" in t.fieldsToSet && "thereInBase" in t.fieldsToSet && "dateInBase" in t.fieldsToSet
    ensures && t.values["list"] == list && t.values["hereInSub"] == Text(hereInSub)
            && t.values["hereInBase"] == Text(hereInSub + thereInSub) && t.values["thereInSub"] == Text(thereInSub)
            && t.values["thereInBase"] == IntV(15) && t.values["dateInBase"] == date
  {
    var l := SubBuilderLayout;
    var calls := [Call("list", list), Call("hereInSub", Text(hereInSub)),
                  Call("hereInBase", Text(hereInSub + thereInSub)), Call("thereInSub", Text(thereInSub)),
                  Call("thereInBase", IntV(15)), Call("dateInBase", date)];
    assert CallsKnown(l, calls) by {
      assert l.slots[4].name == "list" && l.slots[1].name == "hereInSub" && l.slots[7].name == "hereInBase";
      assert l.slots[0].name == "thereInSub" && l.slots[5].name == "thereInBase" && l.slots[6].name == "dateInBase";
    }
    assert forall a, b :: 0 <= a < b < |calls| ==> calls[a].name != calls[b].name by {
      assert calls[0].name[0] == 'l' && calls[1].name[0] == 'h' && calls[2].name[0] == 'h';
      assert calls[3].name[0] == 't' && calls[4].name[0] == 't' && calls[5].name[0] == 'd';
      assert calls[1].name[6] != calls[2].name[6] && calls[3].name[7] != calls[4].name[7];
    }
    LastArgOfDistinct(calls, 0);
    LastArgOfDistinct(calls, 1);
    LastArgOfDistinct(calls, 2);
    LastArgOfDistinct(calls, 3);
    LastArgOfDistinct(calls, 4);
    LastArgOfDistinct(calls, 5);
    t := SetAll(l, s, calls);
  }

  /** The builder test: the setter chain, then `build()`. Each value lands in the
      field of the class it was meant for, the two `here` and the two `there`
      fields kept apart, and nothing else of the held Sub changes. */
  method BuilderTest(s: State, list: Value, hereInSub: string, thereInSub: string, date: Value) returns (r: Instance)
    requires Valid(SubBuilderLayout, s) && s.fieldsToSet == {}
    ensures && FieldKey("list", SubClass) in r && FieldKey("here", SubClass) in r && FieldKey("here", BaseClass) in r
            && FieldKey("there", SubClass) in r && FieldKey("there", BaseClass) in r && FieldKey("date", BaseClass) in r
    ensures && r[FieldKey("list", SubClass)] == list
            && r[FieldKey("here", SubClass)] == Text(hereInSub)
            && r[FieldKey("here", BaseClass)] == Text(hereInSub + thereInSub)
            && r[FieldKey("there", SubClass)] == Text(thereInSub)
            && r[FieldKey("there", BaseClass)] == IntV(15)
            && r[FieldKey("date", BaseClass)] == date
    ensures forall key :: key in s.result && key !in Targets(SubBuilderLayout) ==> key in r && r[key] == s.result[key]
  {
    var l := SubBuilderLayout;
    var t := BuilderTestChain(s, list, hereInSub, thereInSub, date);
    assert l.slots[4] == Slot("list", FieldKey("list", SubClass), Null);
    assert l.slots[1] == Slot("hereInSub", FieldKey("here", SubClass), Null);
    assert l.slots[7] == Slot("hereInBase", FieldKey("here", BaseClass), Null);
    assert l.slots[0] == Slot("thereInSub", FieldKey("there", SubClass), Null);
    assert l.slots[5] == Slot("thereInBase", FieldKey("there", BaseClass), Null);
    assert l.slots[6] == Slot("dateInBase", FieldKey("date", BaseClass), Null);
    SubBuilderWellFormed();
    InjectedReachesTarget(l, t, 4);
    InjectedReachesTarget(l, t, 1);
    InjectedReachesTarget(l, t, 7);
    InjectedReachesTarget(l, t, 0);
    InjectedReachesTarget(l, t, 5);
    InjectedReachesTarget(l, t, 6);
    BuildKeepsNonTargets(l, t);
    r := Build(l, t);
  }

  /* ------------------------------------------------------------------------ */
  /*  SomeFieldClassBuilder                                                   */
  /* ------------------------------------------------------------------------ */

  const SomeFieldClassBuilderLayout := Layout([
    Slot("stringBoy", FieldKey("stringBoy", SomeFieldClassClass), Null),
    Slot("someChar", FieldKey("someChar", SomeFieldClassClass), CharV(0 as char))], true)

  lemma SomeFieldClassBuilderWellFormed()
    ensures WellFormed(SomeFieldClassBuilderLayout)
  {
  }

  /** `_withDefaults()` of the SomeFieldClass builder: empty the tracking set, then
      call each setter with its own field's value. */
  function SomeFieldClassWithDefaults(s: State): (r: State)
    requires Valid(SomeFieldClassBuilderLayout, s)
    ensures Valid(SomeFieldClassBuilderLayout, r)
  {
    SomeFieldClassBuilderWellFormed();
    ResetAll(SomeFieldClassBuilderLayout, Untrack(SomeFieldClassBuilderLayout, s))
  }

  /** The placeholder `_withDefaults()` does not yet do what its doc comment
      describes: the setters called before it keep their effect, and the uncalled
      ones now inject their JVM default. */
  lemma SomeFieldClassDefaultsKeepEarlierCalls(x: Instance, calls: seq<Call>)
    requires CallsKnown(SomeFieldClassBuilderLayout, calls)
    ensures WellFormed(SomeFieldClassBuilderLayout)
    ensures var l := SomeFieldClassBuilderLayout;
            var r := Build(l, SomeFieldClassWithDefaults(SetAll(l, Create(l, x), calls)));
            FieldKey("stringBoy", SomeFieldClassClass) in r && FieldKey("someChar", SomeFieldClassClass) in r
    ensures var l := SomeFieldClassBuilderLayout;
            var r := Build(l, SomeFieldClassWithDefaults(SetAll(l, Create(l, x), calls)));
            && r[FieldKey("stringBoy", SomeFieldClassClass)] == (if "stringBoy" in CallNames(calls) then LastArg(calls, "stringBoy") else Null)
            && r[FieldKey("someChar", SomeFieldClassClass)] == (if "someChar" in CallNames(calls) then LastArg(calls, "someChar") else CharV(0 as char))
  {
    var l := SomeFieldClassBuilderLayout;
    SomeFieldClassBuilderWellFormed();
    var t := SomeFieldClassWithDefaults(SetAll(l, Create(l, x), calls));
    assert l.slots[0].name in Names(l) && l.slots[1].name in Names(l);
    assert Injected(l, t, 0) && Injected(l, t, 1);
  }

  /** `startingFrom(instance)` of the SomeFieldClass builder: ignored on `null`,
      otherwise empty the tracking set and adopt the instance. */
  function SomeFieldClassStartingFrom(s: State, instance: Option<Instance>): (r: State)
    requires Valid(SomeFieldClassBuilderLayout, s)
    ensures Valid(SomeFieldClassBuilderLayout, r)
  {
    StartingFromUntracking(SomeFieldClassBuilderLayout, s, instance)
  }

  /** That `startingFrom` keeps its seed: `build()` right after it returns the
      instance, and `startingFrom(null)` changes nothing. */
  lemma SomeFieldClassStartingFromKeepsSeed(s: State, x: Instance)
    requires Valid(SomeFieldClassBuilderLayout, s)
    ensures WellFormed(SomeFieldClassBuilderLayout)
    ensures Build(SomeFieldClassBuilderLayout, SomeFieldClassStartingFrom(s, Some(x))) == x
    ensures SomeFieldClassStartingFrom(s, None) == s
  {
    SomeFieldClassBuilderWellFormed();
    StartingFromUntrackingThenBuild(SomeFieldClassBuilderLayout, s, x);
  }

  /* ------------------------------------------------------------------------ */
  /*  DoubleSubBuilder and TestClassBuilder                                   */
  /* ------------------------------------------------------------------------ */

  /** The DoubleSub builder, produced with Sub as the upper bound: Base's fields are
      not collected, so no name needs disambiguating. */
  const DoubleSubBuilderLayout := Layout([
    Slot("there", FieldKey("there", SubClass), Null),
    Slot("here", FieldKey("here", SubClass), Null),
    Slot("allAlone", FieldKey("allAlone", DoubleSubClass), Null),
    Slot("list", FieldKey("list", SubClass), Null),
    Slot("everywhere", FieldKey("everywhere", DoubleSubClass), Null)], true)

  lemma DoubleSubBuilderWellFormed()
    ensures WellFormed(DoubleSubBuilderLayout)
  {
  }

  /** The TestClass builder: `date` is declared by the test package's Base. */
  const TestClassBuilderLayout := Layout([
    Slot("there", FieldKey("there", TestClassClass), Null),
    Slot("testList", FieldKey("testList", TestClassClass), Null),
    Slot("date", FieldKey("date", TestBaseClass), Null),
    Slot("here", FieldKey("here", TestClassClass), Null)], true)

  lemma TestClassBuilderWellFormed()
    ensures WellFormed(TestClassBuilderLayout)
  {
  }

  /** A fresh DoubleSub builder builds the constructed object unchanged;
      `withThere(v)` writes `v` into the `there` field of Sub and `withEverywhere(v)`
      into the `everywhere` field of DoubleSub. */
  lemma DoubleSubRouting(x: Instance, v: Value)
    ensures WellFormed(DoubleSubBuilderLayout)
    ensures Build(DoubleSubBuilderLayout, Create(DoubleSubBuilderLayout, x)) == x
    ensures "there" in Names(DoubleSubBuilderLayout) && "everywhere" in Names(DoubleSubBuilderLayout)
    ensures var l := DoubleSubBuilderLayout;
            && FieldKey("there", SubClass) in Build(l, Set(l, Create(l, x), "there", v))
            && FieldKey("everywhere", DoubleSubClass) in Build(l, Set(l, Create(l, x), "everywhere", v))
    ensures var l := DoubleSubBuilderLayout;
            && Build(l, Set(l, Create(l, x), "there", v))[FieldKey("there", SubClass)] == v
            && Build(l, Set(l, Create(l, x), "everywhere", v))[FieldKey("everywhere", DoubleSubClass)] == v
  {
    var l := DoubleSubBuilderLayout;
    DoubleSubBuilderWellFormed();
    FreshBuildIsDefault(l, x);
    assert l.slots[0].name == "there" && l.slots[4].name == "everywhere";
    SetThenBuild(l, Create(l, x), 0, v);
    SetThenBuild(l, Create(l, x), 4, v);
  }

  /** A fresh TestClass builder builds the constructed object unchanged;
      `withDate(d)` writes `d` into the `date` of the test package's Base and
      `withHere(v)` into the `here` of TestClass. */
  lemma TestClassRouting(x: Instance, v: Value)
    ensures WellFormed(TestClassBuilderLayout)
    ensures Build(TestClassBuilderLayout, Create(TestClassBuilderLayout, x)) == x
    ensures "date" in Names(TestClassBuilderLayout) && "here" in Names(TestClassBuilderLayout)
    ensures var l := TestClassBuilderLayout;
            && FieldKey("date", TestBaseClass) in Build(l, Set(l, Create(l, x), "date", v))
            && FieldKey("here", TestClassClass) in Build(l, Set(l, Create(l, x), "here", v))
    ensures var l := TestClassBuilderLayout;
            && Build(l, Set(l, Create(l, x), "date", v))[FieldKey("date", TestBaseClass)] == v
            && Build(l, Set(l, Create(l, x), "here", v))[FieldKey("here", TestClassClass)] == v
  {
    var l := TestClassBuilderLayout;
    TestClassBuilderWellFormed();
    FreshBuildIsDefault(l, x);
    assert l.slots[2].name == "date" && l.slots[3].name == "here";
    SetThenBuild(l, Create(l, x), 2, v);
    SetThenBuild(l, Create(l, x), 3, v);
  }
}
