/**
 The generator evaluated on the TripleSub hierarchy: with the configuration it was
 run with and the iteration order its committed builder shows, the naming decisions
 reproduce that builder's field names and setter names, its `clear()` calls and
 the routing of its `build()`.
 */
module Validation {
  import opened Descriptors
  import opened Casing
  import opened Collection
  import opened Naming
  import opened Emission
  import opened Resolution
  import opened Semantics
  import opened Fixtures

  /** The positions of the eighteen-field enumeration, as a case split the
      verifier can evaluate a property on. */
  lemma Position(i: int)
    requires 0 <= i < |TripleSubOrder|
    ensures i == 0 || i == 1 || i == 2 || i == 3 || i == 4 || i == 5 || i == 6 || i == 7 || i == 8 ||
            i == 9 || i == 10 || i == 11 || i == 12 || i == 13 || i == 14 || i == 15 || i == 16 || i == 17
  {
  }

  lemma OrderNoDup()
    ensures NoDup(TripleSubOrder)
  {
    var o := TripleSubOrder;
    forall i, j | 0 <= i < j < |o| ensures o[i] != o[j] {
      Position(i);
      Position(j);
    }
  }

  lemma OrderNamed()
    ensures NamedFields(TripleSubOrder)
  {
    var o := TripleSubOrder;
    forall i | 0 <= i < |o| ensures o[i].name != "" {
      Position(i);
    }
  }

  /** A field whose name no other collected field has keeps its plain name. */
  lemma PlainName(o: seq<Field>, k: nat)
    requires NamedFields(o) && k < |o| && !IsUpper(o[k].name[0])
    requires forall j :: 0 <= j < |o| && j != k ==> o[j].name != o[k].name
    ensures BName(o, o[k]) == o[k].name
  {
    var p := (g: Field) => g.name == o[k].name;
    if CountName(o, o[k].name) > 1 {
      var j := CountWhereOtherWitness(o, p, k);
      assert false;
    }
    BuilderFieldNameShape(o, o[k]);
  }

  /** A field sharing its name with the field at `j` is disambiguated by its class:
      its builder name is `n`, the name followed by "In" and the declaring class. */
  lemma DisambiguatedName(o: seq<Field>, k: nat, j: nat, n: string)
    requires NamedFields(o) && k < |o| && j < |o| && j != k && !IsUpper(o[k].name[0])
    requires o[j].name == o[k].name
    requires n == o[k].name + "In" + o[k].declaring.simple
    ensures BName(o, o[k]) == n
  {
    var p := (g: Field) => g.name == o[k].name;
    if j < k {
      CountWhereAtLeastTwo(o, p, j, k);
    } else {
      CountWhereAtLeastTwo(o, p, k, j);
    }
    BuilderFieldNameShape(o, o[k]);
  }

  /** With omission on, a field whose type no other collected field has gets the
      bare prefix as its setter name. */
  lemma BareSetterName(cfg: Config, o: seq<Field>, k: nat)
    requires NamedFields(o) && k < |o| && cfg.omitUniqueTypes
    requires forall j :: 0 <= j < |o| && j != k ==> o[j].fieldType != o[k].fieldType
    ensures SName(cfg, o, o[k]) == cfg.prefix
  {
    var p := (g: Field) => g.fieldType == o[k].fieldType;
    if CountType(o, o[k].fieldType) > 1 {
      var j := CountWhereOtherWitness(o, p, k);
      assert false;
    }
  }

  /** A field sharing its type with the field at `j` gets the full setter name `m`:
      the prefix and its capitalised builder name `n`. */
  lemma FullSetterName(cfg: Config, o: seq<Field>, k: nat, j: nat, n: string, m: string)
    requires NamedFields(o) && k < |o| && j < |o| && j != k
    requires o[j].fieldType == o[k].fieldType
    requires BName(o, o[k]) == n && |n| > 0 && m == cfg.prefix + Capitalize(n)
    ensures SName(cfg, o, o[k]) == m
  {
    var p := (g: Field) => g.fieldType == o[k].fieldType;
    if j < k {
      CountWhereAtLeastTwo(o, p, j, k);
    } else {
      CountWhereAtLeastTwo(o, p, k, j);
    }
  }

  /** The builder field name the generator decides for `longy`. */
  lemma BuilderNameOfLongy()
    ensures NamedFields(TripleSubOrder)
    ensures BName(TripleSubOrder, TripleSubOrder[0]) == "longy"
  {
    var o := TripleSubOrder;
    OrderNamed();
    forall j | 0 <= j < |o| && j != 0 ensures o[j].name != o[0].name { Position(j); }
    PlainName(o, 0);
  }

  /** The setter name the generator decides for `longy`. */
  lemma SetterNameOfLongy()
    ensures NamedFields(TripleSubOrder)
    ensures SName(GeneratorConfig, TripleSubOrder, TripleSubOrder[0]) == "with"
  {
    var o, cfg := TripleSubOrder, GeneratorConfig;
    BuilderNameOfLongy();
    forall j | 0 <= j < |o| && j != 0 ensures o[j].fieldType != o[0].fieldType { Position(j); }
    BareSetterName(cfg, o, 0);
  }

  /** The builder field `longy` of the committed TripleSub builder: its setter, its
      `clear()` and `_withDefaults()` calls and its injection. */
  lemma EmittedForLongy()
    ensures NamedFields(TripleSubOrder)
    ensures var o, cfg := TripleSubOrder, GeneratorConfig;
      var f := o[0];
      && f == TripleSubLongy
      && SettersFor(cfg, o, f) == [SetterDecl("with", PrimParam(Long), "longy", false, true, "TripleSub", "longy")]
      && ClearCall(cfg, o, f) == Invocation("with", LiteralArg(PrimZero(Long)))
      && DefaultsCall(cfg, o, f) == Invocation("with", SlotArg("longy", f.fieldType))
      && InjectionFor(cfg, o, f) == Injection("longy", TripleSubClass, "longy", true)
  {
    BuilderNameOfLongy();
    SetterNameOfLongy();
  }

  /** The builder field name the generator decides for `doubley`. */
  lemma BuilderNameOfDoubley()
    ensures NamedFields(TripleSubOrder)
    ensures BName(TripleSubOrder, TripleSubOrder[1]) == "doubley"
  {
    var o := TripleSubOrder;
    OrderNamed();
    forall j | 0 <= j < |o| && j != 1 ensures o[j].name != o[1].name { Position(j); }
    PlainName(o, 1);
  }

  /** The setter name the generator decides for `doubley`. */
  lemma SetterNameOfDoubley()
    ensures NamedFields(TripleSubOrder)
    ensures SName(GeneratorConfig, TripleSubOrder, TripleSubOrder[1]) == "with"
  {
    var o, cfg := TripleSubOrder, GeneratorConfig;
    BuilderNameOfDoubley();
    forall j | 0 <= j < |o| && j != 1 ensures o[j].fieldType != o[1].fieldType { Position(j); }
    BareSetterName(cfg, o, 1);
  }

  /** The builder field `doubley` of the committed TripleSub builder: its setter, its
      `clear()` and `_withDefaults()` calls and its injection. */
  lemma EmittedForDoubley()
    ensures NamedFields(TripleSubOrder)
    ensures var o, cfg := TripleSubOrder, GeneratorConfig;
      var f := o[1];
      && f == TripleSubDoubley
      && SettersFor(cfg, o, f) == [SetterDecl("with", PrimParam(Double), "doubley", false, true, "TripleSub", "doubley")]
      && ClearCall(cfg, o, f) == Invocation("with", LiteralArg(PrimZero(Double)))
      && DefaultsCall(cfg, o, f) == Invocation("with", SlotArg("doubley", f.fieldType))
      && InjectionFor(cfg, o, f) == Injection("doubley", TripleSubClass, "doubley", true)
  {
    BuilderNameOfDoubley();
    SetterNameOfDoubley();
  }

  /** The builder field name the generator decides for `hereInSub`. */
  lemma BuilderNameOfHereInSub()
    ensures NamedFields(TripleSubOrder)
    ensures BName(TripleSubOrder, TripleSubOrder[2]) == "hereInSub"
  {
    var o := TripleSubOrder;
    OrderNamed();
    DisambiguatedName(o, 2, 8, "hereInSub");
  }

  /** The setter name the generator decides for `hereInSub`. */
  lemma SetterNameOfHereInSub()
    ensures NamedFields(TripleSubOrder)
    ensures SName(GeneratorConfig, TripleSubOrder, TripleSubOrder[2]) == "withHereInSub"
  {
    assert "with" + "HereInSub" == "withHereInSub" && Capitalize("hereInSub") == "HereInSub";
    var o, cfg := TripleSubOrder, GeneratorConfig;
    BuilderNameOfHereInSub();
    FullSetterName(cfg, o, 2, 3, "hereInSub", "withHereInSub");
  }

  /** The builder field `hereInSub` of the committed TripleSub builder: its setter, its
      `clear()` and `_withDefaults()` calls and its injection. */
  lemma EmittedForHereInSub()
    ensures NamedFields(TripleSubOrder)
    ensures var o, cfg := TripleSubOrder, GeneratorConfig;
      var f := o[2];
      && f == SubHere
      && SettersFor(cfg, o, f) == [SetterDecl("withHereInSub", RefParam("String"), "hereInSub", false, true, "Sub", "here")]
      && ClearCall(cfg, o, f) == Invocation("withHereInSub", LiteralArg(UntypedNull))
      && DefaultsCall(cfg, o, f) == Invocation("withHereInSub", SlotArg("hereInSub", f.fieldType))
      && InjectionFor(cfg, o, f) == Injection("here", SubClass, "hereInSub", true)
  {
    BuilderNameOfHereInSub();
    SetterNameOfHereInSub();
  }

  /** The builder field name the generator decides for `dateInSub`. */
  lemma BuilderNameOfDateInSub()
    ensures NamedFields(TripleSubOrder)
    ensures BName(TripleSubOrder, TripleSubOrder[3]) == "dateInSub"
  {
    var o := TripleSubOrder;
    OrderNamed();
    DisambiguatedName(o, 3, 7, "dateInSub");
  }

  /** The setter name the generator decides for `dateInSub`. */
  lemma SetterNameOfDateInSub()
    ensures NamedFields(TripleSubOrder)
    ensures SName(GeneratorConfig, TripleSubOrder, TripleSubOrder[3]) == "withDateInSub"
  {
    assert "with" + "DateInSub" == "withDateInSub" && Capitalize("dateInSub") == "DateInSub";
    var o, cfg := TripleSubOrder, GeneratorConfig;
    BuilderNameOfDateInSub();
    FullSetterName(cfg, o, 3, 2, "dateInSub", "withDateInSub");
  }

  /** The builder field `dateInSub` of the committed TripleSub builder: its setter, its
      `clear()` and `_withDefaults()` calls and its injection. */
  lemma EmittedForDateInSub()
    ensures NamedFields(TripleSubOrder)
    ensures var o, cfg := TripleSubOrder, GeneratorConfig;
      var f := o[3];
      && f == SubDate
      && SettersFor(cfg, o, f) == [SetterDecl("withDateInSub", RefParam("String"), "dateInSub", false, true, "Sub", "date")]
      && ClearCall(cfg, o, f) == Invocation("withDateInSub", LiteralArg(UntypedNull))
      && DefaultsCall(cfg, o, f) == Invocation("withDateInSub", SlotArg("dateInSub", f.fieldType))
      && InjectionFor(cfg, o, f) == Injection("date", SubClass, "dateInSub", true)
  {
    BuilderNameOfDateInSub();
    SetterNameOfDateInSub();
  }

  /** The builder field name the generator decides for `someChar`. */
  lemma BuilderNameOfSomeChar()
    ensures NamedFields(TripleSubOrder)
    ensures BName(TripleSubOrder, TripleSubOrder[4]) == "someChar"
  {
    var o := TripleSubOrder;
    OrderNamed();
    forall j | 0 <= j < |o| && j != 4 ensures o[j].name != o[4].name { Position(j); }
    PlainName(o, 4);
  }

  /** The setter name the generator decides for `someChar`. */
  lemma SetterNameOfSomeChar()
    ensures NamedFields(TripleSubOrder)
    ensures SName(GeneratorConfig, TripleSubOrder, TripleSubOrder[4]) == "with"
  {
    var o, cfg := TripleSubOrder, GeneratorConfig;
    BuilderNameOfSomeChar();
    forall j | 0 <= j < |o| && j != 4 ensures o[j].fieldType != o[4].fieldType { Position(j); }
    BareSetterName(cfg, o, 4);
  }

  /** The builder field `someChar` of the committed TripleSub builder: its setter, its
      `clear()` and `_withDefaults()` calls and its injection. */
  lemma EmittedForSomeChar()
    ensures NamedFields(TripleSubOrder)
    ensures var o, cfg := TripleSubOrder, GeneratorConfig;
      var f := o[4];
      && f == SubSomeChar
      && SettersFor(cfg, o, f) == [SetterDecl("with", PrimParam(Char), "someChar", false, true, "Sub", "someChar")]
      && ClearCall(cfg, o, f) == Invocation("with", LiteralArg(PrimZero(Char)))
      && DefaultsCall(cfg, o, f) == Invocation("with", SlotArg("someChar", f.fieldType))
      && InjectionFor(cfg, o, f) == Injection("someChar", SubClass, "someChar", true)
  {
    BuilderNameOfSomeChar();
    SetterNameOfSomeChar();
  }

  /** The builder field name the generator decides for `list`. */
  lemma BuilderNameOfList()
    ensures NamedFields(TripleSubOrder)
    ensures BName(TripleSubOrder, TripleSubOrder[5]) == "list"
  {
    var o := TripleSubOrder;
    OrderNamed();
    forall j | 0 <= j < |o| && j != 5 ensures o[j].name != o[5].name { Position(j); }
    PlainName(o, 5);
  }

  /** The setter name the generator decides for `list`. */
  lemma SetterNameOfList()
    ensures NamedFields(TripleSubOrder)
    ensures SName(GeneratorConfig, TripleSubOrder, TripleSubOrder[5]) == "with"
  {
    var o, cfg := TripleSubOrder, GeneratorConfig;
    BuilderNameOfList();
    forall j | 0 <= j < |o| && j != 5 ensures o[j].fieldType != o[5].fieldType { Position(j); }
    BareSetterName(cfg, o, 5);
  }

  /** The builder field `list` of the committed TripleSub builder: its setter, its
      `clear()` and `_withDefaults()` calls and its injection. */
  lemma EmittedForList()
    ensures NamedFields(TripleSubOrder)
    ensures var o, cfg := TripleSubOrder, GeneratorConfig;
      var f := o[5];
      && f == SubList
      && SettersFor(cfg, o, f) == [SetterDecl("with", RefParam("List"), "list", false, true, "Sub", "list")]
      && ClearCall(cfg, o, f) == Invocation("with", LiteralArg(TypedNull("List")))
      && DefaultsCall(cfg, o, f) == Invocation("with", SlotArg("list", f.fieldType))
      && InjectionFor(cfg, o, f) == Injection("list", SubClass, "list", true)
  {
    BuilderNameOfList();
    SetterNameOfList();
  }

  /** The builder field name the generator decides for `shorty`. */
  lemma BuilderNameOfShorty()
    ensures NamedFields(TripleSubOrder)
    ensures BName(TripleSubOrder, TripleSubOrder[6]) == "shorty"
  {
    var o := TripleSubOrder;
    OrderNamed();
    forall j | 0 <= j < |o| && j != 6 ensures o[j].name != o[6].name { Position(j); }
    PlainName(o, 6);
  }

  /** The setter name the generator decides for `shorty`. */
  lemma SetterNameOfShorty()
    ensures NamedFields(TripleSubOrder)
    ensures SName(GeneratorConfig, TripleSubOrder, TripleSubOrder[6]) == "with"
  {
    var o, cfg := TripleSubOrder, GeneratorConfig;
    BuilderNameOfShorty();
    forall j | 0 <= j < |o| && j != 6 ensures o[j].fieldType != o[6].fieldType { Position(j); }
    BareSetterName(cfg, o, 6);
  }

  /** The builder field `shorty` of the committed TripleSub builder: its setter, its
      `clear()` and `_withDefaults()` calls and its injection. */
  lemma EmittedForShorty()
    ensures NamedFields(TripleSubOrder)
    ensures var o, cfg := TripleSubOrder, GeneratorConfig;
      var f := o[6];
      && f == TripleSubShorty
      && SettersFor(cfg, o, f) == [SetterDecl("with", PrimParam(Short), "shorty", false, true, "TripleSub", "shorty")]
      && ClearCall(cfg, o, f) == Invocation("with", LiteralArg(PrimZero(Short)))
      && DefaultsCall(cfg, o, f) == Invocation("with", SlotArg("shorty", f.fieldType))
      && InjectionFor(cfg, o, f) == Injection("shorty", TripleSubClass, "shorty", true)
  {
    BuilderNameOfShorty();
    SetterNameOfShorty();
  }

  /** The builder field name the generator decides for `dateInBase`. */
  lemma BuilderNameOfDateInBase()
    ensures NamedFields(TripleSubOrder)
    ensures BName(TripleSubOrder, TripleSubOrder[7]) == "dateInBase"
  {
    var o := TripleSubOrder;
    OrderNamed();
    DisambiguatedName(o, 7, 3, "dateInBase");
  }

  /** The setter name the generator decides for `dateInBase`. */
  lemma SetterNameOfDateInBase()
    ensures NamedFields(TripleSubOrder)
    ensures SName(GeneratorConfig, TripleSubOrder, TripleSubOrder[7]) == "with"
  {
    var o, cfg := TripleSubOrder, GeneratorConfig;
    BuilderNameOfDateInBase();
    forall j | 0 <= j < |o| && j != 7 ensures o[j].fieldType != o[7].fieldType { Position(j); }
    BareSetterName(cfg, o, 7);
  }

  /** The builder field `dateInBase` of the committed TripleSub builder: its setter, its
      `clear()` and `_withDefaults()` calls and its injection. */
  lemma EmittedForDateInBase()
    ensures NamedFields(TripleSubOrder)
    ensures var o, cfg := TripleSubOrder, GeneratorConfig;
      var f := o[7];
      && f == BaseDate
      && SettersFor(cfg, o, f) == [SetterDecl("with", RefParam("Date"), "dateInBase", false, true, "Base", "date")]
      && ClearCall(cfg, o, f) == Invocation("with", LiteralArg(TypedNull("Date")))
      && DefaultsCall(cfg, o, f) == Invocation("with", SlotArg("dateInBase", f.fieldType))
      && InjectionFor(cfg, o, f) == Injection("date", BaseClass, "dateInBase", true)
  {
    BuilderNameOfDateInBase();
    SetterNameOfDateInBase();
  }

  /** The builder field name the generator decides for `hereInBase`. */
  lemma BuilderNameOfHereInBase()
    ensures NamedFields(TripleSubOrder)
    ensures BName(TripleSubOrder, TripleSubOrder[8]) == "hereInBase"
  {
    var o := TripleSubOrder;
    OrderNamed();
    DisambiguatedName(o, 8, 2, "hereInBase");
  }

  /** The setter name the generator decides for `hereInBase`. */
  lemma SetterNameOfHereInBase()
    ensures NamedFields(TripleSubOrder)
    ensures SName(GeneratorConfig, TripleSubOrder, TripleSubOrder[8]) == "withHereInBase"
  {
    assert "with" + "HereInBase" == "withHereInBase" && Capitalize("hereInBase") == "HereInBase";
    var o, cfg := TripleSubOrder, GeneratorConfig;
    BuilderNameOfHereInBase();
    FullSetterName(cfg, o, 8, 2, "hereInBase", "withHereInBase");
  }

  /** The builder field `hereInBase` of the committed TripleSub builder: its setter, its
      `clear()` and `_withDefaults()` calls and its injection. */
  lemma EmittedForHereInBase()
    ensures NamedFields(TripleSubOrder)
    ensures var o, cfg := TripleSubOrder, GeneratorConfig;
      var f := o[8];
      && f == BaseHere
      && SettersFor(cfg, o, f) == [SetterDecl("withHereInBase", RefParam("String"), "hereInBase", false, true, "Base", "here")]
      && ClearCall(cfg, o, f) == Invocation("withHereInBase", LiteralArg(UntypedNull))
      && DefaultsCall(cfg, o, f) == Invocation("withHereInBase", SlotArg("hereInBase", f.fieldType))
      && InjectionFor(cfg, o, f) == Injection("here", BaseClass, "hereInBase", true)
  {
    BuilderNameOfHereInBase();
    SetterNameOfHereInBase();
  }

  /** The builder field name the generator decides for `hi`. */
  lemma BuilderNameOfHi()
    ensures NamedFields(TripleSubOrder)
    ensures BName(TripleSubOrder, TripleSubOrder[9]) == "hi"
  {
    var o := TripleSubOrder;
    OrderNamed();
    forall j | 0 <= j < |o| && j != 9 ensures o[j].name != o[9].name { Position(j); }
    PlainName(o, 9);
  }

  /** The setter name the generator decides for `hi`. */
  lemma SetterNameOfHi()
    ensures NamedFields(TripleSubOrder)
    ensures SName(GeneratorConfig, TripleSubOrder, TripleSubOrder[9]) == "with"
  {
    var o, cfg := TripleSubOrder, GeneratorConfig;
    BuilderNameOfHi();
    forall j | 0 <= j < |o| && j != 9 ensures o[j].fieldType != o[9].fieldType { Position(j); }
    BareSetterName(cfg, o, 9);
  }

  /** The builder field `hi` of the committed TripleSub builder: its setter, its
      `clear()` and `_withDefaults()` calls and its injection. */
  lemma EmittedForHi()
    ensures NamedFields(TripleSubOrder)
    ensures var o, cfg := TripleSubOrder, GeneratorConfig;
      var f := o[9];
      && f == BaseHi
      && SettersFor(cfg, o, f) == [SetterDecl("with", PrimParam(Int), "hi", false, true, "Base", "hi")]
      && ClearCall(cfg, o, f) == Invocation("with", LiteralArg(PrimZero(Int)))
      && DefaultsCall(cfg, o, f) == Invocation("with", SlotArg("hi", f.fieldType))
      && InjectionFor(cfg, o, f) == Injection("hi", BaseClass, "hi", true)
  {
    BuilderNameOfHi();
    SetterNameOfHi();
  }

  /** The builder field name the generator decides for `fieldWithBuilder`. */
  lemma BuilderNameOfFieldWithBuilder()
    ensures NamedFields(TripleSubOrder)
    ensures BName(TripleSubOrder, TripleSubOrder[10]) == "fieldWithBuilder"
  {
    var o := TripleSubOrder;
    OrderNamed();
    forall j | 0 <= j < |o| && j != 10 ensures o[j].name != o[10].name { Position(j); }
    PlainName(o, 10);
  }

  /** The setter name the generator decides for `fieldWithBuilder`. */
  lemma SetterNameOfFieldWithBuilder()
    ensures NamedFields(TripleSubOrder)
    ensures SName(GeneratorConfig, TripleSubOrder, TripleSubOrder[10]) == "with"
  {
    var o, cfg := TripleSubOrder, GeneratorConfig;
    BuilderNameOfFieldWithBuilder();
    forall j | 0 <= j < |o| && j != 10 ensures o[j].fieldType != o[10].fieldType { Position(j); }
    BareSetterName(cfg, o, 10);
  }

  /** The builder field `fieldWithBuilder` of the committed TripleSub builder: its setter, its
      `clear()` and `_withDefaults()` calls and its injection. */
  lemma EmittedForFieldWithBuilder()
    ensures NamedFields(TripleSubOrder)
    ensures var o, cfg := TripleSubOrder, GeneratorConfig;
      var f := o[10];
      && f == BaseFieldWithBuilder
      && SettersFor(cfg, o, f) == [SetterDecl("with", RefParam("SomeFieldClass"), "fieldWithBuilder", false, true, "Base", "fieldWithBuilder"),
              SetterDecl("with", RefParam("SomeFieldClassBuilder"), "fieldWithBuilder", true, true, "Base", "fieldWithBuilder")]
      && ClearCall(cfg, o, f) == Invocation("with", LiteralArg(TypedNull("SomeFieldClass")))
      && DefaultsCall(cfg, o, f) == Invocation("with", SlotArg("fieldWithBuilder", f.fieldType))
      && InjectionFor(cfg, o, f) == Injection("fieldWithBuilder", BaseClass, "fieldWithBuilder", true)
  {
    BuilderNameOfFieldWithBuilder();
    SetterNameOfFieldWithBuilder();
  }

  /** The builder field name the generator decides for `triple`. */
  lemma BuilderNameOfTriple()
    ensures NamedFields(TripleSubOrder)
    ensures BName(TripleSubOrder, TripleSubOrder[11]) == "triple"
  {
    var o := TripleSubOrder;
    OrderNamed();
    forall j | 0 <= j < |o| && j != 11 ensures o[j].name != o[11].name { Position(j); }
    PlainName(o, 11);
  }

  /** The setter name the generator decides for `triple`. */
  lemma SetterNameOfTriple()
    ensures NamedFields(TripleSubOrder)
    ensures SName(GeneratorConfig, TripleSubOrder, TripleSubOrder[11]) == "withTriple"
  {
    assert "with" + "Triple" == "withTriple" && Capitalize("triple") == "Triple";
    var o, cfg := TripleSubOrder, GeneratorConfig;
    BuilderNameOfTriple();
    FullSetterName(cfg, o, 11, 2, "triple", "withTriple");
  }

  /** The builder field `triple` of the committed TripleSub builder: its setter, its
      `clear()` and `_withDefaults()` calls and its injection. */
  lemma EmittedForTriple()
    ensures NamedFields(TripleSubOrder)
    ensures var o, cfg := TripleSubOrder, GeneratorConfig;
      var f := o[11];
      && f == TripleSubTriple
      && SettersFor(cfg, o, f) == [SetterDecl("withTriple", RefParam("String"), "triple", false, true, "TripleSub", "triple")]
      && ClearCall(cfg, o, f) == Invocation("withTriple", LiteralArg(UntypedNull))
      && DefaultsCall(cfg, o, f) == Invocation("withTriple", SlotArg("triple", f.fieldType))
      && InjectionFor(cfg, o, f) == Injection("triple", TripleSubClass, "triple", true)
  {
    BuilderNameOfTriple();
    SetterNameOfTriple();
  }

  /** The builder field name the generator decides for `noLightInTheDark`. */
  lemma BuilderNameOfNoLightInTheDark()
    ensures NamedFields(TripleSubOrder)
    ensures BName(TripleSubOrder, TripleSubOrder[12]) == "noLightInTheDark"
  {
    var o := TripleSubOrder;
    OrderNamed();
    forall j | 0 <= j < |o| && j != 12 ensures o[j].name != o[12].name { Position(j); }
    PlainName(o, 12);
  }

  /** The setter name the generator decides for `noLightInTheDark`. */
  lemma SetterNameOfNoLightInTheDark()
    ensures NamedFields(TripleSubOrder)
    ensures SName(GeneratorConfig, TripleSubOrder, TripleSubOrder[12]) == "with"
  {
    var o, cfg := TripleSubOrder, GeneratorConfig;
    BuilderNameOfNoLightInTheDark();
    forall j | 0 <= j < |o| && j != 12 ensures o[j].fieldType != o[12].fieldType { Position(j); }
    BareSetterName(cfg, o, 12);
  }

  /** The builder field `noLightInTheDark` of the committed TripleSub builder: its setter, its
      `clear()` and `_withDefaults()` calls and its injection. */
  lemma EmittedForNoLightInTheDark()
    ensures NamedFields(TripleSubOrder)
    ensures var o, cfg := TripleSubOrder, GeneratorConfig;
      var f := o[12];
      && f == TripleSubNoLightInTheDark
      && SettersFor(cfg, o, f) == [SetterDecl("with", RefParam("Long"), "noLightInTheDark", false, true, "TripleSub", "noLightInTheDark")]
      && ClearCall(cfg, o, f) == Invocation("with", LiteralArg(TypedNull("Long")))
      && DefaultsCall(cfg, o, f) == Invocation("with", SlotArg("noLightInTheDark", f.fieldType))
      && InjectionFor(cfg, o, f) == Injection("noLightInTheDark", TripleSubClass, "noLightInTheDark", true)
  {
    BuilderNameOfNoLightInTheDark();
    SetterNameOfNoLightInTheDark();
  }

  /** The builder field name the generator decides for `thereInSub`. */
  lemma BuilderNameOfThereInSub()
    ensures NamedFields(TripleSubOrder)
    ensures BName(TripleSubOrder, TripleSubOrder[13]) == "thereInSub"
  {
    var o := TripleSubOrder;
    OrderNamed();
    DisambiguatedName(o, 13, 17, "thereInSub");
  }

  /** The setter name the generator decides for `thereInSub`. */
  lemma SetterNameOfThereInSub()
    ensures NamedFields(TripleSubOrder)
    ensures SName(GeneratorConfig, TripleSubOrder, TripleSubOrder[13]) == "withThereInSub"
  {
    assert "with" + "ThereInSub" == "withThereInSub" && Capitalize("thereInSub") == "ThereInSub";
    var o, cfg := TripleSubOrder, GeneratorConfig;
    BuilderNameOfThereInSub();
    FullSetterName(cfg, o, 13, 2, "thereInSub", "withThereInSub");
  }

  /** The builder field `thereInSub` of the committed TripleSub builder: its setter, its
      `clear()` and `_withDefaults()` calls and its injection. */
  lemma EmittedForThereInSub()
    ensures NamedFields(TripleSubOrder)
    ensures var o, cfg := TripleSubOrder, GeneratorConfig;
      var f := o[13];
      && f == SubThere
      && SettersFor(cfg, o, f) == [SetterDecl("withThereInSub", RefParam("String"), "thereInSub", false, true, "Sub", "there")]
      && ClearCall(cfg, o, f) == Invocation("withThereInSub", LiteralArg(UntypedNull))
      && DefaultsCall(cfg, o, f) == Invocation("withThereInSub", SlotArg("thereInSub", f.fieldType))
      && InjectionFor(cfg, o, f) == Injection("there", SubClass, "thereInSub", true)
  {
    BuilderNameOfThereInSub();
    SetterNameOfThereInSub();
  }

  /** The builder field name the generator decides for `floaty`. */
  lemma BuilderNameOfFloaty()
    ensures NamedFields(TripleSubOrder)
    ensures BName(TripleSubOrder, TripleSubOrder[14]) == "floaty"
  {
    var o := TripleSubOrder;
    OrderNamed();
    forall j | 0 <= j < |o| && j != 14 ensures o[j].name != o[14].name { Position(j); }
    PlainName(o, 14);
  }

  /** The setter name the generator decides for `floaty`. */
  lemma SetterNameOfFloaty()
    ensures NamedFields(TripleSubOrder)
    ensures SName(GeneratorConfig, TripleSubOrder, TripleSubOrder[14]) == "with"
  {
    var o, cfg := TripleSubOrder, GeneratorConfig;
    BuilderNameOfFloaty();
    forall j | 0 <= j < |o| && j != 14 ensures o[j].fieldType != o[14].fieldType { Position(j); }
    BareSetterName(cfg, o, 14);
  }

  /** The builder field `floaty` of the committed TripleSub builder: its setter, its
      `clear()` and `_withDefaults()` calls and its injection. */
  lemma EmittedForFloaty()
    ensures NamedFields(TripleSubOrder)
    ensures var o, cfg := TripleSubOrder, GeneratorConfig;
      var f := o[14];
      && f == TripleSubFloaty
      && SettersFor(cfg, o, f) == [SetterDecl("with", PrimParam(Float), "floaty", false, true, "TripleSub", "floaty")]
      && ClearCall(cfg, o, f) == Invocation("with", LiteralArg(PrimZero(Float)))
      && DefaultsCall(cfg, o, f) == Invocation("with", SlotArg("floaty", f.fieldType))
      && InjectionFor(cfg, o, f) == Injection("floaty", TripleSubClass, "floaty", true)
  {
    BuilderNameOfFloaty();
    SetterNameOfFloaty();
  }

  /** The builder field name the generator decides for `bytey`. */
  lemma BuilderNameOfBytey()
    ensures NamedFields(TripleSubOrder)
    ensures BName(TripleSubOrder, TripleSubOrder[15]) == "bytey"
  {
    var o := TripleSubOrder;
    OrderNamed();
    forall j | 0 <= j < |o| && j != 15 ensures o[j].name != o[15].name { Position(j); }
    PlainName(o, 15);
  }

  /** The setter name the generator decides for `bytey`. */
  lemma SetterNameOfBytey()
    ensures NamedFields(TripleSubOrder)
    ensures SName(GeneratorConfig, TripleSubOrder, TripleSubOrder[15]) == "with"
  {
    var o, cfg := TripleSubOrder, GeneratorConfig;
    BuilderNameOfBytey();
    forall j | 0 <= j < |o| && j != 15 ensures o[j].fieldType != o[15].fieldType { Position(j); }
    BareSetterName(cfg, o, 15);
  }

  /** The builder field `bytey` of the committed TripleSub builder: its setter, its
      `clear()` and `_withDefaults()` calls and its injection. */
  lemma EmittedForBytey()
    ensures NamedFields(TripleSubOrder)
    ensures var o, cfg := TripleSubOrder, GeneratorConfig;
      var f := o[15];
      && f == TripleSubBytey
      && SettersFor(cfg, o, f) == [SetterDecl("with", PrimParam(Byte), "bytey", false, true, "TripleSub", "bytey")]
      && ClearCall(cfg, o, f) == Invocation("with", LiteralArg(PrimZero(Byte)))
      && DefaultsCall(cfg, o, f) == Invocation("with", SlotArg("bytey", f.fieldType))
      && InjectionFor(cfg, o, f) == Injection("bytey", TripleSubClass, "bytey", true)
  {
    BuilderNameOfBytey();
    SetterNameOfBytey();
  }

  /** The builder field name the generator decides for `booleany`. */
  lemma BuilderNameOfBooleany()
    ensures NamedFields(TripleSubOrder)
    ensures BName(TripleSubOrder, TripleSubOrder[16]) == "booleany"
  {
    var o := TripleSubOrder;
    OrderNamed();
    forall j | 0 <= j < |o| && j != 16 ensures o[j].name != o[16].name { Position(j); }
    PlainName(o, 16);
  }

  /** The setter name the generator decides for `booleany`. */
  lemma SetterNameOfBooleany()
    ensures NamedFields(TripleSubOrder)
    ensures SName(GeneratorConfig, TripleSubOrder, TripleSubOrder[16]) == "with"
  {
    var o, cfg := TripleSubOrder, GeneratorConfig;
    BuilderNameOfBooleany();
    forall j | 0 <= j < |o| && j != 16 ensures o[j].fieldType != o[16].fieldType { Position(j); }
    BareSetterName(cfg, o, 16);
  }

  /** The builder field `booleany` of the committed TripleSub builder: its setter, its
      `clear()` and `_withDefaults()` calls and its injection. */
  lemma EmittedForBooleany()
    ensures NamedFields(TripleSubOrder)
    ensures var o, cfg := TripleSubOrder, GeneratorConfig;
      var f := o[16];
      && f == TripleSubBooleany
      && SettersFor(cfg, o, f) == [SetterDecl("with", PrimParam(Boolean), "booleany", false, true, "TripleSub", "booleany")]
      && ClearCall(cfg, o, f) == Invocation("with", LiteralArg(PrimZero(Boolean)))
      && DefaultsCall(cfg, o, f) == Invocation("with", SlotArg("booleany", f.fieldType))
      && InjectionFor(cfg, o, f) == Injection("booleany", TripleSubClass, "booleany", true)
  {
    BuilderNameOfBooleany();
    SetterNameOfBooleany();
  }

  /** The builder field name the generator decides for `thereInBase`. */
  lemma BuilderNameOfThereInBase()
    ensures NamedFields(TripleSubOrder)
    ensures BName(TripleSubOrder, TripleSubOrder[17]) == "thereInBase"
  {
    var o := TripleSubOrder;
    OrderNamed();
    DisambiguatedName(o, 17, 13, "thereInBase");
  }

  /** The setter name the generator decides for `thereInBase`. */
  lemma SetterNameOfThereInBase()
    ensures NamedFields(TripleSubOrder)
    ensures SName(GeneratorConfig, TripleSubOrder, TripleSubOrder[17]) == "with"
  {
    var o, cfg := TripleSubOrder, GeneratorConfig;
    BuilderNameOfThereInBase();
    forall j | 0 <= j < |o| && j != 17 ensures o[j].fieldType != o[17].fieldType { Position(j); }
    BareSetterName(cfg, o, 17);
  }

  /** The builder field `thereInBase` of the committed TripleSub builder: its setter, its
      `clear()` and `_withDefaults()` calls and its injection. */
  lemma EmittedForThereInBase()
    ensures NamedFields(TripleSubOrder)
    ensures var o, cfg := TripleSubOrder, GeneratorConfig;
      var f := o[17];
      && f == BaseThere
      && SettersFor(cfg, o, f) == [SetterDecl("with", RefParam("Integer"), "thereInBase", false, true, "Base", "there")]
      && ClearCall(cfg, o, f) == Invocation("with", LiteralArg(TypedNull("Integer")))
      && DefaultsCall(cfg, o, f) == Invocation("with", SlotArg("thereInBase", f.fieldType))
      && InjectionFor(cfg, o, f) == Injection("there", BaseClass, "thereInBase", true)
  {
    BuilderNameOfThereInBase();
    SetterNameOfThereInBase();
  }

  /* ------------------------------------------------------------------------ */
  /*  the configuration meets the side conditions of the general results     */
  /* ------------------------------------------------------------------------ */

  /** The positions of a level's declarations, as a case split. */
  lemma LevelPosition(i: int, n: int)
    requires 0 <= i < n <= 8
    ensures i == 0 || i == 1 || i == 2 || i == 3 || i == 4 || i == 5 || i == 6 || i == 7
  {
  }

  /** The TripleSub hierarchy is what reflection reports: distinct classes, and in
      each class distinct, non-empty field names declared by that class. */
  lemma ChainWellFormed()
    ensures WellFormedChain(TripleSubChain)
  {
    var c := TripleSubChain;
    forall i, j | 0 <= i < j < |c| ensures c[i].cls != c[j].cls {
      LevelPosition(i, |c|);
      LevelPosition(j, |c|);
    }
    forall l | 0 <= l < |c| ensures WellFormedDecl(c[l]) {
      LevelPosition(l, |c|);
      var fs := c[l].declared;
      forall i, j | 0 <= i < j < |fs| ensures fs[i].name != fs[j].name {
        LevelPosition(i, |fs|);
        LevelPosition(j, |fs|);
      }
      forall i | 0 <= i < |fs| ensures fs[i].name != "" && fs[i].declaring == c[l].cls {
        LevelPosition(i, |fs|);
      }
    }
  }

  /** With the bound at `Object` and DoubleSub ignored, every level is collected. */
  lemma CollectedFields()
    ensures Collected(GeneratorConfig) == TripleSubFields + SubFields + BaseFields
  {
    var c, b, ig := TripleSubChain, GeneratorConfig.upperBound, GeneratorConfig.ignored;
    assert c[1..] == [c[1], c[2], c[3]] && c[2..] == [c[2], c[3]] && c[3..] == [c[3]];
    assert Collect(c[3..], b, ig) == [];
    assert Collect(c[2..], b, ig) == BaseFields;
    assert Collect(c[1..], b, ig) == SubFields + BaseFields;
  }

  /** The builder's field order enumerates the collected fields. */
  lemma OrderEnumerates()
    ensures Ready(GeneratorConfig, TripleSubOrder)
  {
    var o, l := TripleSubOrder, TripleSubFields + SubFields + BaseFields;
    ChainWellFormed();
    CollectedFields();
    OrderNoDup();
    forall i | 0 <= i < |o| ensures o[i] in l {
      Position(i);
    }
    forall i | 0 <= i < |l| ensures l[i] in o {
      Position(i);
    }
  }

  /** The eighteen builder names are pairwise distinct. */
  lemma OrderBuilderNamesInjective()
    ensures NamedFields(TripleSubOrder) && InjectiveBuilderNames(TripleSubOrder)
  {
    var o := TripleSubOrder;
    BuilderNameOfLongy();
    BuilderNameOfDoubley();
    BuilderNameOfHereInSub();
    BuilderNameOfDateInSub();
    BuilderNameOfSomeChar();
    BuilderNameOfList();
    BuilderNameOfShorty();
    BuilderNameOfDateInBase();
    BuilderNameOfHereInBase();
    BuilderNameOfHi();
    BuilderNameOfFieldWithBuilder();
    BuilderNameOfTriple();
    BuilderNameOfNoLightInTheDark();
    BuilderNameOfThereInSub();
    BuilderNameOfFloaty();
    BuilderNameOfBytey();
    BuilderNameOfBooleany();
    BuilderNameOfThereInBase();
    forall i, j | 0 <= i < j < |o| ensures BuilderFieldName(o, o[i]) != BuilderFieldName(o, o[j]) {
      Position(i);
      Position(j);
    }
  }

  /** The reference types of the collected fields, by class. */
  const ReferenceClasses := [StringClass, ListClass, DateClass, SomeFieldClassClass, LongClass, IntegerClass]

  /** Every reference-typed collected field has one of the reference classes. */
  lemma OrderReferenceClasses()
    ensures forall i :: 0 <= i < |TripleSubOrder| && TripleSubOrder[i].fieldType.Ref? ==>
              TripleSubOrder[i].fieldType.cls in ReferenceClasses
  {
    var o := TripleSubOrder;
    forall i | 0 <= i < |o| && o[i].fieldType.Ref? ensures o[i].fieldType.cls in ReferenceClasses {
      Position(i);
    }
  }

  /** The reference classes are told apart by their simple names, and the companion
      builder's simple name is none of theirs. */
  lemma ReferenceClassesApart()
    ensures forall a, b :: a in ReferenceClasses && b in ReferenceClasses && a.simple == b.simple ==> a == b
    ensures forall a :: a in ReferenceClasses ==> a.simple != SomeFieldClassBuilderClass.simple
  {
  }

  /** Two reference-typed collected fields whose types share a simple name have
      the same type. */
  lemma OrderReferenceTypesApart()
    ensures forall i, j :: (0 <= i < |TripleSubOrder| && 0 <= j < |TripleSubOrder|
                            && TripleSubOrder[i].fieldType.Ref? && TripleSubOrder[j].fieldType.Ref?
                            && TripleSubOrder[i].fieldType.cls.simple == TripleSubOrder[j].fieldType.cls.simple) ==>
                           TripleSubOrder[i].fieldType == TripleSubOrder[j].fieldType
  {
    OrderReferenceClasses();
    ReferenceClassesApart();
  }

  /** The companion builder's simple name is that of no collected field's type. */
  lemma CompanionApartFromFieldTypes()
    ensures forall t, i :: t in GeneratorConfig.companions && 0 <= i < |TripleSubOrder| && TripleSubOrder[i].fieldType.Ref? ==>
              GeneratorConfig.companions[t].simple != TripleSubOrder[i].fieldType.cls.simple
  {
    var cfg := GeneratorConfig;
    OrderReferenceClasses();
    ReferenceClassesApart();
    assert cfg.companions.Keys == {Ref(SomeFieldClassClass)};
  }

  /** The overload side conditions hold for the configuration the generator was
      run with. */
  lemma TripleSubResolutionReady()
    ensures ResolutionReady(GeneratorConfig, TripleSubOrder)
  {
    OrderNoDup();
    OrderBuilderNamesInjective();
    OrderReferenceTypesApart();
    CompanionApartFromFieldTypes();
  }

  /** The configuration the generator was run with meets every side condition of
      the general results: a well-formed hierarchy, an enumeration of the collected
      fields, distinct builder names, and overloads that resolve. */
  lemma TripleSubSound()
    ensures Sound(GeneratorConfig, TripleSubOrder)
  {
    OrderEnumerates();
    TripleSubResolutionReady();
  }

  /** Bounding the hierarchy at TripleSub itself: the walk as written skips only Sub
      and still collects Base, while the walk that stops at the bound does not. */
  lemma BoundAtTargetCollectsBase()
    ensures forall f :: f in BaseFields ==> f in Collect(TripleSubChain, Bound(TripleSubClass, Some(SubClass)), {DoubleSubClass})
    ensures forall f :: f in BaseFields ==> f !in CollectUpToBound(TripleSubChain, Bound(TripleSubClass, Some(SubClass)), {DoubleSubClass})
  {
    var bound, ignored := Bound(TripleSubClass, Some(SubClass)), {DoubleSubClass};
    ChainWellFormed();
    LevelsAboveBoundSuperclassCollected(TripleSubChain, bound, ignored, 0, 2);
    UpToBoundStopsAtBound(TripleSubChain, bound, ignored, 0, 2);
  }
}
