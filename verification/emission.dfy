/**
 The emission half of the generator: from the configuration and the decided names,
 the structure of the builder source — imports, slots, setters (with their
 companion-builder overloads), `clear()`, `_withDefaults()`, `startingFrom`,
 and the injections of `build()` — and the text of its lines.
 */
module Emission {
  import opened Descriptors
  import opened Casing
  import opened Collection
  import opened Naming
  import Runtime

  /** The configuration section of the generator. */
  datatype Config = Config(
    target: ClassRef,
    targetPackage: string,
    chain: seq<ClassDecl>,
    upperBound: UpperBound,
    ignored: set<ClassRef>,
    companions: map<TypeRef, ClassRef>,
    sparse: bool,
    omitUniqueTypes: bool,
    defaultConstructorAccessible: bool,
    allowOverwrite: bool,
    prefix: string)

  function Policy(cfg: Config): NamingPolicy
  {
    NamingPolicy(cfg.omitUniqueTypes, cfg.prefix)
  }

  function Collected(cfg: Config): seq<Field>
  {
    Collect(cfg.chain, cfg.upperBound, cfg.ignored)
  }

  /** `order` is the iteration order of the collected `HashSet`: every collected
      field exactly once, in an order the model does not fix. */
  predicate Enumerates(cfg: Config, order: seq<Field>)
  {
    && NoDup(order)
    && (forall f :: f in order ==> f in Collected(cfg))
    && (forall f :: f in Collected(cfg) ==> f in order)
  }

  /** A well-formed hierarchy and an enumeration of its collected fields: what every
      emitter reads. */
  predicate Ready(cfg: Config, order: seq<Field>)
  {
    WellFormedChain(cfg.chain) && Enumerates(cfg, order)
  }

  lemma ReadyNamed(cfg: Config, order: seq<Field>)
    requires Ready(cfg, order)
    ensures NamedFields(order)
  {
    CollectNoDup(cfg.chain, cfg.upperBound, cfg.ignored);
    var c := Collected(cfg);
    forall i | 0 <= i < |order| ensures order[i].name != "" {
      assert order[i] in order;
      var j :| 0 <= j < |c| && c[j] == order[i];
    }
  }

  /** The builder name of a collected field. */
  function BName(order: seq<Field>, f: Field): string
    requires NamedFields(order) && f in order
  {
    BuilderFieldName(order, f)
  }

  /** Distinct collected fields have distinct builder names. */
  lemma BNameInjective(order: seq<Field>, f: Field, g: Field)
    requires NamedFields(order) && InjectiveBuilderNames(order) && f in order && g in order && f != g
    ensures BName(order, f) != BName(order, g)
  {
    var i :| 0 <= i < |order| && order[i] == f;
    var j :| 0 <= j < |order| && order[j] == g;
    assert i != j;
  }

  /** The setter name of a collected field. */
  function SName(cfg: Config, order: seq<Field>, f: Field): string
    requires NamedFields(order) && f in order
  {
    SetterName(Policy(cfg), order, f)
  }

  predicate IsBare(cfg: Config, order: seq<Field>, f: Field)
    requires NamedFields(order) && f in order
  {
    SName(cfg, order, f) == cfg.prefix
  }

  /* ------------------------------------------------------------------------ */
  /*  clear values                                                            */
  /* ------------------------------------------------------------------------ */

  /** A literal the generator writes as a `clear()` argument. */
  datatype Literal = PrimZero(kind: PrimKind) | UntypedNull | TypedNull(simple: string)

  /** The source text of a literal. */
  function LiteralText(lit: Literal): string
  {
    match lit
    case PrimZero(Boolean) => "false"
    case PrimZero(Byte) => "(byte) 0"
    case PrimZero(Short) => "(short) 0"
    case PrimZero(Int) => "0"
    case PrimZero(Long) => "0L"
    case PrimZero(Char) => "'\\u0000'"
    case PrimZero(Float) => "0.0f"
    case PrimZero(Double) => "0.0"
    case UntypedNull => "null"
    case TypedNull(s) => "(" + s + ") null"
  }

  /** The static type of an argument expression, as overload resolution sees it:
      a primitive, the null type, or a reference type by simple name. */
  datatype ArgType = PrimArg(kind: PrimKind) | NullArg | RefArg(simple: string)

  function ArgTypeOfType(t: TypeRef): ArgType
  {
    match t
    case Prim(k) => PrimArg(k)
    case Ref(c) => RefArg(c.simple)
  }

  /** An independent reading of literal text as Java reads it: its value and its
      static type; `None` for text that is not one of these literals. */
  function ReadLiteral(t: string): Option<(Runtime.Value, ArgType)>
  {
    if t == "false" then Some((Runtime.BoolV(false), PrimArg(Boolean)))
    else if t == "(byte) 0" then Some((Runtime.IntV(0), PrimArg(Byte)))
    else if t == "(short) 0" then Some((Runtime.IntV(0), PrimArg(Short)))
    else if t == "0" then Some((Runtime.IntV(0), PrimArg(Int)))
    else if t == "0L" then Some((Runtime.IntV(0), PrimArg(Long)))
    else if t == "'\\u0000'" then Some((Runtime.CharV(0 as char), PrimArg(Char)))
    else if t == "0.0f" then Some((Runtime.FloatV(0.0), PrimArg(Float)))
    else if t == "0.0" then Some((Runtime.FloatV(0.0), PrimArg(Double)))
    else if t == "null" then Some((Runtime.Null, NullArg))
    else if |t| >= 7 && t[0] == '(' && t[|t| - 6..] == ") null" then Some((Runtime.Null, RefArg(t[1..|t| - 6])))
    else None
  }

  /** `clearedValueForField`: the fixed zero literal of a primitive; for a reference,
      the cast `(Simple) null` when the setter name is bare or the type has a
      companion builder, and plain `null` otherwise. Read back as Java, the literal
      denotes the JVM default of the field's type. */
  function ClearedValue(cfg: Config, order: seq<Field>, f: Field): (lit: Literal)
    requires NamedFields(order) && f in order
    ensures ReadLiteral(LiteralText(lit)).Some?
    ensures ReadLiteral(LiteralText(lit)).value.0 == Runtime.Zero(f.fieldType)
    ensures f.fieldType.Prim? ==> ReadLiteral(LiteralText(lit)).value.1 == ArgTypeOfType(f.fieldType)
    ensures f.fieldType.Ref? ==>
              ((ReadLiteral(LiteralText(lit)).value.1 == ArgTypeOfType(f.fieldType))
               <==> (IsBare(cfg, order, f) || HasCompanion(cfg.companions, f)))
    ensures f.fieldType.Ref? ==>
              ((ReadLiteral(LiteralText(lit)).value.1 == NullArg)
               <==> (!IsBare(cfg, order, f) && !HasCompanion(cfg.companions, f)))
  {
    var lit := match f.fieldType
      case Prim(k) => PrimZero(k)
      case Ref(c) =>
        if IsBare(cfg, order, f) || HasCompanion(cfg.companions, f) then TypedNull(c.simple) else UntypedNull;
    ReadLiteralRoundTrip(lit);
    lit
  }

  /** Every literal the generator writes reads back as itself. */
  lemma ReadLiteralRoundTrip(lit: Literal)
    ensures ReadLiteral(LiteralText(lit)) == Some((LiteralValue(lit), LiteralType(lit)))
  {
    match lit
    case PrimZero(k) => PrimZeroRoundTrip(k);
    case UntypedNull =>
    case TypedNull(s) => TypedNullRoundTrip(s);
  }

  lemma PrimZeroRoundTrip(k: PrimKind)
    ensures ReadLiteral(LiteralText(PrimZero(k))) == Some((Runtime.Zero(Prim(k)), PrimArg(k)))
  {
    match k
    case Boolean =>
    case Byte =>
    case Short =>
    case Int =>
    case Long =>
    case Char =>
    case Float =>
    case Double =>
  }

  lemma TypedNullRoundTrip(s: string)
    ensures ReadLiteral(LiteralText(TypedNull(s))) == Some((Runtime.Null, RefArg(s)))
  {
    var t := LiteralText(TypedNull(s));
    assert t[0] == '(' && t[|t| - 1] == 'l';
    assert t != "false" && t != "0" && t != "0L" && t != "'\\u0000'" && t != "0.0f" && t != "0.0" && t != "null";
    assert t != "(byte) 0" && t != "(short) 0";
    assert t[|t| - 6..] == ") null";
    assert t[1..|t| - 6] == s;
  }

  function LiteralValue(lit: Literal): Runtime.Value
  {
    match lit
    case PrimZero(k) => Runtime.Zero(Prim(k))
    case _ => Runtime.Null
  }

  function LiteralType(lit: Literal): ArgType
  {
    match lit
    case PrimZero(k) => PrimArg(k)
    case UntypedNull => NullArg
    case TypedNull(s) => RefArg(s)
  }

  /* ------------------------------------------------------------------------ */
  /*  setters                                                                 */
  /* ------------------------------------------------------------------------ */

  /** A declared parameter type. */
  datatype Param = PrimParam(kind: PrimKind) | RefParam(simple: string)

  function ParamOf(t: TypeRef): Param
  {
    match t
    case Prim(k) => PrimParam(k)
    case Ref(c) => RefParam(c.simple)
  }

  /** One emitted setter: method name, parameter type, the slot it assigns, whether
      it assigns `builder.build()` of a companion builder, and whether it records the
      slot in `fieldsToSet`. `docClass`/`docField` name the field in the Javadoc link. */
  datatype SetterDecl = SetterDecl(
    methodName: string, param: Param, slot: string, viaCompanion: bool, tracks: bool,
    docClass: string, docField: string)

  function PrimarySetter(cfg: Config, order: seq<Field>, f: Field): SetterDecl
    requires NamedFields(order) && f in order
  {
    SetterDecl(SName(cfg, order, f), ParamOf(f.fieldType), BName(order, f), false, cfg.sparse,
               f.declaring.simple, f.name)
  }

  function CompanionSetter(cfg: Config, order: seq<Field>, f: Field): SetterDecl
    requires NamedFields(order) && f in order && HasCompanion(cfg.companions, f)
  {
    SetterDecl(SName(cfg, order, f), RefParam(cfg.companions[f.fieldType].simple), BName(order, f), true, cfg.sparse,
               f.declaring.simple, f.name)
  }

  /** The setters `withFieldMethods` emits for one field. */
  function SettersFor(cfg: Config, order: seq<Field>, f: Field): seq<SetterDecl>
    requires NamedFields(order) && f in order
  {
    [PrimarySetter(cfg, order, f)] + (if HasCompanion(cfg.companions, f) then [CompanionSetter(cfg, order, f)] else [])
  }

  /** The setters emitted for the fields `fs`, a part of the iteration order. */
  function SettersOf(cfg: Config, order: seq<Field>, fs: seq<Field>): seq<SetterDecl>
    requires NamedFields(order) && forall f :: f in fs ==> f in order
  {
    if fs == [] then []
    else
      assert forall f :: f in fs[1..] ==> f in fs;
      SettersFor(cfg, order, fs[0]) + SettersOf(cfg, order, fs[1..])
  }

  /** The setters emitted for `fs` are exactly the primary setters of its fields and
      the companion overloads of those with a companion builder. */
  lemma {:induction false} SettersOfContents(cfg: Config, order: seq<Field>, fs: seq<Field>)
    requires NamedFields(order) && forall f :: f in fs ==> f in order
    ensures forall d :: d in SettersOf(cfg, order, fs) <==>
              exists f :: f in fs && (d == PrimarySetter(cfg, order, f) ||
                                      (HasCompanion(cfg.companions, f) && d == CompanionSetter(cfg, order, f)))
  {
    if fs != [] {
      assert forall f :: f in fs[1..] ==> f in fs;
      SettersOfContents(cfg, order, fs[1..]);
      var head, rest := SettersFor(cfg, order, fs[0]), SettersOf(cfg, order, fs[1..]);
      assert SettersOf(cfg, order, fs) == head + rest;
      forall d | d in SettersOf(cfg, order, fs)
        ensures exists f :: f in fs && (d == PrimarySetter(cfg, order, f) ||
                                        (HasCompanion(cfg.companions, f) && d == CompanionSetter(cfg, order, f)))
      {
        if d in head {
          assert fs[0] in fs;
        } else {
          var f :| f in fs[1..] && (d == PrimarySetter(cfg, order, f) ||
                                    (HasCompanion(cfg.companions, f) && d == CompanionSetter(cfg, order, f)));
          assert f in fs;
        }
      }
      forall d, f | f in fs && (d == PrimarySetter(cfg, order, f) ||
                                (HasCompanion(cfg.companions, f) && d == CompanionSetter(cfg, order, f)))
        ensures d in SettersOf(cfg, order, fs)
      {
        if f == fs[0] {
          assert d in head;
        } else {
          assert f in fs[1..];
          assert d in rest;
        }
      }
    }
  }

  function Setters(cfg: Config, order: seq<Field>): seq<SetterDecl>
    requires NamedFields(order)
  {
    SettersOf(cfg, order, order)
  }

  /** The setter lemma of `withFieldMethods`: every emitted setter records tracking
      exactly under the sparse policy; each field has one primary setter of its own
      type, and a second overload, under the same name and for the same slot, exactly
      when its type has a companion builder. */
  lemma SettersShape(cfg: Config, order: seq<Field>, f: Field)
    requires NamedFields(order) && InjectiveBuilderNames(order) && f in order
    ensures forall d :: d in Setters(cfg, order) ==> d.tracks == cfg.sparse
    ensures PrimarySetter(cfg, order, f) in Setters(cfg, order)
    ensures PrimarySetter(cfg, order, f).param == ParamOf(f.fieldType)
    ensures (exists d :: d in Setters(cfg, order) && d.viaCompanion && d.slot == BName(order, f)
                         && d.methodName == SName(cfg, order, f))
            <==> HasCompanion(cfg.companions, f)
  {
    SettersTrackUnderSparse(cfg, order);
    SettersOfContents(cfg, order, order);
    assert PrimarySetter(cfg, order, f) in Setters(cfg, order);
    CompanionOverloadIff(cfg, order, f);
  }

  lemma SettersTrackUnderSparse(cfg: Config, order: seq<Field>)
    requires NamedFields(order)
    ensures forall d :: d in Setters(cfg, order) ==> d.tracks == cfg.sparse
  {
    SettersOfContents(cfg, order, order);
    forall d | d in Setters(cfg, order) ensures d.tracks == cfg.sparse {
      var g :| g in order && (d == PrimarySetter(cfg, order, g) ||
                               (HasCompanion(cfg.companions, g) && d == CompanionSetter(cfg, order, g)));
    }
  }

  lemma CompanionOverloadIff(cfg: Config, order: seq<Field>, f: Field)
    requires NamedFields(order) && InjectiveBuilderNames(order) && f in order
    ensures (exists d :: d in Setters(cfg, order) && d.viaCompanion && d.slot == BName(order, f)
                         && d.methodName == SName(cfg, order, f))
            <==> HasCompanion(cfg.companions, f)
  {
    if exists d :: d in Setters(cfg, order) && d.viaCompanion && d.slot == BName(order, f)
                   && d.methodName == SName(cfg, order, f) {
      var d :| d in Setters(cfg, order) && d.viaCompanion && d.slot == BName(order, f)
               && d.methodName == SName(cfg, order, f);
      CompanionOverloadOwner(cfg, order, f, d);
    }
    if HasCompanion(cfg.companions, f) {
      SettersOfContents(cfg, order, order);
      var c := CompanionSetter(cfg, order, f);
      assert c in Setters(cfg, order);
    }
  }

  /** A companion overload assigning the slot of `f` is the overload emitted for `f`. */
  lemma CompanionOverloadOwner(cfg: Config, order: seq<Field>, f: Field, d: SetterDecl)
    requires NamedFields(order) && InjectiveBuilderNames(order) && f in order
    requires d in Setters(cfg, order) && d.viaCompanion && d.slot == BName(order, f)
    ensures HasCompanion(cfg.companions, f) && d == CompanionSetter(cfg, order, f)
  {
    SettersOfContents(cfg, order, order);
    var g :| g in order && (d == PrimarySetter(cfg, order, g) ||
                             (HasCompanion(cfg.companions, g) && d == CompanionSetter(cfg, order, g)));
    if g != f {
      BNameInjective(order, f, g);
    }
  }

  /* ------------------------------------------------------------------------ */
  /*  clear(), _withDefaults(), startingFrom, build()                         */
  /* ------------------------------------------------------------------------ */

  /** The argument of an emitted setter call: a literal, or a builder field read. */
  datatype Arg = LiteralArg(lit: Literal) | SlotArg(slot: string, slotType: TypeRef)

  /** An emitted call `name(arg);` inside `clear()` or `_withDefaults()`. */
  datatype Invocation = Invocation(methodName: string, arg: Arg)

  function ArgTypeOf(a: Arg): ArgType
  {
    match a
    case LiteralArg(lit) => LiteralType(lit)
    case SlotArg(_, t) => ArgTypeOfType(t)
  }

  function ArgText(a: Arg): string
  {
    match a
    case LiteralArg(lit) => LiteralText(lit)
    case SlotArg(n, _) => n
  }

  /** The call `clearFieldsMethod` emits for `f`. */
  function ClearCall(cfg: Config, order: seq<Field>, f: Field): Invocation
    requires NamedFields(order) && f in order
  {
    Invocation(SName(cfg, order, f), LiteralArg(ClearedValue(cfg, order, f)))
  }

  /** The call `defaultValuesMethod` emits for `f`: the setter applied to the
      builder field itself. */
  function DefaultsCall(cfg: Config, order: seq<Field>, f: Field): Invocation
    requires NamedFields(order) && f in order
  {
    Invocation(SName(cfg, order, f), SlotArg(BName(order, f), f.fieldType))
  }

  function ClearCalls(cfg: Config, order: seq<Field>): seq<Invocation>
    requires NamedFields(order)
  {
    seq(|order|, i requires 0 <= i < |order| => ClearCall(cfg, order, order[i]))
  }

  function DefaultsCalls(cfg: Config, order: seq<Field>): seq<Invocation>
    requires NamedFields(order)
  {
    seq(|order|, i requires 0 <= i < |order| => DefaultsCall(cfg, order, order[i]))
  }

  /** The statements of a `startingFrom(instance)` body under `instance != null`:
      the generator emits `clear()` then the adoption; the older hand-edited form
      empties the tracking set instead of clearing. */
  datatype StartStmt = CallClear | EmptyTracking | Adopt

  function StartingFromBody(cfg: Config): seq<StartStmt>
  {
    [CallClear, Adopt]
  }

  /** One injection of `build()`: `setField(fieldName, Declaring.class, slot)`,
      wrapped in `if(fieldsToSet.contains(slot))` when guarded. */
  datatype Injection = Injection(fieldName: string, declaring: ClassRef, slot: string, guarded: bool)

  function InjectionFor(cfg: Config, order: seq<Field>, f: Field): Injection
    requires NamedFields(order) && f in order
  {
    Injection(f.name, f.declaring, BName(order, f), cfg.sparse)
  }

  function Injections(cfg: Config, order: seq<Field>): seq<Injection>
    requires NamedFields(order)
  {
    seq(|order|, i requires 0 <= i < |order| => InjectionFor(cfg, order, order[i]))
  }

  /** How `build()` obtains the object it injects into: the held `_result_` field
      when the default constructor is accessible, otherwise a local constructed
      reflectively. */
  datatype BuildStart = HeldResult | FreshLocal

  function BuildStartOf(cfg: Config): BuildStart
  {
    if cfg.defaultConstructorAccessible then HeldResult else FreshLocal
  }

  /* ------------------------------------------------------------------------ */
  /*  imports                                                                 */
  /* ------------------------------------------------------------------------ */

  const FieldClass := ClassRef("java.lang.reflect.Field", "Field")
  const InvocationTargetExceptionClass := ClassRef("java.lang.reflect.InvocationTargetException", "InvocationTargetException")
  const HashSetClass := ClassRef("java.util.HashSet", "HashSet")
  const SetClass := ClassRef("java.util.Set", "Set")

  /** `addImportIfMissing`: append `c` unless it is already imported. */
  function AddImportIfMissing(imported: seq<ClassRef>, c: ClassRef): (r: seq<ClassRef>)
    ensures NoDup(imported) ==> NoDup(r)
    ensures forall x :: x in r <==> x in imported || x == c
    ensures |imported| <= |r| && r[..|imported|] == imported
  {
    if c in imported then imported else imported + [c]
  }

  /** Successive `addImportIfMissing` calls: every class imported once, in the order
      of first request. */
  function AddImports(imported: seq<ClassRef>, cs: seq<ClassRef>): (r: seq<ClassRef>)
    ensures NoDup(imported) ==> NoDup(r)
    ensures forall x :: x in r <==> x in imported || x in cs
    ensures |imported| <= |r| && r[..|imported|] == imported
    decreases |cs|
  {
    if cs == [] then imported
    else
      var next := AddImportIfMissing(imported, cs[0]);
      var r := AddImports(next, cs[1..]);
      assert r[..|imported|] == next[..|next|][..|imported|];
      assert forall x :: x in cs <==> x == cs[0] || x in cs[1..];
      r
  }

  /** The reference types of the fields, in iteration order (primitives are skipped). */
  function FieldTypeClasses(fs: seq<Field>): (cs: seq<ClassRef>)
    ensures forall c :: c in cs <==> exists i :: 0 <= i < |fs| && fs[i].fieldType == Ref(c)
  {
    if fs == [] then []
    else
      var rest := FieldTypeClasses(fs[1..]);
      assert forall i :: 1 <= i < |fs| ==> fs[i] == fs[1..][i - 1];
      assert forall c :: (exists i :: 0 <= i < |fs[1..]| && fs[1..][i].fieldType == Ref(c)) ==>
                         (exists i :: 0 <= i < |fs| && fs[i].fieldType == Ref(c)) by {
        forall c | exists i :: 0 <= i < |fs[1..]| && fs[1..][i].fieldType == Ref(c)
          ensures exists i :: 0 <= i < |fs| && fs[i].fieldType == Ref(c)
        {
          var i :| 0 <= i < |fs[1..]| && fs[1..][i].fieldType == Ref(c);
          assert fs[i + 1].fieldType == Ref(c);
        }
      }
      if fs[0].fieldType.Ref? then [fs[0].fieldType.cls] + rest else rest
  }

  /** The classes `imports()` asks for, in request order. */
  function ImportRequests(cfg: Config, order: seq<Field>): seq<ClassRef>
  {
    [FieldClass]
    + (if !cfg.defaultConstructorAccessible then [InvocationTargetExceptionClass] else [])
    + (if cfg.sparse then [HashSetClass, SetClass] else [])
    + FieldTypeClasses(order)
  }

  /** `imports()`: `Field` first; `InvocationTargetException` exactly when the
      constructor is not accessible; `HashSet` and `Set` exactly under the sparse
      policy; every reference field type; nothing else, and nothing twice. */
  function Imports(cfg: Config, order: seq<Field>): (r: seq<ClassRef>)
    ensures NoDup(r) && |r| > 0 && r[0] == FieldClass
    ensures forall c :: c in r <==>
              || c == FieldClass
              || (c == InvocationTargetExceptionClass && !cfg.defaultConstructorAccessible)
              || ((c == HashSetClass || c == SetClass) && cfg.sparse)
              || exists i :: 0 <= i < |order| && order[i].fieldType == Ref(c)
  {
    var req := ImportRequests(cfg, order);
    ImportRequestsContents(cfg, order);
    assert AddImports([], req) == AddImports([FieldClass], req[1..]);
    AddImports([], req)
  }

  lemma ImportRequestsContents(cfg: Config, order: seq<Field>)
    ensures ImportRequests(cfg, order)[0] == FieldClass
    ensures forall c :: c in ImportRequests(cfg, order) <==>
              || c == FieldClass
              || (c == InvocationTargetExceptionClass && !cfg.defaultConstructorAccessible)
              || ((c == HashSetClass || c == SetClass) && cfg.sparse)
              || exists i :: 0 <= i < |order| && order[i].fieldType == Ref(c)
  {
    var a := [FieldClass];
    var b := if !cfg.defaultConstructorAccessible then [InvocationTargetExceptionClass] else [];
    var c := if cfg.sparse then [HashSetClass, SetClass] else [];
    var d := FieldTypeClasses(order);
    assert ImportRequests(cfg, order) == a + b + c + d;
    forall x ensures x in a + b + c + d <==> x in a || x in b || x in c || x in d {
    }
  }

  /* ------------------------------------------------------------------------ */
  /*  text                                                                    */
  /* ------------------------------------------------------------------------ */

  function ParamText(p: Param): string
  {
    match p
    case PrimParam(k) => PrimName(k)
    case RefParam(s) => s
  }

  function Quote(s: string): string
  {
    "\"" + s + "\""
  }

  function BuilderClassName(cfg: Config): string
  {
    cfg.target.simple + "Builder"
  }

  /** `_result_` plus the lower-cased simple name of the target class. */
  function ResultFieldName(cfg: Config): string
    requires cfg.target.simple != ""
  {
    "_result_" + Lowercase(cfg.target.simple)
  }

  function TrackLine(slot: string): string
  {
    "    fieldsToSet.add(" + Quote(slot) + ");"
  }

  /** The lines `withFieldMethods` prints for one setter. */
  function SetterLines(builderClass: string, d: SetterDecl): seq<string>
  {
    var paramName := if d.viaCompanion then d.slot + "Builder" else d.slot;
    var value := if d.viaCompanion then d.slot + "Builder.build()" else d.slot;
    ["  /** {@link " + d.docClass + "#" + d.docField + "}. */",
     "  public " + builderClass + " " + d.methodName + "(" + ParamText(d.param) + " " + paramName + ") {",
     "    this." + d.slot + " = " + value + ";"]
    + (if d.tracks then [TrackLine(d.slot)] else [])
    + ["    return this;", "  }", ""]
  }

  /** A setter's text records tracking exactly when the setter tracks. */
  lemma SetterLinesTrackIff(builderClass: string, d: SetterDecl)
    ensures TrackLine(d.slot) in SetterLines(builderClass, d) <==> d.tracks
  {
    var t := TrackLine(d.slot);
    assert t[2] == ' ' && t[4] == 'f';
  }

  function InvocationLine(inv: Invocation): string
  {
    "    " + inv.methodName + "(" + ArgText(inv.arg) + ");"
  }

  function InvocationLines(invs: seq<Invocation>): (ls: seq<string>)
    ensures |ls| == |invs| && forall i :: 0 <= i < |invs| ==> ls[i] == InvocationLine(invs[i])
  {
    seq(|invs|, i requires 0 <= i < |invs| => InvocationLine(invs[i]))
  }

  function SetFieldCall(inj: Injection): string
  {
    "setField(" + Quote(inj.fieldName) + ", " + inj.declaring.simple + ".class, " + inj.slot + ");"
  }

  function GuardLine(slot: string): string
  {
    "    if(fieldsToSet.contains(" + Quote(slot) + ")) {"
  }

  /** `generateFieldSetter`: the injection, guarded under the sparse policy. */
  function InjectionLines(inj: Injection): seq<string>
  {
    if inj.guarded then [GuardLine(inj.slot), "       " + SetFieldCall(inj), "    }"]
    else ["    " + SetFieldCall(inj)]
  }

  function InjectionsText(injs: seq<Injection>): seq<string>
  {
    if injs == [] then [] else InjectionLines(injs[0]) + InjectionsText(injs[1..])
  }

  function BuildLines(cfg: Config, order: seq<Field>): seq<string>
    requires NamedFields(order) && cfg.target.simple != ""
  {
    var t := cfg.target.simple;
    var start :=
      match BuildStartOf(cfg)
      case HeldResult => ["  public " + t + " build() {"]
      case FreshLocal =>
        ["  public " + t + " build() throws NoSuchMethodException, IllegalAccessException, InvocationTargetException,",
         "     InstantiationException {",
         "",
         "    " + t + " " + ResultFieldName(cfg) + " = " + t + ".class.getDeclaredConstructor().newInstance();",
         ""];
    start + InjectionsText(Injections(cfg, order)) + ["", "    return " + ResultFieldName(cfg) + ";", "  }", ""]
  }

  function ClearLines(cfg: Config, order: seq<Field>): seq<string>
    requires NamedFields(order)
  {
    ["  public void clear() {"] + InvocationLines(ClearCalls(cfg, order)) + ["  }", ""]
  }

  function DefaultsLines(cfg: Config, order: seq<Field>): seq<string>
    requires NamedFields(order)
  {
    ["  public void _" + cfg.prefix + "Defaults() {"] + InvocationLines(DefaultsCalls(cfg, order)) + ["  }", ""]
  }

  function StartingFromLines(cfg: Config): seq<string>
    requires cfg.target.simple != ""
  {
    ["  public void startingFrom(" + cfg.target.simple + " instance) {",
     "    if (instance != null) {",
     "      clear();",
     "      " + ResultFieldName(cfg) + " = instance;",
     "    }",
     "  }",
     ""]
  }

  function SettersText(builderClass: string, ds: seq<SetterDecl>): seq<string>
  {
    if ds == [] then [] else SetterLines(builderClass, ds[0]) + SettersText(builderClass, ds[1..])
  }

  function ImportLines(cs: seq<ClassRef>): seq<string>
  {
    if cs == [] then [] else ["import " + cs[0].canonical + ";"] + ImportLines(cs[1..])
  }

  function SlotLines(order: seq<Field>, fs: seq<Field>): seq<string>
    requires NamedFields(order) && forall f :: f in fs ==> f in order
  {
    if fs == [] then []
    else ["  private " + TypeSimpleName(fs[0].fieldType) + " " + BName(order, fs[0]) + ";"] + SlotLines(order, fs[1..])
  }

  /** The whole builder source, section by section in `generateBuilderClass` order;
      Javadoc blocks and the annotation line are left out. */
  method Render(cfg: Config, order: seq<Field>) returns (lines: seq<string>)
    requires NamedFields(order) && cfg.target.simple != ""
    ensures |lines| > 1 && lines[0] == "package " + cfg.targetPackage + ";" && lines[|lines| - 1] == "}"
  {
    var mid := RenderMembers(cfg, order);
    lines := ["package " + cfg.targetPackage + ";"] + mid + ["}"];
  }

  /** The lines between the package declaration and the closing brace. */
  method RenderMembers(cfg: Config, order: seq<Field>) returns (mid: seq<string>)
    requires NamedFields(order) && cfg.target.simple != ""
  {
    var cn := BuilderClassName(cfg);
    var t := cfg.target.simple;
    mid := ImportLines(Imports(cfg, order)) + [""];
    mid := mid + ["public final class " + cn + " {", ""];
    mid := mid + ["  private " + cn + "() {}", ""];
    mid := mid + ["  private " + t + " " + ResultFieldName(cfg) + " = new " + t + "();"] + SlotLines(order, order) + [""];
    if cfg.sparse {
      mid := mid + ["  private Set<String> fieldsToSet = new HashSet<>();", ""];
    }
    mid := mid + ["  public static " + cn + " create() {", "    return new " + cn + "();", "  }", ""];
    mid := mid + SettersText(cn, Setters(cfg, order));
    mid := mid + ClearLines(cfg, order);
    mid := mid + DefaultsLines(cfg, order);
    mid := mid + StartingFromLines(cfg);
    mid := mid + BuildLines(cfg, order);
    mid := mid + ["  private void setField(String fieldName, Class<?> type, Object fieldValue) {",
                  "    try {",
                  "      Field objectField = type.getDeclaredField(fieldName);",
                  "      objectField.setAccessible(true);",
                  "      objectField.set(" + ResultFieldName(cfg) + ", fieldValue);",
                  "    } catch (Exception ex) {",
                  "      ex.printStackTrace();",
                  "    }",
                  "  }"];
  }

  /** `generateBuilder`: the file is written unless it exists and overwriting is off. */
  method GenerateFile(cfg: Config, order: seq<Field>, fileExists: bool) returns (out: Option<seq<string>>)
    requires NamedFields(order) && cfg.target.simple != ""
    ensures out.Some? <==> cfg.allowOverwrite || !fileExists
    ensures out.Some? ==> |out.value| > 1 && out.value[|out.value| - 1] == "}"
  {
    if cfg.allowOverwrite || !fileExists {
      var lines := Render(cfg, order);
      out := Some(lines);
    } else {
      out := None;
    }
  }
}
