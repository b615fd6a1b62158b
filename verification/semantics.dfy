/**
 What the emitted source does when it runs. The statements the generator emits —
 setter bodies, the calls of `clear()` and `_withDefaults()` (dispatched by overload
 resolution), the body of `startingFrom`, and the injections of `build()` — are
 executed here on the builder state of the runtime model. They coincide with
 the runtime operations on the layout the generator decides.
 */
module Semantics {
  import opened Descriptors
  import opened Collection
  import opened Naming
  import opened Emission
  import opened Resolution
  import Runtime

  /** The runtime slot of a collected field: its builder name, the pair `setField`
      addresses, and the JVM default of its type. */
  function SlotFor(order: seq<Field>, f: Field): Runtime.Slot
    requires NamedFields(order) && f in order
  {
    Runtime.Slot(BName(order, f), Runtime.FieldKey(f.name, f.declaring), Runtime.Zero(f.fieldType))
  }

  /** The runtime shape of the emitted builder: one slot per collected field in
      iteration order, and the configured policy. */
  function GeneratedLayout(cfg: Config, order: seq<Field>): Runtime.Layout
    requires NamedFields(order)
  {
    Runtime.Layout(seq(|order|, i requires 0 <= i < |order| => SlotFor(order, order[i])), cfg.sparse)
  }

  /** A configuration and enumeration the emitted source is meaningful for. */
  predicate Sound(cfg: Config, order: seq<Field>)
  {
    Ready(cfg, order) && ResolutionReady(cfg, order)
  }

  /** Distinct builder names, and distinct target fields: each slot is routed to
      its own field. */
  lemma GeneratedLayoutWellFormed(cfg: Config, order: seq<Field>)
    requires Sound(cfg, order)
    ensures Runtime.WellFormed(GeneratedLayout(cfg, order))
  {
    var l := GeneratedLayout(cfg, order);
    forall i, j | 0 <= i < j < |l.slots|
      ensures l.slots[i].name != l.slots[j].name && l.slots[i].target != l.slots[j].target
    {
      var f, g := order[i], order[j];
      BNameInjective(order, f, g);
      if l.slots[i].target == l.slots[j].target {
        CollectedKeyIdentifies(cfg.chain, cfg.upperBound, cfg.ignored, f, g);
        assert false;
      }
    }
  }

  lemma SlotNameInLayout(cfg: Config, order: seq<Field>, f: Field)
    requires NamedFields(order) && f in order
    ensures BName(order, f) in Runtime.Names(GeneratedLayout(cfg, order))
  {
    var i :| 0 <= i < |order| && order[i] == f;
    assert GeneratedLayout(cfg, order).slots[i].name == BName(order, f);
  }

  /* ------------------------------------------------------------------------ */
  /*  setters                                                                 */
  /* ------------------------------------------------------------------------ */

  /** Runs a setter body: assign the slot, record it when the setter tracks. */
  function RunSetter(d: SetterDecl, s: Runtime.State, v: Runtime.Value): Runtime.State
  {
    s.(values := s.values[d.slot := v],
       fieldsToSet := if d.tracks then s.fieldsToSet + {d.slot} else s.fieldsToSet)
  }

  /** The emitted primary setter of `f` is the runtime setter of its slot. */
  lemma PrimarySetterIsSet(cfg: Config, order: seq<Field>, f: Field, s: Runtime.State, v: Runtime.Value)
    requires NamedFields(order) && f in order && Runtime.Valid(GeneratedLayout(cfg, order), s)
    ensures BName(order, f) in Runtime.Names(GeneratedLayout(cfg, order))
    ensures RunSetter(PrimarySetter(cfg, order, f), s, v) == Runtime.Set(GeneratedLayout(cfg, order), s, BName(order, f), v)
  {
    SlotNameInLayout(cfg, order, f);
  }

  /** `with…(XBuilder b)` has the effect of `with…(b.build())`. */
  lemma CompanionOverloadIsPrimaryOfBuilt(cfg: Config, order: seq<Field>, f: Field, s: Runtime.State,
                                          companion: Runtime.Layout, b: Runtime.State)
    requires NamedFields(order) && f in order && HasCompanion(cfg.companions, f)
    requires Runtime.Valid(GeneratedLayout(cfg, order), s)
    requires Runtime.WellFormed(companion) && Runtime.Valid(companion, b)
    ensures BName(order, f) in Runtime.Names(GeneratedLayout(cfg, order))
    ensures var built := Runtime.Obj(Runtime.Build(companion, b));
            && RunSetter(CompanionSetter(cfg, order, f), s, built) == RunSetter(PrimarySetter(cfg, order, f), s, built)
            && RunSetter(CompanionSetter(cfg, order, f), s, built)
               == Runtime.SetFromBuilder(GeneratedLayout(cfg, order), s, BName(order, f), companion, b)
  {
    PrimarySetterIsSet(cfg, order, f, s, Runtime.Obj(Runtime.Build(companion, b)));
  }

  /* ------------------------------------------------------------------------ */
  /*  calls dispatched by overload resolution                                 */
  /* ------------------------------------------------------------------------ */

  /** The value of an argument expression: a literal read as Java reads it, or the
      current content of a builder field. */
  function ArgValue(a: Arg, s: Runtime.State): Option<Runtime.Value>
  {
    match a
    case LiteralArg(lit) =>
      (match ReadLiteral(LiteralText(lit))
       case Some(p) => Some(p.0)
       case None => None)
    case SlotArg(n, _) => if n in s.values then Some(s.values[n]) else None
  }

  /** Runs an emitted call: Java rejects the call unless exactly one setter applies. */
  function RunCall(ds: seq<SetterDecl>, inv: Invocation, s: Runtime.State): Option<Runtime.State>
  {
    var cs := Candidates(ds, inv);
    if |cs| != 1 then None
    else
      match ArgValue(inv.arg, s)
      case None => None
      case Some(v) => Some(RunSetter(cs[0], s, v))
  }

  /** The first `k` calls of a method body, in order. */
  function RunCalls(ds: seq<SetterDecl>, invs: seq<Invocation>, s: Runtime.State, k: nat): Option<Runtime.State>
    requires k <= |invs|
  {
    if k == 0 then Some(s)
    else
      match RunCalls(ds, invs, s, k - 1)
      case None => None
      case Some(t) => RunCall(ds, invs[k - 1], t)
  }

  /** Calls that each act as the runtime setter of their slot with the slot's zero. */
  ghost predicate ZeroCalls(ds: seq<SetterDecl>, invs: seq<Invocation>, l: Runtime.Layout)
  {
    forall j, t :: 0 <= j < |invs| && j < |l.slots| && Runtime.Valid(l, t) ==>
      && l.slots[j].name in Runtime.Names(l)
      && RunCall(ds, invs[j], t) == Some(Runtime.Set(l, t, l.slots[j].name, l.slots[j].zero))
  }

  /** Calls that each re-set their slot to its current value. */
  ghost predicate SelfCalls(ds: seq<SetterDecl>, invs: seq<Invocation>, l: Runtime.Layout)
  {
    forall j, t :: 0 <= j < |invs| && j < |l.slots| && Runtime.Valid(l, t) ==>
      && l.slots[j].name in Runtime.Names(l)
      && RunCall(ds, invs[j], t) == Some(Runtime.Set(l, t, l.slots[j].name, t.values[l.slots[j].name]))
  }

  lemma ZeroCallStep(ds: seq<SetterDecl>, invs: seq<Invocation>, l: Runtime.Layout, s: Runtime.State, j: nat)
    requires Runtime.WellFormed(l) && Runtime.Valid(l, s) && j < |invs| && j < |l.slots|
    requires ZeroCalls(ds, invs, l)
    requires RunCalls(ds, invs, s, j) == Some(Runtime.ClearPrefix(l, s, j))
    ensures RunCalls(ds, invs, s, j + 1) == Some(Runtime.ClearPrefix(l, s, j + 1))
  {
    var prev := Runtime.ClearPrefix(l, s, j);
    assert RunCalls(ds, invs, s, j + 1) == RunCall(ds, invs[j], prev);
    Runtime.ClearPrefixStep(l, s, j + 1);
  }

  lemma SelfCallStep(ds: seq<SetterDecl>, invs: seq<Invocation>, l: Runtime.Layout, s: Runtime.State, j: nat)
    requires Runtime.WellFormed(l) && Runtime.Valid(l, s) && j < |invs| && j < |l.slots|
    requires SelfCalls(ds, invs, l)
    requires RunCalls(ds, invs, s, j) == Some(Runtime.ResetPrefix(l, s, j))
    ensures RunCalls(ds, invs, s, j + 1) == Some(Runtime.ResetPrefix(l, s, j + 1))
  {
    var prev := Runtime.ResetPrefix(l, s, j);
    assert RunCalls(ds, invs, s, j + 1) == RunCall(ds, invs[j], prev);
    Runtime.ResetPrefixStep(l, s, j + 1);
  }

  /** Such calls, run in order, act as the runtime `clear()` on the slots so far. */
  lemma {:induction false} ZeroCallsClear(ds: seq<SetterDecl>, invs: seq<Invocation>, l: Runtime.Layout,
                                          s: Runtime.State, k: nat)
    requires Runtime.WellFormed(l) && Runtime.Valid(l, s) && k <= |invs| && k <= |l.slots|
    requires ZeroCalls(ds, invs, l)
    ensures RunCalls(ds, invs, s, k) == Some(Runtime.ClearPrefix(l, s, k))
  {
    if k > 0 {
      var j: nat := k - 1;
      ZeroCallsClear(ds, invs, l, s, j);
      ZeroCallStep(ds, invs, l, s, j);
    }
  }

  /** Such calls, run in order, act as the runtime `_withDefaults()` on the slots so far. */
  lemma {:induction false} SelfCallsReset(ds: seq<SetterDecl>, invs: seq<Invocation>, l: Runtime.Layout,
                                          s: Runtime.State, k: nat)
    requires Runtime.WellFormed(l) && Runtime.Valid(l, s) && k <= |invs| && k <= |l.slots|
    requires SelfCalls(ds, invs, l)
    ensures RunCalls(ds, invs, s, k) == Some(Runtime.ResetPrefix(l, s, k))
  {
    if k > 0 {
      var j: nat := k - 1;
      SelfCallsReset(ds, invs, l, s, j);
      SelfCallStep(ds, invs, l, s, j);
    }
  }

  /** One call of the emitted `clear()` is one runtime setter call with the slot's zero. */
  lemma ClearCallStep(cfg: Config, order: seq<Field>, t: Runtime.State, i: nat)
    requires Sound(cfg, order) && i < |order|
    requires Runtime.Valid(GeneratedLayout(cfg, order), t)
    ensures GeneratedLayout(cfg, order).slots[i].name in Runtime.Names(GeneratedLayout(cfg, order))
    ensures RunCall(Setters(cfg, order), ClearCalls(cfg, order)[i], t)
            == Some(Runtime.Set(GeneratedLayout(cfg, order), t, GeneratedLayout(cfg, order).slots[i].name,
                                GeneratedLayout(cfg, order).slots[i].zero))
  {
    var f := order[i];
    var inv := ClearCall(cfg, order, f);
    assert ClearCalls(cfg, order)[i] == inv;
    assert GeneratedLayout(cfg, order).slots[i] == SlotFor(order, f);
    ClearCallResolves(cfg, order, f);
    var lit := ClearedValue(cfg, order, f);
    assert ArgValue(inv.arg, t) == Some(Runtime.Zero(f.fieldType));
    PrimarySetterIsSet(cfg, order, f, t, Runtime.Zero(f.fieldType));
  }

  /** The emitted `clear()` is the runtime `clear()`: every call reaches the setter of
      its own field with the JVM default, and under the sparse policy every builder
      name ends up tracked. */
  lemma EmittedClearIsClear(cfg: Config, order: seq<Field>, s: Runtime.State)
    requires Sound(cfg, order) && Runtime.Valid(GeneratedLayout(cfg, order), s)
    ensures Runtime.WellFormed(GeneratedLayout(cfg, order))
    ensures RunCalls(Setters(cfg, order), ClearCalls(cfg, order), s, |order|)
            == Some(Runtime.Clear(GeneratedLayout(cfg, order), s))
  {
    GeneratedLayoutWellFormed(cfg, order);
    forall j, t | 0 <= j < |ClearCalls(cfg, order)| && j < |GeneratedLayout(cfg, order).slots|
                  && Runtime.Valid(GeneratedLayout(cfg, order), t)
      ensures GeneratedLayout(cfg, order).slots[j].name in Runtime.Names(GeneratedLayout(cfg, order))
      ensures RunCall(Setters(cfg, order), ClearCalls(cfg, order)[j], t)
              == Some(Runtime.Set(GeneratedLayout(cfg, order), t, GeneratedLayout(cfg, order).slots[j].name,
                                  GeneratedLayout(cfg, order).slots[j].zero))
    {
      ClearCallStep(cfg, order, t, j);
    }
    ZeroCallsClear(Setters(cfg, order), ClearCalls(cfg, order), GeneratedLayout(cfg, order), s, |order|);
  }

  /** One call of the emitted `_withDefaults()` is one runtime setter call with the
      slot's current value. */
  lemma DefaultsCallStep(cfg: Config, order: seq<Field>, t: Runtime.State, i: nat)
    requires Sound(cfg, order) && i < |order|
    requires Runtime.Valid(GeneratedLayout(cfg, order), t)
    ensures GeneratedLayout(cfg, order).slots[i].name in Runtime.Names(GeneratedLayout(cfg, order))
    ensures RunCall(Setters(cfg, order), DefaultsCalls(cfg, order)[i], t)
            == Some(Runtime.Set(GeneratedLayout(cfg, order), t, GeneratedLayout(cfg, order).slots[i].name,
                                t.values[GeneratedLayout(cfg, order).slots[i].name]))
  {
    var f := order[i];
    var inv := DefaultsCall(cfg, order, f);
    assert DefaultsCalls(cfg, order)[i] == inv;
    assert GeneratedLayout(cfg, order).slots[i] == SlotFor(order, f);
    DefaultsCallResolves(cfg, order, f);
    SlotNameInLayout(cfg, order, f);
    var v := t.values[BName(order, f)];
    assert ArgValue(inv.arg, t) == Some(v);
    PrimarySetterIsSet(cfg, order, f, t, v);
  }

  /** The emitted `_withDefaults()` re-sets every slot to its own value: values
      unchanged, every builder name tracked under the sparse policy. */
  lemma EmittedDefaultsIsResetAll(cfg: Config, order: seq<Field>, s: Runtime.State)
    requires Sound(cfg, order) && Runtime.Valid(GeneratedLayout(cfg, order), s)
    ensures Runtime.WellFormed(GeneratedLayout(cfg, order))
    ensures RunCalls(Setters(cfg, order), DefaultsCalls(cfg, order), s, |order|)
            == Some(Runtime.ResetAll(GeneratedLayout(cfg, order), s))
  {
    GeneratedLayoutWellFormed(cfg, order);
    forall j, t | 0 <= j < |DefaultsCalls(cfg, order)| && j < |GeneratedLayout(cfg, order).slots|
                  && Runtime.Valid(GeneratedLayout(cfg, order), t)
      ensures GeneratedLayout(cfg, order).slots[j].name in Runtime.Names(GeneratedLayout(cfg, order))
      ensures RunCall(Setters(cfg, order), DefaultsCalls(cfg, order)[j], t)
              == Some(Runtime.Set(GeneratedLayout(cfg, order), t, GeneratedLayout(cfg, order).slots[j].name,
                                  t.values[GeneratedLayout(cfg, order).slots[j].name]))
    {
      DefaultsCallStep(cfg, order, t, j);
    }
    SelfCallsReset(Setters(cfg, order), DefaultsCalls(cfg, order), GeneratedLayout(cfg, order), s, |order|);
  }

  /* ------------------------------------------------------------------------ */
  /*  build()                                                                 */
  /* ------------------------------------------------------------------------ */

  /** One emitted injection: when its guard holds, `setField` writes the slot's value
      into the addressed field of `r`. */
  function RunInjection(inj: Injection, values: map<string, Runtime.Value>, tracked: set<string>, r: Runtime.Instance)
    : Runtime.Instance
  {
    if (!inj.guarded || inj.slot in tracked) && inj.slot in values
    then r[Runtime.FieldKey(inj.fieldName, inj.declaring) := values[inj.slot]]
    else r
  }

  /** The first `k` injections of `build()`, into `r`. */
  function RunInjections(injs: seq<Injection>, values: map<string, Runtime.Value>, tracked: set<string>,
                         r: Runtime.Instance, k: nat): Runtime.Instance
    requires k <= |injs|
  {
    if k == 0 then r else RunInjection(injs[k - 1], values, tracked, RunInjections(injs, values, tracked, r, k - 1))
  }

  /** One emitted injection is one step of the runtime `build()`. */
  lemma InjectionStep(cfg: Config, order: seq<Field>, s: Runtime.State, r: Runtime.Instance, i: nat)
    requires NamedFields(order) && i < |order|
    requires Runtime.Valid(GeneratedLayout(cfg, order), s)
    ensures var l := GeneratedLayout(cfg, order);
            RunInjection(Injections(cfg, order)[i], s.values, s.fieldsToSet, r)
            == if Runtime.Injected(l, s, i) then r[l.slots[i].target := s.values[l.slots[i].name]] else r
  {
    var f := order[i];
    assert Injections(cfg, order)[i] == InjectionFor(cfg, order, f);
    assert GeneratedLayout(cfg, order).slots[i] == SlotFor(order, f);
    SlotNameInLayout(cfg, order, f);
  }

  lemma {:induction false} InjectionsAgree(cfg: Config, order: seq<Field>, s: Runtime.State, k: nat)
    requires Sound(cfg, order) && k <= |order|
    requires Runtime.Valid(GeneratedLayout(cfg, order), s)
    ensures Runtime.WellFormed(GeneratedLayout(cfg, order))
    ensures RunInjections(Injections(cfg, order), s.values, s.fieldsToSet, s.result, k) == Runtime.InjectPrefix(GeneratedLayout(cfg, order), s, k)
  {
    GeneratedLayoutWellFormed(cfg, order);
    if k > 0 {
      var l := GeneratedLayout(cfg, order);
      var injs := Injections(cfg, order);
      InjectionsAgree(cfg, order, s, k - 1);
      var prev := Runtime.InjectPrefix(l, s, k - 1);
      InjectionStep(cfg, order, s, prev, k - 1);
      Runtime.InjectPrefixStep(l, s, k);
    }
  }

  /** The emitted `build()` (held-result start) is the runtime `build()`: each
      injection writes `(fieldName, declaring)` from its slot, guarded by tracking
      exactly under the sparse policy. */
  lemma EmittedBuildIsBuild(cfg: Config, order: seq<Field>, s: Runtime.State)
    requires Sound(cfg, order) && Runtime.Valid(GeneratedLayout(cfg, order), s)
    ensures Runtime.WellFormed(GeneratedLayout(cfg, order))
    ensures RunInjections(Injections(cfg, order), s.values, s.fieldsToSet, s.result, |order|) == Runtime.Build(GeneratedLayout(cfg, order), s)
  {
    InjectionsAgree(cfg, order, s, |order|);
  }

  /* ------------------------------------------------------------------------ */
  /*  startingFrom                                                            */
  /* ------------------------------------------------------------------------ */

  /** Runs the statements of a `startingFrom` body for a non-null instance `x`. */
  function RunStartStmts(cfg: Config, order: seq<Field>, body: seq<StartStmt>, s: Runtime.State, x: Runtime.Instance): Option<Runtime.State>
    requires NamedFields(order)
    decreases |body|
  {
    if body == [] then Some(s)
    else
      var next :=
        match body[0]
        case CallClear => RunCalls(Setters(cfg, order), ClearCalls(cfg, order), s, |order|)
        case EmptyTracking => Some(s.(fieldsToSet := {}))
        case Adopt => Some(s.(result := x));
      match next
      case None => None
      case Some(t) => RunStartStmts(cfg, order, body[1..], t, x)
  }

  /** `startingFrom(instance)`: ignored on `null`, otherwise the body. */
  function RunStartingFrom(cfg: Config, order: seq<Field>, body: seq<StartStmt>, s: Runtime.State,
                           instance: Option<Runtime.Instance>): Option<Runtime.State>
    requires NamedFields(order)
  {
    match instance
    case None => Some(s)
    case Some(x) => RunStartStmts(cfg, order, body, s, x)
  }

  /** The generated `startingFrom` is the clearing one of the runtime model. */
  lemma EmittedStartingFromIsClearing(cfg: Config, order: seq<Field>, s: Runtime.State, instance: Option<Runtime.Instance>)
    requires Sound(cfg, order) && Runtime.Valid(GeneratedLayout(cfg, order), s)
    ensures Runtime.WellFormed(GeneratedLayout(cfg, order))
    ensures RunStartingFrom(cfg, order, StartingFromBody(cfg), s, instance)
            == Some(Runtime.StartingFromClearing(GeneratedLayout(cfg, order), s, instance))
  {
    EmittedClearIsClear(cfg, order, s);
    if instance.Some? {
      var body := StartingFromBody(cfg);
      assert body[1..] == [Adopt] && body[1..][1..] == [];
    }
  }

  /** The hand-edited body `fieldsToSet.clear(); result = instance;` is the untracking
      one of the runtime model. */
  lemma EmptyTrackingStartingFromIsUntracking(cfg: Config, order: seq<Field>, s: Runtime.State, instance: Option<Runtime.Instance>)
    requires NamedFields(order) && Runtime.Valid(GeneratedLayout(cfg, order), s)
    ensures RunStartingFrom(cfg, order, [EmptyTracking, Adopt], s, instance)
            == Some(Runtime.StartingFromUntracking(GeneratedLayout(cfg, order), s, instance))
  {
    var body := [EmptyTracking, Adopt];
    assert body[1..] == [Adopt] && body[1..][1..] == [];
  }

  /* ------------------------------------------------------------------------ */
  /*  the reflective build start                                              */
  /* ------------------------------------------------------------------------ */

  /** `build()` as emitted when the default constructor is not accessible. The
      reflective start declares a local `_result_…` that shadows the field of the
      same name; `setField` writes into the field, and `return` reads the local.
      The result pairs the returned object with the builder state afterwards. */
  function RunReflectiveBuildAsWritten(cfg: Config, order: seq<Field>, s: Runtime.State, constructed: Runtime.Instance)
    : (Runtime.Instance, Runtime.State)
    requires NamedFields(order)
  {
    (constructed, s.(result := RunInjections(Injections(cfg, order), s.values, s.fieldsToSet, s.result, |order|)))
  }

  /** As written, a value passed to a setter never reaches the object `build()`
      returns: the freshly constructed object comes back untouched. */
  lemma ReflectiveBuildDropsSetterValue(cfg: Config, order: seq<Field>, s: Runtime.State, constructed: Runtime.Instance,
                                        f: Field, v: Runtime.Value)
    requires Sound(cfg, order) && f in order && Runtime.Valid(GeneratedLayout(cfg, order), s)
    requires Runtime.FieldKey(f.name, f.declaring) in constructed ==> constructed[Runtime.FieldKey(f.name, f.declaring)] != v
    ensures BName(order, f) in Runtime.Names(GeneratedLayout(cfg, order))
    ensures var t := Runtime.Set(GeneratedLayout(cfg, order), s, BName(order, f), v);
            var returned := RunReflectiveBuildAsWritten(cfg, order, t, constructed).0;
            && returned == constructed
            && (Runtime.FieldKey(f.name, f.declaring) !in returned || returned[Runtime.FieldKey(f.name, f.declaring)] != v)
  {
    SlotNameInLayout(cfg, order, f);
  }

  /** The evidently intended reflective `build()`: inject into the freshly
      constructed object and return it. */
  function RunReflectiveBuild(cfg: Config, order: seq<Field>, s: Runtime.State, constructed: Runtime.Instance): Runtime.Instance
    requires NamedFields(order)
  {
    RunInjections(Injections(cfg, order), s.values, s.fieldsToSet, constructed, |order|)
  }

  /** Corrected, it is the runtime `build()` on the constructed object. */
  lemma ReflectiveBuildIsBuild(cfg: Config, order: seq<Field>, s: Runtime.State, constructed: Runtime.Instance)
    requires Sound(cfg, order) && Runtime.Valid(GeneratedLayout(cfg, order), s)
    ensures Runtime.WellFormed(GeneratedLayout(cfg, order))
    ensures RunReflectiveBuild(cfg, order, s, constructed) == Runtime.Build(GeneratedLayout(cfg, order), s.(result := constructed))
  {
    EmittedBuildIsBuild(cfg, order, s.(result := constructed));
  }

  /** Setting a slot does not look at the held result. */
  lemma SetIgnoresResult(l: Runtime.Layout, s: Runtime.State, name: string, v: Runtime.Value, x: Runtime.Instance)
    requires Runtime.Valid(l, s) && name in Runtime.Names(l)
    ensures Runtime.Valid(l, s.(result := x))
    ensures Runtime.Set(l, s.(result := x), name, v) == Runtime.Set(l, s, name, v).(result := x)
  {
  }

  /** Corrected, a value passed to a setter reaches the returned object. */
  lemma ReflectiveBuildKeepsSetterValue(cfg: Config, order: seq<Field>, s: Runtime.State, constructed: Runtime.Instance,
                                        f: Field, v: Runtime.Value)
    requires Sound(cfg, order) && f in order && Runtime.Valid(GeneratedLayout(cfg, order), s)
    ensures BName(order, f) in Runtime.Names(GeneratedLayout(cfg, order))
    ensures var t := Runtime.Set(GeneratedLayout(cfg, order), s, BName(order, f), v);
            var r := RunReflectiveBuild(cfg, order, t, constructed);
            Runtime.FieldKey(f.name, f.declaring) in r && r[Runtime.FieldKey(f.name, f.declaring)] == v
  {
    var l := GeneratedLayout(cfg, order);
    GeneratedLayoutWellFormed(cfg, order);
    SlotNameInLayout(cfg, order, f);
    var i :| 0 <= i < |order| && order[i] == f;
    assert l.slots[i] == SlotFor(order, f);
    var t := Runtime.Set(l, s, BName(order, f), v);
    ReflectiveBuildIsBuild(cfg, order, t, constructed);
    SetIgnoresResult(l, s, BName(order, f), v, constructed);
    Runtime.SetThenBuild(l, s.(result := constructed), i, v);
  }
}
