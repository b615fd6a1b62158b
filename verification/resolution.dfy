/**
 Which emitted setter a call inside `clear()` or `_withDefaults()` invokes. All
 setters share the prefix-based names, so the generated code relies on Java overload
 resolution; the cast `(Simple) null` exists to keep those calls unambiguous.
 Resolution is modelled by exact parameter-type match, the null type matching every
 reference parameter.
 */
module Resolution {
  import opened Descriptors
  import opened Naming
  import opened Emission

  /** Whether a setter parameter accepts an argument of the given static type. */
  predicate Accepts(p: Param, a: ArgType)
  {
    match p
    case PrimParam(k) => a == PrimArg(k)
    case RefParam(s) => a == NullArg || a == RefArg(s)
  }

  /** The applicable setters for a call, in declaration order. */
  function Candidates(ds: seq<SetterDecl>, inv: Invocation): (cs: seq<SetterDecl>)
    ensures |cs| <= |ds|
  {
    if ds == [] then []
    else
      var rest := Candidates(ds[1..], inv);
      if ds[0].methodName == inv.methodName && Accepts(ds[0].param, ArgTypeOf(inv.arg)) then [ds[0]] + rest else rest
  }

  lemma {:induction false} CandidatesConcat(a: seq<SetterDecl>, b: seq<SetterDecl>, inv: Invocation)
    ensures Candidates(a + b, inv) == Candidates(a, inv) + Candidates(b, inv)
  {
    if a != [] {
      assert (a + b)[1..] == a[1..] + b;
      CandidatesConcat(a[1..], b, inv);
    } else {
      assert a + b == b;
    }
  }

  /** The side conditions under which every call resolves: distinct builder names,
      reference field types told apart by their simple names, and companion builders
      whose simple names are not those of field types. */
  predicate ResolutionReady(cfg: Config, order: seq<Field>)
  {
    && NamedFields(order)
    && NoDup(order)
    && InjectiveBuilderNames(order)
    && (forall i, j :: (0 <= i < |order| && 0 <= j < |order| && order[i].fieldType.Ref? && order[j].fieldType.Ref?
                         && order[i].fieldType.cls.simple == order[j].fieldType.cls.simple) ==>
                        order[i].fieldType == order[j].fieldType)
    && (forall t, i :: t in cfg.companions && 0 <= i < |order| && order[i].fieldType.Ref? ==>
          cfg.companions[t].simple != order[i].fieldType.cls.simple)
  }

  /** The argument types a call meant for `f` may have: the field's own type, or the
      null type where the setter name is not bare and there is no companion overload. */
  predicate ArgFits(cfg: Config, order: seq<Field>, f: Field, a: ArgType)
    requires NamedFields(order) && f in order
  {
    || a == ArgTypeOfType(f.fieldType)
    || (a == NullArg && f.fieldType.Ref? && !IsBare(cfg, order, f) && !HasCompanion(cfg.companions, f))
  }

  lemma SameRefSimpleSameType(cfg: Config, order: seq<Field>, f: Field, g: Field)
    requires ResolutionReady(cfg, order) && f in order && g in order
    requires f.fieldType.Ref? && g.fieldType.Ref? && f.fieldType.cls.simple == g.fieldType.cls.simple
    ensures f.fieldType == g.fieldType
  {
    var i :| 0 <= i < |order| && order[i] == f;
    var j :| 0 <= j < |order| && order[j] == g;
  }

  lemma CompanionNameApart(cfg: Config, order: seq<Field>, f: Field, t: TypeRef)
    requires ResolutionReady(cfg, order) && f in order && t in cfg.companions && f.fieldType.Ref?
    ensures cfg.companions[t].simple != f.fieldType.cls.simple
  {
    var i :| 0 <= i < |order| && order[i] == f;
  }

  /** Two distinct fields with bare setter names never share a type. */
  lemma BareSettersDifferInType(cfg: Config, order: seq<Field>, f: Field, g: Field)
    requires ResolutionReady(cfg, order) && f in order && g in order && f != g
    requires IsBare(cfg, order, f)
    ensures f.fieldType != g.fieldType
  {
    SetterNameRule(Policy(cfg), order, f);
  }

  /** The primary setter of another field never applies to a call meant for `f`. */
  lemma OtherPrimaryNotApplicable(cfg: Config, order: seq<Field>, f: Field, g: Field, inv: Invocation)
    requires ResolutionReady(cfg, order) && f in order && g in order && f != g
    requires inv.methodName == SName(cfg, order, f) && ArgFits(cfg, order, f, ArgTypeOf(inv.arg))
    ensures !(PrimarySetter(cfg, order, g).methodName == inv.methodName
              && Accepts(PrimarySetter(cfg, order, g).param, ArgTypeOf(inv.arg)))
  {
    if SName(cfg, order, g) == SName(cfg, order, f) && Accepts(ParamOf(g.fieldType), ArgTypeOf(inv.arg)) {
      if !IsBare(cfg, order, f) {
        BNameInjective(order, f, g);
        FullSetterNamesDistinct(Policy(cfg), order, f, g);
        assert false;
      } else {
        BareSettersDifferInType(cfg, order, f, g);
        if f.fieldType.Ref? && g.fieldType.Ref? {
          SameRefSimpleSameType(cfg, order, f, g);
        }
        assert false;
      }
    }
  }

  /** No companion overload applies to a call meant for `f`. */
  lemma CompanionNotApplicable(cfg: Config, order: seq<Field>, f: Field, g: Field, inv: Invocation)
    requires ResolutionReady(cfg, order) && f in order && g in order && HasCompanion(cfg.companions, g)
    requires inv.methodName == SName(cfg, order, f) && ArgFits(cfg, order, f, ArgTypeOf(inv.arg))
    ensures !(CompanionSetter(cfg, order, g).methodName == inv.methodName
              && Accepts(CompanionSetter(cfg, order, g).param, ArgTypeOf(inv.arg)))
  {
    var d := CompanionSetter(cfg, order, g);
    if d.methodName == inv.methodName && Accepts(d.param, ArgTypeOf(inv.arg)) {
      if ArgTypeOf(inv.arg) == NullArg {
        if f == g {
          assert false;
        } else {
          BNameInjective(order, f, g);
          FullSetterNamesDistinct(Policy(cfg), order, f, g);
          assert false;
        }
      } else {
        CompanionNameApart(cfg, order, f, g.fieldType);
        assert false;
      }
    }
  }

  /** Among the setters emitted for field `g`, a call meant for `f` applies to the
      primary setter of `f` when `g` is `f`, and to nothing otherwise. */
  lemma GroupCandidates(cfg: Config, order: seq<Field>, f: Field, g: Field, inv: Invocation)
    requires ResolutionReady(cfg, order) && f in order && g in order
    requires inv.methodName == SName(cfg, order, f) && ArgFits(cfg, order, f, ArgTypeOf(inv.arg))
    ensures Candidates(SettersFor(cfg, order, g), inv) == if g == f then [PrimarySetter(cfg, order, f)] else []
  {
    var p := PrimarySetter(cfg, order, g);
    if g != f {
      OtherPrimaryNotApplicable(cfg, order, f, g, inv);
    }
    if HasCompanion(cfg.companions, g) {
      var c := CompanionSetter(cfg, order, g);
      CompanionNotApplicable(cfg, order, f, g, inv);
      assert SettersFor(cfg, order, g) == [p, c];
      assert [p, c][1..] == [c];
      assert Candidates([c], inv) == [];
    } else {
      assert SettersFor(cfg, order, g) == [p];
    }
  }

  lemma {:induction false} CandidatesOfFields(cfg: Config, order: seq<Field>, fs: seq<Field>, f: Field, inv: Invocation)
    requires ResolutionReady(cfg, order) && f in order && NoDup(fs) && forall g :: g in fs ==> g in order
    requires inv.methodName == SName(cfg, order, f) && ArgFits(cfg, order, f, ArgTypeOf(inv.arg))
    ensures Candidates(SettersOf(cfg, order, fs), inv) == if f in fs then [PrimarySetter(cfg, order, f)] else []
  {
    if fs != [] {
      assert NoDup(fs[1..]) by {
        forall i, j | 0 <= i < j < |fs[1..]| ensures fs[1..][i] != fs[1..][j] {
          assert fs[1..][i] == fs[i + 1] && fs[1..][j] == fs[j + 1];
        }
      }
      assert forall g :: g in fs[1..] ==> g in fs;
      CandidatesOfFields(cfg, order, fs[1..], f, inv);
      GroupCandidates(cfg, order, f, fs[0], inv);
      CandidatesConcat(SettersFor(cfg, order, fs[0]), SettersOf(cfg, order, fs[1..]), inv);
      if fs[0] == f {
        assert f !in fs[1..];
      } else {
        assert f in fs <==> f in fs[1..];
      }
    }
  }

  /** Every call meant for `f` — its setter name, an argument that fits — resolves to
      exactly one setter: the primary setter of `f`. */
  lemma CallResolvesToOwnSetter(cfg: Config, order: seq<Field>, f: Field, inv: Invocation)
    requires ResolutionReady(cfg, order) && f in order
    requires inv.methodName == SName(cfg, order, f) && ArgFits(cfg, order, f, ArgTypeOf(inv.arg))
    ensures Candidates(Setters(cfg, order), inv) == [PrimarySetter(cfg, order, f)]
  {
    CandidatesOfFields(cfg, order, order, f, inv);
  }

  /** Each call of the emitted `clear()` resolves to the primary setter of its own
      field: the cast on `null` is exactly what bare and overloaded setters need. */
  lemma ClearCallResolves(cfg: Config, order: seq<Field>, f: Field)
    requires ResolutionReady(cfg, order) && f in order
    ensures Candidates(Setters(cfg, order), ClearCall(cfg, order, f)) == [PrimarySetter(cfg, order, f)]
  {
    var lit := ClearedValue(cfg, order, f);
    ReadLiteralRoundTrip(lit);
    CallResolvesToOwnSetter(cfg, order, f, ClearCall(cfg, order, f));
  }

  /** Each call of the emitted `_withDefaults()` resolves to the primary setter of its
      own field. */
  lemma DefaultsCallResolves(cfg: Config, order: seq<Field>, f: Field)
    requires ResolutionReady(cfg, order) && f in order
    ensures Candidates(Setters(cfg, order), DefaultsCall(cfg, order, f)) == [PrimarySetter(cfg, order, f)]
  {
    CallResolvesToOwnSetter(cfg, order, f, DefaultsCall(cfg, order, f));
  }
}
