/**
 The behaviour of an emitted builder at use time. A builder holds one slot per
 builder field, the `fieldsToSet` tracking set (sparse policy only) and the result
 object it injects into; its operations are state transitions.
 */
module Runtime {
  import opened Descriptors

  /** What `setField(fieldName, DeclaringClass.class, value)` addresses. */
  datatype FieldKey = FieldKey(name: string, declaring: ClassRef)

  /** Java values as far as the builders move them around. Floating-point values are
      only ever stored, never computed with. */
  datatype Value =
    | Null
    | BoolV(b: bool)
    | IntV(i: int)
    | CharV(c: char)
    | FloatV(r: real)
    | Text(s: string)
    | Opaque(id: nat)
    | Obj(fields: map<FieldKey, Value>)

  /** An object of the target type, as the map from its fields to their values. */
  type Instance = map<FieldKey, Value>

  /** The default value the JVM gives a field of type `t` (sections 2.3 and 2.4 of
      the Java Virtual Machine Specification). */
  function Zero(t: TypeRef): Value
  {
    match t
    case Prim(k) =>
      (match k
       case Boolean => BoolV(false)
       case Char => CharV(0 as char)
       case Float => FloatV(0.0)
       case Double => FloatV(0.0)
       case _ => IntV(0))
    case Ref(_) => Null
  }

  /** One builder field: its builder name, the target field it is injected into, and
      the zero-equivalent `clear()` stores in it. */
  datatype Slot = Slot(name: string, target: FieldKey, zero: Value)

  /** The static shape of a builder: its slots in emission order and whether it
      follows the sparse policy (inject only fields whose setter was called). */
  datatype Layout = Layout(slots: seq<Slot>, sparse: bool)

  /** Builder names are distinct, and so are the target fields they route to. */
  predicate WellFormed(l: Layout)
  {
    forall i, j :: 0 <= i < j < |l.slots| ==>
      l.slots[i].name != l.slots[j].name && l.slots[i].target != l.slots[j].target
  }

  function NamesUpTo(l: Layout, k: nat): set<string>
    requires k <= |l.slots|
  {
    set i | 0 <= i < k :: l.slots[i].name
  }

  /** One more slot adds its builder name. */
  lemma NamesUpToStep(l: Layout, j: nat)
    requires j < |l.slots|
    ensures NamesUpTo(l, j + 1) == NamesUpTo(l, j) + {l.slots[j].name}
    ensures l.slots[j].name in Names(l)
  {
    assert l.slots[j].name == l.slots[(j + 1) - 1].name;
  }

  function Names(l: Layout): set<string>
  {
    NamesUpTo(l, |l.slots|)
  }

  function Targets(l: Layout): set<FieldKey>
  {
    set i | 0 <= i < |l.slots| :: l.slots[i].target
  }

  /** A builder's mutable state: the slot values, the tracking set and the held result. */
  datatype State = State(values: map<string, Value>, fieldsToSet: set<string>, result: Instance)

  predicate Valid(l: Layout, s: State)
  {
    && s.values.Keys == Names(l)
    && s.fieldsToSet <= Names(l)
    && (!l.sparse ==> s.fieldsToSet == {})
  }

  /** `create()`: slots hold the JVM defaults, nothing is tracked, and the result is a
      freshly constructed target object. */
  function Create(l: Layout, initial: Instance): (s: State)
    requires WellFormed(l)
    ensures Valid(l, s) && s.fieldsToSet == {} && s.result == initial
    ensures forall i :: 0 <= i < |l.slots| ==> s.values[l.slots[i].name] == l.slots[i].zero
  {
    State(map i | 0 <= i < |l.slots| :: l.slots[i].name := l.slots[i].zero, {}, initial)
  }

  /** A generated setter `with…(value)`: store the value in the slot, track the
      builder name under the sparse policy, touch nothing else. */
  function Set(l: Layout, s: State, name: string, v: Value): (r: State)
    requires Valid(l, s) && name in Names(l)
    ensures Valid(l, r)
    ensures r.values[name] == v
    ensures forall n :: n in s.values && n != name ==> n in r.values && r.values[n] == s.values[n]
    ensures r.fieldsToSet == (if l.sparse then s.fieldsToSet + {name} else s.fieldsToSet)
    ensures r.result == s.result
  {
    s.(values := s.values[name := v],
       fieldsToSet := if l.sparse then s.fieldsToSet + {name} else s.fieldsToSet)
  }

  /** `clear()` after its first `k` setter calls: each called with its slot's zero. */
  function ClearPrefix(l: Layout, s: State, k: nat): (r: State)
    requires WellFormed(l) && Valid(l, s) && k <= |l.slots|
    ensures Valid(l, r) && r.result == s.result
  {
    if k == 0 then s
    else
      var j: nat := k - 1;
      var prev := ClearPrefix(l, s, j);
      NamesUpToStep(l, j);
      Set(l, prev, l.slots[j].name, l.slots[j].zero)
  }

  /** One more call of `clear()`. */
  lemma ClearPrefixStep(l: Layout, s: State, k: nat)
    requires WellFormed(l) && Valid(l, s) && 0 < k <= |l.slots|
    ensures l.slots[k - 1].name in Names(l)
    ensures ClearPrefix(l, s, k) == Set(l, ClearPrefix(l, s, k - 1), l.slots[k - 1].name, l.slots[k - 1].zero)
  {
    assert l.slots[k - 1].name in Names(l);
  }

  /** After `k` calls of `clear()` the first `k` slots hold their zeros and the rest
      are untouched: builder names are distinct, so no call overwrites another. */
  lemma {:induction false} ClearPrefixValues(l: Layout, s: State, k: nat)
    requires WellFormed(l) && Valid(l, s) && k <= |l.slots|
    ensures forall i :: 0 <= i < k ==> ClearPrefix(l, s, k).values[l.slots[i].name] == l.slots[i].zero
    ensures forall i :: k <= i < |l.slots| ==> ClearPrefix(l, s, k).values[l.slots[i].name] == s.values[l.slots[i].name]
    ensures ClearPrefix(l, s, k).fieldsToSet == s.fieldsToSet + (if l.sparse then NamesUpTo(l, k) else {})
  {
    if k > 0 {
      var j: nat := k - 1;
      ClearPrefixValues(l, s, j);
      NamesUpToStep(l, j);
      var prev := ClearPrefix(l, s, j);
      ClearPrefixStep(l, s, j + 1);
      var r := ClearPrefix(l, s, k);
      assert r == Set(l, prev, l.slots[j].name, l.slots[j].zero);
      forall i | 0 <= i < |l.slots| && i != j
        ensures r.values[l.slots[i].name] == prev.values[l.slots[i].name]
      {
        assert l.slots[i].name != l.slots[j].name;
      }
    }
  }

  /** `clear()`: every slot holds its zero-equivalent and, because it goes through the
      setters, every builder name ends up tracked. */
  function Clear(l: Layout, s: State): (r: State)
    requires WellFormed(l) && Valid(l, s)
    ensures Valid(l, r) && r.result == s.result
    ensures forall i :: 0 <= i < |l.slots| ==> r.values[l.slots[i].name] == l.slots[i].zero
    ensures r.fieldsToSet == (if l.sparse then Names(l) else {})
  {
    ClearPrefixValues(l, s, |l.slots|);
    ClearPrefix(l, s, |l.slots|)
  }

  /** `_withDefaults()` as generated, after its first `k` calls: each setter called
      with the slot's own current value. */
  function ResetPrefix(l: Layout, s: State, k: nat): (r: State)
    requires WellFormed(l) && Valid(l, s) && k <= |l.slots|
    ensures Valid(l, r) && r.result == s.result && r.values == s.values
    ensures r.fieldsToSet == s.fieldsToSet + (if l.sparse then NamesUpTo(l, k) else {})
  {
    if k == 0 then s
    else
      var j: nat := k - 1;
      var prev := ResetPrefix(l, s, j);
      NamesUpToStep(l, j);
      Set(l, prev, l.slots[j].name, prev.values[l.slots[j].name])
  }

  /** One more call of `_withDefaults()`. */
  lemma ResetPrefixStep(l: Layout, s: State, k: nat)
    requires WellFormed(l) && Valid(l, s) && 0 < k <= |l.slots|
    ensures l.slots[k - 1].name in Names(l)
    ensures var prev := ResetPrefix(l, s, k - 1);
            ResetPrefix(l, s, k) == Set(l, prev, l.slots[k - 1].name, prev.values[l.slots[k - 1].name])
  {
    assert l.slots[k - 1].name in Names(l);
  }

  /** The generated `_withDefaults()`: values unchanged, every field tracked. */
  function ResetAll(l: Layout, s: State): (r: State)
    requires WellFormed(l) && Valid(l, s)
    ensures Valid(l, r) && r.values == s.values && r.result == s.result
    ensures r.fieldsToSet == (if l.sparse then Names(l) else {})
  {
    ResetPrefix(l, s, |l.slots|)
  }

  /** `fieldsToSet.clear()`. */
  function Untrack(l: Layout, s: State): (r: State)
    requires Valid(l, s)
    ensures Valid(l, r) && r.values == s.values && r.result == s.result && r.fieldsToSet == {}
  {
    s.(fieldsToSet := {})
  }

  /** Whether slot `i` is injected by `build()`: always under the total policy, only
      when tracked under the sparse one. */
  predicate Injected(l: Layout, s: State, i: nat)
    requires i < |l.slots|
  {
    !l.sparse || l.slots[i].name in s.fieldsToSet
  }

  function WrittenUpTo(l: Layout, s: State, k: nat): set<FieldKey>
    requires k <= |l.slots|
  {
    set i | 0 <= i < k && Injected(l, s, i) :: l.slots[i].target
  }

  function Written(l: Layout, s: State): set<FieldKey>
  {
    WrittenUpTo(l, s, |l.slots|)
  }

  /** The result object after the first `k` injections of `build()`. */
  function InjectPrefix(l: Layout, s: State, k: nat): (r: Instance)
    requires WellFormed(l) && Valid(l, s) && k <= |l.slots|
    ensures r.Keys == s.result.Keys + WrittenUpTo(l, s, k)
    ensures forall i :: 0 <= i < k && Injected(l, s, i) ==> r[l.slots[i].target] == s.values[l.slots[i].name]
    ensures forall key :: key in s.result && key !in WrittenUpTo(l, s, k) ==> r[key] == s.result[key]
  {
    if k == 0 then s.result
    else
      var prev := InjectPrefix(l, s, k - 1);
      var sl := l.slots[k - 1];
      assert sl.name in Names(l);
      WrittenUpToStep(l, s, k);
      if Injected(l, s, k - 1) then prev[sl.target := s.values[sl.name]] else prev
  }

  /** One more injection of `build()`. */
  lemma InjectPrefixStep(l: Layout, s: State, k: nat)
    requires WellFormed(l) && Valid(l, s) && 0 < k <= |l.slots|
    ensures l.slots[k - 1].name in s.values
    ensures InjectPrefix(l, s, k) == if Injected(l, s, k - 1)
                                     then InjectPrefix(l, s, k - 1)[l.slots[k - 1].target := s.values[l.slots[k - 1].name]]
                                     else InjectPrefix(l, s, k - 1)
  {
    assert l.slots[k - 1].name in Names(l);
  }

  lemma WrittenUpToStep(l: Layout, s: State, k: nat)
    requires WellFormed(l) && 0 < k <= |l.slots|
    ensures WrittenUpTo(l, s, k) == WrittenUpTo(l, s, k - 1) + (if Injected(l, s, k - 1) then {l.slots[k - 1].target} else {})
    ensures forall i :: 0 <= i < k - 1 ==> l.slots[i].target != l.slots[k - 1].target
  {
  }

  /** `build()`: inject each slot whose guard holds into the held result and return
      it. Fields of the result no injected slot targets keep their values. */
  function Build(l: Layout, s: State): (r: Instance)
    requires WellFormed(l) && Valid(l, s)
    ensures r.Keys == s.result.Keys + Written(l, s)
    ensures forall i :: 0 <= i < |l.slots| && Injected(l, s, i) ==> r[l.slots[i].target] == s.values[l.slots[i].name]
    ensures forall key :: key in s.result && key !in Written(l, s) ==> r[key] == s.result[key]
  {
    InjectPrefix(l, s, |l.slots|)
  }

  /** An injected slot's value is in its target field of the built object. */
  lemma InjectedReachesTarget(l: Layout, s: State, i: nat)
    requires WellFormed(l) && Valid(l, s) && i < |l.slots| && Injected(l, s, i)
    ensures l.slots[i].target in Build(l, s) && Build(l, s)[l.slots[i].target] == s.values[l.slots[i].name]
  {
    assert l.slots[i].target in Written(l, s);
  }

  /** Fields of the held result that no slot targets survive `build()`. */
  lemma BuildKeepsNonTargets(l: Layout, s: State)
    requires WellFormed(l) && Valid(l, s)
    ensures forall key :: key in s.result && key !in Targets(l) ==> key in Build(l, s) && Build(l, s)[key] == s.result[key]
  {
    assert Written(l, s) <= Targets(l);
  }

  /** The builder after `build()`: the injections stay on the held result. */
  function AfterBuild(l: Layout, s: State): (r: State)
    requires WellFormed(l) && Valid(l, s)
    ensures Valid(l, r) && r.values == s.values && r.fieldsToSet == s.fieldsToSet
    ensures r.result == Build(l, s)
  {
    s.(result := Build(l, s))
  }

  /** Building again after `build()` gives the same object: the injections already
      sit on the held result. */
  lemma BuildAgainSameObject(l: Layout, s: State)
    requires WellFormed(l) && Valid(l, s)
    ensures Build(l, AfterBuild(l, s)) == Build(l, s)
  {
    BuildOverBuilt(l, s, AfterBuild(l, s));
  }

  /** `build()` over a held result that already carries the injections of the
      same builder fields gives that result back. */
  lemma BuildOverBuilt(l: Layout, s: State, t: State)
    requires WellFormed(l) && Valid(l, s) && Valid(l, t)
    requires t.values == s.values && t.fieldsToSet == s.fieldsToSet && t.result == Build(l, s)
    ensures Build(l, t) == Build(l, s)
  {
    var b, b2 := Build(l, s), Build(l, t);
    BuildOverBuiltKeys(l, s, t);
    forall key | key in b2 ensures b2[key] == b[key] {
      BuildOverBuiltAt(l, s, t, key);
    }
    SameKeysSameValues(b2, b);
  }

  /** Extensionality of instances. */
  lemma SameKeysSameValues(a: Instance, b: Instance)
    requires a.Keys == b.Keys && forall key :: key in a ==> a[key] == b[key]
    ensures a == b
  {
  }

  /** The key half of `BuildOverBuilt`: the same fields are written again. */
  lemma BuildOverBuiltKeys(l: Layout, s: State, t: State)
    requires WellFormed(l) && Valid(l, s) && Valid(l, t)
    requires t.values == s.values && t.fieldsToSet == s.fieldsToSet && t.result == Build(l, s)
    ensures Build(l, t).Keys == Build(l, s).Keys
  {
    assert Written(l, t) == Written(l, s);
  }

  /** The pointwise half of `BuildOverBuilt`. */
  lemma BuildOverBuiltAt(l: Layout, s: State, t: State, key: FieldKey)
    requires WellFormed(l) && Valid(l, s) && Valid(l, t)
    requires t.values == s.values && t.fieldsToSet == s.fieldsToSet && t.result == Build(l, s)
    requires key in Build(l, t)
    ensures key in Build(l, s) && Build(l, t)[key] == Build(l, s)[key]
  {
    assert Written(l, t) == Written(l, s);
    if key in Written(l, s) {
      WrittenIsInjectedTargets(l, s, key);
      var i :| 0 <= i < |l.slots| && Injected(l, s, i) && l.slots[i].target == key;
      assert Injected(l, t, i);
    }
  }

  /** The companion-builder overload `with…(XBuilder b)`: the primary setter applied
      to what `b.build()` returns. */
  function SetFromBuilder(l: Layout, s: State, name: string, companion: Layout, b: State): State
    requires Valid(l, s) && name in Names(l)
    requires WellFormed(companion) && Valid(companion, b)
  {
    Set(l, s, name, Obj(Build(companion, b)))
  }

  /** The generated `startingFrom(instance)`: no-op on `null`; otherwise `clear()`, then
      adopt the instance as the result. */
  function StartingFromClearing(l: Layout, s: State, instance: Option<Instance>): (r: State)
    requires WellFormed(l) && Valid(l, s)
    ensures Valid(l, r)
  {
    match instance
    case None => s
    case Some(x) => Clear(l, s).(result := x)
  }

  /** The older `startingFrom(instance)`: no-op on `null`; otherwise empty the tracking
      set, then adopt the instance. */
  function StartingFromUntracking(l: Layout, s: State, instance: Option<Instance>): (r: State)
    requires Valid(l, s)
    ensures Valid(l, r)
  {
    match instance
    case None => s
    case Some(x) => s.(fieldsToSet := {}, result := x)
  }

  /** A setter call in a chain: builder name and argument. */
  datatype Call = Call(name: string, arg: Value)

  predicate CallsKnown(l: Layout, calls: seq<Call>)
  {
    forall j :: 0 <= j < |calls| ==> calls[j].name in Names(l)
  }

  function CallNames(calls: seq<Call>): set<string>
  {
    set j | 0 <= j < |calls| :: calls[j].name
  }

  /** The argument of the last call to `name` in the chain. */
  function LastArg(calls: seq<Call>, name: string): Value
    requires name in CallNames(calls)
  {
    var k := |calls| - 1;
    if calls[k].name == name then calls[k].arg
    else
      assert name in CallNames(calls[..k]) by {
        var j :| 0 <= j < |calls| && calls[j].name == name;
        assert calls[..k][j] == calls[j];
      }
      LastArg(calls[..k], name)
  }

  /** In a chain that calls every setter at most once, each call's argument is the
      one that sticks. */
  lemma {:induction false} LastArgOfDistinct(calls: seq<Call>, j: nat)
    requires j < |calls|
    requires forall a, b :: 0 <= a < b < |calls| ==> calls[a].name != calls[b].name
    ensures calls[j].name in CallNames(calls) && LastArg(calls, calls[j].name) == calls[j].arg
  {
    var k := |calls| - 1;
    if j < k {
      var pre := calls[..k];
      assert pre[j] == calls[j];
      assert forall a, b :: 0 <= a < b < |pre| ==> pre[a].name != pre[b].name by {
        forall a, b | 0 <= a < b < |pre| ensures pre[a].name != pre[b].name {
          assert pre[a] == calls[a] && pre[b] == calls[b];
        }
      }
      LastArgOfDistinct(pre, j);
      assert calls[k].name != calls[j].name;
    }
  }

  /** A chain of setter calls, applied left to right. */
  function SetAll(l: Layout, s: State, calls: seq<Call>): (r: State)
    requires Valid(l, s) && CallsKnown(l, calls)
    ensures Valid(l, r) && r.result == s.result
    ensures r.fieldsToSet == s.fieldsToSet + (if l.sparse then CallNames(calls) else {})
    ensures forall n :: n in CallNames(calls) ==> r.values[n] == LastArg(calls, n)
    ensures forall n :: n in s.values && n !in CallNames(calls) ==> r.values[n] == s.values[n]
  {
    if calls == [] then s
    else
      var k := |calls| - 1;
      assert CallsKnown(l, calls[..k]);
      assert CallNames(calls) == CallNames(calls[..k]) + {calls[k].name} by {
        forall n | n in CallNames(calls) ensures n in CallNames(calls[..k]) + {calls[k].name} {
          var j :| 0 <= j < |calls| && calls[j].name == n;
          if j < k { assert calls[..k][j] == calls[j]; }
        }
      }
      Set(l, SetAll(l, s, calls[..k]), calls[k].name, calls[k].arg)
  }

  /** Calling the same setter twice keeps the last value; the tracking set records
      the builder name once. */
  lemma RepeatedSetKeepsLast(l: Layout, s: State, name: string, v1: Value, v2: Value)
    requires Valid(l, s) && name in Names(l)
    ensures Set(l, Set(l, s, name, v1), name, v2) == Set(l, s, name, v2)
  {
  }

  /** Setters for different builder fields commute. */
  lemma SettersCommute(l: Layout, s: State, m: string, n: string, v: Value, w: Value)
    requires Valid(l, s) && m in Names(l) && n in Names(l) && m != n
    ensures Set(l, Set(l, s, m, v), n, w) == Set(l, Set(l, s, n, w), m, v)
  {
    assert s.values[m := v][n := w] == s.values[n := w][m := v];
  }

  /** The written keys are exactly the targets of the injected slots. */
  lemma WrittenIsInjectedTargets(l: Layout, s: State, key: FieldKey)
    ensures key in Written(l, s) <==> exists i :: 0 <= i < |l.slots| && Injected(l, s, i) && l.slots[i].target == key
  {
  }

  /** Under the sparse policy, a builder with nothing tracked builds its held result
      unchanged. */
  lemma UntrackedBuildKeepsResult(l: Layout, s: State)
    requires WellFormed(l) && Valid(l, s) && l.sparse && s.fieldsToSet == {}
    ensures Build(l, s) == s.result
  {
    assert Written(l, s) == {};
  }

  /** A setter's value reaches its target field on `build()`. */
  lemma SetThenBuild(l: Layout, s: State, i: nat, v: Value)
    requires WellFormed(l) && Valid(l, s) && i < |l.slots|
    ensures Build(l, Set(l, s, l.slots[i].name, v))[l.slots[i].target] == v
  {
    assert l.slots[i].name in Names(l);
    var t := Set(l, s, l.slots[i].name, v);
    assert Injected(l, t, i);
  }

  /** `build()` after `clear()`: every target field holds its zero-equivalent, whatever
      the policy, and every other field of the held result is untouched. */
  lemma ClearThenBuild(l: Layout, s: State)
    requires WellFormed(l) && Valid(l, s)
    ensures var r := Build(l, Clear(l, s));
            && r.Keys == s.result.Keys + Targets(l)
            && (forall i :: 0 <= i < |l.slots| ==> r[l.slots[i].target] == l.slots[i].zero)
            && (forall key :: key in s.result && key !in Targets(l) ==> r[key] == s.result[key])
  {
    var c := Clear(l, s);
    forall i | 0 <= i < |l.slots| ensures Injected(l, c, i) {
      assert l.slots[i].name in Names(l);
    }
    assert Written(l, c) == Targets(l);
  }

  /** The generated `startingFrom(x)` followed by `build()` overwrites every target
      field of `x` with its zero-equivalent: the seeded values are lost. */
  lemma StartingFromClearingThenBuild(l: Layout, s: State, x: Instance)
    requires WellFormed(l) && Valid(l, s)
    ensures var r := Build(l, StartingFromClearing(l, s, Some(x)));
            && r.Keys == x.Keys + Targets(l)
            && (forall i :: 0 <= i < |l.slots| ==> r[l.slots[i].target] == l.slots[i].zero)
            && (forall key :: key in x && key !in Targets(l) ==> r[key] == x[key])
  {
    var c := Clear(l, s).(result := x);
    assert Valid(l, c);
    forall i | 0 <= i < |l.slots| ensures Injected(l, c, i) {
      assert l.slots[i].name in Names(l);
    }
    assert Written(l, c) == Targets(l);
  }

  /** Hence the object `build()` gives back differs from the seed as it was passed
      whenever the seed held anything but a zero-equivalent in a target field: the
      seed's routed fields are zeroed. The model compares values; in the generated
      code the builder holds the caller's own object, so the zeroing happens to
      that object in place. */
  lemma StartingFromClearingLosesSeed(l: Layout, s: State, x: Instance, i: nat)
    requires WellFormed(l) && Valid(l, s) && i < |l.slots|
    requires l.slots[i].target in x && x[l.slots[i].target] != l.slots[i].zero
    ensures Build(l, StartingFromClearing(l, s, Some(x))) != x
  {
    StartingFromClearingThenBuild(l, s, x);
  }

  /** The older `startingFrom(x)` followed by `build()` returns `x` unchanged under the
      sparse policy. */
  lemma StartingFromUntrackingThenBuild(l: Layout, s: State, x: Instance)
    requires WellFormed(l) && Valid(l, s) && l.sparse
    ensures Build(l, StartingFromUntracking(l, s, Some(x))) == x
  {
    UntrackedBuildKeepsResult(l, StartingFromUntracking(l, s, Some(x)));
  }

  /** The sparse-policy promise: seed from `x`, call some setters, build. Exactly the
      target fields of the called setters change, each to the last value passed. */
  lemma SeededSparseBuild(l: Layout, s: State, x: Instance, calls: seq<Call>)
    requires WellFormed(l) && Valid(l, s) && l.sparse && CallsKnown(l, calls)
    ensures var t := SetAll(l, StartingFromUntracking(l, s, Some(x)), calls);
            var r := Build(l, t);
            && (forall i :: 0 <= i < |l.slots| && l.slots[i].name in CallNames(calls) ==>
                  r[l.slots[i].target] == LastArg(calls, l.slots[i].name))
            && (forall i :: 0 <= i < |l.slots| && l.slots[i].name !in CallNames(calls) && l.slots[i].target in x ==>
                  r[l.slots[i].target] == x[l.slots[i].target])
            && (forall key :: key in x && key !in Targets(l) ==> r[key] == x[key])
  {
    var u := StartingFromUntracking(l, s, Some(x));
    assert u.fieldsToSet == {} && u.result == x;
    var t := SetAll(l, u, calls);
    assert t.fieldsToSet == CallNames(calls) && t.result == x;
    var r := Build(l, t);
    forall i | 0 <= i < |l.slots| && l.slots[i].name in CallNames(calls)
      ensures r[l.slots[i].target] == LastArg(calls, l.slots[i].name)
    {
      assert Injected(l, t, i);
    }
    forall i | 0 <= i < |l.slots| && l.slots[i].name !in CallNames(calls) && l.slots[i].target in x
      ensures r[l.slots[i].target] == x[l.slots[i].target]
    {
      NotInjectedNotWritten(l, t, i);
    }
    forall key | key in x && key !in Targets(l)
      ensures r[key] == x[key]
    {
      assert key !in Written(l, t);
    }
  }

  /** The same promise from a fresh builder: `create()`, some setters, `build()`. */
  lemma FreshChainBuild(l: Layout, x: Instance, calls: seq<Call>)
    requires WellFormed(l) && l.sparse && CallsKnown(l, calls)
    ensures var r := Build(l, SetAll(l, Create(l, x), calls));
            && (forall i :: 0 <= i < |l.slots| && l.slots[i].name in CallNames(calls) ==>
                  r[l.slots[i].target] == LastArg(calls, l.slots[i].name))
            && (forall i :: 0 <= i < |l.slots| && l.slots[i].name !in CallNames(calls) && l.slots[i].target in x ==>
                  r[l.slots[i].target] == x[l.slots[i].target])
            && (forall key :: key in x && key !in Targets(l) ==> r[key] == x[key])
  {
    var c := Create(l, x);
    assert StartingFromUntracking(l, c, Some(x)) == c;
    SeededSparseBuild(l, c, x, calls);
  }

  /** The generated `_withDefaults()` is a placeholder that does not yet make the
      calls before it ineffective, as its note describes; it keeps them: after
      `create()`, some setters and `_withDefaults()`, `build()` writes the last argument of each called setter and the JVM default
      into every other target field. */
  lemma DefaultsKeepEarlierCalls(l: Layout, x: Instance, calls: seq<Call>)
    requires WellFormed(l) && CallsKnown(l, calls)
    ensures var r := Build(l, ResetAll(l, SetAll(l, Create(l, x), calls)));
            forall i :: 0 <= i < |l.slots| ==>
              r[l.slots[i].target] == if l.slots[i].name in CallNames(calls) then LastArg(calls, l.slots[i].name) else l.slots[i].zero
  {
    var t := ResetAll(l, SetAll(l, Create(l, x), calls));
    forall i | 0 <= i < |l.slots| ensures Injected(l, t, i) {
      assert l.slots[i].name in Names(l);
    }
  }

  /** A slot whose guard fails leaves its target field alone. */
  lemma NotInjectedNotWritten(l: Layout, s: State, i: nat)
    requires WellFormed(l) && i < |l.slots| && !Injected(l, s, i)
    ensures l.slots[i].target !in Written(l, s)
  {
    forall j | 0 <= j < |l.slots| && Injected(l, s, j)
      ensures l.slots[j].target != l.slots[i].target
    {
      assert j != i;
    }
  }

  /** A fresh builder writes nothing: under the sparse policy `build()` returns the
      freshly constructed object. */
  lemma FreshBuildIsDefault(l: Layout, initial: Instance)
    requires WellFormed(l) && l.sparse
    ensures Build(l, Create(l, initial)) == initial
  {
    UntrackedBuildKeepsResult(l, Create(l, initial));
  }
}
