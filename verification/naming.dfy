/**
 The naming maps built by `initializeFieldInfo()`: the builder-internal name of each
 collected field (`fieldToBuilderFieldName`) and the public setter name
 (`fieldToSetterMethodName`), plus the companion-builder test.
 */
module Naming {
  import opened Descriptors
  import opened Casing

  /** How many elements of `s` satisfy `p`: the `merge(key, 1, Integer::sum)` tallies. */
  function CountWhere<T>(s: seq<T>, p: T -> bool): nat
  {
    if s == [] then 0 else (if p(s[0]) then 1 else 0) + CountWhere(s[1..], p)
  }

  lemma {:induction false} CountWhereAtLeastOne<T>(s: seq<T>, p: T -> bool, i: nat)
    requires i < |s| && p(s[i])
    ensures CountWhere(s, p) >= 1
  {
    if i > 0 {
      CountWhereAtLeastOne(s[1..], p, i - 1);
    }
  }

  lemma {:induction false} CountWhereAtLeastTwo<T>(s: seq<T>, p: T -> bool, i: nat, j: nat)
    requires i < j < |s| && p(s[i]) && p(s[j])
    ensures CountWhere(s, p) >= 2
  {
    if i == 0 {
      CountWhereAtLeastOne(s[1..], p, j - 1);
    } else {
      CountWhereAtLeastTwo(s[1..], p, i - 1, j - 1);
    }
  }

  /** A count of two or more leaves, beside any one witness, a second one. */
  lemma {:induction false} CountWhereOtherWitness<T>(s: seq<T>, p: T -> bool, i: nat) returns (j: nat)
    requires i < |s| && p(s[i]) && CountWhere(s, p) >= 2
    ensures j < |s| && j != i && p(s[j])
  {
    if p(s[0]) && i != 0 {
      j := 0;
    } else if i == 0 {
      assert CountWhere(s[1..], p) >= 1;
      j := FirstWitness(s[1..], p);
      j := j + 1;
    } else {
      j := CountWhereOtherWitness(s[1..], p, i - 1);
      j := j + 1;
    }
  }

  lemma {:induction false} FirstWitness<T>(s: seq<T>, p: T -> bool) returns (j: nat)
    requires CountWhere(s, p) >= 1
    ensures j < |s| && p(s[j])
  {
    if p(s[0]) {
      j := 0;
    } else {
      j := FirstWitness(s[1..], p);
      j := j + 1;
    }
  }

  /** Number of collected fields called `name` (`duplicateIdentifierFor` is the name). */
  function CountName(fs: seq<Field>, name: string): nat
  {
    CountWhere(fs, (g: Field) => g.name == name)
  }

  /** Number of collected fields of type `t`. */
  function CountType(fs: seq<Field>, t: TypeRef): nat
  {
    CountWhere(fs, (g: Field) => g.fieldType == t)
  }

  /** Some other collected field has the same name as `f`. */
  ghost predicate SharesName(fs: seq<Field>, f: Field)
  {
    exists j :: 0 <= j < |fs| && fs[j] != f && fs[j].name == f.name
  }

  /** Some other collected field has the same type as `f`. */
  ghost predicate SharesType(fs: seq<Field>, f: Field)
  {
    exists j :: 0 <= j < |fs| && fs[j] != f && fs[j].fieldType == f.fieldType
  }

  /** The builder-internal name of `f`: the lower-cased field name, or, when the name
      occurs more than once, the lower-cased `name + "In" + DeclaringSimpleName`. */
  function BuilderFieldName(fs: seq<Field>, f: Field): (bn: string)
    requires f.name != ""
    ensures |bn| >= |f.name| && bn[1..|f.name|] == f.name[1..]
    ensures !IsUpper(bn[0])
  {
    if CountName(fs, f.name) > 1 then Lowercase(f.name + "In" + f.declaring.simple)
    else Lowercase(f.name)
  }

  lemma SharedIffCountAboveOne(fs: seq<Field>, f: Field, k: nat, p: Field -> bool)
    requires NoDup(fs) && k < |fs| && fs[k] == f && p(f)
    requires forall g :: p(g) <==> g.name == f.name
    ensures CountWhere(fs, p) > 1 <==> SharesName(fs, f)
  {
    if CountWhere(fs, p) > 1 {
      var j := CountWhereOtherWitness(fs, p, k);
      assert fs[j] != f;
    }
    if SharesName(fs, f) {
      var j :| 0 <= j < |fs| && fs[j] != f && fs[j].name == f.name;
      if j < k { CountWhereAtLeastTwo(fs, p, j, k); } else { CountWhereAtLeastTwo(fs, p, k, j); }
    }
  }

  lemma SharesTypeIffCountAboveOne(fs: seq<Field>, f: Field, k: nat, p: Field -> bool)
    requires NoDup(fs) && k < |fs| && fs[k] == f && p(f)
    requires forall g :: p(g) <==> g.fieldType == f.fieldType
    ensures CountWhere(fs, p) > 1 <==> SharesType(fs, f)
  {
    if CountWhere(fs, p) > 1 {
      var j := CountWhereOtherWitness(fs, p, k);
      assert fs[j] != f;
    }
    if SharesType(fs, f) {
      var j :| 0 <= j < |fs| && fs[j] != f && fs[j].fieldType == f.fieldType;
      if j < k { CountWhereAtLeastTwo(fs, p, j, k); } else { CountWhereAtLeastTwo(fs, p, k, j); }
    }
  }

  /** The disambiguation rule, both ways: a collected field gets the
      `nameIn<DeclaringClass>` form exactly when another collected field has its
      name, and keeps the lower-cased plain name exactly when none has. */
  lemma BuilderFieldNameRule(fs: seq<Field>, f: Field)
    requires NoDup(fs) && f in fs && f.name != ""
    ensures BuilderFieldName(fs, f) == Lowercase(f.name + "In" + f.declaring.simple) <==> SharesName(fs, f)
    ensures BuilderFieldName(fs, f) == Lowercase(f.name) <==> !SharesName(fs, f)
  {
    var k :| 0 <= k < |fs| && fs[k] == f;
    SharedIffCountAboveOne(fs, f, k, (g: Field) => g.name == f.name);
    assert |Lowercase(f.name + "In" + f.declaring.simple)| != |Lowercase(f.name)|;
  }

  /** Two collected fields with the same name, declared in classes with different
      simple names, get different builder names. */
  lemma SameNameDistinctBuilderNames(fs: seq<Field>, f: Field, g: Field)
    requires NoDup(fs) && f in fs && g in fs && f.name != ""
    requires f.name == g.name && f.declaring.simple != g.declaring.simple
    ensures BuilderFieldName(fs, f) != BuilderFieldName(fs, g)
  {
    BuilderFieldNameRule(fs, f);
    BuilderFieldNameRule(fs, g);
    assert SharesName(fs, f) by {
      var j :| 0 <= j < |fs| && fs[j] == g;
    }
    assert SharesName(fs, g) by {
      var j :| 0 <= j < |fs| && fs[j] == f;
    }
    var a := f.name + "In" + f.declaring.simple;
    var b := g.name + "In" + g.declaring.simple;
    assert Lowercase(a)[1..] == a[1..] && Lowercase(b)[1..] == b[1..];
    assert a[|f.name| + 2..] == f.declaring.simple;
    assert b[|g.name| + 2..] == g.declaring.simple;
  }

  /** Field names that follow the Java convention and never extend another field's
      name by "In": the side conditions under which disambiguation is injective. */
  predicate DisciplinedNames(fs: seq<Field>)
  {
    && (forall i :: 0 <= i < |fs| ==> fs[i].name != "" && !IsUpper(fs[i].name[0]))
    && (forall i, j :: 0 <= i < |fs| && 0 <= j < |fs| ==> !(fs[i].name + "In" <= fs[j].name))
    && (forall i, j :: 0 <= i < j < |fs| && fs[i].name == fs[j].name ==>
          fs[i].declaring.simple != fs[j].declaring.simple)
  }

  /** Builder names are pairwise distinct. */
  predicate InjectiveBuilderNames(fs: seq<Field>)
    requires NamedFields(fs)
  {
    forall i, j :: 0 <= i < j < |fs| ==> BuilderFieldName(fs, fs[i]) != BuilderFieldName(fs, fs[j])
  }

  /** The plain or disambiguated name, for a lower-initial field name, is the
      name itself or `name + "In" + simple` with no case change. */
  lemma BuilderFieldNameShape(fs: seq<Field>, f: Field)
    requires f.name != "" && !IsUpper(f.name[0])
    ensures CountName(fs, f.name) > 1 ==> BuilderFieldName(fs, f) == f.name + "In" + f.declaring.simple
    ensures CountName(fs, f.name) <= 1 ==> BuilderFieldName(fs, f) == f.name
  {
    var a := f.name + "In" + f.declaring.simple;
    assert a[0] == f.name[0];
  }

  lemma DistinctBuilderNamesPair(fs: seq<Field>, i: nat, j: nat)
    requires NoDup(fs) && DisciplinedNames(fs) && i < j < |fs|
    ensures BuilderFieldName(fs, fs[i]) != BuilderFieldName(fs, fs[j])
  {
    var f, g := fs[i], fs[j];
    var n, m := f.name, g.name;
    if n == m {
      SameNameDistinctBuilderNames(fs, f, g);
    } else {
      BuilderFieldNameShape(fs, f);
      BuilderFieldNameShape(fs, g);
      var bf, bg := BuilderFieldName(fs, f), BuilderFieldName(fs, g);
      if bf == bg {
        assert !(n + "In" <= m) && !(m + "In" <= n);
        var sf := CountName(fs, n) > 1;
        var sg := CountName(fs, m) > 1;
        if !sf && !sg {
          assert false;
        } else if sf && !sg {
          assert false;
        } else if !sf && sg {
          assert false;
        } else {
          DisambiguatedPrefixClash(n, f.declaring.simple, m, g.declaring.simple);
          assert false;
        }
      }
    }
  }

  lemma InfixAt(n: string, a: string)
    ensures (n + "In" + a)[|n|] == 'I' && (n + "In" + a)[|n| + 1] == 'n'
    ensures (n + "In" + a)[..|n|] == n
  {
  }

  /** Two disambiguated names can only coincide when one field name extends the
      other by "In" or the names are equal. */
  lemma DisambiguatedPrefixClash(n: string, a: string, m: string, b: string)
    requires n != m && n + "In" + a == m + "In" + b
    ensures n + "In" <= m || m + "In" <= n
  {
    var s := n + "In" + a;
    if |n| == |m| {
      InfixAt(n, a);
      InfixAt(m, b);
      assert false;
    } else if |n| < |m| {
      if |m| == |n| + 1 {
        InfixAt(n, a);
        InfixAt(m, b);
        assert false;
      } else {
        assert s[..|n| + 2] == n + "In";
        assert (m + "In" + b)[..|n| + 2] == m[..|n| + 2];
      }
    } else {
      if |n| == |m| + 1 {
        InfixAt(n, a);
        InfixAt(m, b);
        assert false;
      } else {
        assert (m + "In" + b)[..|m| + 2] == m + "In";
        assert s[..|m| + 2] == n[..|m| + 2];
      }
    }
  }

  /** Under the naming discipline, no two collected fields share a builder name. */
  lemma BuilderNamesInjective(fs: seq<Field>)
    requires NoDup(fs) && DisciplinedNames(fs)
    ensures NamedFields(fs) && InjectiveBuilderNames(fs)
  {
    forall i, j | 0 <= i < j < |fs|
      ensures BuilderFieldName(fs, fs[i]) != BuilderFieldName(fs, fs[j])
    {
      DistinctBuilderNamesPair(fs, i, j);
    }
  }

  /** Without the discipline, disambiguation is not injective: a field literally
      named `aInB` collides with field `a` of class `B`. */
  lemma FieldNamedLikeDisambiguatedNameCollides(b: ClassRef, c: ClassRef, d: ClassRef, t: TypeRef)
    requires b.simple == "B"
    ensures var fs := [Field("a", b, t), Field("a", c, t), Field("aInB", d, t)];
            BuilderFieldName(fs, fs[0]) == BuilderFieldName(fs, fs[2]) == "aInB"
  {
    var fs := [Field("a", b, t), Field("a", c, t), Field("aInB", d, t)];
    var pa := (g: Field) => g.name == "a";
    var pb := (g: Field) => g.name == "aInB";
    assert fs[1..] == [Field("a", c, t), Field("aInB", d, t)];
    assert fs[1..][1..] == [Field("aInB", d, t)];
    assert fs[1..][1..][1..] == [];
    assert CountWhere(fs[1..][1..], pa) == 0 && CountWhere(fs[1..][1..], pb) == 1;
    assert CountWhere(fs[1..], pa) == 1 && CountWhere(fs[1..], pb) == 1;
    assert CountName(fs, "a") == CountWhere(fs, pa) == 2;
    assert CountName(fs, "aInB") == CountWhere(fs, pb) == 1;
  }

  /** Nor is it injective across case: `Foo` and `foo` both become `foo`. */
  lemma LowercaseCollides(x: ClassRef, y: ClassRef, t: TypeRef)
    ensures var fs := [Field("Foo", x, t), Field("foo", y, t)];
            BuilderFieldName(fs, fs[0]) == BuilderFieldName(fs, fs[1]) == "foo"
  {
    var fs := [Field("Foo", x, t), Field("foo", y, t)];
    var pu := (g: Field) => g.name == "Foo";
    var pl := (g: Field) => g.name == "foo";
    assert fs[1..] == [Field("foo", y, t)];
    assert fs[1..][1..] == [];
    assert CountWhere(fs[1..], pu) == 0 && CountWhere(fs[1..], pl) == 1;
    assert CountName(fs, "Foo") == CountWhere(fs, pu) == 1;
    assert CountName(fs, "foo") == CountWhere(fs, pl) == 1;
  }

  /** The configuration the setter naming reads. */
  datatype NamingPolicy = NamingPolicy(omitUniqueTypes: bool, prefix: string)

  /** The public setter name of `f`: the bare prefix when omission is on and the
      type of `f` occurs once; otherwise prefix plus the capitalised builder name. */
  function SetterName(pol: NamingPolicy, fs: seq<Field>, f: Field): (m: string)
    requires f.name != ""
    ensures m == pol.prefix || m == pol.prefix + Capitalize(BuilderFieldName(fs, f))
  {
    var full := pol.prefix + Capitalize(BuilderFieldName(fs, f));
    if !pol.omitUniqueTypes then full
    else if CountType(fs, f.fieldType) > 1 then full
    else pol.prefix
  }

  /** The setter naming rule, both ways. Without omission every setter is
      prefix + capitalised builder name; with omission the name is exactly the bare
      prefix iff no other collected field has the same type. */
  lemma SetterNameRule(pol: NamingPolicy, fs: seq<Field>, f: Field)
    requires NoDup(fs) && f in fs && f.name != ""
    ensures var full := pol.prefix + Capitalize(BuilderFieldName(fs, f));
            && full != pol.prefix
            && (!pol.omitUniqueTypes ==> SetterName(pol, fs, f) == full)
            && (pol.omitUniqueTypes ==> (SetterName(pol, fs, f) == pol.prefix <==> !SharesType(fs, f)))
            && (pol.omitUniqueTypes ==> (SetterName(pol, fs, f) == full <==> SharesType(fs, f)))
  {
    var k :| 0 <= k < |fs| && fs[k] == f;
    SharesTypeIffCountAboveOne(fs, f, k, (g: Field) => g.fieldType == f.fieldType);
    var full := pol.prefix + Capitalize(BuilderFieldName(fs, f));
    assert |full| > |pol.prefix|;
  }

  /** Setters that are not bare are named apart exactly as their builder names are. */
  lemma FullSetterNamesDistinct(pol: NamingPolicy, fs: seq<Field>, f: Field, g: Field)
    requires f.name != "" && g.name != ""
    requires BuilderFieldName(fs, f) != BuilderFieldName(fs, g)
    requires SetterName(pol, fs, f) != pol.prefix && SetterName(pol, fs, g) != pol.prefix
    ensures SetterName(pol, fs, f) != SetterName(pol, fs, g)
  {
    var bf, bg := BuilderFieldName(fs, f), BuilderFieldName(fs, g);
    if SetterName(pol, fs, f) == SetterName(pol, fs, g) {
      assert (pol.prefix + Capitalize(bf))[|pol.prefix|..] == Capitalize(bf);
      assert (pol.prefix + Capitalize(bg))[|pol.prefix|..] == Capitalize(bg);
      CapitalizeInjective(bf, bg);
    }
  }

  /** A second, companion-builder setter overload exists for `f` exactly when its
      type is a key of the companion map. */
  predicate HasCompanion(companions: map<TypeRef, ClassRef>, f: Field)
  {
    f.fieldType in companions
  }
}
