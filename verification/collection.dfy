/**
 Field collection (`fields()`): walk the superclass chain from the target class to
 the root and gather the declared fields of every level that is neither ignored nor
 the direct superclass of the configured upper bound.
 */
module Collection {
  import opened Descriptors

  /** `UPPER_BOUND_OF_HIERARCHY`: `null`, or a class together with what its
      `getSuperclass()` returns (`None` for `Object`). The bound need not lie on
      the chain. */
  datatype UpperBound = Unbounded | Bound(cls: ClassRef, superclass: Option<ClassRef>)

  /** The one class the bound removes: the bound's direct superclass. */
  predicate DroppedByBound(bound: UpperBound, c: ClassRef)
  {
    bound.Bound? && bound.superclass == Some(c)
  }

  /** The per-level test of the collection loop. */
  predicate InScope(bound: UpperBound, ignored: set<ClassRef>, c: ClassRef)
  {
    !DroppedByBound(bound, c) && c !in ignored
  }

  /** Reference definition: `f` is declared by some in-scope level of the chain. */
  ghost predicate CollectedBySomeLevel(chain: seq<ClassDecl>, bound: UpperBound, ignored: set<ClassRef>, f: Field)
  {
    exists i :: 0 <= i < |chain| && InScope(bound, ignored, chain[i].cls) && f in chain[i].declared
  }

  /** The collected fields, level by level from the target class upwards. The
      source keeps them in a `HashSet`; the sequence claims no iteration order. */
  function Collect(chain: seq<ClassDecl>, bound: UpperBound, ignored: set<ClassRef>): (fs: seq<Field>)
    ensures forall f :: f in fs <==> CollectedBySomeLevel(chain, bound, ignored, f)
  {
    if chain == [] then []
    else
      var here := if InScope(bound, ignored, chain[0].cls) then chain[0].declared else [];
      var above := Collect(chain[1..], bound, ignored);
      assert forall f :: CollectedBySomeLevel(chain[1..], bound, ignored, f) ==> CollectedBySomeLevel(chain, bound, ignored, f) by {
        forall f | CollectedBySomeLevel(chain[1..], bound, ignored, f)
          ensures CollectedBySomeLevel(chain, bound, ignored, f)
        {
          var i :| 0 <= i < |chain[1..]| && InScope(bound, ignored, chain[1..][i].cls) && f in chain[1..][i].declared;
          assert chain[i + 1] == chain[1..][i];
        }
      }
      assert forall f :: CollectedBySomeLevel(chain, bound, ignored, f) ==> f in here || CollectedBySomeLevel(chain[1..], bound, ignored, f) by {
        forall f | CollectedBySomeLevel(chain, bound, ignored, f)
          ensures f in here || CollectedBySomeLevel(chain[1..], bound, ignored, f)
        {
          var i :| 0 <= i < |chain| && InScope(bound, ignored, chain[i].cls) && f in chain[i].declared;
          if i > 0 {
            assert chain[1..][i - 1] == chain[i];
          }
        }
      }
      here + above
  }

  lemma NoDupConcat<T>(a: seq<T>, b: seq<T>)
    requires NoDup(a) && NoDup(b)
    requires forall x :: x in a ==> x !in b
    ensures NoDup(a + b)
  {
    forall i, j | 0 <= i < j < |a + b|
      ensures (a + b)[i] != (a + b)[j]
    {
      if j < |a| {
      } else if i >= |a| {
        assert (a + b)[i] == b[i - |a|] && (a + b)[j] == b[j - |a|];
      } else {
        assert (a + b)[i] in a && (a + b)[j] in b;
      }
    }
  }

  /** A collected field is declared by the class it names as its declaring class. */
  lemma CollectedDeclaringLevel(chain: seq<ClassDecl>, bound: UpperBound, ignored: set<ClassRef>, f: Field) returns (i: nat)
    requires WellFormedChain(chain)
    requires f in Collect(chain, bound, ignored)
    ensures i < |chain| && chain[i].cls == f.declaring && f in chain[i].declared
    ensures InScope(bound, ignored, f.declaring)
  {
    i :| 0 <= i < |chain| && InScope(bound, ignored, chain[i].cls) && f in chain[i].declared;
    var k :| 0 <= k < |chain[i].declared| && chain[i].declared[k] == f;
  }

  /** No field is collected twice: distinct levels declare distinct fields. */
  lemma {:induction false} CollectNoDup(chain: seq<ClassDecl>, bound: UpperBound, ignored: set<ClassRef>)
    requires WellFormedChain(chain)
    ensures NoDup(Collect(chain, bound, ignored))
    ensures NamedFields(Collect(chain, bound, ignored))
  {
    if chain != [] {
      var here := if InScope(bound, ignored, chain[0].cls) then chain[0].declared else [];
      var above := Collect(chain[1..], bound, ignored);
      assert WellFormedChain(chain[1..]) by {
        forall i, j | 0 <= i < j < |chain[1..]| ensures chain[1..][i].cls != chain[1..][j].cls {
          assert chain[1..][i] == chain[i + 1] && chain[1..][j] == chain[j + 1];
        }
        forall i | 0 <= i < |chain[1..]| ensures WellFormedDecl(chain[1..][i]) {
          assert chain[1..][i] == chain[i + 1];
        }
      }
      CollectNoDup(chain[1..], bound, ignored);
      assert WellFormedDecl(chain[0]);
      forall f | f in here ensures f !in above {
        var k :| 0 <= k < |here| && here[k] == f;
        assert f.declaring == chain[0].cls;
        if f in above {
          var i := CollectedDeclaringLevel(chain[1..], bound, ignored, f);
          assert false;
        }
      }
      NoDupConcat(here, above);
      assert Collect(chain, bound, ignored) == here + above;
      forall i | 0 <= i < |here + above| ensures (here + above)[i].name != "" {
        if i >= |here| {
          assert (here + above)[i] == above[i - |here|];
        }
      }
    }
  }

  /** With no bound, or a bound whose superclass is `null` (the bound is `Object`),
      only the ignored classes are removed. */
  lemma {:induction false} RootBoundRemovesOnlyIgnored(chain: seq<ClassDecl>, bound: UpperBound, ignored: set<ClassRef>)
    requires bound.Unbounded? || bound.superclass.None?
    ensures Collect(chain, bound, ignored) == Collect(chain, Unbounded, ignored)
  {
    if chain != [] {
      RootBoundRemovesOnlyIgnored(chain[1..], bound, ignored);
    }
  }

  /** The bound removes at most one hierarchy level and nothing else: a field of the
      unbounded collection is missing from the bounded one exactly when its
      declaring class is the bound's direct superclass. */
  lemma BoundRemovesOnlyItsSuperclass(chain: seq<ClassDecl>, bound: UpperBound, ignored: set<ClassRef>)
    requires WellFormedChain(chain)
    ensures forall f :: f in Collect(chain, bound, ignored) ==> f in Collect(chain, Unbounded, ignored)
    ensures forall f :: f in Collect(chain, Unbounded, ignored) ==>
              (f !in Collect(chain, bound, ignored) <==> DroppedByBound(bound, f.declaring))
  {
    forall f | f in Collect(chain, Unbounded, ignored)
      ensures f !in Collect(chain, bound, ignored) <==> DroppedByBound(bound, f.declaring)
    {
      var i := CollectedDeclaringLevel(chain, Unbounded, ignored, f);
      if !DroppedByBound(bound, f.declaring) {
        assert InScope(bound, ignored, chain[i].cls);
      } else if f in Collect(chain, bound, ignored) {
        var j := CollectedDeclaringLevel(chain, bound, ignored, f);
      }
    }
  }

  /** Contrary to the promise "up to this upper bound, inclusive": when the bound is
      a proper ancestor on the chain, every non-ignored level more than one step
      above it is still collected. */
  lemma LevelsAboveBoundSuperclassCollected(chain: seq<ClassDecl>, bound: UpperBound, ignored: set<ClassRef>, b: nat, j: nat)
    requires WellFormedChain(chain)
    requires b + 1 < j < |chain|
    requires bound == Bound(chain[b].cls, Some(chain[b + 1].cls))
    requires chain[j].cls !in ignored
    ensures forall f :: f in chain[j].declared ==> f in Collect(chain, bound, ignored)
  {
    assert chain[j].cls != chain[b + 1].cls;
    assert InScope(bound, ignored, chain[j].cls);
  }

  /** Contrary to the promise that a bound which is not an ancestor includes the
      whole hierarchy: if that bound's superclass lies on the chain, the fields of
      that level are not collected. */
  lemma NonAncestorBoundDropsItsSuperclass(chain: seq<ClassDecl>, bound: UpperBound, ignored: set<ClassRef>, k: nat)
    requires WellFormedChain(chain)
    requires k < |chain|
    requires bound.Bound? && bound.superclass == Some(chain[k].cls)
    requires forall i :: 0 <= i < |chain| ==> chain[i].cls != bound.cls
    ensures forall f :: f in chain[k].declared ==> f !in Collect(chain, bound, ignored)
  {
    forall f | f in chain[k].declared ensures f !in Collect(chain, bound, ignored) {
      assert WellFormedDecl(chain[k]);
      var n :| 0 <= n < |chain[k].declared| && chain[k].declared[n] == f;
      if f in Collect(chain, bound, ignored) {
        var i := CollectedDeclaringLevel(chain, bound, ignored, f);
      }
    }
  }

  /** A collected field is identified by its name and declaring class, the pair
      `setField` addresses. */
  lemma CollectedKeyIdentifies(chain: seq<ClassDecl>, bound: UpperBound, ignored: set<ClassRef>, f: Field, g: Field)
    requires WellFormedChain(chain)
    requires f in Collect(chain, bound, ignored) && g in Collect(chain, bound, ignored)
    requires f.name == g.name && f.declaring == g.declaring
    ensures f == g
  {
    var i := CollectedDeclaringLevel(chain, bound, ignored, f);
    var j := CollectedDeclaringLevel(chain, bound, ignored, g);
    assert i == j;
    var d := chain[i].declared;
    assert WellFormedDecl(chain[i]);
    var a :| 0 <= a < |d| && d[a] == f;
    var b :| 0 <= b < |d| && d[b] == g;
  }

  /** Level `i` lies within the bound: no level below it is the bound itself. */
  predicate NotPastBound(chain: seq<ClassDecl>, bound: UpperBound, i: nat)
    requires i <= |chain|
  {
    bound.Unbounded? || forall j :: 0 <= j < i ==> chain[j].cls != bound.cls
  }

  /** Reference definition of the documented collection: `f` is declared by a
      non-ignored level at or below the bound. */
  ghost predicate CollectedWithinBound(chain: seq<ClassDecl>, bound: UpperBound, ignored: set<ClassRef>, f: Field)
  {
    exists i :: 0 <= i < |chain| && NotPastBound(chain, bound, i) && chain[i].cls !in ignored && f in chain[i].declared
  }

  /** The collection the upper bound's documentation describes: walk up from the
      target class and stop after the bound, inclusive; a bound that is not on the
      chain (`null`, or not an ancestor) lets the walk reach the root. */
  function CollectUpToBound(chain: seq<ClassDecl>, bound: UpperBound, ignored: set<ClassRef>): seq<Field>
  {
    if chain == [] then []
    else
      var here := if chain[0].cls in ignored then [] else chain[0].declared;
      if bound.Bound? && chain[0].cls == bound.cls then here
      else here + CollectUpToBound(chain[1..], bound, ignored)
  }

  lemma {:induction false} CollectUpToBoundContents(chain: seq<ClassDecl>, bound: UpperBound, ignored: set<ClassRef>)
    ensures forall f :: f in CollectUpToBound(chain, bound, ignored) <==> CollectedWithinBound(chain, bound, ignored, f)
  {
    if chain != [] {
      var here := if chain[0].cls in ignored then [] else chain[0].declared;
      var rest := chain[1..];
      assert NotPastBound(chain, bound, 0);
      if bound.Bound? && chain[0].cls == bound.cls {
        forall f ensures f in here <==> CollectedWithinBound(chain, bound, ignored, f) {
          if CollectedWithinBound(chain, bound, ignored, f) {
            var i :| 0 <= i < |chain| && NotPastBound(chain, bound, i) && chain[i].cls !in ignored && f in chain[i].declared;
            assert i == 0;
          }
        }
      } else {
        CollectUpToBoundContents(rest, bound, ignored);
        forall f ensures f in here + CollectUpToBound(rest, bound, ignored) <==> CollectedWithinBound(chain, bound, ignored, f) {
          if f in CollectUpToBound(rest, bound, ignored) {
            var i :| 0 <= i < |rest| && NotPastBound(rest, bound, i) && rest[i].cls !in ignored && f in rest[i].declared;
            assert chain[i + 1] == rest[i];
            assert NotPastBound(chain, bound, i + 1) by {
              if bound.Bound? {
                forall j | 0 <= j < i + 1 ensures chain[j].cls != bound.cls {
                  if j > 0 {
                    assert chain[j] == rest[j - 1];
                  }
                }
              }
            }
          }
          if CollectedWithinBound(chain, bound, ignored, f) {
            var i :| 0 <= i < |chain| && NotPastBound(chain, bound, i) && chain[i].cls !in ignored && f in chain[i].declared;
            if i > 0 {
              assert rest[i - 1] == chain[i];
              assert NotPastBound(rest, bound, i - 1) by {
                if bound.Bound? {
                  forall j | 0 <= j < i - 1 ensures rest[j].cls != bound.cls {
                    assert rest[j] == chain[j + 1];
                  }
                }
              }
            }
          }
        }
      }
    }
  }

  /** Corrected, a bound on the chain keeps every non-ignored level up to and
      including itself and nothing above it. */
  lemma UpToBoundStopsAtBound(chain: seq<ClassDecl>, bound: UpperBound, ignored: set<ClassRef>, b: nat, j: nat)
    requires WellFormedChain(chain)
    requires b < |chain| && j < |chain| && bound.Bound? && chain[b].cls == bound.cls
    ensures j <= b && chain[j].cls !in ignored ==>
              forall f :: f in chain[j].declared ==> f in CollectUpToBound(chain, bound, ignored)
    ensures b < j ==> forall f :: f in chain[j].declared ==> f !in CollectUpToBound(chain, bound, ignored)
  {
    CollectUpToBoundContents(chain, bound, ignored);
    if j <= b && chain[j].cls !in ignored {
      assert NotPastBound(chain, bound, j);
    }
    if b < j {
      forall f | f in chain[j].declared ensures f !in CollectUpToBound(chain, bound, ignored) {
        assert WellFormedDecl(chain[j]);
        var n :| 0 <= n < |chain[j].declared| && chain[j].declared[n] == f;
      }
    }
  }

  /** Corrected, a bound that is `null`, the root class or not an ancestor at all
      includes the whole hierarchy: only the ignored classes are removed. */
  lemma {:induction false} UpToBoundAtRootIsWhole(chain: seq<ClassDecl>, bound: UpperBound, ignored: set<ClassRef>)
    requires bound.Bound? ==> forall i :: 0 <= i < |chain| - 1 ==> chain[i].cls != bound.cls
    ensures CollectUpToBound(chain, bound, ignored) == Collect(chain, Unbounded, ignored)
  {
    if chain != [] {
      if bound.Bound? && chain[0].cls == bound.cls {
        assert |chain| == 1;
        assert chain[1..] == [];
      } else {
        assert bound.Bound? ==> forall i :: 0 <= i < |chain[1..]| - 1 ==> chain[1..][i].cls != bound.cls by {
          if bound.Bound? {
            forall i | 0 <= i < |chain[1..]| - 1 ensures chain[1..][i].cls != bound.cls {
              assert chain[1..][i] == chain[i + 1];
            }
          }
        }
        UpToBoundAtRootIsWhole(chain[1..], bound, ignored);
      }
    }
  }
}
