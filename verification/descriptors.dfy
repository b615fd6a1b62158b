/**
 The declarative type descriptor the generator reads instead of Java reflection:
 classes, their declared fields, field types, and the superclass chain that
 repeated `getSuperclass()` calls visit from the target class up to the root.
 */
module Descriptors {

  datatype Option<T> = None | Some(value: T)

  /** A class as the generator sees it: its canonical name (identity, used for imports)
      and its simple name (used in emitted code and in disambiguated field names). */
  datatype ClassRef = ClassRef(canonical: string, simple: string)

  /** The eight primitive kinds `Class.isPrimitive()` reports for a field type. */
  datatype PrimKind = Boolean | Byte | Short | Int | Long | Char | Float | Double

  /** A field type; generic arguments are erased, as reflection reports raw types. */
  datatype TypeRef = Prim(kind: PrimKind) | Ref(cls: ClassRef)

  /** A declared field. Identity is the whole triple, so two fields named alike in
      different classes are different fields. */
  datatype Field = Field(name: string, declaring: ClassRef, fieldType: TypeRef)

  /** One level of the hierarchy: a class and what `getDeclaredFields()` returns for it. */
  datatype ClassDecl = ClassDecl(cls: ClassRef, declared: seq<Field>)

  function PrimName(k: PrimKind): string
  {
    match k
    case Boolean => "boolean"
    case Byte => "byte"
    case Short => "short"
    case Int => "int"
    case Long => "long"
    case Char => "char"
    case Float => "float"
    case Double => "double"
  }

  /** `getSimpleName()` of a field type. */
  function TypeSimpleName(t: TypeRef): string
  {
    match t
    case Prim(k) => PrimName(k)
    case Ref(c) => c.simple
  }

  predicate NoDup<T(==)>(s: seq<T>)
  {
    forall i, j :: 0 <= i < j < |s| ==> s[i] != s[j]
  }

  /** Every field in `fs` has a non-empty name, as every Java identifier has. */
  predicate NamedFields(fs: seq<Field>)
  {
    forall i :: 0 <= i < |fs| ==> fs[i].name != ""
  }

  /** What a class's declared fields look like under reflection: named, with no
      name declared twice, and all declared by that class. */
  predicate WellFormedDecl(d: ClassDecl)
  {
    && NamedFields(d.declared)
    && (forall i, j :: 0 <= i < j < |d.declared| ==> d.declared[i].name != d.declared[j].name)
    && forall i :: 0 <= i < |d.declared| ==> d.declared[i].declaring == d.cls
  }

  /** A superclass chain as the JVM reports it: no class occurs twice (the
      hierarchy is acyclic) and every level is well formed. */
  predicate WellFormedChain(chain: seq<ClassDecl>)
  {
    && (forall i, j :: 0 <= i < j < |chain| ==> chain[i].cls != chain[j].cls)
    && forall i :: 0 <= i < |chain| ==> WellFormedDecl(chain[i])
  }
}
