/**
 The TripleSub hierarchy and the generator configuration it was generated with, as
 descriptor data. TripleSub and Sub are declared in `objects/TripleSub.java` and
 `objects/Sub.java`; the fields of Base are read off the builder generated for
 TripleSub, whose `build()` routes them to `Base.class`.
 */
module Fixtures {
  import opened Descriptors
  import opened Collection
  import opened Emission

  const TripleSubClass := ClassRef("com.tiramisu.domain.objects.TripleSub", "TripleSub")
  const SubClass := ClassRef("com.tiramisu.domain.objects.Sub", "Sub")
  const BaseClass := ClassRef("com.tiramisu.domain.objects.Base", "Base")
  const ObjectClass := ClassRef("java.lang.Object", "Object")
  const DoubleSubClass := ClassRef("com.tiramisu.domain.objects.DoubleSub", "DoubleSub")
  const SomeFieldClassClass := ClassRef("com.tiramisu.domain.objects.SomeFieldClass", "SomeFieldClass")
  const SomeFieldClassBuilderClass := ClassRef("com.tiramisu.domain.SomeFieldClassBuilder", "SomeFieldClassBuilder")
  const StringClass := ClassRef("java.lang.String", "String")
  const IntegerClass := ClassRef("java.lang.Integer", "Integer")
  const LongClass := ClassRef("java.lang.Long", "Long")
  const DateClass := ClassRef("java.util.Date", "Date")
  const ListClass := ClassRef("java.util.List", "List")

  /* The fields of TripleSub, Sub and Base; `List<ZonedDateTime>` is erased to `List`. */

  const TripleSubTriple := Field("triple", TripleSubClass, Ref(StringClass))
  const TripleSubNoLightInTheDark := Field("noLightInTheDark", TripleSubClass, Ref(LongClass))
  const TripleSubShorty := Field("shorty", TripleSubClass, Prim(Short))
  const TripleSubBytey := Field("bytey", TripleSubClass, Prim(Byte))
  const TripleSubFloaty := Field("floaty", TripleSubClass, Prim(Float))
  const TripleSubDoubley := Field("doubley", TripleSubClass, Prim(Double))
  const TripleSubBooleany := Field("booleany", TripleSubClass, Prim(Boolean))
  const TripleSubLongy := Field("longy", TripleSubClass, Prim(Long))

  const SubHere := Field("here", SubClass, Ref(StringClass))
  const SubThere := Field("there", SubClass, Ref(StringClass))
  const SubDate := Field("date", SubClass, Ref(StringClass))
  const SubList := Field("list", SubClass, Ref(ListClass))
  const SubSomeChar := Field("someChar", SubClass, Prim(Char))

  const BaseThere := Field("there", BaseClass, Ref(IntegerClass))
  const BaseHere := Field("here", BaseClass, Ref(StringClass))
  const BaseDate := Field("date", BaseClass, Ref(DateClass))
  const BaseHi := Field("hi", BaseClass, Prim(Int))
  const BaseFieldWithBuilder := Field("fieldWithBuilder", BaseClass, Ref(SomeFieldClassClass))

  /* The declared fields of each level, in declaration order. */
  const TripleSubFields := [TripleSubTriple, TripleSubNoLightInTheDark, TripleSubShorty, TripleSubBytey, TripleSubFloaty, TripleSubDoubley, TripleSubBooleany, TripleSubLongy]
  const SubFields := [SubHere, SubThere, SubDate, SubList, SubSomeChar]
  const BaseFields := [BaseThere, BaseHere, BaseDate, BaseHi, BaseFieldWithBuilder]

  /** The superclass chain of TripleSub as `getSuperclass()` walks it, each level
      with its declared fields. */
  const TripleSubChain := [
    ClassDecl(TripleSubClass, TripleSubFields),
    ClassDecl(SubClass, SubFields),
    ClassDecl(BaseClass, BaseFields),
    ClassDecl(ObjectClass, [])]

  /** The configuration section of the generator: target TripleSub, bound `Object`
      (whose superclass is `null`), DoubleSub ignored, SomeFieldClass with its
      companion builder, sparse policy on, omission on, accessible default
      constructor, overwriting allowed, prefix "with". */
  const GeneratorConfig := Config(
    TripleSubClass,
    "com.tiramisu.domain.objects",
    TripleSubChain,
    Bound(ObjectClass, None),
    {DoubleSubClass},
    map[Ref(SomeFieldClassClass) := SomeFieldClassBuilderClass],
    true,
    true,
    true,
    true,
    "with")

  /** The iteration order of the collected set that the committed TripleSub builder
      shows: the order of its builder fields, written in three rows of six. */
  const TripleSubOrder: seq<Field> := TripleSubOrderA + TripleSubOrderB + TripleSubOrderC
  const TripleSubOrderA := [TripleSubLongy, TripleSubDoubley, SubHere, SubDate, SubSomeChar, SubList]
  const TripleSubOrderB := [TripleSubShorty, BaseDate, BaseHere, BaseHi, BaseFieldWithBuilder, TripleSubTriple]
  const TripleSubOrderC := [TripleSubNoLightInTheDark, SubThere, TripleSubFloaty, TripleSubBytey, TripleSubBooleany, BaseThere]
}
