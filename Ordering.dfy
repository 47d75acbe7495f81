/** The field comparators of the grapher and the two compound orderings
    built from them. A comparator is a total function on pairs of fields
    whose sign says which of the two comes first, as with Java's
    `Comparator.compare`. */
module Orderings {
  import opened Fields

  type Comparator = (Field, Field) -> int

  /** The type tags the orderings single out. */
  const DateType: string := "com.filemaker.bento.field.core.date"
  const DateCreatedType: string := "com.filemaker.bento.field.private.timestamp.dateCreated"
  const DateModifiedType: string := "com.filemaker.bento.field.private.timestamp.dateModified"

  /** The comparison of the comparator made for `typeName`: a field of exactly
      that type goes before one of another type; every other pair ties. */
  function TypeCompare(typeName: string, t: Field, t1: Field): (r: int)
    ensures -1 <= r <= 1
    ensures r < 0 <==> t.fieldType == typeName && t1.fieldType != typeName
    ensures r > 0 <==> t1.fieldType == typeName && t.fieldType != typeName
    ensures t.fieldType == t1.fieldType ==> r == 0
  {
    if t.fieldType == t1.fieldType then 0
    else if t.fieldType == typeName then -1
    else if t1.fieldType == typeName then 1
    else 0
  }

  /** The single-type comparator for `typeName`. */
  function MakeTypeComparator(typeName: string): Comparator
  {
    (t: Field, t1: Field) => TypeCompare(typeName, t, t1)
  }

  /** Ties under `first` are broken by `second` (a compound ordering). */
  function Compound(first: Comparator, second: Comparator): Comparator
  {
    (a: Field, b: Field) => if first(a, b) != 0 then first(a, b) else second(a, b)
  }

  /** The same comparator with its arguments swapped (a reverse order). */
  function Reverse(c: Comparator): Comparator
  {
    (a: Field, b: Field) => c(b, a)
  }

  /** The ordering of the X axis candidates: date, then creation timestamp,
      then modification timestamp. */
  function XOrdering(): Comparator
  {
    Compound(Compound(MakeTypeComparator(DateType), MakeTypeComparator(DateCreatedType)),
             MakeTypeComparator(DateModifiedType))
  }

  /** The ordering of the Y axis candidates: the three single-type comparators
      reversed and chained from modification timestamp to date. */
  function YOrdering(): Comparator
  {
    Compound(Compound(Reverse(MakeTypeComparator(DateModifiedType)), Reverse(MakeTypeComparator(DateCreatedType))),
             Reverse(MakeTypeComparator(DateType)))
  }

  /** Position class of a field in the X list. */
  function XRank(f: Field): nat
  {
    if f.fieldType == DateType then 0
    else if f.fieldType == DateCreatedType then 1
    else if f.fieldType == DateModifiedType then 2
    else 3
  }

  /** Position class of a field in the Y list. */
  function YRank(f: Field): nat
  {
    if f.fieldType == DateModifiedType then 3
    else if f.fieldType == DateCreatedType then 2
    else if f.fieldType == DateType then 1
    else 0
  }

  /** On the fields of `s`, `c` orders exactly as `rank` does. */
  ghost predicate RankedOn(c: Comparator, rank: Field -> nat, s: seq<Field>)
  {
    forall a, b | a in s && b in s :: (c(a, b) < 0 <==> rank(a) < rank(b)) && (c(a, b) > 0 <==> rank(a) > rank(b))
  }

  /** The comparator made for `typeName` compares as `TypeCompare` does. */
  lemma TypeComparatorCompare(typeName: string, t: Field, t1: Field)
    ensures MakeTypeComparator(typeName)(t, t1) < 0 <==> t.fieldType == typeName && t1.fieldType != typeName
    ensures MakeTypeComparator(typeName)(t, t1) > 0 <==> t1.fieldType == typeName && t.fieldType != typeName
    ensures t.fieldType == t1.fieldType ==> MakeTypeComparator(typeName)(t, t1) == 0
  {
  }

  /** A single-type comparator is antisymmetric and ties on equal types. */
  lemma TypeComparatorAntisymmetric(typeName: string, a: Field, b: Field)
    ensures MakeTypeComparator(typeName)(a, b) == -MakeTypeComparator(typeName)(b, a)
    ensures a.fieldType == b.fieldType ==> MakeTypeComparator(typeName)(a, b) == 0
  {
  }

  /** The X ordering compares the X ranks of its arguments. */
  lemma XOrderingCompare(a: Field, b: Field)
    ensures XOrdering()(a, b) < 0 <==> XRank(a) < XRank(b)
    ensures XOrdering()(a, b) == 0 <==> XRank(a) == XRank(b)
    ensures XOrdering()(a, b) > 0 <==> XRank(a) > XRank(b)
  {
  }

  /** The Y ordering compares the Y ranks of its arguments. */
  lemma YOrderingCompare(a: Field, b: Field)
    ensures YOrdering()(a, b) < 0 <==> YRank(a) < YRank(b)
    ensures YOrdering()(a, b) == 0 <==> YRank(a) == YRank(b)
    ensures YOrdering()(a, b) > 0 <==> YRank(a) > YRank(b)
  {
  }

  /** The X ordering agrees with the X rank on every list of fields. */
  lemma XOrderingRanked(s: seq<Field>)
    ensures RankedOn(XOrdering(), XRank, s)
  {
    forall a, b | a in s && b in s
      ensures (XOrdering()(a, b) < 0 <==> XRank(a) < XRank(b)) && (XOrdering()(a, b) > 0 <==> XRank(a) > XRank(b))
    {
      XOrderingCompare(a, b);
    }
  }

  /** The Y ordering agrees with the Y rank on every list of fields. */
  lemma YOrderingRanked(s: seq<Field>)
    ensures RankedOn(YOrdering(), YRank, s)
  {
    forall a, b | a in s && b in s
      ensures (YOrdering()(a, b) < 0 <==> YRank(a) < YRank(b)) && (YOrdering()(a, b) > 0 <==> YRank(a) > YRank(b))
    {
      YOrderingCompare(a, b);
    }
  }

  /** The X ordering is a total preorder: every field ties with itself, the
      sign flips with the arguments, and "not after" is transitive. */
  lemma XOrderingTotalPreorder(a: Field, b: Field, c: Field)
    ensures XOrdering()(a, a) == 0
    ensures (XOrdering()(a, b) < 0 <==> XOrdering()(b, a) > 0) && (XOrdering()(a, b) == 0 <==> XOrdering()(b, a) == 0)
    ensures XOrdering()(a, b) <= 0 && XOrdering()(b, c) <= 0 ==> XOrdering()(a, c) <= 0
  {
    XOrderingCompare(a, a);
    XOrderingCompare(a, b);
    XOrderingCompare(b, a);
    XOrderingCompare(b, c);
    XOrderingCompare(a, c);
  }

  /** The Y ordering is a total preorder. */
  lemma YOrderingTotalPreorder(a: Field, b: Field, c: Field)
    ensures YOrdering()(a, a) == 0
    ensures (YOrdering()(a, b) < 0 <==> YOrdering()(b, a) > 0) && (YOrdering()(a, b) == 0 <==> YOrdering()(b, a) == 0)
    ensures YOrdering()(a, b) <= 0 && YOrdering()(b, c) <= 0 ==> YOrdering()(a, c) <= 0
  {
    YOrderingCompare(a, a);
    YOrderingCompare(a, b);
    YOrderingCompare(b, a);
    YOrderingCompare(b, c);
    YOrderingCompare(a, c);
  }
}
