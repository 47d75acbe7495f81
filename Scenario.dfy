/** A worked example of the field selection pipeline on a small library. */
module Scenario {
  import opened Fields
  import opened Orderings
  import opened Collections
  import opened BentoGrapher

  const TextType: string := "com.filemaker.bento.field.core.text"

  /** A library with a date field `a`, a text field `b`, a creation
      timestamp `c` and a field `d` of another plottable type: the text field
      is never offered, X lists the date first, and once `a` is chosen Y lists
      the other type before the creation timestamp. */
  lemma FourFieldLibrary(a: Field, b: Field, c: Field, d: Field)
    requires a.fieldType == DateType
    requires b.fieldType == TextType
    requires c.fieldType == DateCreatedType
    requires !Ignorable(d) && d.fieldType != DateType && d.fieldType != DateCreatedType && d.fieldType != DateModifiedType
    requires a != c && a != d
    ensures XCandidates([a, b, c, d]) == [a, c, d]
    ensures YCandidates([a, b, c, d], a) == [d, c]
  {
    DateTypesPlottable();
    assert TextType in IgnorableTypes;
    FourFieldPlottable((f: Field) => !Ignorable(f), a, b, c, d);
    ThreeFieldXOrder(a, c, d);
    FourFieldPool(a, c, d);
    TwoFieldYOrder(c, d);
  }

  lemma FourFieldPlottable(keep: Field -> bool, a: Field, b: Field, c: Field, d: Field)
    requires keep(a) && !keep(b) && keep(c) && keep(d)
    ensures Filter(keep, [a, b, c, d]) == [a, c, d]
  {
    TwoFieldKept(keep, c, d);
    assert [a, b, c, d][1..] == [b, c, d];
    assert [b, c, d][1..] == [c, d];
    assert Filter(keep, [b, c, d]) == [c, d];
  }

  lemma TwoFieldKept(keep: Field -> bool, c: Field, d: Field)
    requires keep(c) && keep(d)
    ensures Filter(keep, [c, d]) == [c, d]
  {
    assert [c, d][1..] == [d];
    assert [d][1..] == [];
    assert Filter(keep, [d]) == [d];
  }

  lemma ThreeFieldXOrder(a: Field, c: Field, d: Field)
    requires XRank(a) == 0 && XRank(c) == 1 && XRank(d) == 3
    ensures SortedCopy(XOrdering(), [a, c, d]) == [a, c, d]
  {
    XOrderingCompare(c, d);
    XOrderingCompare(a, c);
    assert [a, c, d][1..] == [c, d];
    assert [c, d][1..] == [d];
    assert SortedCopy(XOrdering(), [d]) == [d];
    assert SortedCopy(XOrdering(), [c, d]) == [c, d];
  }

  lemma FourFieldPool(a: Field, c: Field, d: Field)
    requires a != c && a != d
    ensures YPool([a, c, d], a) == [c, d]
  {
    assert [a, c, d][1..] == [c, d];
    assert [c, d][1..] == [d];
    assert [d][1..] == [];
    assert YPool([d], a) == [d];
    assert YPool([c, d], a) == [c, d];
  }

  lemma TwoFieldYOrder(c: Field, d: Field)
    requires YRank(c) == 2 && YRank(d) == 0
    ensures SortedCopy(YOrdering(), [c, d]) == [d, c]
  {
    YOrderingCompare(c, d);
    assert [c, d][1..] == [d];
    assert SortedCopy(YOrdering(), [d]) == [d];
    assert Insert(YOrdering(), c, [d]) == [d, c];
  }
}
