/** The field selection pipeline of the grapher: which fields of a library
    are offered as X and Y axis candidates, and in which order. */
module BentoGrapher {
  import opened Fields
  import opened Libraries
  import opened Orderings
  import opened Collections

  /** One row of the field metadata query: the field's label, its raw column
      name and its type tag. */
  datatype FieldRow = FieldRow(displayLabel: string, column: string, typeName: string)

  /** Builds one new Field per metadata row, in row order. */
  method GetFields(rows: seq<FieldRow>) returns (fields: seq<Field>)
    ensures |fields| == |rows|
    ensures forall i :: 0 <= i < |rows| ==>
      fields[i].name == rows[i].displayLabel && fields[i].fieldType == rows[i].typeName
      && fields[i].column == StorageName(rows[i].column)
    ensures forall i, j :: 0 <= i < j < |fields| ==> fields[i] != fields[j]
    ensures forall i :: 0 <= i < |fields| ==> fresh(fields[i])
  {
    fields := [];
    var n := 0;
    while n < |rows|
      invariant 0 <= n <= |rows|
      invariant |fields| == n
      invariant forall i :: 0 <= i < n ==>
        fields[i].name == rows[i].displayLabel && fields[i].fieldType == rows[i].typeName
        && fields[i].column == StorageName(rows[i].column)
      invariant forall i, j :: 0 <= i < j < n ==> fields[i] != fields[j]
      invariant forall i :: 0 <= i < n ==> fresh(fields[i])
    {
      var row := rows[n];
      var field := new Field(row.displayLabel, row.typeName, StorageName(row.column));
      fields := fields + [field];
      n := n + 1;
    }
  }

  /** Type tags of layout and display elements, which are never plotted. */
  const IgnorableTypes: set<string> := {
    "com.filemaker.bento.field.layout.horizontalSeparator",
    "com.filemaker.bento.field.core.text",
    "com.filemaker.bento.field.layout.textBox",
    "com.filemaker.bento.field.layout.columnDivider",
    "com.filemaker.bento.field.core.media"
  }

  /** A field of a layout or display type, which the grapher never offers.
      None of the three date types is ignorable. */
  predicate Ignorable(f: Field)
    ensures f.fieldType == DateType ==> !Ignorable(f)
    ensures f.fieldType == DateCreatedType ==> !Ignorable(f)
    ensures f.fieldType == DateModifiedType ==> !Ignorable(f)
  {
    f.fieldType in IgnorableTypes
  }

  /** None of the three date types is ignorable. */
  lemma DateTypesPlottable()
    ensures DateType !in IgnorableTypes
    ensures DateCreatedType !in IgnorableTypes
    ensures DateModifiedType !in IgnorableTypes
  {
  }

  /** The fields that may be plotted, in their original order. */
  function Plottable(fields: seq<Field>): (r: seq<Field>)
    ensures forall f | f in r :: f in fields && !Ignorable(f)
    ensures forall f | f in fields :: !Ignorable(f) ==> f in r
  {
    Filter((f: Field) => !Ignorable(f), fields)
  }

  /** The filtered fields without the chosen X object. Only that object is
      dropped; a different object with the same components stays. */
  function YPool(fields: seq<Field>, x: Field): (r: seq<Field>)
    ensures x !in r
    ensures forall f | f in r :: f in fields
    ensures forall f | f in fields :: f != x ==> f in r
  {
    Filter((f: Field) => f != x, fields)
  }

  /** The X axis candidates offered to the user. */
  function XCandidates(fields: seq<Field>): (r: seq<Field>)
    ensures multiset(r) == multiset(Plottable(fields))
  {
    SortedCopy(XOrdering(), Plottable(fields))
  }

  /** The Y axis candidates offered once `x` has been chosen. */
  function YCandidates(fields: seq<Field>, x: Field): (r: seq<Field>)
    ensures multiset(r) == multiset(YPool(Plottable(fields), x))
  {
    SortedCopy(YOrdering(), YPool(Plottable(fields), x))
  }

  datatype SelectError = EmptyCandidateList

  datatype Choice = Chosen(field: Field) | Failed(error: SelectError)

  /** The pre-selected entry of a selection dialog: its first candidate. An
      empty candidate list has none; the dialog faults on it. */
  function DefaultValue(candidates: seq<Field>): (r: Choice)
    ensures r.Chosen? <==> |candidates| > 0
    ensures r.Chosen? ==> r.field == candidates[0]
  {
    if |candidates| == 0 then Failed(EmptyCandidateList) else Chosen(candidates[0])
  }

  /** The X candidates ascend by X rank. */
  lemma XCandidatesSorted(fields: seq<Field>)
    ensures SortedByRank(XRank, XCandidates(fields))
  {
    XOrderingRanked(Plottable(fields));
    SortedCopySorted(XOrdering(), XRank, Plottable(fields));
  }

  /** Each X class of the candidates is that class of the filtered fields. */
  lemma XCandidatesStable(fields: seq<Field>, k: nat)
    ensures RankClass(XRank, k, XCandidates(fields)) == RankClass(XRank, k, Plottable(fields))
  {
    XOrderingRanked(Plottable(fields));
    SortedCopyStable(XOrdering(), XRank, Plottable(fields), k);
  }

  /** The Y candidates ascend by Y rank. */
  lemma YCandidatesSorted(fields: seq<Field>, x: Field)
    ensures SortedByRank(YRank, YCandidates(fields, x))
  {
    YOrderingRanked(YPool(Plottable(fields), x));
    SortedCopySorted(YOrdering(), YRank, YPool(Plottable(fields), x));
  }

  /** Each Y class of the candidates is that class of the Y pool. */
  lemma YCandidatesStable(fields: seq<Field>, x: Field, k: nat)
    ensures RankClass(YRank, k, YCandidates(fields, x)) == RankClass(YRank, k, YPool(Plottable(fields), x))
  {
    YOrderingRanked(YPool(Plottable(fields), x));
    SortedCopyStable(YOrdering(), YRank, YPool(Plottable(fields), x), k);
  }

  /** The X candidates: a permutation of the plottable fields; date fields
      first, then creation timestamps, then modification timestamps, then
      every other type; fields of one class in their original order. */
  lemma XCandidatesOrder(fields: seq<Field>)
    ensures multiset(XCandidates(fields)) == multiset(Plottable(fields))
    ensures forall f | f in XCandidates(fields) :: !Ignorable(f)
    ensures OrderedBy(XOrdering(), XCandidates(fields))
    ensures forall i, j | 0 <= i < j < |XCandidates(fields)| ::
      var a, b := XCandidates(fields)[i].fieldType, XCandidates(fields)[j].fieldType;
      && (b == DateType ==> a == DateType)
      && (b == DateCreatedType ==> a == DateType || a == DateCreatedType)
      && (b == DateModifiedType ==> a == DateType || a == DateCreatedType || a == DateModifiedType)
    ensures forall k: nat :: RankClass(XRank, k, XCandidates(fields)) == RankClass(XRank, k, Plottable(fields))
  {
    var r := XCandidates(fields);
    XCandidatesSorted(fields);
    forall i, j | 0 <= i < j < |r| ensures XOrdering()(r[i], r[j]) <= 0 {
      XOrderingCompare(r[i], r[j]);
    }
    forall k: nat ensures RankClass(XRank, k, r) == RankClass(XRank, k, Plottable(fields)) {
      XCandidatesStable(fields, k);
    }
  }

  /** The Y candidates: a permutation of the Y pool; every other type first,
      then date fields, then creation timestamps, then modification
      timestamps last; fields of one class in their original order. */
  lemma YCandidatesOrder(fields: seq<Field>, x: Field)
    ensures multiset(YCandidates(fields, x)) == multiset(YPool(Plottable(fields), x))
    ensures forall f | f in YCandidates(fields, x) :: !Ignorable(f)
    ensures OrderedBy(YOrdering(), YCandidates(fields, x))
    ensures forall i, j | 0 <= i < j < |YCandidates(fields, x)| ::
      var a, b := YCandidates(fields, x)[i].fieldType, YCandidates(fields, x)[j].fieldType;
      && (a == DateModifiedType ==> b == DateModifiedType)
      && (a == DateCreatedType ==> b == DateCreatedType || b == DateModifiedType)
      && (a == DateType ==> b == DateType || b == DateCreatedType || b == DateModifiedType)
    ensures forall k: nat :: RankClass(YRank, k, YCandidates(fields, x)) == RankClass(YRank, k, YPool(Plottable(fields), x))
  {
    var r := YCandidates(fields, x);
    YCandidatesSorted(fields, x);
    forall i, j | 0 <= i < j < |r| ensures YOrdering()(r[i], r[j]) <= 0 {
      YOrderingCompare(r[i], r[j]);
    }
    forall k: nat ensures RankClass(YRank, k, r) == RankClass(YRank, k, YPool(Plottable(fields), x)) {
      YCandidatesStable(fields, x, k);
    }
  }

  /** Any list ordered by the X ordering that keeps each X class of the
      filtered fields in order is the X candidate list: every stable sort
      under the X ordering gives the same result. */
  lemma XCandidatesUnique(fields: seq<Field>, r: seq<Field>)
    requires OrderedBy(XOrdering(), r)
    requires forall k: nat :: RankClass(XRank, k, r) == RankClass(XRank, k, Plottable(fields))
    ensures r == XCandidates(fields)
  {
    XOrderedIsSorted(r);
    XCandidatesSorted(fields);
    XClassesMatch(fields, r);
    StableSortUnique(XRank, r, XCandidates(fields));
  }

  /** A list ordered by the X ordering ascends by X rank. */
  lemma XOrderedIsSorted(r: seq<Field>)
    requires OrderedBy(XOrdering(), r)
    ensures SortedByRank(XRank, r)
  {
    forall i, j | 0 <= i < j < |r| ensures XRank(r[i]) <= XRank(r[j]) {
      XOrderingCompare(r[i], r[j]);
    }
  }

  /** A list with the X classes of the sort's input has those of its output. */
  lemma XClassesMatch(fields: seq<Field>, r: seq<Field>)
    requires forall k: nat :: RankClass(XRank, k, r) == RankClass(XRank, k, Plottable(fields))
    ensures forall k: nat :: RankClass(XRank, k, r) == RankClass(XRank, k, XCandidates(fields))
  {
    forall k: nat ensures RankClass(XRank, k, r) == RankClass(XRank, k, XCandidates(fields)) {
      XCandidatesStable(fields, k);
    }
  }

  /** Any list ordered by the Y ordering that keeps each Y class of the pool
      in order is the Y candidate list. */
  lemma YCandidatesUnique(fields: seq<Field>, x: Field, r: seq<Field>)
    requires OrderedBy(YOrdering(), r)
    requires forall k: nat :: RankClass(YRank, k, r) == RankClass(YRank, k, YPool(Plottable(fields), x))
    ensures r == YCandidates(fields, x)
  {
    YOrderedIsSorted(r);
    YCandidatesSorted(fields, x);
    YClassesMatch(fields, x, r);
    StableSortUnique(YRank, r, YCandidates(fields, x));
  }

  /** A list ordered by the Y ordering ascends by Y rank. */
  lemma YOrderedIsSorted(r: seq<Field>)
    requires OrderedBy(YOrdering(), r)
    ensures SortedByRank(YRank, r)
  {
    forall i, j | 0 <= i < j < |r| ensures YRank(r[i]) <= YRank(r[j]) {
      YOrderingCompare(r[i], r[j]);
    }
  }

  /** A list with the Y classes of the sort's input has those of its output. */
  lemma YClassesMatch(fields: seq<Field>, x: Field, r: seq<Field>)
    requires forall k: nat :: RankClass(YRank, k, r) == RankClass(YRank, k, YPool(Plottable(fields), x))
    ensures forall k: nat :: RankClass(YRank, k, r) == RankClass(YRank, k, YCandidates(fields, x))
  {
    forall k: nat ensures RankClass(YRank, k, r) == RankClass(YRank, k, YCandidates(fields, x)) {
      YCandidatesStable(fields, x, k);
    }
  }

  /** Within one X class the candidates keep the order of the field list. */
  lemma XClassesFollowFields(fields: seq<Field>, k: nat)
    ensures Subsequence(RankClass(XRank, k, XCandidates(fields)), fields)
  {
    var p := Plottable(fields);
    XCandidatesStable(fields, k);
    RankClassSubsequence(XRank, k, p);
    FilterSubsequence((f: Field) => !Ignorable(f), fields);
    SubsequenceTransitive(RankClass(XRank, k, p), p, fields);
  }

  /** Within one Y class the candidates keep the order of the field list. */
  lemma YClassesFollowFields(fields: seq<Field>, x: Field, k: nat)
    ensures Subsequence(RankClass(YRank, k, YCandidates(fields, x)), fields)
  {
    var p := Plottable(fields);
    var q := YPool(p, x);
    YCandidatesStable(fields, x, k);
    RankClassSubsequence(YRank, k, q);
    FilterSubsequence((f: Field) => f != x, p);
    FilterSubsequence((f: Field) => !Ignorable(f), fields);
    SubsequenceTransitive(q, p, fields);
    SubsequenceTransitive(RankClass(YRank, k, q), q, fields);
  }

  /** The ignorable filter keeps every other field, every copy of it, in
      its original order. */
  lemma PlottableKeepsOrder(fields: seq<Field>)
    ensures Subsequence(Plottable(fields), fields)
    ensures forall f | f in fields :: multiset(Plottable(fields))[f] == if Ignorable(f) then 0 else multiset(fields)[f]
  {
    FilterSubsequence((f: Field) => !Ignorable(f), fields);
    FilterMultiplicity((f: Field) => !Ignorable(f), fields);
  }

  /** The Y pool is the list with every occurrence of the X object left out
      and everything else kept in order. */
  lemma YPoolKeepsOrder(fields: seq<Field>, x: Field)
    ensures Subsequence(YPool(fields, x), fields)
    ensures forall f | f in fields :: multiset(YPool(fields, x))[f] == if f == x then 0 else multiset(fields)[f]
  {
    FilterSubsequence((f: Field) => f != x, fields);
    FilterMultiplicity((f: Field) => f != x, fields);
  }

  /** The chosen X object is never a Y candidate; every other plottable
      field is, including one whose components equal those of X. */
  lemma YCandidatesExcludeOnlyX(fields: seq<Field>, x: Field)
    ensures x !in YCandidates(fields, x)
    ensures forall f | f in fields :: f in YCandidates(fields, x) <==> f != x && !Ignorable(f)
  {
    var p := YPool(Plottable(fields), x);
    var r := YCandidates(fields, x);
    assert x !in multiset(p);
    forall f | f in fields ensures f in r <==> f != x && !Ignorable(f) {
      if f in r {
        assert f in multiset(p);
      }
      if f != x && !Ignorable(f) {
        assert f in p;
        assert f in multiset(r);
      }
    }
  }

  /** A field with the same name, type and column as X, but a different
      object, stays among the Y candidates. */
  lemma YCandidatesKeepLookAlike(fields: seq<Field>, x: Field, twin: Field)
    requires twin in fields && !Ignorable(twin)
    requires twin != x && twin.name == x.name && twin.fieldType == x.fieldType && twin.column == x.column
    ensures twin in YCandidates(fields, x)
  {
    YCandidatesExcludeOnlyX(fields, x);
  }

  /** When every field is a distinct object and X is a plottable one, the Y
      list is exactly one shorter than the X list. */
  lemma YCandidatesOneShorter(fields: seq<Field>, x: Field)
    requires forall i, j | 0 <= i < j < |fields| :: fields[i] != fields[j]
    requires x in fields && !Ignorable(x)
    ensures |YCandidates(fields, x)| == |XCandidates(fields)| - 1
  {
    var p := Plottable(fields);
    FilterMultiplicity((f: Field) => !Ignorable(f), fields);
    MultisetOfDistinct(fields, x);
    assert x in p;
    YPoolDropsOne(p, x);
    var mp: multiset<Field> := multiset(p);
    assert mp == (mp - multiset{x}) + multiset{x};
  }

  /** Removing a field that occurs once removes one occurrence from the pool. */
  lemma YPoolDropsOne(p: seq<Field>, x: Field)
    requires multiset(p)[x] == 1
    ensures multiset(YPool(p, x)) == multiset(p) - multiset{x}
  {
    var mp: multiset<Field> := multiset(p);
    var mq: multiset<Field> := multiset(YPool(p, x));
    FilterMultiplicity((f: Field) => f != x, p);
    forall f: Field ensures mq[f] == (mp - multiset{x})[f] {
      if f in p {
        assert mq[f] == if f == x then 0 else mp[f];
      } else {
        assert f !in YPool(p, x);
        assert mq[f] == 0 && mp[f] == 0;
      }
    }
    assert mq == mp - multiset{x};
  }

  /** A field appearing once in a list of distinct objects has multiplicity one. */
  lemma {:induction false} MultisetOfDistinct(s: seq<Field>, x: Field)
    requires forall i, j | 0 <= i < j < |s| :: s[i] != s[j]
    requires x in s
    ensures multiset(s)[x] == 1
  {
    if s[0] == x {
      assert x !in s[1..];
      assert s == [s[0]] + s[1..];
    } else {
      MultisetOfDistinct(s[1..], x);
      assert s == [s[0]] + s[1..];
    }
  }

  /** The X candidates are exactly the plottable fields of the list. */
  lemma XCandidatesMembers(fields: seq<Field>)
    ensures forall f | f in XCandidates(fields) :: f in fields && !Ignorable(f)
    ensures forall f | f in fields :: f in XCandidates(fields) <==> !Ignorable(f)
  {
    var p := Plottable(fields);
    var r := XCandidates(fields);
    forall f | f in r ensures f in fields && !Ignorable(f) {
      assert f in multiset(p);
    }
    forall f | f in fields && !Ignorable(f) ensures f in r {
      assert f in multiset(p);
    }
  }

  /** The X dialog pre-selects a date field whenever the library has a
      plottable one, and faults only when no field is plottable. */
  lemma XDefaultPrefersDate(fields: seq<Field>)
    ensures DefaultValue(XCandidates(fields)).Chosen? <==> exists f | f in fields :: !Ignorable(f)
    ensures (exists f | f in fields :: f.fieldType == DateType) ==>
      DefaultValue(XCandidates(fields)).Chosen? && DefaultValue(XCandidates(fields)).field.fieldType == DateType
  {
    var r := XCandidates(fields);
    XCandidatesMembers(fields);
    if r != [] {
      assert r[0] in r;
    }
    if exists f | f in fields :: f.fieldType == DateType {
      var f :| f in fields && f.fieldType == DateType;
      XDateHeadsCandidates(fields, f);
    }
  }

  /** A date field in the list puts a date field at the head of the X candidates. */
  lemma XDateHeadsCandidates(fields: seq<Field>, f: Field)
    requires f in fields && f.fieldType == DateType
    ensures XCandidates(fields) != [] && XCandidates(fields)[0].fieldType == DateType
  {
    var r := XCandidates(fields);
    DateTypesPlottable();
    XCandidatesMembers(fields);
    assert f in r;
    var i :| 0 <= i < |r| && r[i] == f;
    XCandidatesSorted(fields);
    assert XRank(r[0]) <= XRank(r[i]);
  }

  /** The Y dialog pre-selects a field of another type than the three date
      types whenever the Y pool holds one. */
  lemma YDefaultPrefersOtherTypes(fields: seq<Field>, x: Field)
    ensures (exists f | f in fields :: f != x && !Ignorable(f) && YRank(f) == 0) ==>
      DefaultValue(YCandidates(fields, x)).Chosen? && YRank(DefaultValue(YCandidates(fields, x)).field) == 0
  {
    var r := YCandidates(fields, x);
    YCandidatesExcludeOnlyX(fields, x);
    YCandidatesOrder(fields, x);
    if exists f | f in fields :: f != x && !Ignorable(f) && YRank(f) == 0 {
      var f :| f in fields && f != x && !Ignorable(f) && YRank(f) == 0;
      var i :| 0 <= i < |r| && r[i] == f;
      if i != 0 {
        YOrderingCompare(r[0], r[i]);
      }
    }
  }
}
