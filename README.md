# BentoGrapher field selection, modelled in Dafny

BentoGrapher draws a chart of one field of a Bento library against another.
It reads the library's field definitions, drops layout and display fields,
and offers the rest to the user twice: once as X axis candidates and once,
without the chosen X field, as Y axis candidates. Each list is sorted by a
chain of single-type comparators. This project models that pipeline and the
two records it works on, `Field` and `Library`, and proves what the lists
contain and in which order.

Layout:

- `Library.dfy` (module `Libraries`): the `gn_` storage prefix
  (`StorageName`) and the `Library` record with `TableName`.
- `Field.dfy` (module `Fields`): the `Field` class. Its members are
  constants, so a field never changes after construction. It is a class
  and not a datatype because the grapher removes the chosen X field by
  object identity (`t != x`), and Dafny's reference inequality says exactly
  that.
- `Ordering.dfy` (module `Orderings`): the single-type comparator, Guava's
  compound ordering, `Collections.reverseOrder`, and the X and Y orderings
  built from them. `XRank` and `YRank` give each field a class in 0..3, and
  the lemmas show that each ordering compares exactly these ranks.
- `Collections.dfy` (module `Collections`): an order-preserving `Filter`
  (the model of `Collections2.filter`) and `SortedCopy`, a stable insertion
  sort driven by a comparator (the model of `immutableSortedCopy`). The
  lemmas prove that the sorted copy is a permutation, ascending by rank,
  and stable: each rank class keeps its input order.
- `BentoGrapher.dfy` (module `BentoGrapher`): the mapping of metadata rows
  to fields, the ignorable-type filter, the Y pool, the two candidate lists,
  the dialog's default entry, and the lemmas about all of them.
- `Scenario.dfy` (module `Scenario`): a four-field library worked through
  the pipeline.

Three facts about the code that the model keeps:

- The Y order is not the mirror of the X order. Each `reverseOrder`
  comparator moves fields of its type later, so Y lists other types, then
  `core.date`, then `dateCreated`, then `dateModified` (`YRank`,
  `YCandidatesOrder`). In `Scenario.FourFieldLibrary` the Y list is `[D, C]`.
- Both candidate lists follow the order the field query returns.
- The ignorable set has five members, `core.text` among them
  (BentoGrapher.java:50-54).

## Model

| member | source | states |
|---|---|---|
| Libraries.StorageName | src/com/stackframe/bentographer/Library.java:31 | the storage identifier is `gn_` followed by the raw name: length +3, first three characters `gn_`, the rest the raw name |
| Libraries.StorageNameInjective | src/com/stackframe/bentographer/BentoGrapher.java:71 | distinct raw names give distinct storage identifiers, so distinct columns stay distinct |
| Libraries.Library.TableName | src/com/stackframe/bentographer/Library.java:30-32 | the table name is `gn_` followed by the library's name, and has length `|name| + 3` |
| Libraries.TableNameDependsOnlyOnName | src/com/stackframe/bentographer/Library.java:30-32 | libraries with equal names have equal table names, whatever their label and domain |
| Libraries.TableNameInjective | src/com/stackframe/bentographer/Library.java:30-32 | libraries with different names have different table names |
| Libraries.LibraryKeepsComponents | src/com/stackframe/bentographer/Library.java:20-28 | a library holds exactly the name, label and domain it was built from |
| Fields.Field.constructor | src/com/stackframe/bentographer/Field.java:20-28 | a new field holds exactly the name, type and column it was given; they are constants and never change |
| Fields.Field.ToString | src/com/stackframe/bentographer/Field.java:31-33 | the display string is `{name=` name `, type=` type `, column=` column `}`, piece by piece, and its length is the three lengths plus 23 |
| Fields.ToStringFrame | src/com/stackframe/bentographer/Field.java:32 | the display string starts with `{name=` and the name, and ends with the column and `}` |
| Fields.ToStringDependsOnlyOnComponents | src/com/stackframe/bentographer/Field.java:31-33 | two field objects with equal name, type and column have equal display strings |
| Orderings.TypeCompare | src/com/stackframe/bentographer/BentoGrapher.java:171-183 | the result is -1, 0 or 1; negative iff only the first field has the target type; positive iff only the second has it; zero when the types are equal |
| Orderings.MakeTypeComparator | src/com/stackframe/bentographer/BentoGrapher.java:167-185 | the comparator for one type; `TypeComparatorCompare` and `TypeComparatorAntisymmetric` prove its signs |
| Orderings.Compound | src/com/stackframe/bentographer/BentoGrapher.java:211 | Guava's compound ordering: ties under the first comparator go to the second; used by `XOrdering` and `YOrdering`, whose lemmas prove the result |
| Orderings.Reverse | src/com/stackframe/bentographer/BentoGrapher.java:223 | `Collections.reverseOrder`: the comparator with its arguments swapped; `YOrderingCompare` proves what the reversed chain computes |
| Orderings.XOrdering | src/com/stackframe/bentographer/BentoGrapher.java:208-211 | the X ordering; `XOrderingCompare` proves it compares by X rank, and `XOrderingTotalPreorder` that it is a total preorder |
| Orderings.YOrdering | src/com/stackframe/bentographer/BentoGrapher.java:223 | the Y ordering; `YOrderingCompare` proves it compares by Y rank, and `YOrderingTotalPreorder` that it is a total preorder |
| Orderings.TypeComparatorCompare | src/com/stackframe/bentographer/BentoGrapher.java:167-185 | the comparator made for a type compares as the method above: negative iff only the first field has that type, positive iff only the second |
| Orderings.TypeComparatorAntisymmetric | src/com/stackframe/bentographer/BentoGrapher.java:171-183 | swapping the arguments negates the result, and equal types compare 0 |
| Orderings.XOrderingCompare | src/com/stackframe/bentographer/BentoGrapher.java:208-211 | the compound X ordering is negative, zero or positive exactly as the X rank (date 0, created 1, modified 2, other 3) is lower, equal or higher |
| Orderings.YOrderingCompare | src/com/stackframe/bentographer/BentoGrapher.java:223 | the compound Y ordering is negative, zero or positive exactly as the Y rank (other 0, date 1, created 2, modified 3) is lower, equal or higher |
| Orderings.XOrderingRanked | src/com/stackframe/bentographer/BentoGrapher.java:211 | on any list, the X ordering agrees with the X rank |
| Orderings.YOrderingRanked | src/com/stackframe/bentographer/BentoGrapher.java:223 | on any list, the Y ordering agrees with the Y rank |
| Orderings.XOrderingTotalPreorder | src/com/stackframe/bentographer/BentoGrapher.java:211 | the X ordering is reflexive, antisymmetric in sign and transitive |
| Orderings.YOrderingTotalPreorder | src/com/stackframe/bentographer/BentoGrapher.java:223 | the Y ordering is reflexive, antisymmetric in sign and transitive |
| Collections.Filter | src/com/stackframe/bentographer/BentoGrapher.java:200-206 | the filtered list is no longer than the input, holds only input fields that pass the predicate, and holds every input field that passes it |
| Collections.FilterMultiplicity | src/com/stackframe/bentographer/BentoGrapher.java:200-206 | a kept field appears as often as in the input; a dropped one does not appear |
| Collections.FilterSubsequence | src/com/stackframe/bentographer/BentoGrapher.java:200-206 | the filtered list is a subsequence of the input: the kept fields stay in their order |
| Collections.RankClassSubsequence | src/com/stackframe/bentographer/BentoGrapher.java:212 | the fields of one rank class appear in their order in the list |
| Collections.Insert | src/com/stackframe/bentographer/BentoGrapher.java:212 | one insertion step of the sorted copy adds exactly the new field to the list |
| Collections.SortedCopy | src/com/stackframe/bentographer/BentoGrapher.java:212 | the sorted copy is a permutation of its input |
| Collections.InsertSorted | src/com/stackframe/bentographer/BentoGrapher.java:212 | inserting into a rank-sorted list keeps it rank-sorted |
| Collections.InsertClass | src/com/stackframe/bentographer/BentoGrapher.java:212 | an inserted field goes ahead of every field of its own rank and leaves the other rank classes unchanged |
| Collections.SortedCopySorted | src/com/stackframe/bentographer/BentoGrapher.java:212 | when the comparator agrees with a rank, the sorted copy is ascending by that rank |
| Collections.SortedCopyStable | src/com/stackframe/bentographer/BentoGrapher.java:212 | when the comparator agrees with a rank, every rank class of the sorted copy equals that class of the input: the sort is stable |
| Collections.StableSortUnique | src/com/stackframe/bentographer/BentoGrapher.java:212 | two lists ascending by the same rank whose rank classes are all equal are the same list: a stable sort by a rank has one possible result |
| Collections.RankClassIsFilter | src/com/stackframe/bentographer/BentoGrapher.java:212 | the rank class of a list is the list filtered by that rank |
| BentoGrapher.GetFields | src/com/stackframe/bentographer/BentoGrapher.java:67-72 | one field per metadata row, in row order: name is the row's label, type its type name, column `gn_` + its column; all fields are distinct objects, each newly allocated |
| BentoGrapher.Plottable | src/com/stackframe/bentographer/BentoGrapher.java:50-54 | no field of the five ignorable types remains, and every field of another type survives |
| BentoGrapher.Ignorable | src/com/stackframe/bentographer/BentoGrapher.java:50-54 | a field is ignorable iff its type is one of the five layout and display types; none of the three date types is ignorable |
| BentoGrapher.PlottableKeepsOrder | src/com/stackframe/bentographer/BentoGrapher.java:200-206 | the surviving fields keep their relative order and their number of occurrences |
| BentoGrapher.YPool | src/com/stackframe/bentographer/BentoGrapher.java:215-221 | the chosen X object is gone, and every other field is kept, including one equal to X in all three components |
| BentoGrapher.YPoolKeepsOrder | src/com/stackframe/bentographer/BentoGrapher.java:215-221 | exactly the occurrences of the X object are removed; everything else stays, in order |
| BentoGrapher.XCandidates | src/com/stackframe/bentographer/BentoGrapher.java:212 | the X candidate list is a permutation of the plottable fields; its order is stated by `XCandidatesOrder`, and its uniqueness by `XCandidatesUnique` |
| BentoGrapher.YCandidates | src/com/stackframe/bentographer/BentoGrapher.java:224 | the Y candidate list is a permutation of the Y pool; its order is stated by `YCandidatesOrder`, and its uniqueness by `YCandidatesUnique` |
| BentoGrapher.XCandidatesOrder | src/com/stackframe/bentographer/BentoGrapher.java:208-212 | the X candidates are a permutation of the filtered fields with no ignorable field, ordered by the X ordering: every date field, then every creation timestamp, then every modification timestamp, then the rest; each class in filtered order |
| BentoGrapher.XCandidatesSorted | src/com/stackframe/bentographer/BentoGrapher.java:211-212 | the X candidates ascend by X rank |
| BentoGrapher.XCandidatesStable | src/com/stackframe/bentographer/BentoGrapher.java:211-212 | each X class of the candidates equals that class of the filtered fields |
| BentoGrapher.XCandidatesMembers | src/com/stackframe/bentographer/BentoGrapher.java:200-212 | a field is an X candidate iff it is a field of the library and not ignorable |
| BentoGrapher.YCandidatesOrder | src/com/stackframe/bentographer/BentoGrapher.java:223-224 | the Y candidates are a permutation of the Y pool ordered by the Y ordering: other types first, then date, then creation timestamps, then modification timestamps last; each class in pool order |
| BentoGrapher.YCandidatesSorted | src/com/stackframe/bentographer/BentoGrapher.java:223-224 | the Y candidates ascend by Y rank |
| BentoGrapher.YCandidatesStable | src/com/stackframe/bentographer/BentoGrapher.java:223-224 | each Y class of the candidates equals that class of the Y pool |
| BentoGrapher.XOrderedIsSorted | src/com/stackframe/bentographer/BentoGrapher.java:211 | a list ordered by the X ordering ascends by X rank |
| BentoGrapher.YOrderedIsSorted | src/com/stackframe/bentographer/BentoGrapher.java:223 | a list ordered by the Y ordering ascends by Y rank |
| BentoGrapher.XCandidatesUnique | src/com/stackframe/bentographer/BentoGrapher.java:211-212 | any list ordered by the X ordering whose X classes are those of the filtered fields is the X candidate list, so every stable sort gives this list |
| BentoGrapher.YCandidatesUnique | src/com/stackframe/bentographer/BentoGrapher.java:223-224 | any list ordered by the Y ordering whose Y classes are those of the Y pool is the Y candidate list |
| BentoGrapher.XClassesFollowFields | src/com/stackframe/bentographer/BentoGrapher.java:67-71 | within one X class the candidates appear in the order the field query returned them |
| BentoGrapher.YClassesFollowFields | src/com/stackframe/bentographer/BentoGrapher.java:212-224 | within one Y class the candidates appear in the order the field query returned them |
| BentoGrapher.YCandidatesExcludeOnlyX | src/com/stackframe/bentographer/BentoGrapher.java:213-224 | the chosen X is never a Y candidate; a field of the library is a Y candidate iff it is not the X object and not ignorable |
| BentoGrapher.YCandidatesKeepLookAlike | src/com/stackframe/bentographer/BentoGrapher.java:218-219 | a different field object with the same name, type and column as X stays a Y candidate |
| BentoGrapher.YCandidatesOneShorter | src/com/stackframe/bentographer/BentoGrapher.java:213-224 | for distinct field objects and a plottable X, the Y list has exactly one entry fewer than the X list |
| BentoGrapher.YPoolDropsOne | src/com/stackframe/bentographer/BentoGrapher.java:215-221 | removing an object that occurs once removes exactly that one occurrence |
| BentoGrapher.DefaultValue | src/com/stackframe/bentographer/BentoGrapher.java:84-88 | the dialog's default is the first candidate; an empty list has no default (the source faults there) |
| BentoGrapher.XDefaultPrefersDate | src/com/stackframe/bentographer/BentoGrapher.java:208-213 | the X dialog has a default iff some field is plottable, and that default is a date field whenever the library has one |
| BentoGrapher.XDateHeadsCandidates | src/com/stackframe/bentographer/BentoGrapher.java:208-212 | when the library has a date field, the first X candidate is a date field |
| BentoGrapher.YDefaultPrefersOtherTypes | src/com/stackframe/bentographer/BentoGrapher.java:223-225 | the Y default has a type other than the three date types whenever the pool holds such a field |
| Scenario.FourFieldLibrary | src/com/stackframe/bentographer/BentoGrapher.java:198-224 | for a date field A, a text field B, a creation timestamp C and another field D, the X list is `[A, C, D]` and, with X = A, the Y list is `[D, C]` |

## Left out

- Database access: loading the SQLite driver, opening and closing the
  connection, the SQL text and the result-set loops of the library, field
  and data queries. The field query is modelled only by the list of rows
  it returns, in the order it returns them (`FieldRow`, `GetFields`).
- Building the library map from metadata rows, including what Guava's
  `ImmutableMap.Builder` does with a repeated label: that is library
  behaviour not visible in this code. Only the `Library` record is modelled.
- Reading the chart data: `getData` reads doubles into a sorted map.
  Floating point and map insertion are not modelled.
- Drawing the chart and its window (Chart2D, the Y range pinned at 0, the
  frame): a foreign GUI library.
- Locating the database file from the user's home directory: a system
  property and a file path.
- The selection dialog itself: only its pre-selected entry (the first
  candidate) and its fault on an empty list are modelled (`DefaultValue`).
  Which entry the user picks, and a cancelled dialog returning null, are
  not modelled; `YCandidates` takes the chosen X as a parameter.
- Null strings from the result set: the model's strings are never null,
  so the null-pointer failure of `t.type.equals` on a null type is not
  modelled.
- The sorting algorithm: the source sorts with Java's stable merge sort;
  the model uses a stable insertion sort. The steps of the merge sort are
  not modelled; its result is, since a stable sort under these orderings
  has only one possible result (`Collections.StableSortUnique`,
  `BentoGrapher.XCandidatesUnique`, `BentoGrapher.YCandidatesUnique`).
- `Collections2.filter` returns a live view of its input; since the input
  list is immutable, the model computes the filtered list eagerly.
