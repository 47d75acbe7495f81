/** Bento's storage naming and the Library record (a top-level record
    collection of a Bento database). */
module Libraries {

  /** Java's `int`, the type of a library's domain key. */
  newtype Int32 = x: int | -0x8000_0000 <= x < 0x8000_0000

  /** Bento stores every user table and column under this prefix. */
  const StoragePrefix: string := "gn_"

  /** The storage identifier of a table or column whose schema name is `raw`. */
  function StorageName(raw: string): (r: string)
    ensures |r| == |raw| + 3
    ensures r[..3] == "gn_"
    ensures r[3..] == raw
  {
    StoragePrefix + raw
  }

  /** Distinct schema names never share a storage identifier. */
  lemma StorageNameInjective(a: string, b: string)
    requires a != b
    ensures StorageName(a) != StorageName(b)
  {
    assert StorageName(a)[3..] == a;
    assert StorageName(b)[3..] == b;
  }

  /** A library: its storage name, its display label and its domain key.
      All three are fixed when the record is built. */
  datatype Library = Library(name: string, displayLabel: string, domain: Int32) {

    /** The table holding the library's records. */
    function TableName(): (r: string)
      ensures |r| == |name| + 3
      ensures r[..3] == "gn_"
      ensures r[3..] == name
    {
      StorageName(name)
    }
  }

  /** The table name is a function of the library's name alone. */
  lemma TableNameDependsOnlyOnName(a: Library, b: Library)
    requires a.name == b.name
    ensures a.TableName() == b.TableName()
  {
  }

  /** Libraries with different names have different tables. */
  lemma TableNameInjective(a: Library, b: Library)
    requires a.name != b.name
    ensures a.TableName() != b.TableName()
  {
    StorageNameInjective(a.name, b.name);
  }

  /** Building a library keeps the three values it is given. */
  lemma LibraryKeepsComponents(name: string, displayLabel: string, domain: Int32)
    ensures Library(name, displayLabel, domain).name == name
    ensures Library(name, displayLabel, domain).displayLabel == displayLabel
    ensures Library(name, displayLabel, domain).domain == domain
  {
  }
}
