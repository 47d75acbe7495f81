/** The Field record: one field definition of a Bento library. */
module Fields {

  /** A field of a library: its display label, its type tag and the storage
      column that holds its values. The members are constants, so a Field
      never changes after construction; two Field objects with the same
      components are still distinct objects. */
  class Field {
    const name: string
    const fieldType: string
    const column: string

    constructor (name: string, fieldType: string, column: string)
      ensures this.name == name && this.fieldType == fieldType && this.column == column
    {
      this.name := name;
      this.fieldType := fieldType;
      this.column := column;
    }

    /** The display form `{name=<name>, type=<type>, column=<column>}`. */
    function ToString(): (r: string)
      ensures |r| == |name| + |fieldType| + |column| + 23
      ensures r[..6 + |name|] == "{name=" + name
      ensures r[6 + |name|..13 + |name| + |fieldType|] == ", type=" + fieldType
      ensures r[13 + |name| + |fieldType|..] == ", column=" + column + "}"
    {
      var r := "{" + "name=" + name + ", type=" + fieldType + ", column=" + column + "}";
      assert r == ("{name=" + name) + (", type=" + fieldType) + (", column=" + column + "}");
      r
    }
  }

  /** The display form opens with the name and closes with the column. */
  lemma ToStringFrame(f: Field)
    ensures f.ToString()[..6] == "{name="
    ensures f.ToString()[6..6 + |f.name|] == f.name
    ensures f.ToString()[|f.ToString()| - |f.column| - 1..] == f.column + "}"
  {
    var r := f.ToString();
    assert r[..6] == (r[..6 + |f.name|])[..6];
    assert r[6..6 + |f.name|] == (r[..6 + |f.name|])[6..];
    var tail := r[13 + |f.name| + |f.fieldType|..];
    assert r[|r| - |f.column| - 1..] == tail[9..];
  }

  /** The display form depends on the three components only, not on which
      object carries them. */
  lemma ToStringDependsOnlyOnComponents(f: Field, g: Field)
    requires f.name == g.name && f.fieldType == g.fieldType && f.column == g.column
    ensures f.ToString() == g.ToString()
  {
  }
}
