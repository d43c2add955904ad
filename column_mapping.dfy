/** `ColumnMapping` (BulkOperations/ColumnMapping.cs): the (property name, destination column
    name) pair accepted by the bulk-mapping overload of `AddColumns`. It is a C# struct, so it
    is a value: assignment copies it, and "setting" a property yields a new value. */
module ColumnMappings {
  import opened Wrappers

  /** Both properties are strings and may therefore be null. */
  datatype ColumnMapping = ColumnMapping(propertyName: Option<string>, columnName: Option<string>)

  /** `default(ColumnMapping)`, which the `: this()` initialiser starts from: both properties null. */
  const Default: ColumnMapping := ColumnMapping(None, None)

  /** The two-argument constructor: start from the default value, then assign both properties. */
  function Create(propertyName: Option<string>, columnName: Option<string>): (m: ColumnMapping)
    ensures m.propertyName == propertyName
    ensures m.columnName == columnName
  {
    Default.(propertyName := propertyName).(columnName := columnName)
  }

  /** The `ColumnName` setter. */
  function SetColumnName(m: ColumnMapping, columnName: Option<string>): (r: ColumnMapping)
    ensures r.columnName == columnName
    ensures r.propertyName == m.propertyName
  {
    m.(columnName := columnName)
  }

  /** The `PropertyName` setter. */
  function SetPropertyName(m: ColumnMapping, propertyName: Option<string>): (r: ColumnMapping)
    ensures r.propertyName == propertyName
    ensures r.columnName == m.columnName
  {
    m.(propertyName := propertyName)
  }

  /** The two auto-properties are independent: setting one then the other gives the same pair
      in either order, and that pair is what the constructor builds. */
  lemma SettersCommute(m: ColumnMapping, propertyName: Option<string>, columnName: Option<string>)
    ensures SetColumnName(SetPropertyName(m, propertyName), columnName)
         == SetPropertyName(SetColumnName(m, columnName), propertyName)
         == Create(propertyName, columnName)
  {
  }

  /** Struct assignment copies: changing the copy's `ColumnName` leaves the original as it was.
      Datatype values cannot be changed in place, so this holds by construction; the method
      documents the value semantics rather than proving anything about the model. */
  method CopyThenSetColumnName(original: ColumnMapping, columnName: Option<string>)
    returns (copy: ColumnMapping, afterwards: ColumnMapping)
    ensures copy == Create(original.propertyName, columnName)
    ensures afterwards == original
  {
    var m := original;
    copy := m;
    copy := SetColumnName(copy, columnName);
    afterwards := m;
  }
}
