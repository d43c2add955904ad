# SqlBulkTools table-scoping stage, modelled in Dafny

SqlBulkTools builds bulk insert, update and merge operations through a fluent chain. This project
models the chain's table-scoping stage, `BulkTable<T>`, and the `ColumnMapping` pair it accepts.
The stage keeps four pieces of state and changes them in place:

- the column set, a `HashSet<string>` of the model properties that take part;
- the custom column mapping, a `Dictionary<string, string>` from property name to destination column;
- the schema, which `WithSchema` may override once, while it still equals the default `"dbo"`;
- the copy settings, an opaque object that `WithBulkCopySettings` replaces.

Each column operation then hands these collections to the next builder stage.

Modules:

- `Wrappers` (wrappers.dfy): `Option` stands for a C# reference that may be null, and `Result` for an operation that returns or throws.
- `ColumnMappings` (column_mapping.dfy): the `ColumnMapping` struct as a datatype, with its constructor and both setters.
- `PropertyLists` (property_list.dfy): the reflected property list. The constructor sorts it by name (a stable insertion sort with sortedness and permutation proved), and "add all columns" selects the value-type and string-like properties from it.
- `TableRules` (table_rules.dfy): the rules on values:
  - one mapping insert (`AddMapping`) and the in-order bulk insert (`ApplyMappings`), with lemmas for when it succeeds, what it leaves behind when it throws, and the invariant "every mapping key is a column";
  - the one-shot schema rule;
  - lambda resolution.
- `BulkTables` (bulk_table.dfy): the class `BulkTable` with one method per public operation, plus client methods that replay the documented usage scenarios.

In the C# code, strings may be null. So do the model's schema, table name, the names given to the string overloads, both `ColumnMapping` fields, and the mapping's values. Each is `Option<string>`. Dictionary keys are plain strings, because `Dictionary.Add` throws `ArgumentNullException` (parameter `key`) on a null key, and the model includes that error. Exceptions become `Result.Failure` carrying a `TableRules.Error`. The state change made before the throw is kept, as in the code.

In three places the code differs from what one might expect, and the model follows the code:

- `AddColumn(..., destination)` rejects only a null destination. An empty string is accepted and stored.
- `WithSchema` does not check whether a schema "was supplied" earlier. It compares the current schema with `"dbo"`. So a table created with `"dbo"` written out still accepts one `WithSchema`, and a table created with a null schema never does.
- The bulk-mapping overload does not check `ColumnName` for null, so a null destination can enter the mapping that way.

## Model

| member | source | states |
|---|---|---|
| ColumnMappings.Create | SqlBulkTools.NetStandard/BulkOperations/ColumnMapping.cs:8-12 | the constructor stores its first argument as the property name and its second as the column name |
| ColumnMappings.SetColumnName | SqlBulkTools.NetStandard/BulkOperations/ColumnMapping.cs:5 | setting ColumnName changes only the column name; the property name is kept |
| ColumnMappings.SetPropertyName | SqlBulkTools.NetStandard/BulkOperations/ColumnMapping.cs:6 | setting PropertyName changes only the property name; the column name is kept |
| ColumnMappings.SettersCommute | SqlBulkTools.NetStandard/BulkOperations/ColumnMapping.cs:5-11 | the two properties are independent: setting them in either order gives the pair the constructor builds |
| ColumnMappings.CopyThenSetColumnName | SqlBulkTools.NetStandard/BulkOperations/ColumnMapping.cs:3 | documents the struct's value semantics: a copy with a new column name, and the original as it was; Dafny datatype values cannot be changed in place, so this holds by construction |
| PropertyLists.NameLeqTotal | SqlBulkTools.NetStandard/BulkOperations/BulkTable.cs:45 | any two property names are ordered one way or the other, which ordering by name needs |
| PropertyLists.NameLeqTransitive | SqlBulkTools.NetStandard/BulkOperations/BulkTable.cs:45 | the order on names is transitive |
| PropertyLists.InsertByName | SqlBulkTools.NetStandard/BulkOperations/BulkTable.cs:45 | one insertion step of ordering by name: the result is one element longer than the input |
| PropertyLists.SortByName | SqlBulkTools.NetStandard/BulkOperations/BulkTable.cs:45 | `OrderBy(x => x.Name)`: the result has as many properties as the input (sortedness and permutation are in SortByNameSorted) |
| PropertyLists.InsertByNameSorted | SqlBulkTools.NetStandard/BulkOperations/BulkTable.cs:45 | inserting one property into a name-sorted list keeps it sorted and adds exactly that property |
| PropertyLists.SortByNameSorted | SqlBulkTools.NetStandard/BulkOperations/BulkTable.cs:45 | ordering the reflected properties by name gives a sorted permutation of them |
| PropertyLists.EligibleColumns | SqlBulkTools.NetStandard/BulkOperations/BulkTable.cs:122-128 | the selected columns are never null, and every property of an eligible type is selected |
| PropertyLists.EligibleColumnsOfSorted | SqlBulkTools.NetStandard/BulkOperations/BulkTable.cs:45-128 | sorting the property list does not change which columns "add all columns" selects |
| PropertyLists.EligibleColumnsExample | SqlBulkTools.NetStandard/BulkOperations/BulkTable.cs:122-128 | for Id: int, Name: string, CreatedAt: DateTime, Tag: object, the selected columns are exactly Id, Name and CreatedAt (in declaration order; EligibleColumnsOfSorted carries this to the sorted list) |
| TableRules.AddMapping | SqlBulkTools.NetStandard/BulkOperations/BulkTable.cs:81-82 | one insert always adds the name to the columns; it fails with ArgumentNull("key") on a null name and DuplicateKey on a mapped name, leaving the mapping as it was; otherwise it maps the name to the destination |
| TableRules.ApplyMappings | SqlBulkTools.NetStandard/BulkOperations/BulkTable.cs:79-83 | the in-order loop over the pairs never removes a column or a mapping key (the lemmas below give the exact outcome) |
| TableRules.ApplyMappingsContents | SqlBulkTools.NetStandard/BulkOperations/BulkTable.cs:77-86 | a bulk insert that does not throw adds every property name to the columns and every pair to the mapping, keeping the old entries |
| TableRules.ApplyMappingsSuccess | SqlBulkTools.NetStandard/BulkOperations/BulkTable.cs:79-83 | the bulk insert succeeds if and only if every property name is non-null, not yet mapped, and not repeated in the input |
| TableRules.ApplyMappingsStopsAtFailure | SqlBulkTools.NetStandard/BulkOperations/BulkTable.cs:79-83 | a failing bulk insert failed at some pair k: all pairs before k are applied, and pair k added its column but no mapping |
| TableRules.ApplyMappingsFailureSticks | SqlBulkTools.NetStandard/BulkOperations/BulkTable.cs:79-83 | after the first failing pair, later pairs have no effect |
| TableRules.ApplyMappingsKeepsCoverage | SqlBulkTools.NetStandard/BulkOperations/BulkTable.cs:79-83 | the bulk insert keeps every mapping key in the column set, whether or not it throws |
| TableRules.SetSchema | SqlBulkTools.NetStandard/BulkOperations/BulkTable.cs:137-144 | setting the schema succeeds if and only if the current schema is "dbo", and then yields the requested one; otherwise it fails with SchemaAlreadyDefined |
| TableRules.SchemaIsOneShot | SqlBulkTools.NetStandard/BulkOperations/BulkTable.cs:139-142 | after one successful WithSchema, a second succeeds if and only if the first set "dbo" |
| TableRules.FirstUnresolved | SqlBulkTools.NetStandard/BulkOperations/BulkTable.cs:60-66 | the index where the AddColumns loop stops: every lambda before it is a property access, and the one at it is not |
| BulkTables.BulkTable.constructor | SqlBulkTools.NetStandard/BulkOperations/BulkTable.cs:34-46 | the column set and mapping start empty; handle, rows, table name and schema are the arguments; settings are the defaults; the property list is the reflected one sorted by name |
| BulkTables.BulkTable.Stage | SqlBulkTools.NetStandard/BulkOperations/BulkTable.cs:57 | the next stage (BulkTable.cs:57, 67, 74, 85, 107, 119, 129) receives this table's column set, mapping, schema, settings, handle, rows, table name and property list |
| BulkTables.BulkTable.Columns | SqlBulkTools.NetStandard/BulkOperations/BulkTable.cs:18 | the view lists every column exactly once, and lists nothing else |
| BulkTables.BulkTable.AddColumn | SqlBulkTools.NetStandard/BulkOperations/BulkTable.cs:53-58 | the resolved name is added to the column set and nothing else changes; a lambda that is not a property access fails and changes nothing |
| BulkTables.BulkTable.AddColumns | SqlBulkTools.NetStandard/BulkOperations/BulkTable.cs:60-68 | the names resolved before the first bad lambda are added; it succeeds if and only if every lambda resolves |
| BulkTables.BulkTable.AddColumnsByName | SqlBulkTools.NetStandard/BulkOperations/BulkTable.cs:70-75 | the column set becomes its union with the given names; the mapping, schema and settings are unchanged |
| BulkTables.BulkTable.Insert | SqlBulkTools.NetStandard/BulkOperations/BulkTable.cs:81-82 | the state after one column-then-mapping insert is the one AddMapping gives |
| BulkTables.BulkTable.AddColumnMappings | SqlBulkTools.NetStandard/BulkOperations/BulkTable.cs:77-86 | the new columns, mapping and outcome are those of inserting the pairs in input order, stopping at the first exception |
| BulkTables.BulkTable.AddColumnAs | SqlBulkTools.NetStandard/BulkOperations/BulkTable.cs:97-108 | a null destination fails with ArgumentNull("destination") and changes nothing; otherwise the column is added, and the mapping is inserted or fails with DuplicateKey |
| BulkTables.BulkTable.AddColumnByNameAs | SqlBulkTools.NetStandard/BulkOperations/BulkTable.cs:110-120 | a null destination fails and changes nothing; otherwise the name is added to the columns, then the mapping is inserted, or it fails on a null or already mapped name |
| BulkTables.BulkTable.AddAllColumns | SqlBulkTools.NetStandard/BulkOperations/BulkTable.cs:126-130 | the column set is replaced by the eligible property names, and the mapping is left as it is |
| BulkTables.BulkTable.WithSchema | SqlBulkTools.NetStandard/BulkOperations/BulkTable.cs:137-144 | succeeds if and only if the schema was "dbo", then sets it and returns the same table; otherwise it fails and the schema is unchanged |
| BulkTables.BulkTable.WithBulkCopySettings | SqlBulkTools.NetStandard/BulkOperations/BulkTable.cs:151-155 | replaces the settings, changes nothing else, and returns the same table |
| BulkTables.MappingThenAllColumnsScenario | SqlBulkTools.NetStandard/BulkOperations/BulkTable.cs:97-130 | a mapping for an ineligible property outlives AddAllColumns, so "every mapping key is a column" holds before it and fails after it |
| BulkTables.NameThenIdScenario | SqlBulkTools.NetStandard/BulkOperations/BulkTable.cs:53-108 | AddColumn(Name, "full_name") then AddColumn(Id) gives columns {Name, Id} and mapping {Name -> full_name} |
| BulkTables.DuplicateMappingScenario | SqlBulkTools.NetStandard/BulkOperations/BulkTable.cs:97-108 | mapping the same property twice fails the second time with DuplicateKey, and the column stays selected |
| BulkTables.SchemaTwiceScenario | SqlBulkTools.NetStandard/BulkOperations/BulkTable.cs:137-144 | WithSchema succeeds on a table with the default schema, and a second WithSchema fails, keeping the first schema |
| BulkTables.AllColumnsScenario | SqlBulkTools.NetStandard/BulkOperations/BulkTable.cs:122-130 | AddAllColumns on Id, Name, CreatedAt (value types and string) and Tag (object) selects {Id, Name, CreatedAt}, with an empty mapping |
| BulkTables.AddAllColumnsCoverage | SqlBulkTools.NetStandard/BulkOperations/BulkTable.cs:128 | after AddAllColumns, every mapping key is a column if and only if each key names an eligible property |

## Left out

- Expression-tree parsing (`BulkOperationsHelper.GetPropertyName`) is not part of this model. The lambda is given as the outcome of that resolution: `MemberAccess(name)` or `OtherExpression`.
- `BulkOperationsHelper.GetAllValueTypeAndStringColumns` is not part of this model. Its selection follows the doc comment at BulkTable.cs:123: value types, `string`, `char[]` and `byte[]`. Each property carries a `PropertyType` class instead of a run-time `System.Type`.
- Reflection (`typeof(T).GetProperties()`) is replaced by the constructor argument `declaredProperties`.
- PropertyLists.SortByNameSorted, PropertyLists.SortByName: names are ordered character by character by Unicode scalar value, not by the culture-aware default string comparer that `OrderBy` uses. The stability of `OrderBy` is built into the insertion, but no lemma states it.
- PropertyLists.NameLeq: comparing by Unicode scalar value also differs from a UTF-16 ordinal order for characters outside the Basic Multilingual Plane. Such a character is encoded with a surrogate (0xD800-0xDFFF), which sorts below characters from 0xE000 to 0xFFFF in UTF-16.
- `Constants.DefaultSchemaName` is not part of this model. Its value, `"dbo"`, comes from the doc comment at BulkTable.cs:133.
- The next-stage builders `BulkAddColumn<T>` and `BulkAddColumnList<T>` are not part of this model. They are returned as a `ColumnStage` snapshot of the state at hand-off. In C# they share the same `HashSet` and `Dictionary` objects, so a later change made through either side is visible to the other. The model does not capture that aliasing.
- The `CustomColumnMappings` view (BulkTable.cs:23) is the `mappings` field itself. The C# view is the live dictionary behind a read-only interface, and the model does not capture that aliasing.
- A null array passed to a `params` overload, or a null `IEnumerable<ColumnMapping>`, is not modelled: Dafny sequences cannot be null. In C# the `foreach` throws `NullReferenceException` on it.
- The contents of `BulkCopySettings`, the `BulkOperations` handle and the source rows are type parameters that are only passed through.
- The bulk copy itself, and all database and driver interaction, is not part of this model.
