/** `BulkTable<T>` (BulkOperations/BulkTable.cs): the table-scoping stage of the fluent bulk-copy
    builder. It owns the column set, the custom column mapping, the schema and the copy settings,
    changes them in place, and hands them to the next builder stage. */
module BulkTables {
  import opened Wrappers
  import opened ColumnMappings
  import opened PropertyLists
  import opened TableRules

  /** Which next-stage builder an operation returns: `BulkAddColumn<T>` or `BulkAddColumnList<T>`. */
  datatype StageKind = AddColumnStage | AddColumnListStage

  /** What the next stage is constructed from (BulkTable.cs:57): the handle, the rows, the table
      name, the column set, the mapping, the schema, the settings and the property list. */
  datatype ColumnStage<T, H, S> = ColumnStage(
    kind: StageKind,
    bulk: H,
    list: seq<T>,
    tableName: Option<string>,
    columns: ColumnSet,
    mappings: MappingTable,
    schema: Option<string>,
    settings: S,
    properties: seq<PropertyInfo>)

  /** `T` is the row type, `H` the `BulkOperations` handle, `S` the `BulkCopySettings` type; the
      model only passes values of these types through. */
  class BulkTable<T, H, S> {
    const bulk: H
    const list: seq<T>
    const tableName: Option<string>
    const properties: seq<PropertyInfo>
    var columns: ColumnSet
    var mappings: MappingTable
    var schema: Option<string>
    var settings: S

    /** `declaredProperties` is what reflection reports for `T`; `defaultSettings` is a freshly
        constructed `BulkCopySettings`. */
    constructor (bulk: H, list: seq<T>, tableName: Option<string>, schema: Option<string>,
                 defaultSettings: S, declaredProperties: seq<PropertyInfo>)
      ensures this.bulk == bulk && this.list == list && this.tableName == tableName
      ensures this.schema == schema && settings == defaultSettings
      ensures columns == {} && mappings == map[]
      ensures properties == SortByName(declaredProperties)
      ensures SortedByName(properties) && multiset(properties) == multiset(declaredProperties)
    {
      this.bulk := bulk;
      this.list := list;
      this.schema := schema;
      columns := {};
      mappings := map[];
      this.tableName := tableName;
      settings := defaultSettings;
      properties := SortByName(declaredProperties);
      SortByNameSorted(declaredProperties);
    }

    /** The next stage of the given kind: it is handed this table's column set, mapping,
        schema and settings, together with the handle, rows, table name and property list. */
    function Stage(kind: StageKind): (stage: ColumnStage<T, H, S>)
      reads this
      ensures stage.kind == kind
      ensures stage.columns == columns && stage.mappings == mappings
      ensures stage.schema == schema && stage.settings == settings
      ensures stage.bulk == bulk && stage.list == list && stage.tableName == tableName
      ensures stage.properties == properties
    {
      ColumnStage(kind, bulk, list, tableName, columns, mappings, schema, settings, properties)
    }

    /** Every custom mapping is for a selected column. */
    predicate KeysAreColumns()
      reads this
    {
      KeysCovered(columns, mappings)
    }

    /** The `Columns` view: `_columns.ToList()`, the set's elements once each, in no promised order. */
    method Columns() returns (view: seq<Option<string>>)
      ensures |view| == |columns|
      ensures forall c :: c in view <==> c in columns
      ensures forall i, j :: 0 <= i < j < |view| ==> view[i] != view[j]
    {
      var rest := columns;
      view := [];
      while rest != {}
        invariant rest <= columns
        invariant forall c :: c in view <==> c in columns && c !in rest
        invariant forall i, j :: 0 <= i < j < |view| ==> view[i] != view[j]
        invariant |view| + |rest| == |columns|
        decreases |rest|
      {
        var c :| c in rest;
        view := view + [c];
        rest := rest - {c};
      }
    }

    /** `AddColumn(Expression)`: adds the property the lambda names. */
    method AddColumn(accessor: PropertyAccessor) returns (r: Result<ColumnStage<T, H, S>, Error>)
      modifies this`columns
      ensures accessor.OtherExpression? ==> r == Failure(NotAPropertyAccess) && columns == old(columns)
      ensures accessor.MemberAccess? ==>
                columns == old(columns) + {Some(accessor.name)} && r == Success(Stage(AddColumnStage))
      ensures old(KeysAreColumns()) ==> KeysAreColumns()
    {
      match accessor
      case OtherExpression =>
        return Failure(NotAPropertyAccess);
      case MemberAccess(name) =>
        columns := columns + {Some(name)};
        return Success(Stage(AddColumnStage));
    }

    /** `AddColumns(params Expression[])`: adds the properties in order; a lambda that does not
        resolve throws, and the names resolved before it stay added. */
    method AddColumns(accessors: seq<PropertyAccessor>) returns (r: Result<ColumnStage<T, H, S>, Error>)
      modifies this`columns
      ensures columns == old(columns) + ResolvedNames(accessors[..FirstUnresolved(accessors)])
      ensures r.Success? <==> FirstUnresolved(accessors) == |accessors|
      ensures r.Success? ==> r == Success(Stage(AddColumnStage))
      ensures r.Failure? ==> r.error == NotAPropertyAccess
      ensures old(KeysAreColumns()) ==> KeysAreColumns()
    {
      var i := 0;
      while i < |accessors|
        invariant 0 <= i <= |accessors|
        invariant forall j :: 0 <= j < i ==> accessors[j].MemberAccess?
        invariant columns == old(columns) + ResolvedNames(accessors[..i])
      {
        if accessors[i].OtherExpression? {
          return Failure(NotAPropertyAccess);
        }
        assert ResolvedNames(accessors[..i + 1]) == ResolvedNames(accessors[..i]) + {Some(accessors[i].name)};
        columns := columns + {Some(accessors[i].name)};
        i := i + 1;
      }
      assert accessors[..i] == accessors;
      return Success(Stage(AddColumnStage));
    }

    /** `AddColumns(params string[])`: adds every name, null ones included. */
    method AddColumnsByName(names: seq<Option<string>>) returns (r: ColumnStage<T, H, S>)
      modifies this`columns
      ensures columns == old(columns) + set c | c in names
      ensures r == Stage(AddColumnStage)
      ensures old(KeysAreColumns()) ==> KeysAreColumns()
    {
      for i := 0 to |names|
        invariant columns == old(columns) + set c | c in names[..i]
      {
        assert names[..i + 1] == names[..i] + [names[i]];
        columns := columns + {names[i]};
      }
      assert names[..|names|] == names;
      r := Stage(AddColumnStage);
    }

    /** One dictionary insert after adding the column: the loop body of the bulk-mapping
        overload and the tail of both destination overloads. */
    method Insert(pair: ColumnMapping) returns (error: Option<Error>)
      modifies this`columns, this`mappings
      ensures Applied(columns, mappings, error) == AddMapping(old(columns), old(mappings), pair)
    {
      columns := columns + {pair.propertyName};
      match pair.propertyName
      case None =>
        error := Some(ArgumentNull("key"));
      case Some(key) =>
        if key in mappings {
          error := Some(DuplicateKey(key));
        } else {
          mappings := mappings[key := pair.columnName];
          error := None;
        }
    }

    /** `AddColumns(IEnumerable<ColumnMapping>)`: each pair in input order adds its property name
        to the columns and then its mapping; the first failing insert throws and the pairs before
        it stay applied. */
    method AddColumnMappings(pairs: seq<ColumnMapping>) returns (r: Result<ColumnStage<T, H, S>, Error>)
      modifies this`columns, this`mappings
      ensures var applied := ApplyMappings(old(columns), old(mappings), pairs);
              && columns == applied.columns && mappings == applied.mappings
              && (r.Failure? <==> applied.error.Some?)
              && (r.Failure? ==> r.error == applied.error.value)
      ensures r.Success? ==> r == Success(Stage(AddColumnStage))
      ensures old(KeysAreColumns()) ==> KeysAreColumns()
    {
      ghost var columns0, mappings0 := columns, mappings;
      if KeysCovered(columns0, mappings0) {
        ApplyMappingsKeepsCoverage(columns0, mappings0, pairs);
      }
      for i := 0 to |pairs|
        invariant Applied(columns, mappings, None) == ApplyMappings(columns0, mappings0, pairs[..i])
      {
        assert pairs[..i + 1][..i] == pairs[..i];
        var error := Insert(pairs[i]);
        if error.Some? {
          ApplyMappingsFailureSticks(columns0, mappings0, pairs[..i + 1], pairs[i + 1..]);
          assert pairs[..i + 1] + pairs[i + 1..] == pairs;
          return Failure(error.value);
        }
      }
      assert pairs[..|pairs|] == pairs;
      return Success(Stage(AddColumnStage));
    }

    /** `AddColumn(Expression, string destination)`: a null destination throws before anything
        else; then the lambda is resolved, the column added, and the mapping inserted. */
    method AddColumnAs(accessor: PropertyAccessor, destination: Option<string>)
      returns (r: Result<ColumnStage<T, H, S>, Error>)
      modifies this`columns, this`mappings
      ensures destination.None? ==>
                r == Failure(ArgumentNull("destination")) && columns == old(columns) && mappings == old(mappings)
      ensures destination.Some? && accessor.OtherExpression? ==>
                r == Failure(NotAPropertyAccess) && columns == old(columns) && mappings == old(mappings)
      ensures destination.Some? && accessor.MemberAccess? ==>
                && columns == old(columns) + {Some(accessor.name)}
                && (accessor.name in old(mappings) ==>
                      r == Failure(DuplicateKey(accessor.name)) && mappings == old(mappings))
                && (accessor.name !in old(mappings) ==>
                      r == Success(Stage(AddColumnStage)) && mappings == old(mappings)[accessor.name := destination])
      ensures old(KeysAreColumns()) ==> KeysAreColumns()
    {
      if destination.None? {
        return Failure(ArgumentNull("destination"));
      }
      if accessor.OtherExpression? {
        return Failure(NotAPropertyAccess);
      }
      var error := Insert(ColumnMapping(Some(accessor.name), destination));
      r := if error.Some? then Failure(error.value) else Success(Stage(AddColumnStage));
    }

    /** `AddColumn(string columnName, string destination)`: as above with the name given directly;
        a null name is added to the column set and then rejected as a dictionary key. */
    method AddColumnByNameAs(columnName: Option<string>, destination: Option<string>)
      returns (r: Result<ColumnStage<T, H, S>, Error>)
      modifies this`columns, this`mappings
      ensures destination.None? ==>
                r == Failure(ArgumentNull("destination")) && columns == old(columns) && mappings == old(mappings)
      ensures destination.Some? ==> columns == old(columns) + {columnName}
      ensures destination.Some? && columnName.None? ==>
                r == Failure(ArgumentNull("key")) && mappings == old(mappings)
      ensures destination.Some? && columnName.Some? && columnName.value in old(mappings) ==>
                r == Failure(DuplicateKey(columnName.value)) && mappings == old(mappings)
      ensures destination.Some? && columnName.Some? && columnName.value !in old(mappings) ==>
                r == Success(Stage(AddColumnStage)) && mappings == old(mappings)[columnName.value := destination]
      ensures old(KeysAreColumns()) ==> KeysAreColumns()
    {
      if destination.None? {
        return Failure(ArgumentNull("destination"));
      }
      var error := Insert(ColumnMapping(columnName, destination));
      r := if error.Some? then Failure(error.value) else Success(Stage(AddColumnStage));
    }

    /** `AddAllColumns()`: replaces the column set by the eligible property names; the mapping is
        left as it is, so a mapping added earlier may no longer be for a selected column. */
    method AddAllColumns() returns (r: ColumnStage<T, H, S>)
      modifies this`columns
      ensures columns == EligibleColumns(properties)
      ensures r == Stage(AddColumnListStage)
    {
      columns := EligibleColumns(properties);
      r := Stage(AddColumnListStage);
    }

    /** `WithSchema(schema)`: allowed only while the schema is still the default one. */
    method WithSchema(requested: Option<string>) returns (r: Result<BulkTable<T, H, S>, Error>)
      modifies this`schema
      ensures r.Success? <==> old(schema) == Some(DefaultSchemaName)
      ensures r.Success? ==> r.value == this && schema == requested
      ensures r.Failure? ==> r.error == SchemaAlreadyDefined && schema == old(schema)
    {
      match SetSchema(schema, requested)
      case Failure(e) =>
        return Failure(e);
      case Success(s) =>
        schema := s;
        return Success(this);
    }

    /** `WithBulkCopySettings(settings)`: replaces the settings and nothing else. */
    method WithBulkCopySettings(newSettings: S) returns (r: BulkTable<T, H, S>)
      modifies this`settings
      ensures settings == newSettings
      ensures r == this
    {
      settings := newSettings;
      return this;
    }
  }

  /** `AddAllColumns` can break "every mapping key is a column": a mapping added for a property
      whose type is not eligible stays after the column set is replaced. */
  method MappingThenAllColumnsScenario<T, H, S>(bulk: H, list: seq<T>, defaultSettings: S)
    returns (coveredBefore: bool, coveredAfter: bool, mappings: MappingTable)
    ensures coveredBefore && !coveredAfter
    ensures mappings == map["Tag" := Some("tag_value")]
  {
    var declared := [PropertyInfo("Id", ValueType), PropertyInfo("Tag", OtherReferenceType)];
    var table := new BulkTable(bulk, list, Some("Users"), Some(DefaultSchemaName), defaultSettings, declared);
    var mapped := table.AddColumnAs(MemberAccess("Tag"), Some("tag_value"));
    coveredBefore := table.KeysAreColumns();
    var stage := table.AddAllColumns();
    assert Some("Tag") !in EligibleColumns(table.properties);
    coveredAfter := table.KeysAreColumns();
    mappings := table.mappings;
  }

  /** Every mapping survives `AddAllColumns` as a column exactly when it is for an eligible property. */
  lemma AddAllColumnsCoverage(properties: seq<PropertyInfo>, mappings: MappingTable)
    ensures KeysCovered(EligibleColumns(properties), mappings) <==>
              forall k :: k in mappings ==>
                exists p :: p in properties && IsValueOrStringType(p.propertyType) && p.name == k
  {
  }

  /** `AddColumn(x => x.Name, "full_name")` then `AddColumn(x => x.Id)`. */
  method NameThenIdScenario<T, H, S>(bulk: H, list: seq<T>, defaultSettings: S, declared: seq<PropertyInfo>)
    returns (columns: ColumnSet, mappings: MappingTable)
    ensures columns == {Some("Name"), Some("Id")}
    ensures mappings == map["Name" := Some("full_name")]
  {
    var table := new BulkTable(bulk, list, Some("Users"), Some(DefaultSchemaName), defaultSettings, declared);
    var first := table.AddColumnAs(MemberAccess("Name"), Some("full_name"));
    var second := table.AddColumn(MemberAccess("Id"));
    columns, mappings := table.columns, table.mappings;
  }

  /** Mapping the same property twice: the second call throws, and the column is still selected. */
  method DuplicateMappingScenario<T, H, S>(bulk: H, list: seq<T>, defaultSettings: S, declared: seq<PropertyInfo>)
    returns (second: Result<ColumnStage<T, H, S>, Error>, columns: ColumnSet, mappings: MappingTable)
    ensures second == Failure(DuplicateKey("Name"))
    ensures Some("Name") in columns
    ensures mappings == map["Name" := Some("full_name")]
  {
    var table := new BulkTable(bulk, list, Some("Users"), Some(DefaultSchemaName), defaultSettings, declared);
    var first := table.AddColumnAs(MemberAccess("Name"), Some("full_name"));
    second := table.AddColumnAs(MemberAccess("Name"), Some("other_name"));
    columns, mappings := table.columns, table.mappings;
  }

  /** `WithSchema` twice on a table created with the default schema: the first call takes, the
      second throws and leaves the schema of the first. */
  method SchemaTwiceScenario<T, H, S>(bulk: H, list: seq<T>, defaultSettings: S, declared: seq<PropertyInfo>)
    returns (first: bool, second: bool, schema: Option<string>)
    ensures first && !second
    ensures schema == Some("sales")
  {
    var table := new BulkTable(bulk, list, Some("Users"), Some(DefaultSchemaName), defaultSettings, declared);
    var r1 := table.WithSchema(Some("sales"));
    var r2 := table.WithSchema(Some("audit"));
    first, second, schema := r1.Success?, r2.Success?, table.schema;
  }

  /** "Add all columns" on a model `Id: int, Name: string, CreatedAt: DateTime, Tag: object`. */
  method AllColumnsScenario<T, H, S>(bulk: H, list: seq<T>, defaultSettings: S)
    returns (columns: ColumnSet, mappings: MappingTable)
    ensures columns == {Some("Id"), Some("Name"), Some("CreatedAt")}
    ensures mappings == map[]
  {
    var declared := [PropertyInfo("Id", ValueType), PropertyInfo("Name", StringType),
                     PropertyInfo("CreatedAt", ValueType), PropertyInfo("Tag", OtherReferenceType)];
    var table := new BulkTable(bulk, list, Some("Users"), Some(DefaultSchemaName), defaultSettings, declared);
    var stage := table.AddAllColumns();
    EligibleColumnsOfSorted(declared);
    EligibleColumnsExample();
    columns, mappings := table.columns, table.mappings;
  }
}
