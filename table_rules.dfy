/** The rules the table-scoping stage applies to its column set, its custom column mapping and
    its schema, stated on values. The class in module BulkTables performs them in place. */
module TableRules {
  import opened Wrappers
  import opened ColumnMappings

  /** `Constants.DefaultSchemaName`, the schema a table has when none is given (BulkTable.cs:133). */
  const DefaultSchemaName: string := "dbo"

  /** The exceptions the stage raises; every one is a caller error. */
  datatype Error =
    | ArgumentNull(paramName: string)   // ArgumentNullException
    | DuplicateKey(key: string)         // ArgumentException from Dictionary.Add on a present key
    | SchemaAlreadyDefined              // SqlBulkToolsException from WithSchema
    | NotAPropertyAccess                // the lambda is not a plain property access

  /** What resolving a property name from a lambda such as `x => x.Id` produced. */
  datatype PropertyAccessor = MemberAccess(name: string) | OtherExpression

  /** `HashSet<string>`: a null element is allowed. */
  type ColumnSet = set<Option<string>>

  /** `Dictionary<string, string>`: keys are never null, values may be. */
  type MappingTable = map<string, Option<string>>

  /** Every custom mapping is for a column that takes part in the operation. */
  predicate KeysCovered(columns: ColumnSet, mappings: MappingTable)
  {
    forall k :: k in mappings ==> Some(k) in columns
  }

  /** The state of the two collections after some inserts, and the exception that stopped them. */
  datatype Applied = Applied(columns: ColumnSet, mappings: MappingTable, error: Option<Error>)

  /** One insert: `_columns.Add(name)`, then `_customColumnMappings.Add(name, destination)`.
      The column is added even when the dictionary insert then throws. */
  function AddMapping(columns: ColumnSet, mappings: MappingTable, pair: ColumnMapping): (r: Applied)
    ensures r.columns == columns + {pair.propertyName}
    ensures r.error.None? <==> pair.propertyName.Some? && pair.propertyName.value !in mappings
    ensures r.error.None? ==> r.mappings == mappings[pair.propertyName.value := pair.columnName]
    ensures r.error.Some? ==> r.mappings == mappings
    ensures pair.propertyName.None? ==> r.error == Some(ArgumentNull("key"))
    ensures pair.propertyName.Some? && pair.propertyName.value in mappings ==>
              r.error == Some(DuplicateKey(pair.propertyName.value))
  {
    var columns' := columns + {pair.propertyName};
    match pair.propertyName
    case None => Applied(columns', mappings, Some(ArgumentNull("key")))
    case Some(key) =>
      if key in mappings then Applied(columns', mappings, Some(DuplicateKey(key)))
      else Applied(columns', mappings[key := pair.columnName], None)
  }

  /** The pairs inserted one after the other, in input order; the first exception stops the
      loop and leaves the earlier inserts in place. */
  function ApplyMappings(columns: ColumnSet, mappings: MappingTable, pairs: seq<ColumnMapping>): (r: Applied)
    ensures columns <= r.columns
    ensures mappings.Keys <= r.mappings.Keys
    decreases |pairs|
  {
    if pairs == [] then Applied(columns, mappings, None)
    else
      var before := ApplyMappings(columns, mappings, pairs[..|pairs| - 1]);
      if before.error.Some? then before
      else AddMapping(before.columns, before.mappings, pairs[|pairs| - 1])
  }

  /** The property names of the pairs, null ones included. */
  function PropertyNames(pairs: seq<ColumnMapping>): ColumnSet
  {
    set i | 0 <= i < |pairs| :: pairs[i].propertyName
  }

  /** The non-null property names of the pairs. */
  function MappedKeys(pairs: seq<ColumnMapping>): set<string>
  {
    set i | 0 <= i < |pairs| && pairs[i].propertyName.Some? :: pairs[i].propertyName.value
  }

  /** Every pair can be inserted: its property name is non-null, not mapped yet, and not
      repeated within the input. */
  predicate MappingsAccepted(mappings: MappingTable, pairs: seq<ColumnMapping>)
  {
    && (forall i :: 0 <= i < |pairs| ==>
          pairs[i].propertyName.Some? && pairs[i].propertyName.value !in mappings)
    && (forall i, j :: 0 <= i < j < |pairs| ==> pairs[i].propertyName != pairs[j].propertyName)
  }

  /** A bulk insert that does not throw adds every property name to the columns and every
      pair to the mapping, and keeps the entries the mapping had. */
  lemma {:induction false} ApplyMappingsContents(columns: ColumnSet, mappings: MappingTable, pairs: seq<ColumnMapping>)
    requires ApplyMappings(columns, mappings, pairs).error.None?
    ensures var r := ApplyMappings(columns, mappings, pairs);
            && r.columns == columns + PropertyNames(pairs)
            && r.mappings.Keys == mappings.Keys + MappedKeys(pairs)
            && (forall k :: k in mappings ==> r.mappings[k] == mappings[k])
            && (forall i :: 0 <= i < |pairs| ==>
                  pairs[i].propertyName.Some? && r.mappings[pairs[i].propertyName.value] == pairs[i].columnName)
    decreases |pairs|
  {
    if pairs != [] {
      var n := |pairs| - 1;
      var front, last := pairs[..n], pairs[n];
      assert forall i :: 0 <= i < n ==> front[i] == pairs[i];
      ApplyMappingsContents(columns, mappings, front);
      assert PropertyNames(pairs) == PropertyNames(front) + {last.propertyName};
      assert MappedKeys(pairs) == MappedKeys(front) + {last.propertyName.value};
    }
  }

  /** The bulk insert succeeds exactly when the pairs are accepted. */
  lemma {:induction false} ApplyMappingsSuccess(columns: ColumnSet, mappings: MappingTable, pairs: seq<ColumnMapping>)
    ensures ApplyMappings(columns, mappings, pairs).error.None? <==> MappingsAccepted(mappings, pairs)
    decreases |pairs|
  {
    if pairs != [] {
      var n := |pairs| - 1;
      var front, last := pairs[..n], pairs[n];
      assert forall i :: 0 <= i < n ==> front[i] == pairs[i];
      ApplyMappingsSuccess(columns, mappings, front);
      var before := ApplyMappings(columns, mappings, front);
      if before.error.Some? {
        assert !MappingsAccepted(mappings, pairs) by {
          if MappingsAccepted(mappings, pairs) {
            assert MappingsAccepted(mappings, front);
          }
        }
      } else {
        ApplyMappingsContents(columns, mappings, front);
        if MappingsAccepted(mappings, pairs) {
          assert last.propertyName.value !in MappedKeys(front);
        }
      }
    }
  }

  /** When the bulk insert throws, it threw at some pair `k`: the pairs before it were all
      inserted, and pair `k` got as far as adding its property name to the columns. */
  lemma {:induction false} ApplyMappingsStopsAtFailure(columns: ColumnSet, mappings: MappingTable, pairs: seq<ColumnMapping>)
    requires ApplyMappings(columns, mappings, pairs).error.Some?
    ensures exists k :: 0 <= k < |pairs| &&
              var before := ApplyMappings(columns, mappings, pairs[..k]);
              before.error.None? &&
              ApplyMappings(columns, mappings, pairs) == AddMapping(before.columns, before.mappings, pairs[k])
    decreases |pairs|
  {
    var n := |pairs| - 1;
    var front := pairs[..n];
    if ApplyMappings(columns, mappings, front).error.Some? {
      ApplyMappingsStopsAtFailure(columns, mappings, front);
      var k :| 0 <= k < |front| &&
                var before := ApplyMappings(columns, mappings, front[..k]);
                before.error.None? &&
                ApplyMappings(columns, mappings, front) == AddMapping(before.columns, before.mappings, front[k]);
      assert front[..k] == pairs[..k];
    } else {
      assert pairs[..n] == front;
    }
  }

  /** Once an insert has thrown, nothing after it runs. */
  lemma {:induction false} ApplyMappingsFailureSticks(columns: ColumnSet, mappings: MappingTable, pairs: seq<ColumnMapping>, more: seq<ColumnMapping>)
    requires ApplyMappings(columns, mappings, pairs).error.Some?
    ensures ApplyMappings(columns, mappings, pairs + more) == ApplyMappings(columns, mappings, pairs)
    decreases |more|
  {
    if more == [] {
      assert pairs + more == pairs;
    } else {
      var front := more[..|more| - 1];
      assert (pairs + more)[..|pairs + more| - 1] == pairs + front;
      ApplyMappingsFailureSticks(columns, mappings, pairs, front);
    }
  }

  /** The bulk insert keeps every mapping key in the column set, whether or not it throws. */
  lemma {:induction false} ApplyMappingsKeepsCoverage(columns: ColumnSet, mappings: MappingTable, pairs: seq<ColumnMapping>)
    requires KeysCovered(columns, mappings)
    ensures var r := ApplyMappings(columns, mappings, pairs); KeysCovered(r.columns, r.mappings)
    decreases |pairs|
  {
    if pairs != [] {
      ApplyMappingsKeepsCoverage(columns, mappings, pairs[..|pairs| - 1]);
    }
  }

  /** `WithSchema`'s rule: the schema may be set only while it is still the default one. */
  function SetSchema(current: Option<string>, requested: Option<string>): (r: Result<Option<string>, Error>)
    ensures r.Success? <==> current == Some(DefaultSchemaName)
    ensures r.Success? ==> r.value == requested
    ensures r.Failure? ==> r.error == SchemaAlreadyDefined
  {
    if current != Some(DefaultSchemaName) then Failure(SchemaAlreadyDefined) else Success(requested)
  }

  /** After one successful `WithSchema`, a second one succeeds only if the first set the default. */
  lemma SchemaIsOneShot(current: Option<string>, first: Option<string>, second: Option<string>)
    requires SetSchema(current, first).Success?
    ensures SetSchema(first, second).Success? <==> first == Some(DefaultSchemaName)
  {
  }

  /** The index of the first lambda that is not a property access, or the length when all are. */
  function FirstUnresolved(accessors: seq<PropertyAccessor>): (k: nat)
    ensures k <= |accessors|
    ensures forall i :: 0 <= i < k ==> accessors[i].MemberAccess?
    ensures k < |accessors| ==> accessors[k].OtherExpression?
  {
    if accessors == [] || accessors[0].OtherExpression? then 0
    else 1 + FirstUnresolved(accessors[1..])
  }

  /** The names of the lambdas that resolve. */
  function ResolvedNames(accessors: seq<PropertyAccessor>): ColumnSet
  {
    set i | 0 <= i < |accessors| && accessors[i].MemberAccess? :: Some(accessors[i].name)
  }
}
