/** The reflected property list of the model type: captured once when a table is created,
    ordered by property name (BulkTable.cs:45), and filtered by type when all columns are
    added (BulkTable.cs:123-128). */
module PropertyLists {
  import opened Wrappers

  /** The classification of a property's type that "add all columns" looks at. */
  datatype PropertyType =
    | ValueType            // numbers, bool, enums, DateTime, Guid and every other struct
    | StringType
    | CharArrayType
    | ByteArrayType
    | OtherReferenceType   // object, nested classes, collections, ...

  /** What the model keeps of a `PropertyInfo`: its name and the class of its type. */
  datatype PropertyInfo = PropertyInfo(name: string, propertyType: PropertyType)

  /** Lexicographic order on names by Unicode scalar value, character by character; a prefix comes first. */
  predicate NameLeq(a: string, b: string)
  {
    if a == [] then true
    else if b == [] then false
    else if a[0] != b[0] then a[0] < b[0]
    else NameLeq(a[1..], b[1..])
  }

  lemma {:induction false} NameLeqTotal(a: string, b: string)
    ensures NameLeq(a, b) || NameLeq(b, a)
  {
    if a != [] && b != [] && a[0] == b[0] {
      NameLeqTotal(a[1..], b[1..]);
    }
  }

  lemma {:induction false} NameLeqTransitive(a: string, b: string, c: string)
    requires NameLeq(a, b) && NameLeq(b, c)
    ensures NameLeq(a, c)
  {
    if a != [] && b != [] && c != [] && a[0] == b[0] && b[0] == c[0] {
      NameLeqTransitive(a[1..], b[1..], c[1..]);
    }
  }

  predicate SortedByName(s: seq<PropertyInfo>)
  {
    forall i, j :: 0 <= i < j < |s| ==> NameLeq(s[i].name, s[j].name)
  }

  /** Inserts `p` in front of the first element whose name is not smaller, so that `p` stays
      ahead of elements with an equal name (the stability of `OrderBy`). */
  function InsertByName(p: PropertyInfo, s: seq<PropertyInfo>): (r: seq<PropertyInfo>)
    ensures |r| == |s| + 1
  {
    if s == [] || NameLeq(p.name, s[0].name) then [p] + s
    else [s[0]] + InsertByName(p, s[1..])
  }

  /** `properties.OrderBy(x => x.Name).ToList()`. */
  function SortByName(s: seq<PropertyInfo>): (r: seq<PropertyInfo>)
    ensures |r| == |s|
  {
    if s == [] then [] else InsertByName(s[0], SortByName(s[1..]))
  }

  lemma {:induction false} InsertByNameSorted(p: PropertyInfo, s: seq<PropertyInfo>)
    requires SortedByName(s)
    ensures SortedByName(InsertByName(p, s))
    ensures multiset(InsertByName(p, s)) == multiset(s) + multiset{p}
  {
    if s == [] {
    } else if NameLeq(p.name, s[0].name) {
      var r := [p] + s;
      forall i, j | 0 <= i < j < |r| ensures NameLeq(r[i].name, r[j].name) {
        if i == 0 && j > 1 {
          NameLeqTransitive(p.name, s[0].name, s[j - 1].name);
        }
      }
    } else {
      var rest := InsertByName(p, s[1..]);
      InsertByNameSorted(p, s[1..]);
      assert s == [s[0]] + s[1..];
      NameLeqTotal(p.name, s[0].name);
      var r := [s[0]] + rest;
      forall i, j | 0 <= i < j < |r| ensures NameLeq(r[i].name, r[j].name) {
        if i == 0 {
          assert r[j] in multiset(rest);
        }
      }
    }
  }

  lemma {:induction false} SortByNameSorted(s: seq<PropertyInfo>)
    ensures SortedByName(SortByName(s))
    ensures multiset(SortByName(s)) == multiset(s)
  {
    if s != [] {
      SortByNameSorted(s[1..]);
      InsertByNameSorted(s[0], SortByName(s[1..]));
      assert s == [s[0]] + s[1..];
    }
  }

  /** The property types whose columns "add all columns" includes (doc comment, BulkTable.cs:123). */
  predicate IsValueOrStringType(t: PropertyType)
  {
    t.ValueType? || t.StringType? || t.CharArrayType? || t.ByteArrayType?
  }

  /** `BulkOperationsHelper.GetAllValueTypeAndStringColumns`: the names of the eligible properties. */
  function EligibleColumns(properties: seq<PropertyInfo>): (r: set<Option<string>>)
    ensures None !in r
    ensures forall p :: p in properties && IsValueOrStringType(p.propertyType) ==> Some(p.name) in r
  {
    set p | p in properties && IsValueOrStringType(p.propertyType) :: Some(p.name)
  }

  /** The eligible columns do not depend on the order of the property list, so sorting it at
      construction does not change what "add all columns" selects. */
  lemma EligibleColumnsOfSorted(s: seq<PropertyInfo>)
    ensures EligibleColumns(SortByName(s)) == EligibleColumns(s)
  {
    SortByNameSorted(s);
    forall p ensures p in SortByName(s) <==> p in s {
      assert p in SortByName(s) <==> p in multiset(SortByName(s));
    }
  }

  /** A model with `Id: int, Name: string, CreatedAt: DateTime, Tag: object`: everything but `Tag`
      (in declaration order; EligibleColumnsOfSorted carries it over to the sorted list). */
  lemma EligibleColumnsExample()
    ensures EligibleColumns([PropertyInfo("Id", ValueType), PropertyInfo("Name", StringType),
                             PropertyInfo("CreatedAt", ValueType), PropertyInfo("Tag", OtherReferenceType)])
         == {Some("Id"), Some("Name"), Some("CreatedAt")}
  {
    var s := [PropertyInfo("Id", ValueType), PropertyInfo("Name", StringType),
              PropertyInfo("CreatedAt", ValueType), PropertyInfo("Tag", OtherReferenceType)];
    assert forall p :: p in s <==> p == s[0] || p == s[1] || p == s[2] || p == s[3];
  }
}
