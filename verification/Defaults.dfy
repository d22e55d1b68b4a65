/** internal/controllers/compositiondefinitions/webhooks/utils/defaults/defaults.go */
module Defaults {
  import opened Wrappers

  /** A decoded JSON value, with integers told apart from floats as in an unstructured object. */
  datatype Value =
    | Null
    | Bool(b: bool)
    | Int(n: int)
    | Float(f: real)
    | Text(s: string)
    | List(items: seq<Value>)
    | Obj(fields: map<string, Value>)

  /** A default is raw JSON text; `Malformed` text does not parse. */
  datatype Default = Absent | Malformed | Parsed(value: Value)

  /** `items` is the default and type of the item schema, when there is one. */
  datatype Items = NoItems | Items(kind: string, default: Default)

  /** `properties` lists the entries of a Go map in no meaningful order; its names are distinct. */
  datatype Schema = Schema(kind: string, properties: seq<Property>, default: Default, items: Items,
                           minItems: Option<int>)
  {
    /** Only objects with declared properties are descended into. */
    predicate Nests()
    {
      kind == "object" && properties != []
    }
  }

  datatype Property = Property(name: string, schema: Schema)

  type Properties = seq<Property>
  type Fields = map<string, Value>

  function Truncate(f: real): int
  {
    if f >= 0.0 then f.Floor else -((-f).Floor)
  }

  /** JSON numbers decode as floats; a default of an integer field is converted back. */
  function Convert(v: Value, kind: string): Value
  {
    if kind == "integer" && v.Float? then Int(Truncate(v.f)) else v
  }

  function Repeat(v: Value, n: int): (l: seq<Value>)
    requires n >= 0
    ensures |l| == n && forall i :: 0 <= i < n ==> l[i] == v
  {
    seq(n, i => v)
  }

  predicate FillsItems(s: Schema)
  {
    s.kind == "array" && s.items.Items? && s.minItems.Some? && s.minItems.value > 0 && s.items.default != Absent
  }

  // ---- one pass as a pure merge ----

  /** The value of a field after one pass; `None` when it stays absent. Malformed defaults add nothing. */
  function MergeField(s: Schema, present: Option<Value>): Option<Value>
    decreases s, 1
  {
    match present
    case Some(v) => if s.Nests() && v.Obj? then Some(Obj(Merge(s.properties, v.fields))) else Some(v)
    case None =>
      if s.default != Absent then
        if s.default.Parsed? then Some(Convert(s.default.value, s.kind)) else None
      else if s.Nests() then
        var nested := Merge(s.properties, map[]);
        if nested == map[] then None else Some(Obj(nested))
      else if FillsItems(s) && s.items.default.Parsed? then
        Some(List(Repeat(Convert(s.items.default.value, s.items.kind), s.minItems.value)))
      else None
  }

  function Index(props: Properties, k: string): (i: nat)
    ensures i <= |props| && (i < |props| ==> props[i].name == k)
    ensures forall j :: 0 <= j < i ==> props[j].name != k
  {
    if props == [] || props[0].name == k then 0 else 1 + Index(props[1..], k)
  }

  predicate Declared(props: Properties, k: string)
  {
    Index(props, k) < |props|
  }

  function Names(props: Properties): (names: set<string>)
    ensures forall k :: k in names <==> Declared(props, k)
  {
    set i | 0 <= i < |props| :: props[i].name
  }

  function Merge(props: Properties, m: Fields): Fields
    decreases props, 0
  {
    map k | k in Names(props) + m.Keys && (k in m || MergeField(props[Index(props, k)].schema, None).Some?)
      :: if Declared(props, k) then MergeField(props[Index(props, k)].schema, At(m, k)).value else m[k]
  }

  /** The merge seen at one key. */
  function MergedAt(props: Properties, m: Fields, k: string): Option<Value>
  {
    if Declared(props, k) then MergeField(props[Index(props, k)].schema, At(m, k)) else At(m, k)
  }

  lemma MergeAt(props: Properties, m: Fields, k: string)
    ensures At(Merge(props, m), k) == MergedAt(props, m, k)
  {
  }

  lemma MergeExt(props: Properties, m: Fields, m': Fields)
    requires forall k :: At(m', k) == MergedAt(props, m, k)
    ensures m' == Merge(props, m)
  {
    var r := Merge(props, m);
    forall k ensures At(m', k) == At(r, k) {
      MergeAt(props, m, k);
    }
    SameFields(m', r);
  }

  lemma SameFields(a: Fields, b: Fields)
    requires forall k :: At(a, k) == At(b, k)
    ensures a == b
  {
    forall k ensures k in a <==> k in b {
      assert At(a, k) == At(b, k);
    }
    forall k | k in a ensures a[k] == b[k] {
      assert At(a, k) == At(b, k);
    }
  }

  // ---- when a pass fails ----

  /** A malformed default is reachable through absent fields. */
  predicate BrokenField(s: Schema, present: Option<Value>)
    decreases s, 1
  {
    match present
    case Some(v) => s.Nests() && v.Obj? && Broken(s.properties, v.fields)
    case None =>
      if s.default != Absent then s.default.Malformed?
      else if s.Nests() then Broken(s.properties, map[])
      else FillsItems(s) && s.items.default.Malformed?
  }

  predicate Broken(props: Properties, m: Fields)
    decreases props, 0
  {
    exists i :: 0 <= i < |props| && BrokenField(props[i].schema, At(m, props[i].name))
  }

  /** Property names are distinct at every level, as keys of a map are. */
  predicate Distinct(props: Properties)
  {
    && (forall i, j :: 0 <= i < j < |props| ==> props[i].name != props[j].name)
    && (forall i :: 0 <= i < |props| ==> Distinct(props[i].schema.properties))
  }

  lemma OnlyNamed(props: Properties, k: string)
    requires Distinct(props) && Declared(props, k)
    ensures forall i :: 0 <= i < |props| && props[i].name == k ==> i == Index(props, k)
  {
  }

  lemma IndexOf(props: Properties, i: nat)
    requires Distinct(props) && i < |props|
    ensures Index(props, props[i].name) == i
  {
  }

  /** A field that is as it was, or as after a pass, or an object of which that is true field by field. */
  ghost predicate PartField(s: Schema, before: Option<Value>, after: Option<Value>)
    decreases s, 1
  {
    || after == before
    || after == MergeField(s, before)
    || (&& s.Nests() && before.Some? && before.value.Obj? && after.Some? && after.value.Obj?
        && Part(s.properties, before.value.fields, after.value.fields))
  }

  ghost predicate PartAt(props: Properties, before: Fields, after: Fields, k: string)
    decreases props, 0
  {
    if Declared(props, k) then PartField(props[Index(props, k)].schema, At(before, k), At(after, k))
    else At(after, k) == At(before, k)
  }

  /** What a pass that fails may leave: some fields done, the others not. */
  ghost predicate Part(props: Properties, before: Fields, after: Fields)
    decreases props, 1
  {
    forall k :: PartAt(props, before, after, k)
  }

  // ---- the mutating loop ----

  /** A Go map that is filled in place. */
  class Target {
    var fields: Fields

    constructor (fields: Fields)
      ensures this.fields == fields
    {
      this.fields := fields;
    }
  }

  /**
   * `applyDefaultsToMap`: the properties are visited in whatever order the map is ranged over. For
   * every order the result is the same merge, and the same inputs fail.
   */
  method ApplyDefaultsToMap(properties: Properties, target: Target) returns (ok: bool)
    requires Distinct(properties)
    modifies target
    ensures ok <==> !Broken(properties, old(target.fields))
    ensures ok ==> target.fields == Merge(properties, old(target.fields))
    ensures !ok ==> Part(properties, old(target.fields), target.fields)
    decreases properties
  {
    ghost var m := target.fields;
    var todo := Names(properties);
    while todo != {}
      invariant todo <= Names(properties)
      invariant forall k :: At(target.fields, k) == if k in todo then At(m, k) else MergedAt(properties, m, k)
      invariant forall i :: 0 <= i < |properties| && properties[i].name !in todo ==>
                  !BrokenField(properties[i].schema, At(m, properties[i].name))
      decreases todo
    {
      var name :| name in todo;
      var schema := properties[Index(properties, name)].schema;
      assert At(target.fields, name) == At(m, name);
      ghost var before := target.fields;
      var r := ApplyDefault(name, schema, target);
      if !r {
        forall k ensures PartAt(properties, m, target.fields, k) {
          assert k != name ==> At(target.fields, k) == At(before, k);
        }
        return false;
      }
      todo := todo - {name};
      OnlyNamed(properties, name);
    }
    MergeExt(properties, m, target.fields);
    ok := true;
  }

  function WithField(m: Fields, k: string, v: Option<Value>): (m': Fields)
    requires k in m ==> v.Some?
    ensures forall j :: At(m', j) == if j == k then v else At(m, j)
  {
    if v.Some? then m[k := v.value] else m
  }

  /** The body of the loop, for one field. */
  method ApplyDefault(fieldName: string, fieldSchema: Schema, target: Target) returns (ok: bool)
    requires Distinct(fieldSchema.properties)
    modifies target
    ensures ok <==> !BrokenField(fieldSchema, At(old(target.fields), fieldName))
    ensures ok ==> target.fields == WithField(old(target.fields), fieldName,
                                             MergeField(fieldSchema, At(old(target.fields), fieldName)))
    ensures !ok ==> && (forall k :: k != fieldName ==> At(target.fields, k) == At(old(target.fields), k))
                    && PartField(fieldSchema, At(old(target.fields), fieldName), At(target.fields, fieldName))
    decreases fieldSchema, 1
  {
    ok := true;
    if fieldName in target.fields {
      if fieldSchema.Nests() {
        var fieldValue := target.fields[fieldName];
        if !fieldValue.Obj? {
          return;
        }
        var nested := new Target(fieldValue.fields);
        ok := ApplyDefaultsToMap(fieldSchema.properties, nested);
        target.fields := target.fields[fieldName := Obj(nested.fields)];
      }
    } else if fieldSchema.default != Absent {
      if fieldSchema.default.Malformed? {
        return false;
      }
      target.fields := target.fields[fieldName := Convert(fieldSchema.default.value, fieldSchema.kind)];
    } else if fieldSchema.Nests() {
      var nested := new Target(map[]);
      ok := ApplyDefaultsToMap(fieldSchema.properties, nested);
      if ok && nested.fields != map[] {
        target.fields := target.fields[fieldName := Obj(nested.fields)];
      }
    } else if FillsItems(fieldSchema) {
      if fieldSchema.items.default.Malformed? {
        return false;
      }
      var item := Convert(fieldSchema.items.default.value, fieldSchema.items.kind);
      target.fields := target.fields[fieldName := List(Repeat(item, fieldSchema.minItems.value))];
    }
  }

  // ---- the entry point ----

  /** A CRD version and the schema of the whole resource, if it has one. */
  datatype VersionSchema = VersionSchema(name: string, schema: Option<Properties>)

  datatype PopulateError = BadApiVersion | NoSchema | SpecNotAMap | BadDefault

  function Slashes(s: string): nat
  {
    if s == "" then 0 else (if s[0] == '/' then 1 else 0) + Slashes(s[1..])
  }

  function AfterSlash(s: string): string
  {
    if s == "" then "" else if s[0] == '/' then s[1..] else AfterSlash(s[1..])
  }

  /** The schema of the first version with this name that has one. */
  function SchemaFor(versions: seq<VersionSchema>, name: string): Option<Properties>
  {
    if versions == [] then None
    else if versions[0].name == name && versions[0].schema.Some? then versions[0].schema
    else SchemaFor(versions[1..], name)
  }

  /** A custom resource; `spec` is the value of its spec field, if present. */
  class Resource {
    const apiVersion: string
    var spec: Option<Value>

    constructor (apiVersion: string, spec: Option<Value>)
      ensures this.apiVersion == apiVersion && this.spec == spec
    {
      this.apiVersion, this.spec := apiVersion, spec;
    }
  }

  function SpecFields(spec: Option<Value>): Option<Fields>
  {
    match spec
    case None => Some(map[])
    case Some(Null) => Some(map[])
    case Some(Obj(f)) => Some(f)
    case _ => None
  }

  function SpecProperties(root: Properties): Properties
    requires Declared(root, "spec")
  {
    root[Index(root, "spec")].schema.properties
  }

  /** A resource can be defaulted: its version has a schema, its spec is a map and no default it needs is malformed. */
  predicate Populates(versions: seq<VersionSchema>, apiVersion: string, spec: Option<Value>)
  {
    var root := SchemaFor(versions, AfterSlash(apiVersion));
    && Slashes(apiVersion) == 1
    && root.Some?
    && (Declared(root.value, "spec") ==>
          SpecFields(spec).Some? && !Broken(SpecProperties(root.value), SpecFields(spec).value))
  }

  function Populated(versions: seq<VersionSchema>, apiVersion: string, spec: Option<Value>): Option<Value>
    requires Populates(versions, apiVersion, spec)
  {
    var root := SchemaFor(versions, AfterSlash(apiVersion)).value;
    if Declared(root, "spec") then Some(Obj(Merge(SpecProperties(root), SpecFields(spec).value))) else spec
  }

  method PopulateDefaultsFromCRD(versions: seq<VersionSchema>, cr: Resource) returns (err: Option<PopulateError>)
    requires forall i :: 0 <= i < |versions| && versions[i].schema.Some? ==> Distinct(versions[i].schema.value)
    modifies cr
    ensures err.Some? ==> cr.spec == old(cr.spec)
    ensures err.None? <==> Populates(versions, cr.apiVersion, old(cr.spec))
    ensures err.None? ==> cr.spec == Populated(versions, cr.apiVersion, old(cr.spec))
  {
    if Slashes(cr.apiVersion) != 1 {
      return Some(BadApiVersion);
    }
    var crVersion := AfterSlash(cr.apiVersion);
    var schema: Option<Properties> := None;
    for i := 0 to |versions|
      invariant schema.None?
      invariant unchanged(cr)
      invariant SchemaFor(versions, crVersion) == SchemaFor(versions[i..], crVersion)
    {
      assert versions[i..][1..] == versions[i + 1..];
      if versions[i].name == crVersion && versions[i].schema.Some? {
        schema := versions[i].schema;
        break;
      }
    }
    if schema.None? {
      return Some(NoSchema);
    }
    if !Declared(schema.value, "spec") {
      return None;
    }
    var specSchema := schema.value[Index(schema.value, "spec")].schema;
    if SpecFields(cr.spec).None? {
      return Some(SpecNotAMap);
    }
    var target := new Target(SpecFields(cr.spec).value);
    assert Distinct(schema.value);
    var ok := ApplyDefaultsToMap(specSchema.properties, target);
    if !ok {
      return Some(BadDefault);
    }
    cr.spec := Some(Obj(target.fields));
    err := None;
  }
}
