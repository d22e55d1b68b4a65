/** What defaulting puts where nothing was set, and whose defaults a resource gets. */
module DefaultsFill {
  import opened Wrappers
  import opened Defaults
  import opened DefaultsFacts

  // ---- what a filled field holds ----

  /** The integer part of a number, towards zero. */
  predicate IntegerPart(n: int, f: real)
  {
    if f >= 0.0 then n as real <= f < n as real + 1.0 else n as real - 1.0 < f <= n as real
  }

  /** There is one such integer, and it is the number itself if that is whole. */
  lemma OneIntegerPart(f: real, n: int, k: int)
    requires IntegerPart(n, f)
    ensures IntegerPart(k, f) <==> k == n
    ensures f == k as real ==> k == n
  {
  }

  /** A decoded default as a field of this type holds it: a number in an integer field loses its fraction. */
  ghost predicate HeldAs(v: Value, default: Value, kind: string)
  {
    if kind == "integer" && default.Float? then v.Int? && IntegerPart(v.n, default.f) else v == default
  }

  lemma ConvertHolds(default: Value, kind: string)
    ensures HeldAs(Convert(default, kind), default, kind)
  {
  }

  /**
   * The schema of a field that a pass finds absent: all objects on the way are set, or are absent without a
   * default of their own.
   */
  function Reached(props: Properties, m: Fields, path: seq<string>): Option<Schema>
    requires path != []
    decreases |path|
  {
    var k, rest := path[0], path[1..];
    if !Declared(props, k) then None
    else
      var s := props[Index(props, k)].schema;
      if rest == [] then if k in m then None else Some(s)
      else if s.kind != "object" || s.properties == [] then None
      else if k in m then if m[k].Obj? then Reached(s.properties, m[k].fields, rest) else None
      else if s.default.Absent? then Reached(s.properties, map[], rest) else None
  }

  /** An array without a default whose items have one, and of which there must be some. */
  predicate Listable(s: Schema)
  {
    && s.kind == "array" && s.items.Items? && s.minItems.Some? && s.minItems.value > 0 && s.items.default.Parsed?
  }

  /** What a pass puts into an absent field. */
  ghost predicate Filled(s: Schema, after: Option<Value>)
  {
    match s.default
    case Parsed(default) => after.Some? && HeldAs(after.value, default, s.kind)
    case Malformed => after.None?
    case Absent =>
      if s.kind == "object" && s.properties != [] then after.Some? ==> after.value.Obj? && after.value.fields != map[]
      else if Listable(s) then
        && after.Some? && after.value.List? && |after.value.items| == s.minItems.value
        && forall i :: 0 <= i < |after.value.items| ==>
             HeldAs(after.value.items[i], s.items.default.value, s.items.kind)
      else after.None?
  }

  lemma FieldFilled(s: Schema)
    ensures Filled(s, MergeField(s, None))
  {
    if s.default.Parsed? {
      ConvertHolds(s.default.value, s.kind);
    } else if Listable(s) {
      ConvertHolds(s.items.default.value, s.items.kind);
    }
  }

  /** A pass does below an object what it would do to that object alone. */
  lemma BelowObject(props: Properties, m: Fields, path: seq<string>)
    requires |path| > 1 && Reached(props, m, path).Some?
    ensures var s := props[Index(props, path[0])].schema;
            var inner := if path[0] in m then m[path[0]].fields else map[];
            && Reached(props, m, path) == Reached(s.properties, inner, path[1..])
            && Lookup(Obj(Merge(props, m)), path) == Lookup(Obj(Merge(s.properties, inner)), path[1..])
  {
    MergeAt(props, m, path[0]);
  }

  /** At every path that a pass finds absent, it puts what the schema there says. */
  lemma {:induction false} PassFills(props: Properties, m: Fields, path: seq<string>)
    requires path != [] && Reached(props, m, path).Some?
    ensures Filled(Reached(props, m, path).value, Lookup(Obj(Merge(props, m)), path))
    decreases |path|
  {
    hide Filled;
    hide MergeField;
    var k := path[0];
    var s := props[Index(props, k)].schema;
    if |path| == 1 {
      MergeAt(props, m, k);
      FieldFilled(s);
    } else {
      BelowObject(props, m, path);
      PassFills(s.properties, if k in m then m[k].fields else map[], path[1..]);
    }
  }

  // ---- whose defaults ----

  lemma {:induction false} OneSlash(group: string, version: string)
    requires '/' !in group && '/' !in version
    ensures Slashes(group + "/" + version) == 1 && AfterSlash(group + "/" + version) == version
  {
    var s := group + "/" + version;
    if group == "" {
      assert s[1..] == version;
      NoSlash(version);
    } else {
      assert s[0] == group[0] && s[1..] == group[1..] + "/" + version;
      OneSlash(group[1..], version);
    }
  }

  lemma {:induction false} NoSlash(s: string)
    requires '/' !in s
    ensures Slashes(s) == 0
  {
    if s != "" {
      NoSlash(s[1..]);
    }
  }

  lemma {:induction false} OnlySchema(versions: seq<VersionSchema>, i: nat)
    requires i < |versions|
    requires forall j :: 0 <= j < |versions| && j != i ==> versions[j].name != versions[i].name
    ensures SchemaFor(versions, versions[i].name) == versions[i].schema
  {
    if i > 0 {
      OnlySchema(versions[1..], i - 1);
    } else if versions[0].schema.None? {
      NoSuchSchema(versions[1..], versions[0].name);
    }
  }

  lemma {:induction false} NoSuchSchema(versions: seq<VersionSchema>, name: string)
    requires forall j :: 0 <= j < |versions| ==> versions[j].name != name
    ensures SchemaFor(versions, name) == None
  {
    if versions != [] {
      NoSuchSchema(versions[1..], name);
    }
  }

  /** The members of a spec, which may be missing or null. */
  predicate SpecHolds(spec: Option<Value>, m: Fields)
  {
    spec == Some(Obj(m)) || ((spec == None || spec == Some(Null)) && m == map[])
  }

  /**
   * With distinct version names a resource gets the defaults of the version it names, below "spec", and of no
   * other; without a slash, or for a version without a schema, it is refused.
   */
  lemma PopulatesItsVersion(versions: seq<VersionSchema>, i: nat, j: nat, group: string, spec: Option<Value>, m: Fields)
    requires '/' !in group && i < |versions| && '/' !in versions[i].name
    requires forall k :: 0 <= k < |versions| && k != i ==> versions[k].name != versions[i].name
    requires versions[i].schema.Some? ==>
               && Distinct(versions[i].schema.value) && j < |versions[i].schema.value|
               && versions[i].schema.value[j].name == "spec"
    requires SpecHolds(spec, m)
    ensures var apiVersion := group + "/" + versions[i].name;
            if versions[i].schema.None? then !Populates(versions, apiVersion, spec)
            else
              var props := versions[i].schema.value[j].schema.properties;
              && (Populates(versions, apiVersion, spec) <==> !Broken(props, m))
              && (!Broken(props, m) ==> Populated(versions, apiVersion, spec) == Some(Obj(Merge(props, m))))
    ensures !Populates(versions, versions[i].name, spec)
  {
    OneSlash(group, versions[i].name);
    NoSlash(versions[i].name);
    OnlySchema(versions, i);
    if versions[i].schema.Some? {
      IndexOf(versions[i].schema.value, j);
    }
  }
}
