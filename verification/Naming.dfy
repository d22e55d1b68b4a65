/**
 * The names of a bundle's objects as the repository's templates give them (internal/tools/deploy/testdata
 * and internal/controllers/compositiondefinitions/testdata/manifests): resource and version, then a suffix
 * that depends on the template only. The given name appears in labels, not in names.
 */
module Naming {
  import opened Wrappers
  import opened Bundle

  function KindOf(f: Template): Kind
  {
    match f
    case ServiceAccountFile => ServiceAccount
    case ClusterRoleFile => ClusterRole
    case ClusterRoleBindingFile => ClusterRoleBinding
    case RoleFile => Role
    case SecretRoleFile => Role
    case RoleBindingFile => RoleBinding
    case SecretRoleBindingFile => RoleBinding
    case JsonSchemaFile => ConfigMap
    case ConfigMapFile => ConfigMap
    case DeploymentFile => Deployment
    case ServiceFile => Service
  }

  const CLUSTER_SCOPED: set<Template> := {ClusterRoleFile, ClusterRoleBindingFile}
  const SECRET_FILES: set<Template> := {SecretRoleFile, SecretRoleBindingFile}

  /** `json` is the suffix of the values-schema ConfigMap, which the two sets of templates choose differently. */
  function Suffix(f: Template, json: string): string
  {
    match f
    case SecretRoleFile => "-secret"
    case SecretRoleBindingFile => "-secret"
    case JsonSchemaFile => json
    case ConfigMapFile => "-configmap"
    case DeploymentFile => "-controller"
    case ServiceFile => "-controller-service"
    case _ => ""
  }

  function NameOf(gvr: GVR, f: Template, json: string): string
  {
    ResourceNamer(gvr.resource, gvr.version) + Suffix(f, json)
  }

  ghost predicate ByResource(t: Templates, json: string)
  {
    forall f, g, nn {:trigger t.key(f, g, nn)} ::
      t.key(f, g, nn) == Key(KindOf(f), if f in CLUSTER_SCOPED then "" else nn.ns, NameOf(g, f, json))
  }

  /** The templates a bundle uses. */
  function Used(o: Options): set<Template>
  {
    {ServiceAccountFile, ClusterRoleFile, ClusterRoleBindingFile, RoleFile, RoleBindingFile, JsonSchemaFile,
     ConfigMapFile, DeploymentFile}
    + (if o.credentials.Some? then SECRET_FILES else {})
    + (if ServiceFile in o.templates.files then {ServiceFile} else {})
  }

  function Place(o: Options, f: Template): string
  {
    if f in CLUSTER_SCOPED then ""
    else if f in SECRET_FILES && o.credentials.Some? then o.credentials.value.ns
    else o.ns
  }

  function FileKey(o: Options, f: Template, json: string): Key
  {
    Key(KindOf(f), Place(o, f), NameOf(o.gvr, f, json))
  }

  /** The i-th object of a bundle comes from this template. */
  function FileAt(o: Options, i: nat): Template
    requires i < |Plan(o)|
  {
    var n := |SecretItems(o)|;
    if i < n then [SecretRoleFile, SecretRoleBindingFile][i]
    else if i < n + 5 then
      [ClusterRoleFile, ClusterRoleBindingFile, RoleFile, RoleBindingFile, ServiceAccountFile][i - n]
    else [JsonSchemaFile, ConfigMapFile, DeploymentFile, ServiceFile][i - n - 5]
  }

  lemma SecretKey(o: Options, i: nat, json: string)
    requires ByResource(o.templates, json) && i < |SecretItems(o)|
    ensures FileAt(o, i) in Used(o) && SecretItems(o)[i].obj.key == FileKey(o, FileAt(o, i), json)
  {
    hide NameOf;
  }

  lemma RbacKey(o: Options, i: nat, json: string)
    requires ByResource(o.templates, json) && i < 5
    ensures var f := FileAt(o, |SecretItems(o)| + i); f in Used(o) && RbacItems(o)[i].obj.key == FileKey(o, f, json)
  {
    hide NameOf;
  }

  lemma WorkloadKey(o: Options, i: nat, json: string)
    requires ByResource(o.templates, json) && i < |WorkloadItems(o)|
    ensures var f := FileAt(o, |SecretItems(o)| + 5 + i);
            f in Used(o) && WorkloadItems(o)[i].obj.key == FileKey(o, f, json)
  {
    hide NameOf;
  }

  lemma PlanKey(o: Options, i: nat, json: string)
    requires ByResource(o.templates, json) && i < |Plan(o)|
    ensures FileAt(o, i) in Used(o) && Plan(o)[i].obj.key == FileKey(o, FileAt(o, i), json)
  {
    hide SecretItems;
    hide RbacItems;
    hide WorkloadItems;
    hide FileKey;
    hide FileAt;
    PlanParts(o);
    var n := |SecretItems(o)|;
    if i < n {
      SecretKey(o, i, json);
    } else if i < n + 5 {
      RbacKey(o, i - n, json);
    } else {
      WorkloadKey(o, i - n - 5, json);
    }
  }

  /** Where a used template stands in the bundle. */
  lemma FileIndex(o: Options, f: Template) returns (i: nat)
    requires f in Used(o)
    ensures i < |Plan(o)| && FileAt(o, i) == f
  {
    var n := |SecretItems(o)|;
    i := match f
         case SecretRoleFile => 0
         case SecretRoleBindingFile => 1
         case ClusterRoleFile => n
         case ClusterRoleBindingFile => n + 1
         case RoleFile => n + 2
         case RoleBindingFile => n + 3
         case ServiceAccountFile => n + 4
         case JsonSchemaFile => n + 5
         case ConfigMapFile => n + 6
         case DeploymentFile => n + 7
         case ServiceFile => n + 8;
  }

  /** The keys of a bundle are those of the templates it uses. */
  lemma KeysAre(o: Options, json: string)
    requires ByResource(o.templates, json)
    ensures Keys(Plan(o)) == set f | f in Used(o) :: FileKey(o, f, json)
  {
    hide Plan;
    hide Used;
    hide FileKey;
    forall i | 0 <= i < |Plan(o)|
      ensures Plan(o)[i].obj.key in set f | f in Used(o) :: FileKey(o, f, json)
    {
      PlanKey(o, i, json);
    }
    forall f | f in Used(o) ensures FileKey(o, f, json) in Keys(Plan(o)) {
      var i := FileIndex(o, f);
      PlanKey(o, i, json);
    }
  }

  lemma NamesEqual(a: GVR, s: string, b: GVR, t: string)
    requires '-' !in a.resource && '-' !in b.resource
    ensures ResourceNamer(a.resource, a.version) + s == ResourceNamer(b.resource, b.version) + t
       <==> a.resource == b.resource && a.version + s == b.version + t
  {
    assert ResourceNamer(a.resource, a.version) + s == ResourceNamer(a.resource, a.version + s);
    assert ResourceNamer(b.resource, b.version) + t == ResourceNamer(b.resource, b.version + t);
    if ResourceNamer(a.resource, a.version + s) == ResourceNamer(b.resource, b.version + t) {
      ResourceNamerInjective(a.resource, a.version + s, b.resource, b.version + t);
    }
  }

  lemma SameSuffix(a: string, b: string, s: string)
    ensures a + s == b + s <==> a == b
    ensures a + "" == a
  {
    assert (a + s)[..|a|] == a && (b + s)[..|b|] == b;
  }

  /** The secret objects of `a` carry the names of the plain ones of `b`. */
  predicate SecretClash(a: Options, b: Options)
  {
    a.credentials.Some? && a.credentials.value.ns == b.ns && a.gvr.version + "-secret" == b.gvr.version
  }

  /** The values-schema ConfigMap of `a` carries the name of the other one of `b`. */
  predicate SchemaClash(a: Options, b: Options, json: string)
  {
    a.ns == b.ns && a.gvr.version + json == b.gvr.version + "-configmap"
  }

  /** All the ways in which two bundles can share an object. */
  predicate Clash(a: Options, b: Options, json: string)
  {
    a.gvr.resource == b.gvr.resource
    && (|| a.gvr.version == b.gvr.version
        || SecretClash(a, b) || SecretClash(b, a)
        || SchemaClash(a, b, json) || SchemaClash(b, a, json))
  }

  lemma SharedKeyClashes(a: Options, f: Template, b: Options, g: Template, json: string)
    requires '-' !in a.gvr.resource && '-' !in b.gvr.resource
    requires f in Used(a) && g in Used(b) && FileKey(a, f, json) == FileKey(b, g, json)
    ensures Clash(a, b, json)
  {
    hide ResourceNamer;
    NamesEqual(a.gvr, Suffix(f, json), b.gvr, Suffix(g, json));
    SameSuffix(a.gvr.version, b.gvr.version, Suffix(f, json));
    SameSuffix(b.gvr.version, a.gvr.version, "");
    assert KindOf(f) == KindOf(g);
  }

  lemma ClashShares(a: Options, b: Options, json: string) returns (f: Template, g: Template)
    requires '-' !in a.gvr.resource && '-' !in b.gvr.resource
    requires Clash(a, b, json)
    ensures f in Used(a) && g in Used(b) && FileKey(a, f, json) == FileKey(b, g, json)
  {
    hide ResourceNamer;
    f, g := if a.gvr.version == b.gvr.version then ClusterRoleFile
            else if SecretClash(a, b) then SecretRoleFile
            else if SecretClash(b, a) then RoleFile
            else if SchemaClash(a, b, json) then JsonSchemaFile else ConfigMapFile,
            if a.gvr.version == b.gvr.version then ClusterRoleFile
            else if SecretClash(a, b) then RoleFile
            else if SecretClash(b, a) then SecretRoleFile
            else if SchemaClash(a, b, json) then ConfigMapFile else JsonSchemaFile;
    NamesEqual(a.gvr, Suffix(f, json), b.gvr, Suffix(g, json));
    SameSuffix(a.gvr.version, b.gvr.version, "");
    SameSuffix(b.gvr.version, a.gvr.version, "");
  }

  /** Two bundles share no object exactly when none of the listed clashes applies. */
  lemma KeysApartIff(a: Options, b: Options, json: string)
    requires ByResource(a.templates, json) && ByResource(b.templates, json)
    requires '-' !in a.gvr.resource && '-' !in b.gvr.resource
    ensures Keys(Plan(a)) !! Keys(Plan(b)) <==> !Clash(a, b, json)
  {
    hide Plan;
    hide Used;
    hide FileKey;
    hide Clash;
    hide ByResource;
    KeysAre(a, json);
    KeysAre(b, json);
    if Clash(a, b, json) {
      var f, g := ClashShares(a, b, json);
      assert FileKey(a, f, json) in Keys(Plan(a)) && FileKey(b, g, json) in Keys(Plan(b));
    } else if key :| key in Keys(Plan(a)) && key in Keys(Plan(b)) {
      var f :| f in Used(a) && FileKey(a, f, json) == key;
      var g :| g in Used(b) && FileKey(b, g, json) == key;
      SharedKeyClashes(a, f, b, g, json);
    }
  }

  /** The clash of the schema ConfigMap, for the two sets of templates there are. */
  lemma SchemaClashes(a: Options, b: Options)
    requires a.ns == b.ns
    ensures SchemaClash(a, b, "") <==> a.gvr.version == b.gvr.version + "-configmap"
    ensures SchemaClash(a, b, "-jsonschema-configmap") <==> a.gvr.version + "-jsonschema" == b.gvr.version
  {
    var v, w := a.gvr.version, b.gvr.version;
    assert v + "" == v;
    assert v + "-jsonschema-configmap" == v + "-jsonschema" + "-configmap";
    SameSuffix(v + "-jsonschema", w, "-configmap");
  }

  lemma {:induction false} PairsDistinct(items: seq<Item>)
    requires forall i, j :: 0 <= i < j < |items| ==> items[i].obj.key != items[j].obj.key
    ensures DistinctKeys(items)
    decreases |items|
  {
    if items != [] {
      PairsDistinct(items[..|items| - 1]);
    }
  }

  /** Within one bundle all objects have different keys. */
  lemma BundleKeysDistinct(o: Options, json: string)
    requires ByResource(o.templates, json) && json != "-configmap"
    ensures DistinctKeys(Plan(o))
  {
    hide Plan;
    hide ByResource;
    forall i, j | 0 <= i < j < |Plan(o)| ensures Plan(o)[i].obj.key != Plan(o)[j].obj.key {
      PlanKey(o, i, json);
      PlanKey(o, j, json);
      OtherFile(o, i, j);
      OtherKey(o, FileAt(o, i), FileAt(o, j), json);
    }
    PairsDistinct(Plan(o));
  }

  lemma OtherFile(o: Options, i: nat, j: nat)
    requires i < j < |Plan(o)|
    ensures FileAt(o, i) != FileAt(o, j)
  {
  }

  lemma OtherKey(o: Options, f: Template, g: Template, json: string)
    requires f != g && json != "-configmap"
    ensures FileKey(o, f, json) != FileKey(o, g, json)
  {
    hide ResourceNamer;
    if KindOf(f) == KindOf(g) {
      var name := ResourceNamer(o.gvr.resource, o.gvr.version);
      assert (name + Suffix(f, json))[|name|..] == Suffix(f, json)
          && (name + Suffix(g, json))[|name|..] == Suffix(g, json);
    }
  }
}
