/** The objects of one composition controller: how they are named, rendered and hashed. */
module Bundle {
  import opened Wrappers
  import Hash
  import Json
  import Kube

  datatype GVR = GVR(group: string, version: string, resource: string)

  /** A namespace and a name. */
  datatype NN = NN(ns: string, name: string)

  datatype Kind =
    | ServiceAccount | ClusterRole | ClusterRoleBinding | Role | RoleBinding | ConfigMap | Deployment | Service

  datatype Key = Key(kind: Kind, ns: string, name: string)

  /** The hashed part of an object. The restart annotation sits in a workload's pod template. */
  datatype Content =
    | Plain
    | Rules(rules: Json.Value)
    | Binding(subjects: Json.Value, roleRef: Json.Value)
    | Data(data: Json.Value)
    | Workload(spec: Json.Value, restartedAt: Option<string>)
    | Endpoint(spec: Json.Value)

  datatype Object = Object(key: Key, content: Content)

  datatype Template =
    | ServiceAccountFile | ClusterRoleFile | ClusterRoleBindingFile | RoleFile | RoleBindingFile
    | SecretRoleFile | SecretRoleBindingFile
    | JsonSchemaFile | ConfigMapFile | DeploymentFile | ServiceFile

  type Values = seq<(string, string)>

  /** The template files. What an object is called depends on the resource and the given name only. */
  datatype Templates = Templates(files: set<Template>, key: (Template, GVR, NN) -> Key,
                                 content: (Template, GVR, NN, Values) -> Content)

  datatype SecretRef = SecretRef(ns: string, name: string)

  datatype Options = Options(gvr: GVR, ns: string, credentials: Option<SecretRef>, templates: Templates, schema: string)

  datatype Error = NoTemplate(file: Template) | Api(e: Kube.ApiError) | NotReady | CrdNotRemoved

  function Render(t: Templates, file: Template, gvr: GVR, nn: NN, values: Values): Object
  {
    Object(t.key(file, gvr, nn), t.content(file, gvr, nn, values))
  }

  function CreateK8sObject(t: Templates, file: Template, gvr: GVR, nn: NN, values: Values): Result<Object, Error>
  {
    if file in t.files then Ok(Render(t, file, gvr, nn, values)) else Err(NoTemplate(file))
  }

  // ---- names ----

  function ResourceNamer(resource: string, version: string): string
  {
    resource + "-" + version
  }

  function BaseNN(gvr: GVR, ns: string): NN
  {
    NN(ns, ResourceNamer(gvr.resource, gvr.version))
  }

  function ControllerNN(nn: NN): NN
  {
    nn.(name := nn.name + "-controller")
  }

  function ConfigmapNN(nn: NN): NN
  {
    nn.(name := nn.name + "-configmap")
  }

  function JsonSchemaNN(nn: NN): NN
  {
    nn.(name := nn.name + "-jsonschema" + "-configmap")
  }

  function Position(s: string, c: char): (i: nat)
    ensures i <= |s| && (i < |s| ==> s[i] == c) && forall j :: 0 <= j < i ==> s[j] != c
  {
    if s == "" || s[0] == c then 0 else 1 + Position(s[1..], c)
  }

  lemma {:induction false} PositionOf(s: string, t: string)
    requires '-' !in s
    ensures Position(s + "-" + t, '-') == |s|
  {
    if s != "" {
      assert (s + "-" + t)[1..] == s[1..] + "-" + t;
      PositionOf(s[1..], t);
    }
  }

  /** Bundle names tell resources and versions apart when resource names have no dash. */
  lemma ResourceNamerInjective(r: string, v: string, r': string, v': string)
    requires '-' !in r && '-' !in r' && ResourceNamer(r, v) == ResourceNamer(r', v')
    ensures r == r' && v == v'
  {
    PositionOf(r, v);
    PositionOf(r', v');
    var n := ResourceNamer(r, v);
    assert r == n[..|r|] && r' == n[..|r'|] && v == n[|r| + 1..] && v' == n[|r'| + 1..];
  }

  // ---- hashing ----

  function Clean(c: Content): Content
  {
    if c.Workload? then c.(restartedAt := None) else c
  }

  const RESTARTED_AT := "kubectl.kubernetes.io/restartedAt"

  function Fields(c: Content): seq<Json.Value>
  {
    match c
    case Plain => []
    case Rules(rules) => [rules]
    case Binding(subjects, roleRef) => [subjects, roleRef]
    case Data(data) => [data]
    case Workload(spec, None) => [spec]
    case Workload(spec, Some(t)) => [Json.Object([Json.Member(RESTARTED_AT, Json.String(t)), Json.Member("", spec)])]
    case Endpoint(spec) => [spec]
  }

  /** What `SumHash` is given for an object; the values-schema ConfigMap is hashed by name only. */
  function Hashed(name: string, ns: string, nameOnly: bool, c: Content): seq<Json.Value>
  {
    [Json.String(name), Json.String(ns)] + if nameOnly then [] else Fields(c)
  }

  /** The zero value of the Go type an object decodes into. */
  function Zero(file: Template): Content
  {
    match file
    case ServiceAccountFile => Plain
    case ClusterRoleFile => Rules(Json.Null)
    case RoleFile => Rules(Json.Null)
    case SecretRoleFile => Rules(Json.Null)
    case ClusterRoleBindingFile => Binding(Json.Null, ZERO_ROLE_REF)
    case RoleBindingFile => Binding(Json.Null, ZERO_ROLE_REF)
    case SecretRoleBindingFile => Binding(Json.Null, ZERO_ROLE_REF)
    case JsonSchemaFile => Data(Json.Null)
    case ConfigMapFile => Data(Json.Null)
    case DeploymentFile => Workload(ZERO_DEPLOYMENT, None)
    case ServiceFile => Endpoint(Json.Object([]))
  }

  const ZERO_DEPLOYMENT := Json.Object([
    Json.Member("selector", Json.Null),
    Json.Member("template", Json.Object([Json.Member("metadata", Json.Object([])),
                                         Json.Member("spec", Json.Object([Json.Member("containers", Json.Null)]))])),
    Json.Member("strategy", Json.Object([]))])

  const ZERO_ROLE_REF := Json.Object([Json.Member("apiGroup", Json.String("")), Json.Member("kind", Json.String("")),
                                      Json.Member("name", Json.String(""))])

  // ---- the bundle in the order it is installed ----

  datatype Item = Item(file: Template, obj: Object)
  {
    predicate NameOnly()
    {
      file == JsonSchemaFile
    }

    /** Objects whose absence makes `Lookup` fail rather than hash a zero value. */
    predicate Required()
    {
      file == SecretRoleFile || file == SecretRoleBindingFile
    }
  }

  function Account(o: Options): Object
  {
    Render(o.templates, ServiceAccountFile, o.gvr, ControllerNN(BaseNN(o.gvr, o.ns)), [])
  }

  function AccountValues(o: Options): Values
  {
    [("serviceAccount", Account(o).key.name), ("saNamespace", Account(o).key.ns)]
  }

  function ItemOf(o: Options, file: Template, nn: NN, values: Values): Item
  {
    Item(file, Render(o.templates, file, o.gvr, nn, values))
  }

  /** Lives in the namespace of the credentials secret. */
  function SecretNN(o: Options): NN
    requires o.credentials.Some?
  {
    ControllerNN(NN(o.credentials.value.ns, BaseNN(o.gvr, o.ns).name))
  }

  function SecretItems(o: Options): seq<Item>
  {
    if o.credentials.None? then []
    else [ItemOf(o, SecretRoleFile, SecretNN(o), [("secretName", o.credentials.value.name)]),
          ItemOf(o, SecretRoleBindingFile, SecretNN(o), AccountValues(o))]
  }

  function RbacItems(o: Options): (items: seq<Item>)
    ensures |items| == 5
  {
    var nn := ControllerNN(BaseNN(o.gvr, o.ns));
    [ItemOf(o, ClusterRoleFile, nn, []),
     ItemOf(o, ClusterRoleBindingFile, nn, AccountValues(o)),
     ItemOf(o, RoleFile, nn, []),
     ItemOf(o, RoleBindingFile, nn, AccountValues(o)),
     Item(ServiceAccountFile, Account(o))]
  }

  function WorkloadItems(o: Options): (items: seq<Item>)
    ensures |items| == if ServiceFile in o.templates.files then 4 else 3
  {
    var nn := BaseNN(o.gvr, o.ns);
    [ItemOf(o, JsonSchemaFile, JsonSchemaNN(nn), [("schema", o.schema)]),
     ItemOf(o, ConfigMapFile, ConfigmapNN(nn), [("composition_controller_sa_name", Account(o).key.name),
                                                ("composition_controller_sa_namespace", Account(o).key.ns)]),
     ItemOf(o, DeploymentFile, ControllerNN(nn), [("serviceAccountName", Account(o).key.name)])]
    + if ServiceFile in o.templates.files then [ItemOf(o, ServiceFile, ControllerNN(nn), [])] else []
  }

  function Plan(o: Options): (items: seq<Item>)
    ensures |items| == |SecretItems(o)| + 5 + |WorkloadItems(o)|
  {
    SecretItems(o) + RbacItems(o) + WorkloadItems(o)
  }

  function DeploymentKey(o: Options): Key
  {
    o.templates.key(DeploymentFile, o.gvr, ControllerNN(BaseNN(o.gvr, o.ns)))
  }

  lemma PlanParts(o: Options)
    ensures var n := |SecretItems(o)|;
            && (forall i :: 0 <= i < n ==> Plan(o)[i] == SecretItems(o)[i])
            && (forall i :: 0 <= i < 5 ==> Plan(o)[n + i] == RbacItems(o)[i])
            && (forall i :: 0 <= i < |WorkloadItems(o)| ==> Plan(o)[n + 5 + i] == WorkloadItems(o)[i])
  {
  }

  lemma SecretFiles(o: Options)
    ensures forall i :: 0 <= i < |SecretItems(o)| ==> SecretItems(o)[i].file != DeploymentFile
  {
  }

  lemma RbacFiles(o: Options)
    ensures forall i :: 0 <= i < |RbacItems(o)| ==> RbacItems(o)[i].file != DeploymentFile
  {
  }

  lemma WorkloadFiles(o: Options)
    ensures forall i :: 0 <= i < |WorkloadItems(o)| ==> (WorkloadItems(o)[i].file == DeploymentFile <==> i == 2)
  {
  }

  lemma PlanSecrets(o: Options)
    requires o.credentials.Some?
    ensures |Plan(o)| >= 2
    ensures Plan(o)[0] == ItemOf(o, SecretRoleFile, SecretNN(o), [("secretName", o.credentials.value.name)])
    ensures Plan(o)[1] == ItemOf(o, SecretRoleBindingFile, SecretNN(o), AccountValues(o))
  {
  }

  // ---- what installing, reading and hashing a list of items means ----

  type Store = map<Key, Content>

  function Answer(server: Kube.Server<Content>, m: Store, item: Item): Content
  {
    server(At(m, item.obj.key), item.obj.content)
  }

  function Install(server: Kube.Server<Content>, m: Store, item: Item): Store
  {
    m[item.obj.key := Answer(server, m, item)]
  }

  function InstallAll(server: Kube.Server<Content>, m: Store, items: seq<Item>): Store
  {
    if items == [] then m
    else
      var last := |items| - 1;
      Install(server, InstallAll(server, m, items[..last]), items[last])
  }

  /** Only the Deployment is cleaned of its restart annotation before it is hashed. */
  function Cleaned(item: Item, c: Content): Content
  {
    if item.file == DeploymentFile then Clean(c) else c
  }

  function ItemStream(item: Item, c: Content): seq<Json.Value>
  {
    Hashed(item.obj.key.name, item.obj.key.ns, item.NameOnly(), Cleaned(item, c))
  }

  /** The values hashed while installing, from the answers of the server. */
  function DeployStream(server: Kube.Server<Content>, m: Store, items: seq<Item>, dryRun: bool): seq<Json.Value>
  {
    if items == [] then []
    else
      var last := |items| - 1;
      var before := if dryRun then m else InstallAll(server, m, items[..last]);
      DeployStream(server, m, items[..last], dryRun) + ItemStream(items[last], Answer(server, before, items[last]))
  }

  /** The values hashed while reading back; a missing object counts as the zero value. */
  function ReadItem(m: Store, item: Item): seq<Json.Value>
  {
    if item.obj.key in m then ItemStream(item, m[item.obj.key])
    else Hashed("", "", item.NameOnly(), Zero(item.file))
  }

  function LookupStream(m: Store, items: seq<Item>): seq<Json.Value>
  {
    if items == [] then []
    else LookupStream(m, items[..|items| - 1]) + ReadItem(m, items[|items| - 1])
  }

  function Restart(c: Content, at: string): Content
  {
    if c.Workload? then c.(restartedAt := Some(at)) else c
  }

  ghost predicate DistinctKeys(items: seq<Item>)
  {
    items == [] ||
    (&& items[|items| - 1].obj.key !in Keys(items[..|items| - 1])
     && DistinctKeys(items[..|items| - 1]))
  }

  lemma {:induction false} DistinctPair(items: seq<Item>, i: nat, j: nat)
    requires DistinctKeys(items) && i < j < |items|
    ensures items[i].obj.key != items[j].obj.key
    decreases |items|
  {
    var last := |items| - 1;
    if j < last {
      DistinctPair(items[..last], i, j);
    } else {
      assert items[..last][i].obj.key in Keys(items[..last]);
    }
  }

  lemma {:induction false} DistinctPrefix(items: seq<Item>, n: nat)
    requires DistinctKeys(items) && n <= |items|
    ensures DistinctKeys(items[..n])
    decreases |items|
  {
    if n < |items| {
      DistinctPrefix(items[..|items| - 1], n);
      assert items[..|items| - 1][..n] == items[..n];
    } else {
      assert items[..n] == items;
    }
  }

  function Keys(items: seq<Item>): set<Key>
  {
    set i | 0 <= i < |items| :: items[i].obj.key
  }
}
