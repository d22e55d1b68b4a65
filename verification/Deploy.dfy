/** internal/tools/deploy/deploy.go: installing, reading back and removing a bundle. */
module Deploy {
  import opened Wrappers
  import opened Bundle
  import CrdClient
  import Generation
  import Hash
  import Json
  import Kube

  type Client = Kube.Client<Key, Content>
  type CrdStore = Kube.Client<CrdClient.GroupResource, Generation.Spec>

  // ---- one object at a time ----

  /** The first `n` items are installed (unless dry) and hashed. */
  ghost predicate Progress(server: Kube.Server<Content>, before: Store, now: Store, plan: seq<Item>, n: nat,
                           dryRun: bool, hashed: seq<Json.Value>)
  {
    && n <= |plan|
    && now == (if dryRun then before else InstallAll(server, before, plan[..n]))
    && hashed == DeployStream(server, before, plan[..n], dryRun)
  }

  /** Some prefix of the items is installed (unless dry). */
  ghost predicate Stopped(server: Kube.Server<Content>, before: Store, now: Store, plan: seq<Item>, dryRun: bool)
  {
    exists n :: 0 <= n <= |plan| && now == if dryRun then before else InstallAll(server, before, plan[..n])
  }

  lemma ProgressMayStop(server: Kube.Server<Content>, before: Store, now: Store, plan: seq<Item>, n: nat,
                        dryRun: bool, hashed: seq<Json.Value>)
    requires Progress(server, before, now, plan, n, dryRun, hashed)
    ensures Stopped(server, before, now, plan, dryRun)
  {
  }

  method ApplyAndHash(kube: Client, item: Item, dryRun: bool, hsh: Hash.ObjectHash,
                      ghost before: Store, ghost plan: seq<Item>, ghost n: nat) returns (err: Option<Error>)
    requires Kube.Quiet(kube.world) && Kube.Stable(kube.server) && hsh.Valid()
    requires n < |plan| && plan[n] == item
    requires Progress(kube.server, before, kube.Objects(), plan, n, dryRun, hsh.values)
    modifies kube, hsh
    ensures Kube.Quiet(kube.world) && hsh.Valid()
    ensures err.None? ==> Progress(kube.server, before, kube.Objects(), plan, n + 1, dryRun, hsh.values)
    ensures err.Some? ==> Stopped(kube.server, before, kube.Objects(), plan, dryRun)
    ensures old(Kube.Smooth(kube.world)) ==> Kube.Smooth(kube.world) && err.None?
  {
    assert plan[..n + 1][..n] == plan[..n] && plan[..n + 1][n] == item;
    var r := kube.Apply(item.obj.key, item.obj.content, dryRun);
    if r.Err? {
      assert kube.Objects() == (if dryRun then before else InstallAll(kube.server, before, plan[..n]))
          || kube.Objects() == InstallAll(kube.server, before, plan[..n + 1]);
      return Some(Api(r.error));
    }
    var c := r.value;
    if item.file == DeploymentFile {
      c := Clean(c);
    }
    hsh.SumHash(Hashed(item.obj.key.name, item.obj.key.ns, item.NameOnly(), c));
    err := None;
  }

  /** The first `n` items are read back and hashed. */
  ghost predicate Read(m: Store, plan: seq<Item>, n: nat, hashed: seq<Json.Value>)
  {
    n <= |plan| && hashed == LookupStream(m, plan[..n])
  }

  method GetAndHash(kube: Client, item: Item, hsh: Hash.ObjectHash, ghost plan: seq<Item>, ghost n: nat)
    returns (err: Option<Error>)
    requires Kube.Quiet(kube.world) && hsh.Valid()
    requires n < |plan| && plan[n] == item && Read(kube.Objects(), plan, n, hsh.values)
    modifies kube, hsh
    ensures Kube.Quiet(kube.world) && hsh.Valid() && kube.Objects() == old(kube.Objects())
    ensures err.None? ==> Read(kube.Objects(), plan, n + 1, hsh.values)
    ensures err.None? ==> (item.Required() ==> item.obj.key in kube.Objects())
    ensures old(Kube.Smooth(kube.world)) ==>
              Kube.Smooth(kube.world) && (err.Some? ==> item.Required() && item.obj.key !in kube.Objects())
  {
    assert plan[..n + 1][..n] == plan[..n] && plan[..n + 1][n] == item;
    var r := kube.Get(item.obj.key);
    var name, ns, c := item.obj.key.name, item.obj.key.ns, Zero(item.file);
    match r {
      case Ok(found) => c := found;
      case Err(e) =>
        if e == Kube.NotFound && !item.Required() {
          name, ns := "", "";
        } else {
          return Some(Api(e));
        }
    }
    if item.file == DeploymentFile {
      c := Clean(c);
    }
    hsh.SumHash(Hashed(name, ns, item.NameOnly(), c));
    err := None;
  }

  // ---- Deploy ----

  /** What a successful real deployment leaves: every item installed and the workload restarted. */
  function Deployed(server: Kube.Server<Content>, before: Store, o: Options, now: string): Store
  {
    var m := InstallAll(server, before, Plan(o));
    if DeploymentKey(o) in m then m[DeploymentKey(o) := Restart(m[DeploymentKey(o)], now)] else m
  }

  /** All templates a deployment needs. */
  function Needed(o: Options): set<Template>
  {
    {ServiceAccountFile, ClusterRoleFile, ClusterRoleBindingFile, RoleFile, RoleBindingFile, JsonSchemaFile,
     ConfigMapFile, DeploymentFile}
    + if o.credentials.Some? then {SecretRoleFile, SecretRoleBindingFile} else {}
  }

  /** The five role-based access objects, or the first template that is missing. */
  method CreateRBACResources(o: Options) returns (r: Result<seq<Item>, Error>)
    ensures r.Ok? ==> r.value == RbacItems(o)
    ensures r.Ok? <==> {ServiceAccountFile, ClusterRoleFile, ClusterRoleBindingFile, RoleFile, RoleBindingFile}
                       <= o.templates.files
  {
    var nn := ControllerNN(BaseNN(o.gvr, o.ns));
    var sa := CreateK8sObject(o.templates, ServiceAccountFile, o.gvr, nn, []);
    if sa.Err? { return Err(sa.error); }
    var values := [("serviceAccount", sa.value.key.name), ("saNamespace", sa.value.key.ns)];
    var clusterrole := CreateK8sObject(o.templates, ClusterRoleFile, o.gvr, nn, []);
    if clusterrole.Err? { return Err(clusterrole.error); }
    var clusterrolebinding := CreateK8sObject(o.templates, ClusterRoleBindingFile, o.gvr, nn, values);
    if clusterrolebinding.Err? { return Err(clusterrolebinding.error); }
    var role := CreateK8sObject(o.templates, RoleFile, o.gvr, nn, []);
    if role.Err? { return Err(role.error); }
    var rolebinding := CreateK8sObject(o.templates, RoleBindingFile, o.gvr, nn, values);
    if rolebinding.Err? { return Err(rolebinding.error); }
    r := Ok([Item(ClusterRoleFile, clusterrole.value), Item(ClusterRoleBindingFile, clusterrolebinding.value),
             Item(RoleFile, role.value), Item(RoleBindingFile, rolebinding.value), Item(ServiceAccountFile, sa.value)]);
  }

  method InstallSecretRBAC(kube: Client, o: Options, dryRun: bool, hsh: Hash.ObjectHash, ghost before: Store)
    returns (err: Option<Error>)
    requires Kube.Quiet(kube.world) && Kube.Stable(kube.server) && hsh.Valid()
    requires o.credentials.Some?
    requires Progress(kube.server, before, kube.Objects(), Plan(o), 0, dryRun, hsh.values)
    modifies kube, hsh
    ensures Kube.Quiet(kube.world) && hsh.Valid()
    ensures err.None? ==> Progress(kube.server, before, kube.Objects(), Plan(o), 2, dryRun, hsh.values)
    ensures err.Some? ==> Stopped(kube.server, before, kube.Objects(), Plan(o), dryRun)
    ensures old(Kube.Smooth(kube.world)) && Needed(o) <= o.templates.files ==> Kube.Smooth(kube.world) && err.None?
  {
    hide Progress;
    hide Stopped;
    hide Kube.View;
    hide Hash.DigestOf;
    hide InstallAll;
    hide DeployStream;
    hide Plan;
    hide SecretItems;
    PlanSecrets(o);
    var nn := SecretNN(o);
    ProgressMayStop(kube.server, before, kube.Objects(), Plan(o), 0, dryRun, hsh.values);
    var role := CreateK8sObject(o.templates, SecretRoleFile, o.gvr, nn, [("secretName", o.credentials.value.name)]);
    if role.Err? { return Some(role.error); }
    err := ApplyAndHash(kube, Item(SecretRoleFile, role.value), dryRun, hsh, before, Plan(o), 0);
    if err.Some? { return; }
    ProgressMayStop(kube.server, before, kube.Objects(), Plan(o), 1, dryRun, hsh.values);
    var rolebinding := CreateK8sObject(o.templates, SecretRoleBindingFile, o.gvr, nn, AccountValues(o));
    if rolebinding.Err? { return Some(rolebinding.error); }
    err := ApplyAndHash(kube, Item(SecretRoleBindingFile, rolebinding.value), dryRun, hsh, before, Plan(o), 1);
  }

  method InstallRBACResources(kube: Client, o: Options, rbac: seq<Item>, dryRun: bool, hsh: Hash.ObjectHash,
                              ghost before: Store) returns (err: Option<Error>)
    requires Kube.Quiet(kube.world) && Kube.Stable(kube.server) && hsh.Valid()
    requires rbac == RbacItems(o)
    requires Progress(kube.server, before, kube.Objects(), Plan(o), |SecretItems(o)|, dryRun, hsh.values)
    modifies kube, hsh
    ensures Kube.Quiet(kube.world) && hsh.Valid()
    ensures err.None? ==> Progress(kube.server, before, kube.Objects(), Plan(o), |SecretItems(o)| + 5,
                                   dryRun, hsh.values)
    ensures err.Some? ==> Stopped(kube.server, before, kube.Objects(), Plan(o), dryRun)
    ensures old(Kube.Smooth(kube.world)) ==> Kube.Smooth(kube.world) && err.None?
  {
    hide Kube.View;
    hide Hash.DigestOf;
    hide InstallAll;
    hide DeployStream;
    PlanParts(o);
    ghost var n := |SecretItems(o)|;
    var clusterrole, clusterrolebinding, role, rolebinding, sa := rbac[0], rbac[1], rbac[2], rbac[3], rbac[4];
    err := ApplyAndHash(kube, clusterrole, dryRun, hsh, before, Plan(o), n);
    if err.Some? { return; }
    err := ApplyAndHash(kube, clusterrolebinding, dryRun, hsh, before, Plan(o), n + 1);
    if err.Some? { return; }
    err := ApplyAndHash(kube, role, dryRun, hsh, before, Plan(o), n + 2);
    if err.Some? { return; }
    err := ApplyAndHash(kube, rolebinding, dryRun, hsh, before, Plan(o), n + 3);
    if err.Some? { return; }
    err := ApplyAndHash(kube, sa, dryRun, hsh, before, Plan(o), n + 4);
  }

  method InstallConfigMaps(kube: Client, o: Options, sa: Object, dryRun: bool, hsh: Hash.ObjectHash,
                           ghost before: Store) returns (err: Option<Error>)
    requires Kube.Quiet(kube.world) && Kube.Stable(kube.server) && hsh.Valid()
    requires sa == Account(o)
    requires Progress(kube.server, before, kube.Objects(), Plan(o), |SecretItems(o)| + 5, dryRun, hsh.values)
    modifies kube, hsh
    ensures Kube.Quiet(kube.world) && hsh.Valid()
    ensures err.None? ==> Progress(kube.server, before, kube.Objects(), Plan(o), |SecretItems(o)| + 7,
                                   dryRun, hsh.values)
    ensures err.Some? ==> Stopped(kube.server, before, kube.Objects(), Plan(o), dryRun)
    ensures old(Kube.Smooth(kube.world)) && Needed(o) <= o.templates.files ==> Kube.Smooth(kube.world) && err.None?
  {
    hide Kube.View;
    hide Hash.DigestOf;
    hide InstallAll;
    hide DeployStream;
    PlanParts(o);
    ghost var n := |SecretItems(o)| + 5;
    var nn := BaseNN(o.gvr, o.ns);
    var schema := CreateK8sObject(o.templates, JsonSchemaFile, o.gvr, JsonSchemaNN(nn), [("schema", o.schema)]);
    if schema.Err? { return Some(schema.error); }
    err := ApplyAndHash(kube, Item(JsonSchemaFile, schema.value), dryRun, hsh, before, Plan(o), n);
    if err.Some? { return; }
    var cm := CreateK8sObject(o.templates, ConfigMapFile, o.gvr, ConfigmapNN(nn),
                              [("composition_controller_sa_name", sa.key.name),
                               ("composition_controller_sa_namespace", sa.key.ns)]);
    if cm.Err? { return Some(cm.error); }
    err := ApplyAndHash(kube, Item(ConfigMapFile, cm.value), dryRun, hsh, before, Plan(o), n + 1);
  }

  method InstallController(kube: Client, o: Options, sa: Object, dryRun: bool, hsh: Hash.ObjectHash,
                           ghost before: Store) returns (err: Option<Error>)
    requires Kube.Quiet(kube.world) && Kube.Stable(kube.server) && hsh.Valid()
    requires sa == Account(o)
    requires Progress(kube.server, before, kube.Objects(), Plan(o), |SecretItems(o)| + 7, dryRun, hsh.values)
    modifies kube, hsh
    ensures Kube.Quiet(kube.world) && hsh.Valid()
    ensures err.None? ==> Progress(kube.server, before, kube.Objects(), Plan(o), |Plan(o)|, dryRun, hsh.values)
    ensures err.Some? ==> Stopped(kube.server, before, kube.Objects(), Plan(o), dryRun)
    ensures old(Kube.Smooth(kube.world)) && Needed(o) <= o.templates.files ==> Kube.Smooth(kube.world) && err.None?
  {
    hide Kube.View;
    hide Hash.DigestOf;
    hide InstallAll;
    hide DeployStream;
    PlanParts(o);
    ghost var n := |SecretItems(o)| + 7;
    var nn := ControllerNN(BaseNN(o.gvr, o.ns));
    var dep := CreateK8sObject(o.templates, DeploymentFile, o.gvr, nn, [("serviceAccountName", sa.key.name)]);
    if dep.Err? { return Some(dep.error); }
    err := ApplyAndHash(kube, Item(DeploymentFile, dep.value), dryRun, hsh, before, Plan(o), n);
    if err.Some? { return; }
    if ServiceFile in o.templates.files {
      var svc := Render(o.templates, ServiceFile, o.gvr, nn, []);
      err := ApplyAndHash(kube, Item(ServiceFile, svc), dryRun, hsh, before, Plan(o), n + 1);
    }
  }

  /**
   * `firstReady` and `secondReady` say whether the deployment is seen ready in time, before and after
   * the restart; `now` is the time written into the restart annotation.
   */
  method Deploy(kube: Client, o: Options, dryRun: bool, firstReady: bool, secondReady: bool, now: string)
    returns (r: Result<Hash.Word, Error>)
    requires Kube.Quiet(kube.world) && Kube.Stable(kube.server)
    modifies kube
    ensures Kube.Quiet(kube.world)
    ensures dryRun ==> kube.Objects() == old(kube.Objects())
    ensures r.Ok? ==> r.value == Hash.DigestOf(DeployStream(kube.server, old(kube.Objects()), Plan(o), dryRun))
    ensures r.Ok? && !dryRun ==> kube.Objects() == Deployed(kube.server, old(kube.Objects()), o, now)
    ensures r.Err? ==> Stopped(kube.server, old(kube.Objects()), kube.Objects(), Plan(o), dryRun)
                       || kube.Objects() == Deployed(kube.server, old(kube.Objects()), o, now)
    ensures old(Kube.Smooth(kube.world)) && Needed(o) <= o.templates.files ==>
              Kube.Smooth(kube.world) && (r.Ok? <==> dryRun || (firstReady && secondReady))
  {
    ghost var before := kube.Objects();
    var rbac := CreateRBACResources(o);
    if rbac.Err? {
      assert Stopped(kube.server, before, kube.Objects(), Plan(o), dryRun) by { assert Plan(o)[..0] == []; }
      return Err(rbac.error);
    }
    var hsh := new Hash.ObjectHash();
    var err := InstallBundle(kube, o, rbac.value, dryRun, hsh);
    if err.Some? { return Err(err.value); }
    if !dryRun {
      err := RestartWhenReady(kube, o, firstReady, secondReady, now, before);
      if err.Some? { return Err(err.value); }
    }
    r := Ok(hsh.GetHash());
  }

  lemma ProgressStart(server: Kube.Server<Content>, m: Store, o: Options, dryRun: bool)
    ensures Progress(server, m, m, Plan(o), 0, dryRun, [])
  {
    assert Plan(o)[..0] == [];
  }

  method InstallBundle(kube: Client, o: Options, rbac: seq<Item>, dryRun: bool, hsh: Hash.ObjectHash)
    returns (err: Option<Error>)
    requires Kube.Quiet(kube.world) && Kube.Stable(kube.server) && hsh.Valid() && hsh.values == []
    requires rbac == RbacItems(o)
    modifies kube, hsh
    ensures Kube.Quiet(kube.world) && hsh.Valid()
    ensures err.None? ==>
              && hsh.values == DeployStream(kube.server, old(kube.Objects()), Plan(o), dryRun)
              && kube.Objects() == if dryRun then old(kube.Objects())
                                   else InstallAll(kube.server, old(kube.Objects()), Plan(o))
    ensures err.Some? ==> Stopped(kube.server, old(kube.Objects()), kube.Objects(), Plan(o), dryRun)
    ensures old(Kube.Smooth(kube.world)) && Needed(o) <= o.templates.files ==> Kube.Smooth(kube.world) && err.None?
  {
    hide InstallAll;
    hide DeployStream;
    ghost var before := kube.Objects();
    assert Progress(kube.server, before, kube.Objects(), Plan(o), 0, dryRun, hsh.values)
      by { ProgressStart(kube.server, before, o, dryRun); }
    err := None;
    if o.credentials.Some? {
      err := InstallSecretRBAC(kube, o, dryRun, hsh, before);
      if err.Some? { return; }
    }
    err := InstallRBACResources(kube, o, rbac, dryRun, hsh, before);
    if err.Some? { return; }
    err := InstallConfigMaps(kube, o, rbac[4].obj, dryRun, hsh, before);
    if err.Some? { return; }
    err := InstallController(kube, o, rbac[4].obj, dryRun, hsh, before);
    assert Plan(o)[..|Plan(o)|] == Plan(o);
  }

  method RestartWhenReady(kube: Client, o: Options, firstReady: bool, secondReady: bool, now: string,
                          ghost before: Store)
    returns (err: Option<Error>)
    requires Kube.Quiet(kube.world)
    requires kube.Objects() == InstallAll(kube.server, before, Plan(o))
    modifies kube
    ensures Kube.Quiet(kube.world)
    ensures err.None? ==> kube.Objects() == Deployed(kube.server, before, o, now)
    ensures err.Some? ==> Stopped(kube.server, before, kube.Objects(), Plan(o), false)
                          || kube.Objects() == Deployed(kube.server, before, o, now)
    ensures old(Kube.Smooth(kube.world)) ==> Kube.Smooth(kube.world) && (err.None? <==> firstReady && secondReady)
  {
    assert Stopped(kube.server, before, kube.Objects(), Plan(o), false) by { assert Plan(o)[..|Plan(o)|] == Plan(o); }
    if !firstReady {
      return Some(NotReady);
    }
    DeploymentInstalled(kube.server, before, o);
    var patched := kube.Patch(DeploymentKey(o), c => Restart(c, now));
    if patched.Err? {
      return Some(Api(patched.error));
    }
    err := if secondReady then None else Some(NotReady);
  }

  lemma {:induction false} InstalledKeys(server: Kube.Server<Content>, m: Store, items: seq<Item>)
    ensures InstallAll(server, m, items).Keys == m.Keys + Keys(items)
  {
    if items != [] {
      var last := |items| - 1;
      InstalledKeys(server, m, items[..last]);
      assert items == items[..last] + [items[last]];
    }
  }

  lemma DeploymentInstalled(server: Kube.Server<Content>, m: Store, o: Options)
    ensures DeploymentKey(o) in InstallAll(server, m, Plan(o))
  {
    InstalledKeys(server, m, Plan(o));
    PlanParts(o);
    assert Plan(o)[|SecretItems(o)| + 7].obj.key == DeploymentKey(o);
  }

  // ---- Lookup ----

  /** The secret role and its binding are there, if they should be. */
  predicate SecretsPresent(m: Store, o: Options)
  {
    o.credentials.Some? ==>
      && o.templates.key(SecretRoleFile, o.gvr, SecretNN(o)) in m
      && o.templates.key(SecretRoleBindingFile, o.gvr, SecretNN(o)) in m
  }

  method LookupSecretRBAC(kube: Client, o: Options, hsh: Hash.ObjectHash) returns (err: Option<Error>)
    requires Kube.Quiet(kube.world) && hsh.Valid()
    requires o.credentials.Some?
    requires Read(kube.Objects(), Plan(o), 0, hsh.values)
    modifies kube, hsh
    ensures Kube.Quiet(kube.world) && hsh.Valid() && kube.Objects() == old(kube.Objects())
    ensures err.None? ==> Read(kube.Objects(), Plan(o), 2, hsh.values) && SecretsPresent(kube.Objects(), o)
    ensures old(Kube.Smooth(kube.world)) && Needed(o) <= o.templates.files ==>
              Kube.Smooth(kube.world) && (err.None? <==> SecretsPresent(kube.Objects(), o))
  {
    hide LookupStream;
    hide Plan;
    hide SecretItems;
    hide Read;
    hide Kube.View;
    hide Hash.DigestOf;
    PlanSecrets(o);
    var nn := SecretNN(o);
    var role := CreateK8sObject(o.templates, SecretRoleFile, o.gvr, nn, [("secretName", o.credentials.value.name)]);
    if role.Err? { return Some(role.error); }
    var first := Item(SecretRoleFile, role.value);
    err := GetAndHash(kube, first, hsh, Plan(o), 0);
    if err.Some? { return; }
    var rolebinding := CreateK8sObject(o.templates, SecretRoleBindingFile, o.gvr, nn, AccountValues(o));
    if rolebinding.Err? { return Some(rolebinding.error); }
    var second := Item(SecretRoleBindingFile, rolebinding.value);
    err := GetAndHash(kube, second, hsh, Plan(o), 1);
  }

  method LookupRBACResources(kube: Client, o: Options, rbac: seq<Item>, hsh: Hash.ObjectHash)
    returns (err: Option<Error>)
    requires Kube.Quiet(kube.world) && hsh.Valid()
    requires rbac == RbacItems(o)
    requires Read(kube.Objects(), Plan(o), |SecretItems(o)|, hsh.values)
    modifies kube, hsh
    ensures Kube.Quiet(kube.world) && hsh.Valid() && kube.Objects() == old(kube.Objects())
    ensures err.None? ==> Read(kube.Objects(), Plan(o), |SecretItems(o)| + 5, hsh.values)
    ensures old(Kube.Smooth(kube.world)) ==> Kube.Smooth(kube.world) && err.None?
  {
    hide Kube.View;
    hide Hash.DigestOf;
    hide LookupStream;
    PlanParts(o);
    ghost var n := |SecretItems(o)|;
    var clusterrole, clusterrolebinding, role, rolebinding, sa := rbac[0], rbac[1], rbac[2], rbac[3], rbac[4];
    err := GetAndHash(kube, clusterrole, hsh, Plan(o), n);
    if err.Some? { return; }
    err := GetAndHash(kube, clusterrolebinding, hsh, Plan(o), n + 1);
    if err.Some? { return; }
    err := GetAndHash(kube, role, hsh, Plan(o), n + 2);
    if err.Some? { return; }
    err := GetAndHash(kube, rolebinding, hsh, Plan(o), n + 3);
    if err.Some? { return; }
    err := GetAndHash(kube, sa, hsh, Plan(o), n + 4);
  }

  method LookupConfigMaps(kube: Client, o: Options, sa: Object, hsh: Hash.ObjectHash) returns (err: Option<Error>)
    requires Kube.Quiet(kube.world) && hsh.Valid()
    requires sa == Account(o)
    requires Read(kube.Objects(), Plan(o), |SecretItems(o)| + 5, hsh.values)
    modifies kube, hsh
    ensures Kube.Quiet(kube.world) && hsh.Valid() && kube.Objects() == old(kube.Objects())
    ensures err.None? ==> Read(kube.Objects(), Plan(o), |SecretItems(o)| + 7, hsh.values)
    ensures old(Kube.Smooth(kube.world)) && Needed(o) <= o.templates.files ==> Kube.Smooth(kube.world) && err.None?
  {
    hide Kube.View;
    hide Hash.DigestOf;
    hide LookupStream;
    PlanParts(o);
    ghost var n := |SecretItems(o)| + 5;
    var nn := BaseNN(o.gvr, o.ns);
    var schema := CreateK8sObject(o.templates, JsonSchemaFile, o.gvr, JsonSchemaNN(nn), [("schema", o.schema)]);
    if schema.Err? { return Some(schema.error); }
    err := GetAndHash(kube, Item(JsonSchemaFile, schema.value), hsh, Plan(o), n);
    if err.Some? { return; }
    var cm := CreateK8sObject(o.templates, ConfigMapFile, o.gvr, ConfigmapNN(nn),
                              [("composition_controller_sa_name", sa.key.name),
                               ("composition_controller_sa_namespace", sa.key.ns)]);
    if cm.Err? { return Some(cm.error); }
    err := GetAndHash(kube, Item(ConfigMapFile, cm.value), hsh, Plan(o), n + 1);
  }

  method LookupController(kube: Client, o: Options, sa: Object, hsh: Hash.ObjectHash) returns (err: Option<Error>)
    requires Kube.Quiet(kube.world) && hsh.Valid()
    requires sa == Account(o)
    requires Read(kube.Objects(), Plan(o), |SecretItems(o)| + 7, hsh.values)
    modifies kube, hsh
    ensures Kube.Quiet(kube.world) && hsh.Valid() && kube.Objects() == old(kube.Objects())
    ensures err.None? ==> Read(kube.Objects(), Plan(o), |Plan(o)|, hsh.values)
    ensures old(Kube.Smooth(kube.world)) && Needed(o) <= o.templates.files ==> Kube.Smooth(kube.world) && err.None?
  {
    hide Kube.View;
    hide Hash.DigestOf;
    hide LookupStream;
    PlanParts(o);
    ghost var n := |SecretItems(o)| + 7;
    var nn := ControllerNN(BaseNN(o.gvr, o.ns));
    var dep := CreateK8sObject(o.templates, DeploymentFile, o.gvr, nn, [("serviceAccountName", sa.key.name)]);
    if dep.Err? { return Some(dep.error); }
    err := GetAndHash(kube, Item(DeploymentFile, dep.value), hsh, Plan(o), n);
    if err.Some? { return; }
    if ServiceFile in o.templates.files {
      var svc := Render(o.templates, ServiceFile, o.gvr, nn, []);
      err := GetAndHash(kube, Item(ServiceFile, svc), hsh, Plan(o), n + 1);
    }
  }

  lemma ReadStart(m: Store, o: Options)
    ensures Read(m, Plan(o), 0, [])
  {
  }

  method Lookup(kube: Client, o: Options) returns (r: Result<Hash.Word, Error>)
    requires Kube.Quiet(kube.world)
    modifies kube
    ensures Kube.Quiet(kube.world) && kube.Objects() == old(kube.Objects())
    ensures r.Ok? ==> r.value == Hash.DigestOf(LookupStream(kube.Objects(), Plan(o)))
                      && SecretsPresent(kube.Objects(), o)
    ensures old(Kube.Smooth(kube.world)) && Needed(o) <= o.templates.files ==>
              Kube.Smooth(kube.world) && (r.Ok? <==> SecretsPresent(kube.Objects(), o))
  {
    hide Hash.SumFrom;
    hide LookupStream;
    hide Plan;
    hide Kube.View;
    var rbac := CreateRBACResources(o);
    if rbac.Err? { return Err(rbac.error); }
    var hsh := new Hash.ObjectHash();
    ReadStart(kube.Objects(), o);
    var err: Option<Error> := None;
    if o.credentials.Some? {
      err := LookupSecretRBAC(kube, o, hsh);
      if err.Some? { return Err(err.value); }
    }
    err := LookupRBACResources(kube, o, rbac.value, hsh);
    if err.Some? { return Err(err.value); }
    err := LookupConfigMaps(kube, o, rbac.value[4].obj, hsh);
    if err.Some? { return Err(err.value); }
    err := LookupController(kube, o, rbac.value[4].obj, hsh);
    if err.Some? { return Err(err.value); }
    assert Plan(o)[..|Plan(o)|] == Plan(o);
    r := Ok(hsh.GetHash());
  }

  // ---- Undeploy ----

  /** The keys in the order they are removed. */
  function RemovalKeys(o: Options): seq<Key>
  {
    var nn := BaseNN(o.gvr, o.ns);
    var key := (file, n) => o.templates.key(file, o.gvr, n);
    var rbac := ControllerNN(nn);
    [key(JsonSchemaFile, JsonSchemaNN(nn)), key(DeploymentFile, rbac), key(ConfigMapFile, ConfigmapNN(nn)),
     key(ClusterRoleFile, rbac), key(ClusterRoleBindingFile, rbac), key(RoleFile, rbac), key(RoleBindingFile, rbac),
     key(ServiceAccountFile, rbac)]
    + (if ServiceFile in o.templates.files then [key(ServiceFile, rbac)] else [])
    + (if o.credentials.Some? then [key(SecretRoleFile, SecretNN(o)), key(SecretRoleBindingFile, SecretNN(o))] else [])
  }

  function Removed(keys: seq<Key>, n: nat): set<Key>
    requires n <= |keys|
  {
    set i | 0 <= i < n :: keys[i]
  }

  /** The first `n` keys are gone and nothing else. */
  ghost predicate Gone(before: Store, now: Store, keys: seq<Key>, n: nat)
  {
    n <= |keys| && now == before - Removed(keys, n)
  }

  ghost predicate PartlyGone(before: Store, now: Store, keys: seq<Key>)
  {
    exists n :: Gone(before, now, keys, n)
  }

  method RemoveObject(kube: Client, key: Key, ghost before: Store, ghost keys: seq<Key>, ghost n: nat)
    returns (err: Option<Error>)
    requires Kube.Quiet(kube.world)
    requires n < |keys| && keys[n] == key && Gone(before, kube.Objects(), keys, n)
    modifies kube
    ensures Kube.Quiet(kube.world)
    ensures err.None? ==> Gone(before, kube.Objects(), keys, n + 1)
    ensures err.Some? ==> PartlyGone(before, kube.Objects(), keys)
    ensures old(Kube.Smooth(kube.world)) ==> Kube.Smooth(kube.world) && err.None?
  {
    ghost var m := kube.Objects();
    assert Removed(keys, n + 1) == Removed(keys, n) + {key};
    assert m - {key} == before - Removed(keys, n + 1);
    var r := kube.Uninstall(key);
    assert kube.Objects() == m ==> Gone(before, kube.Objects(), keys, n);
    assert kube.Objects() == m - {key} ==> Gone(before, kube.Objects(), keys, n + 1);
    assert key !in m ==> m == m - {key};
    err := if r.Ok? then None else Some(Api(r.error));
  }

  method UninstallRBACResources(kube: Client, o: Options, rbac: seq<Item>, ghost before: Store)
    returns (err: Option<Error>)
    requires Kube.Quiet(kube.world) && rbac == RbacItems(o)
    requires Gone(before, kube.Objects(), RemovalKeys(o), 3)
    modifies kube
    ensures Kube.Quiet(kube.world)
    ensures err.None? ==> Gone(before, kube.Objects(), RemovalKeys(o), 8)
    ensures err.Some? ==> PartlyGone(before, kube.Objects(), RemovalKeys(o))
    ensures old(Kube.Smooth(kube.world)) ==> Kube.Smooth(kube.world) && err.None?
  {
    hide Kube.View;
    hide Removed;
    ghost var keys := RemovalKeys(o);
    err := RemoveObject(kube, rbac[0].obj.key, before, keys, 3);
    if err.Some? { return; }
    err := RemoveObject(kube, rbac[1].obj.key, before, keys, 4);
    if err.Some? { return; }
    err := RemoveObject(kube, rbac[2].obj.key, before, keys, 5);
    if err.Some? { return; }
    err := RemoveObject(kube, rbac[3].obj.key, before, keys, 6);
    if err.Some? { return; }
    err := RemoveObject(kube, rbac[4].obj.key, before, keys, 7);
  }

  method RemoveRendered(kube: Client, o: Options, file: Template, nn: NN, values: Values,
                        ghost before: Store, ghost n: nat)
    returns (err: Option<Error>)
    requires Kube.Quiet(kube.world)
    requires n < |RemovalKeys(o)| && RemovalKeys(o)[n] == o.templates.key(file, o.gvr, nn)
    requires Gone(before, kube.Objects(), RemovalKeys(o), n)
    modifies kube
    ensures Kube.Quiet(kube.world)
    ensures err.None? ==> Gone(before, kube.Objects(), RemovalKeys(o), n + 1)
    ensures err.Some? ==> PartlyGone(before, kube.Objects(), RemovalKeys(o))
    ensures old(Kube.Smooth(kube.world)) && file in o.templates.files ==> Kube.Smooth(kube.world) && err.None?
  {
    var obj := CreateK8sObject(o.templates, file, o.gvr, nn, values);
    if obj.Err? { return Some(obj.error); }
    err := RemoveObject(kube, obj.value.key, before, RemovalKeys(o), n);
  }

  method RemoveWorkload(kube: Client, o: Options, sa: Object, ghost before: Store) returns (err: Option<Error>)
    requires Kube.Quiet(kube.world) && Gone(before, kube.Objects(), RemovalKeys(o), 0)
    modifies kube
    ensures Kube.Quiet(kube.world)
    ensures err.None? ==> Gone(before, kube.Objects(), RemovalKeys(o), 3)
    ensures err.Some? ==> PartlyGone(before, kube.Objects(), RemovalKeys(o))
    ensures old(Kube.Smooth(kube.world)) && Needed(o) <= o.templates.files ==> Kube.Smooth(kube.world) && err.None?
  {
    hide Kube.View;
    hide Removed;
    var nn := BaseNN(o.gvr, o.ns);
    err := RemoveRendered(kube, o, JsonSchemaFile, JsonSchemaNN(nn), [("schema", o.schema)], before, 0);
    if err.Some? { return; }
    err := RemoveRendered(kube, o, DeploymentFile, ControllerNN(nn), [("serviceAccountName", sa.key.name)], before, 1);
    if err.Some? { return; }
    err := RemoveRendered(kube, o, ConfigMapFile, ConfigmapNN(nn),
                          [("composition_controller_sa_name", sa.key.name),
                           ("composition_controller_sa_namespace", sa.key.ns)], before, 2);
  }

  method RemoveServiceAndSecrets(kube: Client, o: Options, ghost before: Store) returns (err: Option<Error>)
    requires Kube.Quiet(kube.world) && Gone(before, kube.Objects(), RemovalKeys(o), 8)
    modifies kube
    ensures Kube.Quiet(kube.world)
    ensures err.None? ==> Gone(before, kube.Objects(), RemovalKeys(o), |RemovalKeys(o)|)
    ensures err.Some? ==> PartlyGone(before, kube.Objects(), RemovalKeys(o))
    ensures old(Kube.Smooth(kube.world)) && Needed(o) <= o.templates.files ==> Kube.Smooth(kube.world) && err.None?
  {
    hide Kube.View;
    hide Removed;
    err := None;
    if ServiceFile in o.templates.files {
      err := RemoveRendered(kube, o, ServiceFile, ControllerNN(BaseNN(o.gvr, o.ns)), [], before, 8);
      if err.Some? { return; }
    }
    if o.credentials.Some? {
      ghost var n := if ServiceFile in o.templates.files then 9 else 8;
      err := RemoveRendered(kube, o, SecretRoleFile, SecretNN(o), [("secretName", o.credentials.value.name)],
                            before, n);
      if err.Some? { return; }
      err := RemoveRendered(kube, o, SecretRoleBindingFile, SecretNN(o), [], before, n + 1);
    }
  }

  function CrdKey(o: Options): CrdClient.GroupResource
  {
    CrdClient.GroupResource(o.gvr.group, o.gvr.resource)
  }

  method Undeploy(kube: Client, crds: CrdStore, o: Options, skipCRD: bool) returns (err: Option<Error>)
    requires Kube.Quiet(kube.world) && Kube.Quiet(crds.world)
    requires kube as object != crds as object
    modifies kube, crds
    ensures Kube.Quiet(kube.world) && Kube.Quiet(crds.world)
    ensures err.None? ==>
              && Gone(old(kube.Objects()), kube.Objects(), RemovalKeys(o), |RemovalKeys(o)|)
              && crds.Objects() == if skipCRD then old(crds.Objects()) else old(crds.Objects()) - {CrdKey(o)}
    ensures err.Some? ==>
              && PartlyGone(old(kube.Objects()), kube.Objects(), RemovalKeys(o))
              && (crds.Objects() == old(crds.Objects())
                  || (!skipCRD
                      && Gone(old(kube.Objects()), kube.Objects(), RemovalKeys(o), |RemovalKeys(o)|)
                      && crds.Objects() == old(crds.Objects()) - {CrdKey(o)}))
    ensures old(Kube.Smooth(kube.world) && Kube.Smooth(crds.world)) && Needed(o) <= o.templates.files ==>
              Kube.Smooth(kube.world) && Kube.Smooth(crds.world) && err.None?
  {
    hide RemovalKeys;
    ghost var before := kube.Objects();
    assert Gone(before, before, RemovalKeys(o), 0) by { assert before - Removed(RemovalKeys(o), 0) == before; }
    assert PartlyGone(before, before, RemovalKeys(o));
    var rbac := CreateRBACResources(o);
    if rbac.Err? { return Some(rbac.error); }
    err := RemoveWorkload(kube, o, rbac.value[4].obj, before);
    if err.Some? { return; }
    err := UninstallRBACResources(kube, o, rbac.value, before);
    if err.Some? { return; }
    err := RemoveServiceAndSecrets(kube, o, before);
    if err.Some? { return; }
    assert PartlyGone(before, kube.Objects(), RemovalKeys(o));
    if !skipCRD {
      var failed := CrdClient.Uninstall(crds, CrdKey(o));
      if failed.Some? { return Some(CrdNotRemoved); }
    }
    err := None;
  }
}
