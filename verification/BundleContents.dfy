/**
 * What the installed objects say: internal/tools/deploy/deploy.go hands each template some values, and the
 * templates of the repository (see `Naming`) put them where the cluster reads them.
 */
module BundleContents {
  import opened Wrappers
  import opened Bundle
  import Deploy
  import DeployFacts
  import Kube
  import Naming

  /** A part of an object that can be read as text. */
  type Part = Content -> Option<string>

  function Given(values: Values, name: string): Option<string>
  {
    if values == [] then None
    else if values[0].0 == name then Some(values[0].1)
    else Given(values[1..], name)
  }

  /** The template puts this value into this part. */
  ghost predicate Shows(t: Templates, f: Template, part: Part, name: string)
  {
    forall g, nn, values {:trigger t.content(f, g, nn, values)} ::
      part(t.content(f, g, nn, values)) == Given(values, name)
  }

  /** Neither the server nor a restart changes this part of what is written. */
  ghost predicate Kept(server: Kube.Server<Content>, part: Part)
  {
    && (forall e, v {:trigger server(e, v)} :: part(server(e, v)) == part(v))
    && (forall c, t {:trigger Restart(c, t)} :: part(Restart(c, t)) == part(c))
  }

  /** The account a deployment installs. */
  function AccountKey(o: Options): Key
  {
    Key(ServiceAccount, o.ns, o.gvr.resource + "-" + o.gvr.version)
  }

  const BINDINGS: set<Template> := {ClusterRoleBindingFile, RoleBindingFile, SecretRoleBindingFile}

  // ---- from the plan to the store ----

  lemma Stored(server: Kube.Server<Content>, m: Store, o: Options, now: string, i: nat, part: Part)
    requires DistinctKeys(Plan(o)) && i < |Plan(o)| && Kept(server, part)
    ensures var after, obj := Deploy.Deployed(server, m, o, now), Plan(o)[i].obj;
            obj.key in after && part(after[obj.key]) == part(obj.content)
  {
    hide Plan;
    DeployFacts.InstallOwn(server, m, Plan(o), i);
  }

  /** The object of a template is stored under its key, as rendered with the values of its place in the plan. */
  lemma StoredFile(server: Kube.Server<Content>, m: Store, o: Options, now: string, f: Template, json: string,
                   part: Part) returns (i: nat)
    requires Naming.ByResource(o.templates, json) && json != "-configmap" && f in Naming.Used(o) && Kept(server, part)
    ensures i < |Plan(o)| && Naming.FileAt(o, i) == f
    ensures var after, key := Deploy.Deployed(server, m, o, now), Naming.FileKey(o, f, json);
            key in after && part(after[key]) == part(Plan(o)[i].obj.content)
  {
    hide Plan;
    hide Naming.Used;
    hide Naming.FileAt;
    hide Naming.FileKey;
    hide Naming.ByResource;
    Naming.BundleKeysDistinct(o, json);
    i := Naming.FileIndex(o, f);
    Naming.PlanKey(o, i, json);
    Stored(server, m, o, now, i, part);
  }

  lemma AccountNamed(o: Options, json: string)
    requires Naming.ByResource(o.templates, json)
    ensures Account(o).key == AccountKey(o) == Naming.FileKey(o, ServiceAccountFile, json)
  {
    assert o.gvr.resource + "-" + o.gvr.version + "" == o.gvr.resource + "-" + o.gvr.version;
  }

  lemma BindingValues(o: Options, i: nat)
    requires i < |Plan(o)| && Naming.FileAt(o, i) in BINDINGS
    ensures var f, c := Naming.FileAt(o, i), Plan(o)[i].obj.content;
            exists nn :: c == o.templates.content(f, o.gvr, nn,
                                                  [("serviceAccount", Account(o).key.name),
                                                   ("saNamespace", Account(o).key.ns)])
  {
    PlanParts(o);
  }

  lemma AccountGiven(name: string, ns: string)
    ensures var values := [("serviceAccount", name), ("saNamespace", ns)];
            Given(values, "serviceAccount") == Some(name) && Given(values, "saNamespace") == Some(ns)
  {
    assert [("serviceAccount", name), ("saNamespace", ns)][1..] == [("saNamespace", ns)];
  }

  /**
   * After a deployment every binding names, as its subject, the account that the same deployment installed,
   * by name and by namespace.
   */
  lemma BindingsNameTheAccount(server: Kube.Server<Content>, m: Store, o: Options, now: string, json: string,
                               subject: Part, subjectNs: Part)
    requires Naming.ByResource(o.templates, json) && json != "-configmap"
    requires Kept(server, subject) && Kept(server, subjectNs)
    requires forall f :: f in BINDINGS ==>
               Shows(o.templates, f, subject, "serviceAccount") && Shows(o.templates, f, subjectNs, "saNamespace")
    ensures var after, account := Deploy.Deployed(server, m, o, now), AccountKey(o);
            && account in after
            && forall f :: f in BINDINGS && f in Naming.Used(o) ==>
                 var key := Naming.FileKey(o, f, json);
                 key in after && subject(after[key]) == Some(account.name) && subjectNs(after[key]) == Some(account.ns)
  {
    hide Plan;
    hide Naming.FileKey;
    hide Naming.FileAt;
    hide Naming.ByResource;
    hide Kept;
    hide Given;
    hide Account;
    hide Deploy.Deployed;
    AccountNamed(o, json);
    AccountGiven(AccountKey(o).name, AccountKey(o).ns);
    var _ := StoredFile(server, m, o, now, ServiceAccountFile, json, subject);
    forall f | f in BINDINGS && f in Naming.Used(o)
      ensures var after, key := Deploy.Deployed(server, m, o, now), Naming.FileKey(o, f, json);
              key in after && subject(after[key]) == Some(AccountKey(o).name)
              && subjectNs(after[key]) == Some(AccountKey(o).ns)
    {
      var i := StoredFile(server, m, o, now, f, json, subject);
      var j := StoredFile(server, m, o, now, f, json, subjectNs);
      BindingValues(o, i);
      BindingValues(o, j);
    }
  }

  // ---- the other values ----

  /** The template of the i-th object, and the one value it is given. */
  lemma OtherValues(o: Options, i: nat)
    requires i < |Plan(o)|
    ensures var f, c := Naming.FileAt(o, i), Plan(o)[i].obj.content;
            && (f == DeploymentFile ==>
                  exists nn :: c == o.templates.content(f, o.gvr, nn, [("serviceAccountName", Account(o).key.name)]))
            && (f == JsonSchemaFile ==> exists nn :: c == o.templates.content(f, o.gvr, nn, [("schema", o.schema)]))
            && (f == ConfigMapFile ==>
                  exists nn :: c == o.templates.content(f, o.gvr, nn,
                                     [("composition_controller_sa_name", Account(o).key.name),
                                      ("composition_controller_sa_namespace", Account(o).key.ns)]))
            && (f == SecretRoleFile && o.credentials.Some? ==>
                  exists nn :: c == o.templates.content(f, o.gvr, nn, [("secretName", o.credentials.value.name)]))
  {
    PlanParts(o);
  }

  lemma ControllerNs(o: Options, json: string)
    ensures Naming.FileKey(o, DeploymentFile, json).ns == o.ns
  {
  }

  /** The controller runs as that account. */
  lemma ControllerRunsAsAccount(server: Kube.Server<Content>, m: Store, o: Options, now: string, json: string,
                                part: Part)
    requires Naming.ByResource(o.templates, json) && json != "-configmap" && Kept(server, part)
    requires Shows(o.templates, DeploymentFile, part, "serviceAccountName")
    ensures var after, key := Deploy.Deployed(server, m, o, now), Naming.FileKey(o, DeploymentFile, json);
            key in after && AccountKey(o).ns == key.ns && part(after[key]) == Some(AccountKey(o).name)
  {
    hide Plan;
    hide Naming.FileAt;
    hide Naming.FileKey;
    hide Naming.ByResource;
    hide Kept;
    hide Account;
    hide Deploy.Deployed;
    AccountNamed(o, json);
    ControllerNs(o, json);
    var i := StoredFile(server, m, o, now, DeploymentFile, json, part);
    OtherValues(o, i);
  }

  /** The secret role is for the secret of the chart's credentials, in its namespace. */
  lemma SecretRoleNamesSecret(server: Kube.Server<Content>, m: Store, o: Options, now: string, json: string, part: Part)
    requires Naming.ByResource(o.templates, json) && json != "-configmap" && Kept(server, part)
    requires o.credentials.Some? && Shows(o.templates, SecretRoleFile, part, "secretName")
    ensures var after, key := Deploy.Deployed(server, m, o, now), Naming.FileKey(o, SecretRoleFile, json);
            && key in after && key.kind == Role && key.ns == o.credentials.value.ns
            && part(after[key]) == Some(o.credentials.value.name)
  {
    hide Plan;
    hide Naming.FileAt;
    hide Naming.ByResource;
    hide Kept;
    hide Account;
    hide Deploy.Deployed;
    var i := StoredFile(server, m, o, now, SecretRoleFile, json, part);
    OtherValues(o, i);
  }

  /** The values schema of the chart is stored. */
  lemma SchemaStored(server: Kube.Server<Content>, m: Store, o: Options, now: string, json: string, part: Part)
    requires Naming.ByResource(o.templates, json) && json != "-configmap" && Kept(server, part)
    requires Shows(o.templates, JsonSchemaFile, part, "schema")
    ensures var after, key := Deploy.Deployed(server, m, o, now), Naming.FileKey(o, JsonSchemaFile, json);
            key in after && part(after[key]) == Some(o.schema)
  {
    hide Plan;
    hide Naming.FileAt;
    hide Naming.FileKey;
    hide Naming.ByResource;
    hide Kept;
    hide Deploy.Deployed;
    var i := StoredFile(server, m, o, now, JsonSchemaFile, json, part);
    OtherValues(o, i);
  }

  /** The controller is told its account. */
  lemma ControllerToldAccount(server: Kube.Server<Content>, m: Store, o: Options, now: string, json: string,
                              name: Part, ns: Part)
    requires Naming.ByResource(o.templates, json) && json != "-configmap" && Kept(server, name) && Kept(server, ns)
    requires Shows(o.templates, ConfigMapFile, name, "composition_controller_sa_name")
    requires Shows(o.templates, ConfigMapFile, ns, "composition_controller_sa_namespace")
    ensures var after, key := Deploy.Deployed(server, m, o, now), Naming.FileKey(o, ConfigMapFile, json);
            && key in after && name(after[key]) == Some(AccountKey(o).name) && ns(after[key]) == Some(AccountKey(o).ns)
  {
    hide Plan;
    hide Naming.FileAt;
    hide Naming.FileKey;
    hide Naming.ByResource;
    hide Kept;
    hide Given;
    hide Account;
    hide Deploy.Deployed;
    AccountNamed(o, json);
    ConfigGiven(AccountKey(o).name, AccountKey(o).ns);
    var i := StoredFile(server, m, o, now, ConfigMapFile, json, name);
    OtherValues(o, i);
    var j := StoredFile(server, m, o, now, ConfigMapFile, json, ns);
    OtherValues(o, j);
  }

  lemma ConfigGiven(name: string, ns: string)
    ensures var values := [("composition_controller_sa_name", name), ("composition_controller_sa_namespace", ns)];
            && Given(values, "composition_controller_sa_name") == Some(name)
            && Given(values, "composition_controller_sa_namespace") == Some(ns)
  {
    assert [("composition_controller_sa_name", name), ("composition_controller_sa_namespace", ns)][1..]
        == [("composition_controller_sa_namespace", ns)];
  }

  // ---- what every template is told ----

  /** The template puts the given name, or the resource it is for, into this part. */
  ghost predicate ShowsName(t: Templates, f: Template, part: Part)
  {
    forall g, nn, values {:trigger t.content(f, g, nn, values)} :: part(t.content(f, g, nn, values)) == Some(nn.name)
  }

  ghost predicate ShowsGvr(t: Templates, f: Template, part: Part, field: GVR -> string)
  {
    forall g, nn, values {:trigger t.content(f, g, nn, values)} :: part(t.content(f, g, nn, values)) == Some(field(g))
  }

  /** The controller is started for the group, version and resource of the definition. */
  lemma ControllerWatches(server: Kube.Server<Content>, m: Store, o: Options, now: string, json: string,
                          group: Part, version: Part, resource: Part)
    requires Naming.ByResource(o.templates, json) && json != "-configmap"
    requires Kept(server, group) && Kept(server, version) && Kept(server, resource)
    requires ShowsGvr(o.templates, DeploymentFile, group, (g: GVR) => g.group)
    requires ShowsGvr(o.templates, DeploymentFile, version, (g: GVR) => g.version)
    requires ShowsGvr(o.templates, DeploymentFile, resource, (g: GVR) => g.resource)
    ensures var after, key := Deploy.Deployed(server, m, o, now), Naming.FileKey(o, DeploymentFile, json);
            && key in after && group(after[key]) == Some(o.gvr.group) && version(after[key]) == Some(o.gvr.version)
            && resource(after[key]) == Some(o.gvr.resource)
  {
    hide Plan;
    hide Naming.FileAt;
    hide Naming.FileKey;
    hide Naming.ByResource;
    hide Kept;
    hide Account;
    hide Deploy.Deployed;
    var i := StoredFile(server, m, o, now, DeploymentFile, json, group);
    OtherValues(o, i);
    var j := StoredFile(server, m, o, now, DeploymentFile, json, version);
    OtherValues(o, j);
    var k := StoredFile(server, m, o, now, DeploymentFile, json, resource);
    OtherValues(o, k);
  }

  lemma ControllerName(o: Options, i: nat)
    requires i < |Plan(o)| && Naming.FileAt(o, i) in {DeploymentFile, ServiceFile}
    ensures exists values ::
              Plan(o)[i].obj.content
              == o.templates.content(Naming.FileAt(o, i), o.gvr,
                                     NN(o.ns, o.gvr.resource + "-" + o.gvr.version + "-controller"), values)
  {
    PlanParts(o);
  }

  /** So the service selects the pods of the deployment, which are labelled with the name given to both. */
  lemma ServiceSelectsDeployment(server: Kube.Server<Content>, m: Store, o: Options, now: string, json: string,
                                 selector: Part, pods: Part)
    requires Naming.ByResource(o.templates, json) && json != "-configmap" && ServiceFile in o.templates.files
    requires Kept(server, selector) && Kept(server, pods)
    requires ShowsName(o.templates, ServiceFile, selector) && ShowsName(o.templates, DeploymentFile, pods)
    ensures var after := Deploy.Deployed(server, m, o, now);
            var service, deployment := Naming.FileKey(o, ServiceFile, json), Naming.FileKey(o, DeploymentFile, json);
            && service in after && deployment in after && service.ns == deployment.ns
            && selector(after[service]) == pods(after[deployment])
               == Some(o.gvr.resource + "-" + o.gvr.version + "-controller")
  {
    hide Plan;
    hide Naming.FileAt;
    hide Naming.ByResource;
    hide Kept;
    hide Deploy.Deployed;
    var i := StoredFile(server, m, o, now, ServiceFile, json, selector);
    ControllerName(o, i);
    var j := StoredFile(server, m, o, now, DeploymentFile, json, pods);
    ControllerName(o, j);
  }

  /** The restart that ends a deployment: the workload carries the time, and is otherwise as the server answered. */
  lemma RestartRecorded(server: Kube.Server<Content>, m: Store, o: Options, now: string, json: string)
    requires Naming.ByResource(o.templates, json) && json != "-configmap"
    ensures var key := Naming.FileKey(o, DeploymentFile, json);
            && key in Deploy.Deployed(server, m, o, now)
            && exists i :: 0 <= i < |Plan(o)| && Plan(o)[i].obj.key == key
                           && match Answer(server, m, Plan(o)[i])
                              case Workload(spec, _) =>
                                Deploy.Deployed(server, m, o, now)[key] == Workload(spec, Some(now))
                              case other => Deploy.Deployed(server, m, o, now)[key] == other
  {
    hide Plan;
    hide Naming.Used;
    hide Naming.FileAt;
    hide Naming.ByResource;
    Naming.BundleKeysDistinct(o, json);
    assert DeploymentFile in Naming.Used(o) by { DeploymentUsed(o); }
    var i := Naming.FileIndex(o, DeploymentFile);
    Naming.PlanKey(o, i, json);
    DeployFacts.InstallOwn(server, m, Plan(o), i);
    DeploymentKeyIs(o, json);
  }

  lemma DeploymentUsed(o: Options)
    ensures DeploymentFile in Naming.Used(o)
  {
  }

  lemma DeploymentKeyIs(o: Options, json: string)
    requires Naming.ByResource(o.templates, json)
    ensures DeploymentKey(o) == Naming.FileKey(o, DeploymentFile, json)
  {
  }
}
