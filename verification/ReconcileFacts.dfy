/** How the reconcile loop gets into the states it cannot leave, and what a run that converges has done. */
module ReconcileFacts {
  import opened Wrappers
  import opened Convergence
  import opened Reconcile
  import opened Status
  import Bundle
  import CrdClient
  import Deploy
  import DeployFacts
  import Generation
  import Getters
  import Hash
  import Kube
  import Naming

  // ---- lost objects ----

  /**
   * Losing some objects of a definition that was up to date leaves it stuck exactly when a secret object is
   * among them and a dry run still gives the recorded digest.
   */
  lemma LostSecretsStick(cfg: Config, st: State, lost: set<Bundle.Key>)
    requires Regular(cfg, st) && Observe(cfg, st) == UpToDate
    ensures cfg.Versioned() && Regular(cfg, st.(bundle := st.bundle - lost))
    ensures Stuck(cfg, st.(bundle := st.bundle - lost)) <==>
            !(SecretKeys(cfg.Options()) !! lost) && DryDigest(cfg, st.bundle - lost) == DryDigest(cfg, st.bundle)
  {
    hide DryDigest;
    hide LookupDigest;
    hide Deploy.SecretsPresent;
    hide SecretKeys;
    ObserveCases(cfg, st);
    SecretsPresentIs(st.bundle, cfg.Options());
    SecretsPresentIs(st.bundle - lost, cfg.Options());
  }

  function SecretRole(cfg: Config): Bundle.Item
    requires cfg.Versioned() && cfg.chart.credentials.Some?
  {
    Bundle.PlanSecrets(cfg.Options());
    Bundle.Plan(cfg.Options())[0]
  }

  lemma SecretRoleKey(cfg: Config)
    requires cfg.Versioned() && cfg.chart.credentials.Some?
    ensures SecretRole(cfg).obj.key in SecretKeys(cfg.Options())
  {
    Bundle.PlanSecrets(cfg.Options());
  }

  /** A role of which the server makes the same whether it is there or not: a dry run does not miss it. */
  lemma RoleUnmissed(cfg: Config, m: Bundle.Store)
    requires Sane(cfg) && cfg.Versioned() && cfg.chart.credentials.Some?
    requires var role := SecretRole(cfg);
             Bundle.Answer(cfg.server, m - {role.obj.key}, role) == Bundle.Answer(cfg.server, m, role)
    ensures DryDigest(cfg, m - {SecretRole(cfg).obj.key}) == DryDigest(cfg, m)
  {
    var items, key := Bundle.Plan(cfg.Options()), SecretRole(cfg).obj.key;
    hide Bundle.Plan;
    forall i | 0 <= i < |items|
      ensures Bundle.Answer(cfg.server, m - {key}, items[i]) == Bundle.Answer(cfg.server, m, items[i])
    {
      if i > 0 {
        Bundle.DistinctPair(items, 0, i);
      }
    }
    DeployFacts.DryStreamsAlike(cfg.server, m - {key}, m, items);
  }

  /** Deleting such a role of a definition that was up to date leaves it stuck for ever. */
  lemma DeletedSecretRoleSticks(cfg: Config, st: State)
    requires Regular(cfg, st) && Observe(cfg, st) == UpToDate && cfg.chart.credentials.Some?
    requires var role := SecretRole(cfg);
             Bundle.Answer(cfg.server, st.bundle - {role.obj.key}, role) == Bundle.Answer(cfg.server, st.bundle, role)
    ensures var st' := st.(bundle := st.bundle - {SecretRole(cfg).obj.key});
            && Regular(cfg, st') && Stuck(cfg, st')
            && forall beats :: Observe(cfg, Rounds(cfg, st', beats)) != UpToDate
  {
    hide Observe;
    hide Rounds;
    hide Stuck;
    hide SecretKeys;
    hide DryDigest;
    RegularIsSane(cfg, st);
    var key := SecretRole(cfg).obj.key;
    SecretRoleKey(cfg);
    RoleUnmissed(cfg, st.bundle);
    LostSecretsStick(cfg, st, {key});
    assert key in SecretKeys(cfg.Options()) && key in {key};
    forall beats ensures Observe(cfg, Rounds(cfg, st.(bundle := st.bundle - {key}), beats)) != UpToDate {
      NeverConverges(cfg, st.(bundle := st.bundle - {key}), beats);
    }
  }

  // ---- from an empty cluster ----

  /** A new definition whose CRD does not exist is up to date after one round. */
  lemma FirstDeployment(cfg: Config, st: State, b: Beat)
    requires Sane(cfg) && CrdClient.KeyOf(cfg.gen) !in st.crds && st.status.versionInfo == []
    ensures cfg.Versioned() && Regular(cfg, st) && !Diverges(cfg, st) && Needed(cfg, st) == 1
    ensures Regular(cfg, Rounds(cfg, st, [b])) && Observe(cfg, Rounds(cfg, st, [b])) == UpToDate
    ensures Rounds(cfg, st, [b]).bundle == Deploy.Deployed(cfg.server, st.bundle, cfg.Options(), b.now)
  {
    hide Round;
    hide Observe;
    hide Regular;
    hide Diverges;
    hide Needed;
    NewIsRegular(cfg, st);
    BundlesIgnored(cfg, b, st);
    AfterCreate(cfg.At(b), st, b.now);
    CreatedBundle(cfg, b, st);
    assert [b][1..] == [];
    AnyBundle(cfg, b, Round(cfg.At(b), st, b.now));
  }

  lemma NewIsRegular(cfg: Config, st: State)
    requires Sane(cfg) && CrdClient.KeyOf(cfg.gen) !in st.crds && st.status.versionInfo == []
    ensures cfg.Versioned() && Regular(cfg, st) && Observe(cfg, st) == Absent && !Diverges(cfg, st)
            && Needed(cfg, st) == 1
  {
    hide Sane;
    SaneIsEquipped(cfg);
  }

  lemma CreatedBundle(cfg: Config, b: Beat, st: State)
    requires cfg.Versioned() && Observe(cfg.At(b), st) == Absent
    ensures Round(cfg.At(b), st, b.now).bundle == Deploy.Deployed(cfg.server, st.bundle, cfg.Options(), b.now)
  {
    hide Observe;
    hide Deploy.Deployed;
    DigestsIgnore(cfg, b, st.bundle);
  }

  /** So a stuck state is two steps away: deploy, then lose the secret role. */
  lemma StuckAfterDeployment(cfg: Config, st: State, b: Beat)
    requires Sane(cfg) && CrdClient.KeyOf(cfg.gen) !in st.crds && st.status.versionInfo == []
    requires cfg.Versioned() && cfg.chart.credentials.Some? && SecretRole(cfg).obj.key !in st.bundle
    ensures var deployed := Rounds(cfg, st, [b]);
            var lost := deployed.(bundle := deployed.bundle - {SecretRole(cfg).obj.key});
            Stuck(cfg, lost) && forall beats :: Observe(cfg, Rounds(cfg, lost, beats)) != UpToDate
  {
    hide Observe;
    hide Rounds;
    hide Stuck;
    hide Deploy.Deployed;
    hide Bundle.DistinctKeys;
    var role, m := SecretRole(cfg), st.bundle;
    hide Bundle.Plan;
    var after := Deploy.Deployed(cfg.server, m, cfg.Options(), b.now);
    FirstDeployment(cfg, st, b);
    DeployFacts.RemovedItem(cfg.server, m, cfg.Options(), b.now, {}, 0);
    DeployFacts.RemovedItem(cfg.server, m, cfg.Options(), b.now, {role.obj.key}, 0);
    assert after - {} == after && m - {} == m && m - {role.obj.key} == m;
    DeletedSecretRoleSticks(cfg, Rounds(cfg, st, [b]));
  }

  // ---- a version recorded without a chart ----

  /** A version of the CRD that is new to the status and not the wanted one is recorded without a chart. */
  lemma {:induction false} OtherVersionsLackCharts(infos: Infos, vs: seq<Generation.Version>, wanted: string,
                                                   chart: ChartInfo, i: nat)
    requires CrdClient.Distinct(vs) && i < |vs| && vs[i].name != wanted
    requires Find(infos, vs[i].name) == |infos|
    ensures var r := RefreshAll(infos, vs, wanted, chart);
            Find(r, vs[i].name) < |r| && r[Find(r, vs[i].name)].chart.None?
  {
    var rest, v := vs[..|vs| - 1], vs[|vs| - 1];
    var mid := RefreshAll(infos, rest, wanted, chart);
    var r := RefreshAll(infos, vs, wanted, chart);
    RefreshStep(mid, v, wanted, chart);
    if i < |rest| {
      assert rest[i] == vs[i];
      OtherVersionsLackCharts(infos, rest, wanted, chart, i);
      FindInExtension(mid, r, vs[i].name);
    } else {
      RefreshSkips(infos, rest, wanted, chart, v.name);
    }
  }

  lemma {:induction false} RefreshSkips(infos: Infos, vs: seq<Generation.Version>, wanted: string, chart: ChartInfo,
                                        name: string)
    requires Find(infos, name) == |infos| && forall i :: 0 <= i < |vs| ==> vs[i].name != name
    ensures var r := RefreshAll(infos, vs, wanted, chart); Find(r, name) == |r|
  {
    if vs != [] {
      var rest, v := vs[..|vs| - 1], vs[|vs| - 1];
      var mid := RefreshAll(infos, rest, wanted, chart);
      RefreshSkips(infos, rest, wanted, chart, name);
      FoundOnlyIfThere(mid, name);
      FoundOnlyIfThere(RefreshAll(infos, vs, wanted, chart), name);
      RefreshStep(mid, v, wanted, chart);
    }
  }

  lemma FoundOnlyIfThere(infos: Infos, name: string)
    ensures Find(infos, name) == |infos| <==> forall i :: 0 <= i < |infos| ==> infos[i].version != name
  {
  }

  /**
   * A version first recorded while another was wanted keeps no chart. Once the definition has adopted it,
   * the next change of version makes every `Update` panic.
   */
  lemma AdoptedVersionPanics(adopt: Config, leave: Config, s: DefinitionStatus)
    requires adopt.Versioned() && leave.Versioned()
    requires Find(s.versionInfo, adopt.Version()) < |s.versionInfo|
    requires s.versionInfo[Find(s.versionInfo, adopt.Version())].chart.None?
    requires leave.Version() != adopt.Version()
    ensures NilChart(leave, Refreshed(s, adopt.gen, adopt.Gvr(), adopt.gen.kind, adopt.chart, adopt.packageURL))
  {
    var r := Refreshed(s, adopt.gen, adopt.Gvr(), adopt.gen.kind, adopt.chart, adopt.packageURL);
    RefreshExtends(s.versionInfo, adopt.gen.versions, adopt.Version(), adopt.chart);
    FindInExtension(s.versionInfo, r.versionInfo, adopt.Version());
  }

  /**
   * Then no number of rounds helps, unless the new version renders to the digest recorded for the old one.
   */
  lemma AdoptedVersionDiverges(adopt: Config, leave: Config, st: State, now: string, beats: seq<Beat>)
    requires Regular(adopt, st) && Observe(adopt, st) == UpToDate
    requires Regular(leave, st) && CrdClient.KeyOf(leave.gen) in st.crds && leave.Version() != adopt.Version()
    requires Find(st.status.versionInfo, adopt.Version()) < |st.status.versionInfo|
    requires st.status.versionInfo[Find(st.status.versionInfo, adopt.Version())].chart.None?
    requires adopt.gen.kind == st.crds[CrdClient.KeyOf(adopt.gen)].kind
    requires var st' := Round(adopt, st, now);
             st.status.digest !in {Some(DryDigest(leave, st.bundle)),
                                   Some(DryDigest(leave, st.bundle - Gone(leave, st'.status)))}
    ensures Observe(leave, Rounds(leave, Round(adopt, st, now), beats)) != UpToDate
  {
    hide Sane;
    hide DryDigest;
    hide LookupDigest;
    hide Gone;
    hide Rounds;
    hide TakesSecrets;
    hide Intact;
    hide Superseded;
    hide Deploy.SecretsPresent;
    RegularIsSane(adopt, st);
    RegularIsSane(leave, st);
    var crd := st.crds[CrdClient.KeyOf(adopt.gen)];
    var st' := Round(adopt, st, now);
    UpToDateStays(adopt, st, now);
    RefreshKeepsDigest(st.status, crd, adopt.Gvr(), adopt.gen.kind, adopt.chart, adopt.packageURL);
    RefreshExtends(st.status.versionInfo, crd.versions, adopt.Version(), adopt.chart);
    AdoptedFromCrd(adopt, leave, st.status, crd);
    ObserveCases(leave, st');
    NeverConverges(leave, st', beats);
  }

  lemma AdoptedFromCrd(adopt: Config, leave: Config, s: DefinitionStatus, crd: Generation.Spec)
    requires adopt.Versioned() && leave.Versioned() && crd.kind == adopt.gen.kind
    requires Find(s.versionInfo, adopt.Version()) < |s.versionInfo|
    requires s.versionInfo[Find(s.versionInfo, adopt.Version())].chart.None?
    requires leave.Version() != adopt.Version()
    ensures NilChart(leave, Refreshed(s, crd, adopt.Gvr(), adopt.gen.kind, adopt.chart, adopt.packageURL))
  {
    var r := Refreshed(s, crd, adopt.Gvr(), adopt.gen.kind, adopt.chart, adopt.packageURL);
    RefreshExtends(s.versionInfo, crd.versions, adopt.Version(), adopt.chart);
    FindInExtension(s.versionInfo, r.versionInfo, adopt.Version());
  }

  // ---- compositions ----

  /** After an update that moves them, no composition carries the old version, and none was lost. */
  lemma UpdateMovesCompositions(cfg: Config, st: State, now: string)
    requires cfg.Versioned() && Moves(cfg, st.status) && !NilChart(cfg, st.status)
    ensures var old_, comps := Getters.Carrying(st.comps, st.status.version), UpdateSpec(cfg, st, now).comps;
            && Getters.Carrying(comps, st.status.version) == {}
            && Getters.Carrying(comps, cfg.Version()) == Getters.Carrying(st.comps, cfg.Version()) + old_
            && comps.Keys == st.comps.Keys
            && (forall k :: k in comps && k !in old_ ==> comps[k] == st.comps[k])
            && forall k :: k in old_ ==> Getters.Relabels(st.comps[k], comps[k], cfg.Version())
  {
    hide Getters.Relabels;
    hide Getters.Relabelled;
    forall k | k in st.comps
      ensures Getters.Relabels(st.comps[k], Getters.Relabelled(st.comps[k], cfg.Version()), cfg.Version())
    {
      Getters.RelabelledRelabels(st.comps[k], cfg.Version());
    }
    Getters.PendingShrinks(st.comps, Getters.Carrying(st.comps, st.status.version), st.status.version, cfg.Version());
  }

  /** The status names the wanted version. */
  predicate Arrived(cfg: Config, s: DefinitionStatus)
    requires cfg.Versioned()
  {
    (s.group, s.version, s.kind) == (cfg.gen.group, cfg.Version(), cfg.gen.kind)
  }

  lemma ArrivedObserved(cfg: Config, st: State)
    requires cfg.Versioned() && Arrived(cfg, st.status)
    ensures Arrived(cfg, Observed(cfg, st))
  {
    hide Refreshed;
    hide DryDigest;
    hide LookupDigest;
    hide Deploy.SecretsPresent;
    if Observe(cfg, st) == UpToDate {
      RefreshKeepsDigest(st.status, st.crds[CrdClient.KeyOf(cfg.gen)], cfg.Gvr(), cfg.gen.kind,
                         cfg.chart, cfg.packageURL);
    }
  }

  lemma ArrivedRound(cfg: Config, st: State, now: string)
    requires cfg.Versioned() && Arrived(cfg, st.status)
    ensures var st' := Round(cfg, st, now);
            Arrived(cfg, st'.status) && st'.comps == st.comps
  {
    hide Refreshed;
    hide Observe;
    hide Observed;
    hide CrdsAfter;
    hide BundleAfter;
    hide Bundle.Plan;
    hide Bundle.DeployStream;
    hide Hash.DigestOf;
    hide Deploy.Deployed;
    ArrivedObserved(cfg, st);
    RefreshKeepsDigest(Digested(cfg, st), cfg.gen, cfg.Gvr(), cfg.gen.kind, cfg.chart, cfg.packageURL);
  }

  lemma {:induction false} ArrivedStays(cfg: Config, st: State, beats: seq<Beat>)
    requires cfg.Versioned() && Arrived(cfg, st.status)
    ensures Rounds(cfg, st, beats).comps == st.comps
    decreases |beats|
  {
    hide Round;
    if beats != [] {
      ArrivedRound(cfg.At(beats[0]), st, beats[0].now);
      ArrivedStays(cfg, Round(cfg.At(beats[0]), st, beats[0].now), beats[1..]);
    }
  }

  /** No update completes from here, so nothing moves the compositions. */
  predicate Idle(cfg: Config, st: State)
    requires cfg.Versioned()
  {
    Observe(cfg, st) == Outdated ==> NilChart(cfg, st.status)
  }

  lemma IdleRound(cfg: Config, st: State, now: string)
    requires Regular(cfg, st) && Idle(cfg, st)
    ensures var st' := Round(cfg, st, now); Regular(cfg, st') && Idle(cfg, st') && st'.comps == st.comps
  {
    hide Regular;
    hide Observe;
    hide Round;
    hide UpdateSpec;
    NeededPositive(cfg, st);
    RoundIs(cfg, st, now);
    match Observe(cfg, st) {
      case Absent => AfterCreate(cfg, st, now);
      case UpToDate => UpToDateStays(cfg, st, now);
      case Outdated => PanickedUpdate(cfg, st, now);
      case Failed =>
    }
  }

  lemma {:induction false} IdleStays(cfg: Config, st: State, beats: seq<Beat>)
    requires Regular(cfg, st) && Idle(cfg, st)
    ensures Rounds(cfg, st, beats).comps == st.comps
    decreases |beats|
  {
    hide Round;
    hide Regular;
    hide Observe;
    hide NilChart;
    if beats != [] {
      var b := beats[0];
      RegularIsSane(cfg, st);
      BundlesIgnored(cfg, b, st);
      StatusIgnores(cfg, b, st.status);
      var st' := Round(cfg.At(b), st, b.now);
      IdleRound(cfg.At(b), st, b.now);
      AnyBundle(cfg, b, st');
      StatusIgnores(cfg, b, st'.status);
      IdleStays(cfg, st', beats[1..]);
    }
  }

  /**
   * Over any number of rounds the compositions of the recorded version move exactly if the first answer is
   * "outdated" and that update does not panic. A definition found up to date, or created, records the
   * new version without them.
   */
  lemma CompositionsFollow(cfg: Config, st: State, beats: seq<Beat>)
    requires Regular(cfg, st) && Moves(cfg, st.status) && beats != []
    ensures var old_, comps := st.status.version, Rounds(cfg, st, beats).comps;
            && comps == (if Idle(cfg, st) then st.comps else CompsAfter(cfg, st))
            && (Getters.Carrying(comps, old_) == {} <==> !Idle(cfg, st) || Getters.Carrying(st.comps, old_) == {})
  {
    hide Regular;
    hide Observe;
    hide Refreshed;
    hide CrdsAfter;
    hide BundleAfter;
    RegularIsSane(cfg, st);
    if Idle(cfg, st) {
      IdleStays(cfg, st, beats);
    } else {
      var b := beats[0];
      BundlesIgnored(cfg, b, st);
      StatusIgnores(cfg, b, st.status);
      var st' := Round(cfg.At(b), st, b.now);
      RoundIs(cfg.At(b), st, b.now);
      RefreshKeepsDigest(Digested(cfg.At(b), st), cfg.gen, cfg.Gvr(), cfg.gen.kind, cfg.chart, cfg.packageURL);
      ArrivedStays(cfg, st', beats[1..]);
      UpdateMovesCompositions(cfg, st, b.now);
    }
  }

  // ---- the superseded bundle ----

  lemma RoundKeys(cfg: Config, st: State, now: string)
    requires cfg.Versioned()
    ensures Round(cfg, st, now).bundle.Keys <= st.bundle.Keys + Bundle.Keys(Bundle.Plan(cfg.Options()))
  {
    hide Bundle.Plan;
    hide Bundle.Keys;
    hide Observe;
    DeployFacts.DeployedKeys(cfg.server, st.bundle, cfg.Options(), now);
    BundleAfterIs(cfg, st, now);
  }

  lemma {:induction false} OnlyPlanned(cfg: Config, st: State, beats: seq<Beat>)
    requires cfg.Versioned()
    ensures Rounds(cfg, st, beats).bundle.Keys <= st.bundle.Keys + Bundle.Keys(Bundle.Plan(cfg.Options()))
    decreases |beats|
  {
    hide Round;
    hide Bundle.Plan;
    hide Bundle.Keys;
    if beats != [] {
      DigestsIgnore(cfg, beats[0], st.bundle);
      RoundKeys(cfg.At(beats[0]), st, beats[0].now);
      OnlyPlanned(cfg, Round(cfg.At(beats[0]), st, beats[0].now), beats[1..]);
    }
  }

  /** After an update, completed or not, nothing of the superseded bundle is left but what the new one contains too. */
  lemma SupersededGone(cfg: Config, st: State, beats: seq<Beat>)
    requires Regular(cfg, st) && Observe(cfg, st) == Outdated && beats != []
    ensures Gone(cfg, st.status) - Bundle.Keys(Bundle.Plan(cfg.Options())) !! Rounds(cfg, st, beats).bundle.Keys
  {
    hide Bundle.Plan;
    hide Bundle.Keys;
    hide Gone;
    hide Regular;
    hide Observe;
    hide UpdateSpec;
    RegularIsSane(cfg, st);
    var b := beats[0];
    BundlesIgnored(cfg, b, st);
    StatusIgnores(cfg, b, st.status);
    DigestsIgnore(cfg, b, st.bundle);
    RoundIs(cfg.At(b), st, b.now);
    AfterUpdate(cfg.At(b), st, b.now);
    OnlyPlanned(cfg, Round(cfg.At(b), st, b.now), beats[1..]);
  }

  // ---- bundles named by the repository's templates ----

  /** The superseded bundle is apart exactly when no clash of names applies. */
  lemma ApartByName(cfg: Config, s: DefinitionStatus, json: string)
    requires cfg.Versioned() && Naming.ByResource(cfg.templates, json)
    requires '-' !in cfg.gen.plural && '-' !in s.resource
    ensures Apart(cfg, s) <==> Superseded(cfg, s).None? || !Naming.Clash(Retired(cfg, s), cfg.Options(), json)
  {
    hide Bundle.Plan;
    hide Bundle.Keys;
    hide Naming.Clash;
    hide Naming.ByResource;
    if Superseded(cfg, s).Some? {
      Naming.KeysApartIff(Retired(cfg, s), cfg.Options(), json);
    }
  }

  /**
   * An update takes away secret objects it has just deployed exactly when their names are those of the old
   * secret objects or of the old plain ones, in the same namespace.
   */
  lemma TakesSecretsIff(cfg: Config, s: DefinitionStatus, json: string)
    requires cfg.Versioned() && Naming.ByResource(cfg.templates, json)
    requires '-' !in cfg.gen.plural && '-' !in s.resource
    ensures TakesSecrets(cfg, s) <==>
            && Superseded(cfg, s).Some? && cfg.chart.credentials.Some? && s.resource == cfg.gen.plural
            && var o := Retired(cfg, s);
               || (s.version == cfg.Version() && o.credentials.Some?
                   && o.credentials.value.ns == cfg.chart.credentials.value.ns)
               || Naming.SecretClash(cfg.Options(), o)
  {
    hide Naming.Used;
    hide Bundle.Plan;
    hide Bundle.Keys;
    hide Bundle.ResourceNamer;
    if Superseded(cfg, s).Some? && cfg.chart.credentials.Some? {
      var o, p := cfg.Options(), Retired(cfg, s);
      Naming.KeysAre(p, json);
      SecretShared(o, p, json);
    }
  }

  /** A secret object of `o` under the name of some object of `p`. */
  lemma SecretFileShared(o: Bundle.Options, p: Bundle.Options, f: Bundle.Template, json: string)
    requires Naming.ByResource(o.templates, json) && '-' !in o.gvr.resource && '-' !in p.gvr.resource
    requires o.credentials.Some? && o.ns == p.ns && f in Naming.Used(p)
    ensures Naming.FileKey(p, f, json) in SecretKeys(o) <==>
            && o.gvr.resource == p.gvr.resource
            && (|| (f in Naming.SECRET_FILES && o.gvr.version == p.gvr.version
                    && p.credentials.value.ns == o.credentials.value.ns)
                || (f in {Bundle.RoleFile, Bundle.RoleBindingFile} && Naming.SecretClash(o, p)))
  {
    hide Bundle.ResourceNamer;
    Naming.NamesEqual(o.gvr, "-secret", p.gvr, Naming.Suffix(f, json));
    Naming.SameSuffix(o.gvr.version, p.gvr.version, "-secret");
    Naming.SameSuffix(p.gvr.version, o.gvr.version, "");
    var nn := Bundle.SecretNN(o);
    assert SecretKeys(o) == {Naming.FileKey(o, Bundle.SecretRoleFile, json),
                             Naming.FileKey(o, Bundle.SecretRoleBindingFile, json)};
  }

  lemma SecretShared(o: Bundle.Options, p: Bundle.Options, json: string)
    requires Naming.ByResource(o.templates, json) && '-' !in o.gvr.resource && '-' !in p.gvr.resource
    requires o.credentials.Some? && o.ns == p.ns
    ensures (exists f :: f in Naming.Used(p) && Naming.FileKey(p, f, json) in SecretKeys(o)) <==>
            && o.gvr.resource == p.gvr.resource
            && (|| (o.gvr.version == p.gvr.version && p.credentials.Some?
                    && p.credentials.value.ns == o.credentials.value.ns)
                || Naming.SecretClash(o, p))
  {
    hide Naming.FileKey;
    hide Naming.SecretClash;
    hide SecretKeys;
    forall f | f in Naming.Used(p)
      ensures Naming.FileKey(p, f, json) in SecretKeys(o) <==>
              && o.gvr.resource == p.gvr.resource
              && (|| (f in Naming.SECRET_FILES && o.gvr.version == p.gvr.version
                      && p.credentials.value.ns == o.credentials.value.ns)
                  || (f in {Bundle.RoleFile, Bundle.RoleBindingFile} && Naming.SecretClash(o, p)))
    {
      SecretFileShared(o, p, f, json);
    }
    assert Bundle.RoleFile in Naming.Used(p);
    assert p.credentials.Some? ==> Bundle.SecretRoleFile in Naming.Used(p);
  }

  /** The names handed to the templates clash in the same way for the two ConfigMaps. */
  lemma JsonSchemaNameClash(resource: string, version: string, ns: string, group: string)
    ensures var old_, new_ := Bundle.GVR(group, version, resource),
                              Bundle.GVR(group, version + "-jsonschema", resource);
            Bundle.JsonSchemaNN(Bundle.BaseNN(old_, ns)) == Bundle.ConfigmapNN(Bundle.BaseNN(new_, ns))
  {
    assert resource + "-" + version + "-jsonschema" == resource + "-" + (version + "-jsonschema");
  }

  /** If only the group or the kind changes, the old bundle is the new one, and `Update` removes what it deployed. */
  lemma SameNamesSameBundle(cfg: Config, st: State, now: string, json: string)
    requires cfg.Versioned() && Superseded(cfg, st.status).Some? && Naming.ByResource(cfg.templates, json)
    requires Retired(cfg, st.status).credentials == cfg.chart.credentials
    requires (st.status.resource, st.status.version) == (cfg.gen.plural, cfg.Version())
    ensures Bundle.Keys(Bundle.Plan(cfg.Options())) !! UpdateSpec(cfg, st, now).bundle.Keys
  {
    hide Bundle.Plan;
    hide Bundle.Keys;
    hide Deploy.Deployed;
    hide Naming.ByResource;
    hide Superseded;
    hide CrdsAfter;
    hide CompsAfter;
    hide Refreshed;
    SameFilesSameKeys(cfg.Options(), Retired(cfg, st.status), json);
    BundleAfterIs(cfg, st, now);
  }

  lemma SameFilesSameKeys(o: Bundle.Options, p: Bundle.Options, json: string)
    requires Naming.ByResource(o.templates, json) && o.templates == p.templates
    requires o.ns == p.ns && o.credentials == p.credentials
    requires (o.gvr.resource, o.gvr.version) == (p.gvr.resource, p.gvr.version)
    ensures Bundle.Keys(Bundle.Plan(o)) == Bundle.Keys(Bundle.Plan(p))
  {
    hide Bundle.Plan;
    hide Bundle.Keys;
    hide Naming.ByResource;
    Naming.KeysAre(o, json);
    Naming.KeysAre(p, json);
    assert forall f :: Naming.FileKey(o, f, json) == Naming.FileKey(p, f, json);
  }

  // ---- a stranded definition ----

  /** Templates with names by resource, for objects that have a name and nothing else. */
  function PlainTemplates(json: string): (t: Bundle.Templates)
    ensures Naming.ByResource(t, json)
  {
    Bundle.Templates(
      {Bundle.ServiceAccountFile, Bundle.ClusterRoleFile, Bundle.ClusterRoleBindingFile, Bundle.RoleFile,
       Bundle.RoleBindingFile, Bundle.SecretRoleFile, Bundle.SecretRoleBindingFile, Bundle.JsonSchemaFile,
       Bundle.ConfigMapFile, Bundle.DeploymentFile},
      (f: Bundle.Template, g: Bundle.GVR, nn: Bundle.NN) =>
        Bundle.Key(Naming.KindOf(f), if f in Naming.CLUSTER_SCOPED then "" else nn.ns, Naming.NameOf(g, f, json)),
      (f: Bundle.Template, g: Bundle.GVR, nn: Bundle.NN, values: Bundle.Values) => Bundle.Plain)
  }

  function VersionNamed(name: string): Generation.Version
  {
    Generation.Version(name, true, true, Some(Some(map[Generation.STATUS := "{}"])))
  }

  lemma GeneratedExample(name: string)
    requires name != Generation.VACUUM
    ensures var crd := Generation.Spec("g", "K", "ks", [VersionNamed(name)], None);
            CrdClient.Generated(crd) && CrdClient.Good(crd)
  {
    assert [VersionNamed(name)][0] == VersionNamed(name);
    assert Generation.HasName([VersionNamed(name)], name);
  }

  /** A server that stores what is written keeps a removal unnoticed. */
  lemma VerbatimUnnoticed(cfg: Config, st: State)
    requires cfg.Versioned() && forall e, v :: cfg.server(e, v) == v
    ensures Unnoticed(cfg, st)
  {
    hide Bundle.Plan;
    var items := Bundle.Plan(cfg.Options());
    DeployFacts.DryStreamsAlike(cfg.server, st.bundle - Gone(cfg, st.status), st.bundle, items);
  }

  /**
   * From version "v1-secret" of a chart without credentials to version "v1" with credentials for a secret in
   * the same namespace: the definition is stranded, whatever objects there are.
   */
  lemma StrandedExample(m: Bundle.Store, comps: Getters.Store, templates: Bundle.Templates)
    returns (cfg: Config, st: State)
    requires templates == PlainTemplates("-jsonschema-configmap")
    ensures cfg.Versioned() && cfg.templates == templates && st.bundle == m && st.comps == comps
    ensures Regular(cfg, st) && Stranded(cfg, st)
    ensures forall beats :: Observe(cfg, Rounds(cfg, st, beats)) != UpToDate
  {
    hide Sane;
    hide DryDigest;
    hide LookupDigest;
    hide Rounds;
    hide TakesSecrets;
    hide Unnoticed;
    hide Deploy.SecretsPresent;
    hide Bundle.Plan;
    hide Naming.ByResource;
    hide PlainTemplates;
    hide CrdClient.Good;
    hide CrdClient.Generated;
    hide Stuck;
    hide Panicking;
    var plain := ChartInfo("", "", "", false, None);
    var chart := plain.(credentials := Some(Bundle.SecretRef("ns", "s")));
    var gen := Generation.Spec("g", "K", "ks", [VersionNamed("v1")], None);
    var found := gen.(versions := [VersionNamed("v1-secret")]);
    cfg := Config(gen, "ns", chart, "", templates, "", CrdClient.ApplyOpts(Some("ca"), "ns", "svc"), "ca", (e, v) => v);
    st := State(map[CrdClient.KeyOf(gen) := found], m, comps,
                DefinitionStatus(None, "g", "v1-secret", "K", "ks", "g", "K",
                                 [VersionDetail("v1-secret", true, true, Some(plain))], ""));
    GeneratedExample("v1");
    GeneratedExample("v1-secret");
    SaneExample(cfg);
    VerbatimUnnoticed(cfg, st);
    TakesSecretsIff(cfg, st.status, "-jsonschema-configmap");
    assert Stranded(cfg, st);
    forall beats ensures Observe(cfg, Rounds(cfg, st, beats)) != UpToDate {
      NeverConverges(cfg, st, beats);
    }
  }

  lemma SaneExample(cfg: Config)
    requires Equipped(cfg) && Naming.ByResource(cfg.templates, "-jsonschema-configmap")
             && forall e, v :: cfg.server(e, v) == v
    ensures Sane(cfg)
  {
    hide Naming.ByResource;
    hide Bundle.Plan;
    hide Bundle.DistinctKeys;
    Naming.BundleKeysDistinct(cfg.Options(), "-jsonschema-configmap");
  }
}
