/**
 * The reconcile loop of internal/controllers/compositiondefinitions/compositiondefinitions.go as a state
 * machine: what `Observe` answers, what `Create` and `Update` do when every request succeeds, and which
 * states a definition with a fixed spec reaches.
 */
module Reconcile {
  import opened Wrappers
  import opened CrdClient
  import opened Status
  import Bundle
  import Deploy
  import DeployFacts
  import Generation
  import Getters
  import Hash
  import Kube

  /**
   * Everything a round reads and does not change: the CRD generated from the chart, the chart, what the
   * webhook needs, the bundles of the certificate manager, and the API server.
   */
  datatype Config = Config(gen: Generation.Spec, ns: string, chart: ChartInfo, packageURL: string,
                           templates: Bundle.Templates, schema: string, opts: ApplyOpts, ca: string,
                           server: Kube.Server<Bundle.Content>)
  {
    predicate Versioned()
    {
      gen.versions != []
    }

    function Version(): string
      requires Versioned()
    {
      gen.versions[0].name
    }

    function Gvr(): Bundle.GVR
      requires Versioned()
    {
      Bundle.GVR(gen.group, Version(), gen.plural)
    }

    function Options(): Bundle.Options
      requires Versioned()
    {
      Bundle.Options(Gvr(), ns, chart.credentials, templates, schema)
    }

    function At(b: Beat): (cfg: Config)
      ensures cfg == this.(opts := cfg.opts, ca := cfg.ca)
    {
      this.(opts := opts.(caBundle := Some(b.caBefore)), ca := b.ca)
    }

    /** The bundle of the recorded version; its schema ConfigMap is only named, not filled. */
    function OldOptions(s: DefinitionStatus, credentials: Option<Bundle.SecretRef>): Bundle.Options
    {
      Bundle.Options(Bundle.GVR(s.group, s.version, s.resource), ns, credentials, templates, "")
    }
  }

  datatype State = State(crds: Crds, bundle: Bundle.Store, comps: Getters.Store, status: DefinitionStatus)

  datatype Observation = Absent | Outdated | UpToDate | Failed

  /** The digest a dry run gives. */
  function DryDigest(cfg: Config, m: Bundle.Store): Hash.Word
    requires cfg.Versioned()
  {
    Hash.DigestOf(Bundle.DeployStream(cfg.server, m, Bundle.Plan(cfg.Options()), true))
  }

  function LookupDigest(cfg: Config, m: Bundle.Store): Hash.Word
    requires cfg.Versioned()
  {
    Hash.DigestOf(Bundle.LookupStream(m, Bundle.Plan(cfg.Options())))
  }

  function Observe(cfg: Config, st: State): Observation
    requires cfg.Versioned()
  {
    var key := KeyOf(cfg.gen);
    if key !in st.crds then Absent
    else if !Generation.HasName(st.crds[key].versions, cfg.Version()) then Outdated
    else
      match Generation.StatusesEqual(st.crds[key].versions, cfg.gen.versions)
      case Err(_) => Failed
      case Ok(equal) =>
        if !equal then Outdated
        else if st.status.digest != Some(DryDigest(cfg, st.bundle)) then Outdated
        else if !Deploy.SecretsPresent(st.bundle, cfg.Options()) then Failed
        else if st.status.digest != Some(LookupDigest(cfg, st.bundle)) then Outdated
        else UpToDate
  }

  /** The status after `Observe`: refreshed from the CRD in the cluster when all is well. */
  function Observed(cfg: Config, st: State): DefinitionStatus
    requires cfg.Versioned()
  {
    if Observe(cfg, st) == UpToDate
    then Refreshed(st.status, st.crds[KeyOf(cfg.gen)], cfg.Gvr(), cfg.gen.kind, cfg.chart, cfg.packageURL)
    else st.status
  }

  /** `ApplyOrUpdateCRD`. */
  function Applied(gen: Generation.Spec, opts: ApplyOpts, crds: Crds): Crds
    requires gen.versions != []
  {
    CrdClient.Step(crds, CrdClient.Reconcile(gen, opts, true))
  }

  /** The CRD is applied, then the CA bundle is handed to it. */
  function CrdsAfter(cfg: Config, crds: Crds): Crds
    requires cfg.Versioned()
  {
    CrdClient.Step(Applied(cfg.gen, cfg.opts, crds), Rotate(KeyOf(cfg.gen), cfg.ca))
  }

  function Digested(cfg: Config, st: State): DefinitionStatus
    requires cfg.Versioned()
  {
    var stream := Bundle.DeployStream(cfg.server, st.bundle, Bundle.Plan(cfg.Options()), false);
    st.status.(digest := Some(Hash.DigestOf(stream)))
  }

  function CreateSpec(cfg: Config, st: State, now: string): State
    requires cfg.Versioned()
  {
    st.(crds := CrdsAfter(cfg, st.crds),
        bundle := Deploy.Deployed(cfg.server, st.bundle, cfg.Options(), now),
        status := Digested(cfg, st))
  }

  /** The recorded version whose bundle `Update` removes, if it has moved on from one. */
  function Superseded(cfg: Config, s: DefinitionStatus): Option<VersionDetail>
    requires cfg.Versioned()
  {
    var i := Find(s.versionInfo, s.version);
    if (s.group, s.version, s.kind) != (cfg.gen.group, cfg.Version(), cfg.gen.kind)
       && s.kind == s.managedKind && i < |s.versionInfo|
    then Some(s.versionInfo[i]) else None
  }

  /** `Update` would dereference the nil chart of the version it removes. */
  predicate NilChart(cfg: Config, s: DefinitionStatus)
    requires cfg.Versioned()
  {
    Superseded(cfg, s).Some? && Superseded(cfg, s).value.chart.None?
  }

  /** The options for removing the superseded bundle. With a nil chart, all up to the secret objects goes. */
  function Retired(cfg: Config, s: DefinitionStatus): Bundle.Options
    requires cfg.Versioned() && Superseded(cfg, s).Some?
  {
    var chart := Superseded(cfg, s).value.chart;
    cfg.OldOptions(s, if chart.Some? then chart.value.credentials else None)
  }

  function Without(m: Bundle.Store, o: Bundle.Options): Bundle.Store
  {
    m - Deploy.Removed(Deploy.RemovalKeys(o), |Deploy.RemovalKeys(o)|)
  }

  /** The keys of the superseded bundle. */
  function Gone(cfg: Config, s: DefinitionStatus): set<Bundle.Key>
    requires cfg.Versioned()
  {
    if Superseded(cfg, s).Some? then Bundle.Keys(Bundle.Plan(Retired(cfg, s))) else {}
  }

  function BundleAfter(cfg: Config, st: State, now: string): Bundle.Store
    requires cfg.Versioned()
  {
    var m := Deploy.Deployed(cfg.server, st.bundle, cfg.Options(), now);
    if Superseded(cfg, st.status).Some? then Without(m, Retired(cfg, st.status)) else m
  }

  /** Compositions move along when only the version changes. */
  predicate Moves(cfg: Config, s: DefinitionStatus)
    requires cfg.Versioned()
  {
    s.version != cfg.Version() && s.kind == cfg.gen.kind && s.group == cfg.gen.group
  }

  function CompsAfter(cfg: Config, st: State): Getters.Store
    requires cfg.Versioned()
  {
    if Moves(cfg, st.status)
    then Getters.RelabelSet(st.comps, Getters.Carrying(st.comps, st.status.version), cfg.Version())
    else st.comps
  }

  /**
   * `Update` when every request succeeds. A panic ends it before the compositions are moved, and with it
   * the status held in memory is lost.
   */
  function UpdateSpec(cfg: Config, st: State, now: string): State
    requires cfg.Versioned()
  {
    var st' := st.(crds := CrdsAfter(cfg, st.crds), bundle := BundleAfter(cfg, st, now));
    if NilChart(cfg, st.status) then st'
    else st'.(comps := CompsAfter(cfg, st),
              status := Refreshed(Digested(cfg, st), cfg.gen, cfg.Gvr(), cfg.gen.kind, cfg.chart, cfg.packageURL))
  }

  function WithoutSuperseded(cfg: Config, st: State): Bundle.Store
    requires cfg.Versioned()
  {
    if Superseded(cfg, st.status).Some? then Without(st.bundle, Retired(cfg, st.status)) else st.bundle
  }

  /** The part of `Update` that `Create` lacks. */
  function FinishSpec(cfg: Config, st: State): State
    requires cfg.Versioned()
  {
    st.(bundle := WithoutSuperseded(cfg, st),
        comps := CompsAfter(cfg, st),
        status := Refreshed(st.status, cfg.gen, cfg.Gvr(), cfg.gen.kind, cfg.chart, cfg.packageURL))
  }

  /** `Update` is `Create` and this part; a panic keeps the recorded status and the compositions. */
  lemma UpdateIsFinish(cfg: Config, st: State, now: string)
    requires cfg.Versioned()
    ensures var created := CreateSpec(cfg, st, now);
            && NilChart(cfg, created.status) == NilChart(cfg, st.status)
            && UpdateSpec(cfg, st, now) ==
               if NilChart(cfg, st.status)
               then created.(bundle := WithoutSuperseded(cfg, created), status := st.status)
               else FinishSpec(cfg, created)
  {
    hide Refreshed;
    hide CrdsAfter;
    SupersededSame(cfg, st.status, Digested(cfg, st));
  }

  /** The CA bundles play no part in it. */
  lemma NilChartIgnores(cfg: Config, cfg': Config, st: State)
    requires cfg.Versioned() && cfg' == cfg.(opts := cfg'.opts, ca := cfg'.ca)
    ensures NilChart(cfg', st.status) == NilChart(cfg, st.status)
  {
  }

  /** The CA bundles play no part in what `Update` adds to `Create`. */
  lemma UpdateFromCreate(cfg: Config, cfg': Config, st: State, now: string)
    requires cfg.Versioned() && cfg' == cfg.(opts := cfg'.opts, ca := cfg'.ca)
    ensures var created, updated := CreateSpec(cfg, st, now), UpdateSpec(cfg, st, now);
            && created.status == Digested(cfg', st)
            && NilChart(cfg', created.status) == NilChart(cfg', st.status)
            && (if NilChart(cfg', st.status)
                then created.(bundle := WithoutSuperseded(cfg', created)) == updated.(status := Digested(cfg', st))
                else FinishSpec(cfg', created) == updated)
  {
    hide Refreshed;
    hide CrdsAfter;
    hide Bundle.Plan;
    hide Bundle.DeployStream;
    hide Deploy.Deployed;
    hide UpdateSpec;
    hide Getters.Carrying;
    hide Without;
    UpdateIsFinish(cfg, st, now);
    SupersededSame(cfg', st.status, Digested(cfg', st));
  }

  lemma ObservedKeeps(cfg: Config, st: State)
    requires cfg.Versioned()
    ensures Observe(cfg, st) != UpToDate ==> Observed(cfg, st) == st.status
  {
    hide Observe;
  }

  lemma UpdatePanics(cfg: Config, st: State, now: string)
    requires cfg.Versioned() && NilChart(cfg, st.status)
    ensures UpdateSpec(cfg, st, now).status == st.status
  {
  }

  lemma ObserveIgnores(cfg: Config, cfg': Config, st: State)
    requires cfg.Versioned() && cfg' == cfg.(opts := cfg'.opts, ca := cfg'.ca)
    ensures Observe(cfg', st) == Observe(cfg, st)
  {
    hide Bundle.Plan;
    hide Deploy.SecretsPresent;
  }

  /** One round: observe, then create or update as the answer demands. */
  function Round(cfg: Config, st: State, now: string): State
    requires cfg.Versioned()
  {
    match Observe(cfg, st)
    case Absent => CreateSpec(cfg, st, now)
    case Outdated => UpdateSpec(cfg, st, now)
    case UpToDate => st.(status := Observed(cfg, st))
    case Failed => st
  }

  /** What may differ from round to round: the time, and the CA bundle before and after a rotation. */
  datatype Beat = Beat(now: string, caBefore: string, ca: string)

  function Rounds(cfg: Config, st: State, beats: seq<Beat>): State
    requires cfg.Versioned()
    decreases |beats|
  {
    if beats == [] then st else Rounds(cfg, Round(cfg.At(beats[0]), st, beats[0].now), beats[1..])
  }

  lemma {:induction false} OneMoreRound(cfg: Config, st: State, beats: seq<Beat>, b: Beat)
    requires cfg.Versioned()
    ensures Rounds(cfg, st, beats + [b]) == Round(cfg.At(b), Rounds(cfg, st, beats), b.now)
    decreases |beats|
  {
    hide Round;
    if beats == [] {
      assert [b][1..] == [];
      assert beats + [b] == [b];
    } else {
      assert (beats + [b])[1..] == beats[1..] + [b];
      OneMoreRound(cfg, Round(cfg.At(beats[0]), st, beats[0].now), beats[1..], b);
    }
  }

  // ---- the CRD over one round ----

  /** A generated CRD, and all that a conversion webhook needs. */
  ghost predicate Equipped(cfg: Config)
  {
    && Generated(cfg.gen)
    && cfg.opts.caBundle.Some? && cfg.opts.serviceName != "" && cfg.opts.serviceNamespace != ""
  }

  ghost predicate GoodCrd(gen: Generation.Spec, crds: Crds)
  {
    var key := KeyOf(gen);
    key in crds ==> Good(crds[key]) && KeyOf(crds[key]) == key && crds[key].kind == gen.kind
  }

  predicate Listed(cfg: Config, crds: Crds)
    requires cfg.Versioned()
  {
    KeyOf(cfg.gen) in crds && Generation.HasName(crds[KeyOf(cfg.gen)].versions, cfg.Version())
  }

  predicate Current(cfg: Config, crds: Crds)
  {
    KeyOf(cfg.gen) in crds && Generation.StatusesEqual(crds[KeyOf(cfg.gen)].versions, cfg.gen.versions) == Ok(true)
  }

  /** The CRD gets one step closer and stays good. */
  lemma CrdProgress(cfg: Config, crds: Crds)
    requires Equipped(cfg) && GoodCrd(cfg.gen, crds)
    ensures var crds' := CrdsAfter(cfg, crds);
            && GoodCrd(cfg.gen, crds')
            && KeyOf(cfg.gen) in crds'
            && Current(cfg, crds')
            && (Listed(cfg, crds') <==> KeyOf(cfg.gen) !in crds || Listed(cfg, crds) || Current(cfg, crds))
  {
    var key, gen := KeyOf(cfg.gen), cfg.gen;
    var applied := Applied(gen, cfg.opts, crds);
    AppliedProgress(cfg, crds);
    RotatedIsGood(applied[key], cfg.ca);
  }

  lemma AppliedProgress(cfg: Config, crds: Crds)
    requires Equipped(cfg) && GoodCrd(cfg.gen, crds)
    ensures var applied := Applied(cfg.gen, cfg.opts, crds);
            && GoodCrd(cfg.gen, applied)
            && KeyOf(cfg.gen) in applied
            && Current(cfg, applied)
            && (Listed(cfg, applied) <==> KeyOf(cfg.gen) !in crds || Listed(cfg, crds) || Current(cfg, crds))
  {
    var key, gen := KeyOf(cfg.gen), cfg.gen;
    if key !in crds {
      ReconcileKeepsGood(crds, gen, cfg.opts);
      assert Generation.HasName(gen.versions, cfg.Version()) by { assert gen.versions[0].name == cfg.Version(); }
      StatusCheckIsExact(gen, gen);
    } else {
      FoundProgress(crds[key], gen, cfg.opts);
    }
  }

  lemma FoundProgress(crd: Generation.Spec, gen: Generation.Spec, opts: ApplyOpts)
    requires Good(crd) && Generated(gen) && KeyOf(crd) == KeyOf(gen) && crd.kind == gen.kind
    requires opts.caBundle.Some? && opts.serviceName != "" && opts.serviceNamespace != ""
    ensures var d := Decide(Some(crd), gen, opts);
            var name := gen.versions[0].name;
            var equal := Generation.StatusesEqual(crd.versions, gen.versions) == Ok(true);
            && !d.Fail?
            && (d.Skip? ==> equal && Generation.HasName(crd.versions, name))
            && (d.Store? ==>
                  && Good(d.crd) && KeyOf(d.crd) == KeyOf(crd) && d.crd.kind == crd.kind
                  && Generation.StatusesEqual(d.crd.versions, gen.versions) == Ok(true)
                  && (Generation.HasName(d.crd.versions, name) <==> Generation.HasName(crd.versions, name) || equal))
  {
    hide Generation.SetFlags;
    hide Generation.AppendAll;
    hide Generation.SetStatus;
    StatusCheckIsExact(crd, gen);
    var vs, v := crd.versions, gen.versions[0];
    if Generation.StatusesEqual(vs, gen.versions) == Ok(false) {
      StatusRewriteIsGood(crd, gen);
      SameNames(Decide(Some(crd), gen, opts).crd.versions, vs, v.name);
    } else if !Generation.HasName(vs, v.name) {
      ApplyKeepsGood(crd, gen, opts);
      assert gen.versions == [v];
      AppendedProgress(vs, v, gen.versions);
    }
  }

  lemma AppendedProgress(vs: seq<Generation.Version>, v: Generation.Version, generated: seq<Generation.Version>)
    requires GoodVersions(vs) && Generation.Real(v) && !Generation.HasName(vs, v.name)
    ensures var vs' := Generation.SetFlags(Generation.AppendAll(vs, [v]), v.name, true, false);
            && Generation.HasName(vs', v.name)
            && Generation.StatusesEqual(vs', generated) == Generation.StatusesEqual(vs, generated)
  {
    hide Generation.SetFlags;
    hide Generation.AppendAll;
    var vs' := Generation.SetFlags(Generation.AppendAll(vs, [v]), v.name, true, false);
    AppendExtends(vs, v);
    ExtendedNames(vs, v, vs');
    assert vs'[0].schema == vs[0].schema;
    assert Generation.FirstStatus(vs') == 0 && Generation.FirstStatus(vs) == 0;
  }

  lemma SameNames(a: seq<Generation.Version>, b: seq<Generation.Version>, name: string)
    requires Generation.Names(a) == Generation.Names(b)
    ensures Generation.HasName(a, name) <==> Generation.HasName(b, name)
  {
    forall i | 0 <= i < |a| ensures a[i].name == b[i].name {
      assert Generation.Names(a)[i] == Generation.Names(b)[i];
    }
  }

  lemma RefreshKeepsDigest(s: DefinitionStatus, crd: Generation.Spec, gvr: Bundle.GVR, kind: string, chart: ChartInfo,
                           url: string)
    ensures var r := Refreshed(s, crd, gvr, kind, chart, url);
            && r.digest == s.digest
            && (r.group, r.version, r.kind) == (gvr.group, gvr.version, kind)
            && (Unique(s.versionInfo) ==> Unique(r.versionInfo))
  {
    RefreshExtends(s.versionInfo, crd.versions, gvr.version, chart);
  }

  lemma SupersededSame(cfg: Config, s: DefinitionStatus, s': DefinitionStatus)
    requires cfg.Versioned()
    ensures s' == s.(digest := s'.digest) ==>
              && Superseded(cfg, s') == Superseded(cfg, s)
              && (Superseded(cfg, s).Some? ==> Retired(cfg, s') == Retired(cfg, s))
              && Gone(cfg, s') == Gone(cfg, s)
    ensures (s'.group, s'.version, s'.kind) == (cfg.gen.group, cfg.Version(), cfg.gen.kind) ==>
              Superseded(cfg, s').None?
  {
  }
}
