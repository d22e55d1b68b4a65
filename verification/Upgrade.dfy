/** From one version of a definition to the next: what the status knows of the old one, and what becomes of it. */
module Upgrade {
  import opened Wrappers
  import opened Convergence
  import opened Reconcile
  import opened ReconcileFacts
  import opened Status
  import Bundle
  import CertManager
  import CrdClient
  import Deletion
  import Deploy
  import Generation
  import Getters
  import Naming

  /** `leave` is a later spec of the same definition: only the chart, and what is generated from it, differ. */
  ghost predicate Succeeds(adopt: Config, leave: Config)
  {
    && adopt.Versioned() && leave.Versioned() && leave.Version() != adopt.Version()
    && leave.ns == adopt.ns && leave.templates == adopt.templates && leave.server == adopt.server
  }

  // ---- what the status knows ----

  /** The chart recorded for a version, once it is the wanted one: an earlier entry stays, a new one is complete. */
  lemma {:induction false} WantedRecorded(infos: Infos, vs: seq<Generation.Version>, wanted: string, chart: ChartInfo)
    requires exists i :: 0 <= i < |vs| && vs[i].name == wanted
    ensures var r := RefreshAll(infos, vs, wanted, chart);
            && Find(r, wanted) < |r|
            && r[Find(r, wanted)].chart ==
               if Find(infos, wanted) < |infos| then infos[Find(infos, wanted)].chart else Some(chart)
  {
    var rest, v := vs[..|vs| - 1], vs[|vs| - 1];
    var mid, r := RefreshAll(infos, rest, wanted, chart), RefreshAll(infos, vs, wanted, chart);
    RefreshExtends(infos, rest, wanted, chart);
    RefreshStep(mid, v, wanted, chart);
    FindInExtension(infos, mid, wanted);
    FindInExtension(mid, r, wanted);
    if exists i :: 0 <= i < |rest| && rest[i].name == wanted {
      WantedRecorded(infos, rest, wanted, chart);
    } else {
      assert v.name == wanted;
      RefreshSkipped(infos, rest, wanted, chart);
      assert Find(infos, wanted) == |infos| ==> Find(r, wanted) == |mid|;
    }
  }

  lemma RefreshSkipped(infos: Infos, vs: seq<Generation.Version>, wanted: string, chart: ChartInfo)
    requires forall i :: 0 <= i < |vs| ==> vs[i].name != wanted
    ensures var r := RefreshAll(infos, vs, wanted, chart); Find(infos, wanted) == |infos| ==> Find(r, wanted) == |r|
  {
    if Find(infos, wanted) == |infos| {
      RefreshSkips(infos, vs, wanted, chart, wanted);
    }
  }

  /** The chart that the status will have for the version of `cfg`. */
  function ChartKnown(cfg: Config, s: DefinitionStatus): Option<ChartInfo>
    requires cfg.Versioned()
  {
    var i := Find(s.versionInfo, cfg.Version());
    if i < |s.versionInfo| then s.versionInfo[i].chart else Some(cfg.chart)
  }

  /**
   * Refreshing the status under `adopt` from a CRD that lists its version tells a later version exactly what
   * was deployed: the superseded bundle is that of `adopt`, its values schema and, if the version was known
   * before, its chart's credentials as they were then. It dereferences a nil chart exactly if the version was
   * known without one.
   */
  lemma RefreshTellsWhatToRemove(adopt: Config, leave: Config, s: DefinitionStatus, crd: Generation.Spec)
    requires Succeeds(adopt, leave) && crd.kind == adopt.gen.kind
    requires Generation.HasName(crd.versions, adopt.Version())
    ensures var s' := Refreshed(s, crd, adopt.Gvr(), adopt.gen.kind, adopt.chart, adopt.packageURL);
            && Superseded(leave, s').Some?
            && (NilChart(leave, s') <==> ChartKnown(adopt, s).None?)
            && (ChartKnown(adopt, s).Some? ==>
                  Retired(leave, s') == Bundle.Options(adopt.Gvr(), adopt.ns, ChartKnown(adopt, s).value.credentials,
                                                       adopt.templates, ""))
  {
    hide RefreshAll;
    WantedRecorded(s.versionInfo, crd.versions, adopt.Version(), adopt.chart);
  }

  /** The values schema plays no part in the keys of a bundle. */
  lemma KeysWithoutSchema(o: Bundle.Options)
    ensures Bundle.Keys(Bundle.Plan(o.(schema := ""))) == Bundle.Keys(Bundle.Plan(o))
  {
    var p := o.(schema := "");
    Bundle.PlanParts(o);
    Bundle.PlanParts(p);
    SameKeys(o, p);
  }

  lemma SameKeys(o: Bundle.Options, p: Bundle.Options)
    requires p == o.(schema := "")
    ensures |Bundle.Plan(o)| == |Bundle.Plan(p)|
    ensures forall i :: 0 <= i < |Bundle.Plan(o)| ==> Bundle.Plan(p)[i].obj.key == Bundle.Plan(o)[i].obj.key
  {
  }

  /** So what the next version removes is what this one installed, as long as the credentials are the same. */
  lemma GoneIsWhatWasDeployed(adopt: Config, leave: Config, s: DefinitionStatus, crd: Generation.Spec)
    requires Succeeds(adopt, leave) && crd.kind == adopt.gen.kind
    requires Generation.HasName(crd.versions, adopt.Version())
    requires ChartKnown(adopt, s).Some? && ChartKnown(adopt, s).value.credentials == adopt.chart.credentials
    ensures var s' := Refreshed(s, crd, adopt.Gvr(), adopt.gen.kind, adopt.chart, adopt.packageURL);
            !NilChart(leave, s') && Gone(leave, s') == Bundle.Keys(Bundle.Plan(adopt.Options()))
  {
    hide Bundle.Plan;
    hide Bundle.Keys;
    hide Refreshed;
    RefreshTellsWhatToRemove(adopt, leave, s, crd);
    KeysWithoutSchema(adopt.Options());
    assert adopt.Options().(schema := "")
        == Bundle.Options(adopt.Gvr(), adopt.ns, adopt.chart.credentials, adopt.templates, "");
  }

  // ---- the upgrade ----

  /** The keys of the objects that a deployment installs. */
  function Installs(cfg: Config): set<Bundle.Key>
    requires cfg.Versioned()
  {
    Bundle.Keys(Bundle.Plan(cfg.Options()))
  }

  /** The two versions are of one kind, under one CRD. */
  ghost predicate SameKind(adopt: Config, leave: Config)
  {
    CrdClient.KeyOf(leave.gen) == CrdClient.KeyOf(adopt.gen) && leave.gen.kind == adopt.gen.kind
  }

  /** A definition that is up to date under `adopt`, after the round in which `Observe` has recorded that. */
  lemma Settled(adopt: Config, leave: Config, st: State, now: string)
    requires Regular(adopt, st) && Observe(adopt, st) == UpToDate
    requires Sane(leave) && adopt.Versioned() && leave.Versioned() && Succeeds(adopt, leave) && SameKind(adopt, leave)
    requires ChartKnown(adopt, st.status).Some?
    requires ChartKnown(adopt, st.status).value.credentials == adopt.chart.credentials
    ensures var st' := Round(adopt, st, now);
            && Regular(leave, st') && !NilChart(leave, st'.status)
            && Gone(leave, st'.status) == Installs(adopt)
            && Moves(leave, st'.status) && st'.status.version == adopt.Version()
            && st'.crds == st.crds && st'.bundle == st.bundle && st'.comps == st.comps
  {
    hide Sane;
    hide DryDigest;
    hide LookupDigest;
    hide Bundle.Plan;
    hide Bundle.Keys;
    hide Gone;
    hide NilChart;
    hide CrdClient.Good;
    RegularIsSane(adopt, st);
    var key := CrdClient.KeyOf(adopt.gen);
    UpToDateStays(adopt, st, now);
    UpToDateLists(adopt, st);
    GoneIsWhatWasDeployed(adopt, leave, st.status, st.crds[key]);
    RefreshKeepsDigest(st.status, st.crds[key], adopt.Gvr(), adopt.gen.kind, adopt.chart, adopt.packageURL);
  }

  lemma UpToDateLists(cfg: Config, st: State)
    requires Regular(cfg, st) && Observe(cfg, st) == UpToDate
    ensures cfg.Versioned() && Listed(cfg, st.crds) && st.crds[CrdClient.KeyOf(cfg.gen)].kind == cfg.gen.kind
  {
    hide DryDigest;
    hide LookupDigest;
    ObserveCases(cfg, st);
  }

  /**
   * The upgrade. From a definition that is up to date under `adopt` and has recorded that, rounds under `leave`
   * that begin with an outdated answer leave none of the old bundle that the new one lacks, and no composition
   * with the old version: each that carried it carries the new one, and none is lost.
   */
  lemma UpgradeCleans(adopt: Config, leave: Config, st: State, now: string, beats: seq<Beat>)
    requires Regular(adopt, st) && Observe(adopt, st) == UpToDate
    requires Sane(leave) && adopt.Versioned() && leave.Versioned() && Succeeds(adopt, leave) && SameKind(adopt, leave)
    requires ChartKnown(adopt, st.status).Some?
    requires ChartKnown(adopt, st.status).value.credentials == adopt.chart.credentials
    requires Observe(leave, Round(adopt, st, now)) == Outdated && beats != []
    ensures var after := Rounds(leave, Round(adopt, st, now), beats);
            && Installs(adopt) - Installs(leave) !! after.bundle.Keys
            && Getters.Carrying(after.comps, adopt.Version()) == {}
            && Getters.Carrying(after.comps, leave.Version())
               == Getters.Carrying(st.comps, leave.Version()) + Getters.Carrying(st.comps, adopt.Version())
            && after.comps.Keys == st.comps.Keys
  {
    hide Regular;
    hide Observe;
    hide Round;
    hide Rounds;
    hide Sane;
    hide NilChart;
    hide Gone;
    hide Bundle.Plan;
    hide Bundle.Keys;
    hide Getters.Carrying;
    hide Getters.RelabelSet;
    Settled(adopt, leave, st, now);
    var st' := Round(adopt, st, now);
    SupersededGone(leave, st', beats);
    CompositionsFollow(leave, st', beats);
    Getters.PendingShrinks(st.comps, Getters.Carrying(st.comps, adopt.Version()), adopt.Version(), leave.Version());
    RelabelKeepsKeys(st.comps, Getters.Carrying(st.comps, adopt.Version()), leave.Version());
  }

  lemma RelabelKeepsKeys(m: Getters.Store, ks: set<Getters.Key>, version: string)
    ensures Getters.RelabelSet(m, ks, version).Keys == m.Keys
  {
  }

  /** If the kind or the group changes, or the version does not, no round touches a composition. */
  lemma OtherKindsStay(cfg: Config, st: State, beats: seq<Beat>)
    requires Regular(cfg, st) && cfg.Versioned()
    requires st.status.kind != cfg.gen.kind || st.status.group != cfg.gen.group || st.status.version == cfg.Version()
    ensures Rounds(cfg, st, beats).comps == st.comps
  {
    hide Regular;
    hide Observe;
    hide Refreshed;
    hide CrdsAfter;
    hide BundleAfter;
    hide NilChart;
    RegularIsSane(cfg, st);
    if Idle(cfg, st) {
      IdleStays(cfg, st, beats);
    } else if beats != [] {
      var b := beats[0];
      BundlesIgnored(cfg, b, st);
      StatusIgnores(cfg, b, st.status);
      var st' := Round(cfg.At(b), st, b.now);
      RoundIs(cfg.At(b), st, b.now);
      RefreshKeepsDigest(Digested(cfg.At(b), st), cfg.gen, cfg.Gvr(), cfg.gen.kind, cfg.chart, cfg.packageURL);
      ArrivedStays(cfg, st', beats[1..]);
    }
  }

  // ---- from an empty cluster ----

  /** The first two rounds of a new definition: it is created, and its status is completed. */
  lemma Adopted(adopt: Config, st: State, b: Beat)
    requires Sane(adopt) && CrdClient.KeyOf(adopt.gen) !in st.crds && st.status.versionInfo == []
    ensures var st1 := Rounds(adopt, st, [b]);
            && Regular(adopt, st1) && Observe(adopt, st1) == UpToDate && st1.comps == st.comps
            && adopt.Versioned() && ChartKnown(adopt, st1.status) == Some(adopt.chart)
            && CrdClient.KeyOf(adopt.gen) in st1.crds
            && Generation.Names(st1.crds[CrdClient.KeyOf(adopt.gen)].versions) == [adopt.Version()]
  {
    hide Sane;
    hide Observe;
    hide Regular;
    hide CrdsAfter;
    SaneIsEquipped(adopt);
    NewIsRegular(adopt, st);
    FirstDeployment(adopt, st, b);
    BundlesIgnored(adopt, b, st);
    AfterCreate(adopt.At(b), st, b.now);
    assert [b][1..] == [];
    CreatedCrd(adopt.At(b), st.crds);
  }

  lemma CreatedCrd(cfg: Config, crds: CrdClient.Crds)
    requires Equipped(cfg) && CrdClient.KeyOf(cfg.gen) !in crds
    ensures CrdClient.KeyOf(cfg.gen) in CrdsAfter(cfg, crds)
    ensures Generation.Names(CrdsAfter(cfg, crds)[CrdClient.KeyOf(cfg.gen)].versions) == [cfg.Version()]
  {
    assert CrdsAfter(cfg, crds)[CrdClient.KeyOf(cfg.gen)].versions == cfg.gen.versions;
  }

  /** So a definition that is deployed, observed and then moved to its next version is found outdated. */
  lemma FirstUpgrade(adopt: Config, leave: Config, st: State, b: Beat, now: string, beats: seq<Beat>)
    requires Sane(adopt) && CrdClient.KeyOf(adopt.gen) !in st.crds && st.status.versionInfo == []
    requires Sane(leave) && Succeeds(adopt, leave) && SameKind(adopt, leave) && beats != []
    ensures var st' := Round(adopt, Rounds(adopt, st, [b]), now);
            var after := Rounds(leave, st', beats);
            && Regular(leave, st') && Observe(leave, st') == Outdated && !NilChart(leave, st'.status)
            && Installs(adopt) - Installs(leave) !! after.bundle.Keys
            && Getters.Carrying(after.comps, adopt.Version()) == {}
            && Getters.Carrying(after.comps, leave.Version())
               == Getters.Carrying(st.comps, leave.Version()) + Getters.Carrying(st.comps, adopt.Version())
  {
    hide Sane;
    hide Regular;
    hide Rounds;
    hide Round;
    hide DryDigest;
    hide LookupDigest;
    hide Gone;
    hide NilChart;
    hide Bundle.Plan;
    hide Bundle.Keys;
    hide Getters.Carrying;
    hide Observe;
    Adopted(adopt, st, b);
    var st1 := Rounds(adopt, st, [b]);
    Settled(adopt, leave, st1, now);
    NotListed(leave, Round(adopt, st1, now), adopt.Version());
    UpgradeCleans(adopt, leave, st1, now, beats);
  }

  lemma NotListed(cfg: Config, st: State, version: string)
    requires cfg.Versioned() && CrdClient.KeyOf(cfg.gen) in st.crds && version != cfg.Version()
    requires Generation.Names(st.crds[CrdClient.KeyOf(cfg.gen)].versions) == [version]
    ensures Observe(cfg, st) == Outdated && !Listed(cfg, st.crds)
  {
    hide DryDigest;
    hide LookupDigest;
    var vs := st.crds[CrdClient.KeyOf(cfg.gen)].versions;
    assert |vs| == 1 && vs[0].name == Generation.Names(vs)[0] == version;
  }

  /** If the two bundles share no object, two rounds then suffice, and nothing is left of the old bundle. */
  lemma FirstUpgradeConverges(adopt: Config, leave: Config, st: State, b: Beat, now: string, beats: seq<Beat>)
    requires Sane(adopt) && CrdClient.KeyOf(adopt.gen) !in st.crds && st.status.versionInfo == []
    requires Sane(leave) && Succeeds(adopt, leave) && SameKind(adopt, leave) && |beats| >= 2
    requires Installs(adopt) !! Installs(leave)
    ensures var after := Rounds(leave, Round(adopt, Rounds(adopt, st, [b]), now), beats);
            Observe(leave, after) == UpToDate && Installs(adopt) !! after.bundle.Keys
  {
    hide Sane;
    hide Regular;
    hide Rounds;
    hide Round;
    hide DryDigest;
    hide LookupDigest;
    hide Gone;
    hide NilChart;
    hide Bundle.Plan;
    hide Bundle.Keys;
    hide Observe;
    hide Diverges;
    hide Needed;
    Adopted(adopt, st, b);
    var st1 := Rounds(adopt, st, [b]);
    var st' := Round(adopt, st1, now);
    Settled(adopt, leave, st1, now);
    FirstUpgrade(adopt, leave, st, b, now, beats);
    NotListed(leave, st', adopt.Version());
    ApartIsSimpler(leave, st');
    Converges(leave, st', beats);
  }

  // ---- what else reads the status ----

  /** A completed round records what deletions and certificate updates look for. */
  lemma CompletedIsRecorded(cfg: Config, st: State, now: string)
    requires Regular(cfg, st) && cfg.gen.group != "" && cfg.gen.kind != ""
    requires Observe(cfg, st) == UpToDate || (Observe(cfg, st) == Outdated && !NilChart(cfg, st.status))
    ensures var s := Round(cfg, st, now).status;
            && CertManager.Recorded(s) && Deletion.OfVersion(s, cfg.gen.group, cfg.gen.kind, cfg.Version())
  {
    hide DryDigest;
    hide LookupDigest;
    hide Refreshed;
    hide Observe;
    hide CrdsAfter;
    hide BundleAfter;
    hide Digested;
    RegularIsSane(cfg, st);
    RefreshKeepsDigest(Digested(cfg, st), cfg.gen, cfg.Gvr(), cfg.gen.kind, cfg.chart, cfg.packageURL);
    if Observe(cfg, st) == UpToDate {
      UpToDateLists(cfg, st);
      var crd := st.crds[CrdClient.KeyOf(cfg.gen)];
      RefreshKeepsDigest(st.status, crd, cfg.Gvr(), cfg.gen.kind, cfg.chart, cfg.packageURL);
    }
  }

  /** A CA bundle that stays the same reaches the CRD of every definition whose status records that. */
  lemma RecordedIsReached(gen: Generation.Spec, version: string, defs: seq<DefinitionStatus>, i: nat,
                          resolve: CertManager.Resolver, seen: seq<string>, crds: CrdClient.Crds,
                          kinds: map<CrdClient.GroupResource, string>, ca: string)
    requires i < |defs| == |seen| && forall k :: 0 <= k < |seen| ==> seen[k] == ca
    requires CertManager.Recorded(defs[i]) && Deletion.OfVersion(defs[i], gen.group, gen.kind, version)
    requires resolve(CertManager.GVK(gen.group, version, gen.kind)) == Ok(CrdClient.KeyOf(gen))
    requires CrdClient.AllGood(crds, kinds) && CrdClient.KeyOf(gen) in crds
    ensures var events := CertManager.Rotations(defs, resolve, seen, |defs|);
            && CertManager.OnlyRotations(events)
            && CrdClient.KeyOf(gen) in CrdClient.Execute(crds, events)
            && CertManager.Trusts(CrdClient.Execute(crds, events)[CrdClient.KeyOf(gen)], ca)
  {
    CertManager.LoopReaches(crds, kinds, defs, resolve, seen, ca, i);
  }

  /** The CRD that the deletion of the last definition removes is the one its rounds applied. */
  lemma DeletesItsCrd(cfg: Config)
    requires cfg.Versioned()
    ensures Deploy.CrdKey(cfg.Options()) == CrdClient.KeyOf(cfg.gen)
  {
  }
}
