/** Which states of a definition the reconcile loop brings up to date, and in how many rounds. */
module Convergence {
  import opened Wrappers
  import opened CrdClient
  import opened Reconcile
  import opened Status
  import Bundle
  import Deploy
  import DeployFacts
  import Generation
  import Getters
  import Hash
  import Kube

  // ---- the states in question ----

  /** What is fixed is in order: the CRD is a generated one, the server stable, the bundle's keys distinct. */
  ghost predicate Sane(cfg: Config)
  {
    && Equipped(cfg)
    && Kube.Stable(cfg.server) && DeployFacts.RestartStable(cfg.server)
    && Bundle.DistinctKeys(Bundle.Plan(cfg.Options()))
  }

  /** A good CRD of the same kind, and unique version entries. */
  ghost predicate Regular(cfg: Config, st: State)
  {
    Sane(cfg) && GoodCrd(cfg.gen, st.crds) && Unique(st.status.versionInfo)
  }

  predicate Matching(cfg: Config, st: State)
    requires cfg.Versioned()
  {
    st.status.digest == Some(DryDigest(cfg, st.bundle))
  }

  /** The keys of the secret role and its binding, if there should be any. */
  function SecretKeys(o: Bundle.Options): set<Bundle.Key>
  {
    if o.credentials.None? then {}
    else {o.templates.key(Bundle.SecretRoleFile, o.gvr, Bundle.SecretNN(o)),
          o.templates.key(Bundle.SecretRoleBindingFile, o.gvr, Bundle.SecretNN(o))}
  }

  lemma SecretsPresentIs(m: Bundle.Store, o: Bundle.Options)
    ensures Deploy.SecretsPresent(m, o) <==> SecretKeys(o) <= m.Keys
  {
  }

  // ---- what an update does to the bundle it has just deployed ----

  /** Removing the superseded bundle takes away the secret role or its binding. */
  predicate TakesSecrets(cfg: Config, s: DefinitionStatus)
    requires cfg.Versioned()
  {
    !(SecretKeys(cfg.Options()) !! Gone(cfg, s))
  }

  /** The removal goes unnoticed: a dry run gives the same digest without what is removed. */
  predicate Unnoticed(cfg: Config, st: State)
    requires cfg.Versioned()
  {
    DryDigest(cfg, st.bundle - Gone(cfg, st.status)) == DryDigest(cfg, st.bundle)
  }

  /** What is left after the removal reads as a dry run renders it. */
  predicate Intact(cfg: Config, st: State)
    requires cfg.Versioned()
  {
    var gone := Gone(cfg, st.status);
    && !TakesSecrets(cfg, st.status)
    && LookupDigest(cfg, Bundle.InstallAll(cfg.server, st.bundle, Bundle.Plan(cfg.Options())) - gone)
       == DryDigest(cfg, st.bundle - gone)
  }

  // ---- the three ways not to converge ----

  /** Nothing else is wrong, but the secret role or its binding is gone: every `Observe` fails. */
  predicate Stuck(cfg: Config, st: State)
    requires cfg.Versioned()
  {
    && Listed(cfg, st.crds) && Current(cfg, st.crds)
    && Matching(cfg, st)
    && !Deploy.SecretsPresent(st.bundle, cfg.Options())
  }

  /** The next update removes secret objects it has just deployed, and that goes unnoticed. */
  predicate Stranded(cfg: Config, st: State)
    requires cfg.Versioned()
  {
    && Observe(cfg, st) == Outdated && !NilChart(cfg, st.status)
    && (Listed(cfg, st.crds) || Current(cfg, st.crds))
    && TakesSecrets(cfg, st.status) && Unnoticed(cfg, st)
  }

  /**
   * Every `Update` panics, and the digest in the status, which it cannot change, is not that of what it
   * leaves, or what it leaves is not intact.
   */
  predicate Panicking(cfg: Config, st: State)
    requires cfg.Versioned()
  {
    && Observe(cfg, st) == Outdated && NilChart(cfg, st.status)
    && !(st.status.digest == Some(DryDigest(cfg, st.bundle - Gone(cfg, st.status))) && Intact(cfg, st))
  }

  predicate Diverges(cfg: Config, st: State)
    requires cfg.Versioned()
  {
    Stuck(cfg, st) || Stranded(cfg, st) || Panicking(cfg, st)
  }

  // ---- the number of rounds ----

  /** How many rounds the CRD needs: a stale status is rewritten before a missing version is appended. */
  function CrdSteps(cfg: Config, crds: Crds): nat
    requires cfg.Versioned()
  {
    if KeyOf(cfg.gen) !in crds then 1
    else (if Listed(cfg, crds) then 0 else 1) + (if Current(cfg, crds) then 0 else 1)
  }

  /** One update suffices for the bundle, or panics whatever it leaves. */
  predicate OneUpdate(cfg: Config, st: State)
    requires cfg.Versioned()
  {
    NilChart(cfg, st.status) || (Unnoticed(cfg, st) && Intact(cfg, st))
  }

  /** The number of creates and updates until `Observe` finds everything up to date. */
  function Needed(cfg: Config, st: State): nat
    requires cfg.Versioned()
  {
    match Observe(cfg, st)
    case UpToDate => 0
    case Absent => 1
    case _ => if CrdSteps(cfg, st.crds) == 2 || !OneUpdate(cfg, st) then 2 else 1
  }

  // ---- Observe ----

  lemma ObserveCases(cfg: Config, st: State)
    requires Regular(cfg, st)
    ensures cfg.Versioned()
    ensures Observe(cfg, st) == Absent <==> KeyOf(cfg.gen) !in st.crds
    ensures Observe(cfg, st) == Failed <==> Stuck(cfg, st)
    ensures Observe(cfg, st) == UpToDate <==>
            && Listed(cfg, st.crds) && Current(cfg, st.crds) && Matching(cfg, st)
            && Deploy.SecretsPresent(st.bundle, cfg.Options())
            && LookupDigest(cfg, st.bundle) == DryDigest(cfg, st.bundle)
  {
    hide DryDigest;
    hide LookupDigest;
    hide Deploy.SecretsPresent;
    if KeyOf(cfg.gen) in st.crds {
      StatusCheckIsExact(st.crds[KeyOf(cfg.gen)], cfg.gen);
    }
  }

  lemma SaneIsEquipped(cfg: Config)
    requires Sane(cfg)
    ensures Equipped(cfg) && Generated(cfg.gen) && cfg.Versioned()
  {
  }

  lemma RegularIsSane(cfg: Config, st: State)
    requires Regular(cfg, st)
    ensures Sane(cfg) && Equipped(cfg) && Generated(cfg.gen) && cfg.Versioned()
    ensures GoodCrd(cfg.gen, st.crds) && Unique(st.status.versionInfo)
  {
  }

  // ---- the bundle over one round ----

  /**
   * After a deployment from which some keys were removed: what a dry run and a read-back say, and whether
   * the secret objects are there, read off the store before.
   */
  lemma RemovalDigests(cfg: Config, m: Bundle.Store, now: string, gone: set<Bundle.Key>)
    requires Sane(cfg)
    ensures var o := cfg.Options();
            var after := Deploy.Deployed(cfg.server, m, o, now) - gone;
            && DryDigest(cfg, after) == DryDigest(cfg, m - gone)
            && LookupDigest(cfg, after) == LookupDigest(cfg, Bundle.InstallAll(cfg.server, m, Bundle.Plan(o)) - gone)
            && (Deploy.SecretsPresent(after, o) <==> SecretKeys(o) !! gone)
  {
    hide Bundle.Plan;
    hide Deploy.Deployed;
    hide Deploy.SecretsPresent;
    hide Bundle.ReadItem;
    var o := cfg.Options();
    var items := Bundle.Plan(o);
    var after, installed := Deploy.Deployed(cfg.server, m, o, now) - gone,
                          Bundle.InstallAll(cfg.server, m, items) - gone;
    forall i | 0 <= i < |items|
      ensures Bundle.Answer(cfg.server, after, items[i]) == Bundle.Answer(cfg.server, m - gone, items[i])
      ensures Bundle.ReadItem(after, items[i]) == Bundle.ReadItem(installed, items[i])
      ensures items[i].obj.key in after <==> items[i].obj.key !in gone
    {
      DeployFacts.RemovedItem(cfg.server, m, o, now, gone, i);
    }
    DeployFacts.DryStreamsAlike(cfg.server, after, m - gone, items);
    DeployFacts.LookupStreamsAlike(after, installed, items);
    SecretsPresentIs(after, o);
    SecretsPlanned(o);
  }

  lemma SecretsPlanned(o: Bundle.Options)
    ensures forall k :: k in SecretKeys(o) ==>
              exists i :: 0 <= i < |Bundle.Plan(o)| && Bundle.Plan(o)[i].obj.key == k
  {
    if o.credentials.Some? {
      Bundle.PlanSecrets(o);
      assert Bundle.Plan(o)[0].obj.key in SecretKeys(o) && Bundle.Plan(o)[1].obj.key in SecretKeys(o);
    }
  }

  /** Removing the same keys after a second deployment leaves the same. */
  lemma RemovalRepeats(cfg: Config, m: Bundle.Store, now: string, gone: set<Bundle.Key>)
    requires Sane(cfg)
    ensures var items := Bundle.Plan(cfg.Options());
            var after := Deploy.Deployed(cfg.server, m, cfg.Options(), now) - gone;
            && after - gone == after
            && LookupDigest(cfg, Bundle.InstallAll(cfg.server, after, items) - gone)
               == LookupDigest(cfg, Bundle.InstallAll(cfg.server, m, items) - gone)
  {
    hide Bundle.Plan;
    hide Deploy.Deployed;
    var o, items := cfg.Options(), Bundle.Plan(cfg.Options());
    var after := Deploy.Deployed(cfg.server, m, o, now) - gone;
    var again, once := Bundle.InstallAll(cfg.server, after, items) - gone,
                      Bundle.InstallAll(cfg.server, m, items) - gone;
    forall i | 0 <= i < |items| ensures Bundle.ReadItem(again, items[i]) == Bundle.ReadItem(once, items[i]) {
      DeployFacts.RemovedItem(cfg.server, m, o, now, gone, i);
      DeployFacts.RemovedItem(cfg.server, after, o, now, gone, i);
      AnswerKept(cfg.server, m, gone, items[i]);
    }
    DeployFacts.LookupStreamsAlike(again, once, items);
  }

  lemma AnswerKept(server: Kube.Server<Bundle.Content>, m: Bundle.Store, gone: set<Bundle.Key>, item: Bundle.Item)
    ensures item.obj.key !in gone ==> Bundle.Answer(server, m - gone, item) == Bundle.Answer(server, m, item)
  {
  }

  /** With nothing of the bundle removed, all is as rendered, and the digest of the deployment is the dry one. */
  lemma NothingRemoved(cfg: Config, m: Bundle.Store, gone: set<Bundle.Key>)
    requires Sane(cfg) && gone !! Bundle.Keys(Bundle.Plan(cfg.Options()))
    ensures var items := Bundle.Plan(cfg.Options());
            && DryDigest(cfg, m - gone) == DryDigest(cfg, m)
            && LookupDigest(cfg, Bundle.InstallAll(cfg.server, m, items) - gone) == DryDigest(cfg, m)
            && SecretKeys(cfg.Options()) !! gone
  {
    hide Bundle.Plan;
    hide Deploy.Deployed;
    var o, items := cfg.Options(), Bundle.Plan(cfg.Options());
    var installed := Bundle.InstallAll(cfg.server, m, items) - gone;
    forall i | 0 <= i < |items|
      ensures DeployFacts.SettledItem(cfg.server, m, installed, items[i])
      ensures Bundle.Answer(cfg.server, m - gone, items[i]) == Bundle.Answer(cfg.server, m, items[i])
    {
      assert items[i].obj.key in Bundle.Keys(items);
      DeployFacts.RemovedItem(cfg.server, m, o, "", gone, i);
      AnswerKept(cfg.server, m, gone, items[i]);
    }
    DeployFacts.DryStreamsAlike(cfg.server, m - gone, m, items);
    DeployFacts.SettledStreams(cfg.server, m, installed, items);
    SecretsPlanned(o);
  }

  lemma BundleAfterIs(cfg: Config, st: State, now: string)
    requires cfg.Versioned()
    ensures BundleAfter(cfg, st, now)
         == Deploy.Deployed(cfg.server, st.bundle, cfg.Options(), now) - Gone(cfg, st.status)
  {
    hide Bundle.Plan;
    hide Bundle.Keys;
    hide Deploy.Deployed;
    hide Deploy.RemovalKeys;
    var deployed := Deploy.Deployed(cfg.server, st.bundle, cfg.Options(), now);
    if Superseded(cfg, st.status).Some? {
      DeployFacts.TeardownKeys(Retired(cfg, st.status));
    } else {
      assert deployed - {} == deployed;
    }
  }

  /** The digest a deployment records is the one a dry run would have given. */
  lemma DigestedIsDry(cfg: Config, st: State)
    requires Sane(cfg)
    ensures Digested(cfg, st).digest == Some(DryDigest(cfg, st.bundle))
  {
    hide Bundle.Plan;
    hide Bundle.DeployStream;
    DeployFacts.DryHashesTheSame(cfg.server, st.bundle, Bundle.Plan(cfg.Options()));
  }

  // ---- the state after one round ----

  /** A first deployment leaves everything up to date. */
  lemma AfterCreate(cfg: Config, st: State, now: string)
    requires Regular(cfg, st) && Observe(cfg, st) == Absent
    ensures var st' := Round(cfg, st, now);
            && Regular(cfg, st') && Observe(cfg, st') == UpToDate
            && st'.comps == st.comps && st'.status == st.status.(digest := st'.status.digest)
  {
    hide DryDigest;
    hide LookupDigest;
    hide Deploy.Deployed;
    hide Deploy.SecretsPresent;
    hide Bundle.Plan;
    hide CrdsAfter;
    RegularIsSane(cfg, st);
    ObserveCases(cfg, st);
    CrdProgress(cfg, st.crds);
    DigestedIsDry(cfg, st);
    RemovalDigests(cfg, st.bundle, now, {});
    NothingRemoved(cfg, st.bundle, {});
    var deployed := Deploy.Deployed(cfg.server, st.bundle, cfg.Options(), now);
    assert deployed - {} == deployed && st.bundle - {} == st.bundle;
    ObserveCases(cfg, CreateSpec(cfg, st, now));
  }

  /** What an update leaves: the CRD a step closer, the bundle as deployed less the superseded one. */
  lemma AfterUpdate(cfg: Config, st: State, now: string)
    requires Regular(cfg, st) && Observe(cfg, st) == Outdated
    ensures var st' := UpdateSpec(cfg, st, now);
            var gone := Gone(cfg, st.status);
            && Regular(cfg, st')
            && Current(cfg, st'.crds)
            && (Listed(cfg, st'.crds) <==> Listed(cfg, st.crds) || Current(cfg, st.crds))
            && DryDigest(cfg, st'.bundle) == DryDigest(cfg, st.bundle - gone)
            && (Deploy.SecretsPresent(st'.bundle, cfg.Options()) <==> !TakesSecrets(cfg, st.status))
            && LookupDigest(cfg, st'.bundle)
               == LookupDigest(cfg, Bundle.InstallAll(cfg.server, st.bundle, Bundle.Plan(cfg.Options())) - gone)
            && st'.bundle == Deploy.Deployed(cfg.server, st.bundle, cfg.Options(), now) - gone
  {
    hide DryDigest;
    hide LookupDigest;
    hide Deploy.Deployed;
    hide Deploy.SecretsPresent;
    hide Bundle.Plan;
    hide CrdsAfter;
    hide BundleAfter;
    hide Gone;
    hide NilChart;
    hide Refreshed;
    RegularIsSane(cfg, st);
    ObserveCases(cfg, st);
    CrdProgress(cfg, st.crds);
    BundleAfterIs(cfg, st, now);
    RemovalDigests(cfg, st.bundle, now, Gone(cfg, st.status));
    RefreshKeepsDigest(Digested(cfg, st), cfg.gen, cfg.Gvr(), cfg.gen.kind, cfg.chart, cfg.packageURL);
  }

  /** A completed update records its version and digest; nothing is superseded any more. */
  lemma AfterCompletedUpdate(cfg: Config, st: State, now: string)
    requires Regular(cfg, st) && Observe(cfg, st) == Outdated && !NilChart(cfg, st.status)
    ensures var s' := UpdateSpec(cfg, st, now).status;
            && s'.digest == Some(DryDigest(cfg, st.bundle))
            && Superseded(cfg, s').None? && Gone(cfg, s') == {} && !NilChart(cfg, s') && !Moves(cfg, s')
  {
    hide DryDigest;
    hide Refreshed;
    hide CrdsAfter;
    hide BundleAfter;
    hide CompsAfter;
    RegularIsSane(cfg, st);
    DigestedIsDry(cfg, st);
    RefreshKeepsDigest(Digested(cfg, st), cfg.gen, cfg.Gvr(), cfg.gen.kind, cfg.chart, cfg.packageURL);
    var s' := UpdateSpec(cfg, st, now).status;
    SupersededSame(cfg, s', s');
  }

  /** A status with nothing superseded: a further update removes nothing. */
  lemma NothingSuperseded(cfg: Config, st: State)
    requires Sane(cfg) && cfg.Versioned() && Gone(cfg, st.status) == {}
    ensures Unnoticed(cfg, st) && Intact(cfg, st) && !TakesSecrets(cfg, st.status)
  {
    hide DryDigest;
    hide LookupDigest;
    hide Bundle.Plan;
    hide Gone;
    NothingRemoved(cfg, st.bundle, {});
    assert st.bundle - {} == st.bundle;
  }

  lemma CompletedUpdate(cfg: Config, st: State, now: string)
    requires Regular(cfg, st) && Observe(cfg, st) == Outdated && !NilChart(cfg, st.status)
    ensures var st' := UpdateSpec(cfg, st, now);
            && Regular(cfg, st') && OneUpdate(cfg, st') && Current(cfg, st'.crds)
            && (Listed(cfg, st'.crds) <==> Listed(cfg, st.crds) || Current(cfg, st.crds))
            && (Observe(cfg, st') == UpToDate <==> Listed(cfg, st'.crds) && Unnoticed(cfg, st) && Intact(cfg, st))
            && (Diverges(cfg, st') <==> Stranded(cfg, st))
  {
    hide DryDigest;
    hide LookupDigest;
    hide Gone;
    hide NilChart;
    hide UpdateSpec;
    hide Regular;
    hide Observe;
    hide TakesSecrets;
    hide Deploy.SecretsPresent;
    RegularIsSane(cfg, st);
    AfterUpdate(cfg, st, now);
    AfterCompletedUpdate(cfg, st, now);
    NothingSuperseded(cfg, UpdateSpec(cfg, st, now));
    ObserveCases(cfg, UpdateSpec(cfg, st, now));
  }

  /** A panicking update: the next one leaves the same, and the recorded status is what it was. */
  lemma PanickedUpdate(cfg: Config, st: State, now: string)
    requires Regular(cfg, st) && Observe(cfg, st) == Outdated && NilChart(cfg, st.status)
    ensures var st' := UpdateSpec(cfg, st, now);
            && Regular(cfg, st') && st'.status == st.status && st'.comps == st.comps && Current(cfg, st'.crds)
            && (Listed(cfg, st'.crds) <==> Listed(cfg, st.crds) || Current(cfg, st.crds))
            && (Observe(cfg, st') == UpToDate <==> Listed(cfg, st'.crds) && !Panicking(cfg, st))
            && (Diverges(cfg, st') <==> Panicking(cfg, st))
  {
    hide DryDigest;
    hide LookupDigest;
    hide Bundle.InstallAll;
    hide Gone;
    hide Regular;
    hide Observe;
    hide TakesSecrets;
    hide Deploy.SecretsPresent;
    hide Deploy.Deployed;
    hide CrdsAfter;
    hide BundleAfter;
    hide Bundle.Plan;
    RegularIsSane(cfg, st);
    var st' := UpdateSpec(cfg, st, now);
    AfterUpdate(cfg, st, now);
    RemovalRepeats(cfg, st.bundle, now, Gone(cfg, st.status));
    ObserveCases(cfg, st');
  }

  /** Once up to date, a round only refreshes the status, and the next one changes nothing at all. */
  lemma UpToDateStays(cfg: Config, st: State, now: string)
    requires Regular(cfg, st) && Observe(cfg, st) == UpToDate
    ensures var st' := Round(cfg, st, now);
            && Regular(cfg, st') && Observe(cfg, st') == UpToDate
            && st'.crds == st.crds && st'.bundle == st.bundle && st'.comps == st.comps
            && forall later :: Round(cfg, st', later) == st'
  {
    hide Sane;
    hide DryDigest;
    hide LookupDigest;
    hide Refreshed;
    RegularIsSane(cfg, st);
    var crd := st.crds[KeyOf(cfg.gen)];
    RefreshKeepsDigest(st.status, crd, cfg.Gvr(), cfg.gen.kind, cfg.chart, cfg.packageURL);
    RefreshIdempotent(st.status, crd, cfg.Gvr(), cfg.gen.kind, cfg.chart, cfg.packageURL);
  }

  lemma UpToDateConverges(cfg: Config, st: State)
    requires Regular(cfg, st) && Observe(cfg, st) == UpToDate
    ensures cfg.Versioned() && !Diverges(cfg, st)
  {
    ObserveCases(cfg, st);
  }

  lemma RoundIs(cfg: Config, st: State, now: string)
    requires cfg.Versioned()
    ensures Observe(cfg, st) == Outdated ==> Round(cfg, st, now) == UpdateSpec(cfg, st, now)
    ensures Observe(cfg, st) == Failed ==> Round(cfg, st, now) == st
  {
    hide Observe;
    hide UpdateSpec;
  }

  /** A state that does not diverge is one round closer after each create or update. */
  lemma RoundProgress(cfg: Config, st: State, now: string)
    requires Regular(cfg, st) && !Diverges(cfg, st) && Observe(cfg, st) != UpToDate
    ensures var st' := Round(cfg, st, now);
            Regular(cfg, st') && !Diverges(cfg, st') && Needed(cfg, st') == Needed(cfg, st) - 1
  {
    hide Regular;
    hide Observe;
    hide Round;
    hide UpdateSpec;
    hide Unnoticed;
    hide Intact;
    hide TakesSecrets;
    hide Listed;
    hide Current;
    hide NilChart;
    hide Stuck;
    ObserveCases(cfg, st);
    RoundIs(cfg, st, now);
    if Observe(cfg, st) == Absent {
      AfterCreate(cfg, st, now);
      UpToDateConverges(cfg, Round(cfg, st, now));
    } else {
      ListedPresent(cfg, UpdateSpec(cfg, st, now).crds);
      ListedPresent(cfg, st.crds);
      if NilChart(cfg, st.status) {
        PanickedUpdate(cfg, st, now);
      } else {
        CompletedUpdate(cfg, st, now);
      }
      ObserveCases(cfg, UpdateSpec(cfg, st, now));
    }
  }

  lemma ListedPresent(cfg: Config, crds: Crds)
    requires cfg.Versioned()
    ensures Listed(cfg, crds) || Current(cfg, crds) ==> KeyOf(cfg.gen) in crds
  {
  }

  /** Nothing repairs a diverging state: it diverges again after the round, and was not up to date. */
  lemma DivergesStays(cfg: Config, st: State, now: string)
    requires Regular(cfg, st) && Diverges(cfg, st)
    ensures Observe(cfg, st) != UpToDate
    ensures Regular(cfg, Round(cfg, st, now)) && Diverges(cfg, Round(cfg, st, now))
    ensures Stuck(cfg, st) ==> Round(cfg, st, now) == st
  {
    hide Regular;
    hide Observe;
    hide Round;
    hide UpdateSpec;
    hide NilChart;
    ObserveCases(cfg, st);
    RoundIs(cfg, st, now);
    if Observe(cfg, st) == Outdated {
      if NilChart(cfg, st.status) {
        PanickedUpdate(cfg, st, now);
      } else {
        CompletedUpdate(cfg, st, now);
      }
    }
  }

  // ---- whole runs ----

  lemma DigestsIgnore(cfg: Config, b: Beat, m: Bundle.Store)
    requires cfg.Versioned()
    ensures cfg.At(b).Options() == cfg.Options()
    ensures DryDigest(cfg.At(b), m) == DryDigest(cfg, m) && LookupDigest(cfg.At(b), m) == LookupDigest(cfg, m)
  {
  }

  lemma StatusIgnores(cfg: Config, b: Beat, s: DefinitionStatus)
    requires cfg.Versioned()
    ensures NilChart(cfg.At(b), s) == NilChart(cfg, s)
    ensures Gone(cfg.At(b), s) == Gone(cfg, s) && TakesSecrets(cfg.At(b), s) == TakesSecrets(cfg, s)
  {
    hide Bundle.Plan;
    hide Bundle.Keys;
    assert Superseded(cfg.At(b), s) == Superseded(cfg, s);
  }

  /** The CA bundles play no part in any of this. */
  lemma BundlesIgnored(cfg: Config, b: Beat, st: State)
    requires Regular(cfg, st)
    ensures Regular(cfg.At(b), st) && cfg.Versioned()
    ensures Observe(cfg.At(b), st) == Observe(cfg, st)
    ensures Diverges(cfg.At(b), st) == Diverges(cfg, st)
    ensures Needed(cfg.At(b), st) == Needed(cfg, st)
  {
    hide DryDigest;
    hide LookupDigest;
    hide Gone;
    hide NilChart;
    hide TakesSecrets;
    hide Observe;
    hide Bundle.Plan;
    hide Deploy.SecretsPresent;
    hide Generation.HasName;
    hide Generation.StatusesEqual;
    RegularIsSane(cfg, st);
    ObserveIgnores(cfg, cfg.At(b), st);
    StatusIgnores(cfg, b, st.status);
    var gone := Gone(cfg, st.status);
    DigestsIgnore(cfg, b, st.bundle);
    DigestsIgnore(cfg, b, st.bundle - gone);
    DigestsIgnore(cfg, b, Bundle.InstallAll(cfg.server, st.bundle, Bundle.Plan(cfg.Options())) - gone);
  }

  lemma NeededPositive(cfg: Config, st: State)
    requires Regular(cfg, st)
    ensures cfg.Versioned() && Needed(cfg, st) <= 2 && (Needed(cfg, st) == 0 <==> Observe(cfg, st) == UpToDate)
  {
  }

  /**
   * Convergence. From any regular state that does not diverge, `Observe` finds the definition up to date
   * after exactly `Needed` rounds, at most two of which write, and after every later round.
   */
  lemma {:induction false} Converges(cfg: Config, st: State, beats: seq<Beat>)
    requires Regular(cfg, st) && !Diverges(cfg, st)
    ensures Needed(cfg, st) <= 2
    ensures Observe(cfg, Rounds(cfg, st, beats)) == UpToDate <==> |beats| >= Needed(cfg, st)
    decreases |beats|
  {
    hide Round;
    hide Observe;
    hide Diverges;
    hide Regular;
    hide Needed;
    NeededPositive(cfg, st);
    RegularIsSane(cfg, st);
    if beats != [] {
      var b := beats[0];
      var st' := Round(cfg.At(b), st, b.now);
      BundlesIgnored(cfg, b, st);
      if Observe(cfg, st) == UpToDate {
        UpToDateStays(cfg.At(b), st, b.now);
        UpToDateConverges(cfg.At(b), st');
      } else {
        RoundProgress(cfg.At(b), st, b.now);
      }
      AnyBundle(cfg, b, st');
      NeededPositive(cfg, st');
      Converges(cfg, st', beats[1..]);
    }
  }

  /** What holds under one CA bundle holds under any. */
  lemma AnyBundle(cfg: Config, b: Beat, st: State)
    requires Sane(cfg) && Regular(cfg.At(b), st)
    ensures Regular(cfg, st) && cfg.Versioned()
    ensures Observe(cfg.At(b), st) == Observe(cfg, st)
    ensures Diverges(cfg.At(b), st) == Diverges(cfg, st)
    ensures Needed(cfg.At(b), st) == Needed(cfg, st)
  {
    hide Observe;
    hide Diverges;
    hide Needed;
    BundlesIgnored(cfg, b, st);
  }

  /** From a diverging state no number of rounds suffices. */
  lemma {:induction false} NeverConverges(cfg: Config, st: State, beats: seq<Beat>)
    requires Regular(cfg, st) && Diverges(cfg, st)
    ensures Observe(cfg, Rounds(cfg, st, beats)) != UpToDate
    decreases |beats|
  {
    hide Round;
    hide Observe;
    hide Diverges;
    hide Needed;
    if beats == [] {
      DivergesStays(cfg, st, "");
    } else {
      var b := beats[0];
      BundlesIgnored(cfg, b, st);
      DivergesStays(cfg.At(b), st, b.now);
      AnyBundle(cfg, b, Round(cfg.At(b), st, b.now));
      NeverConverges(cfg, Round(cfg.At(b), st, b.now), beats[1..]);
    }
  }

  /**
   * From every state with a good CRD: the definition is up to date after any two rounds exactly when its
   * state does not diverge.
   */
  lemma ConvergesIff(cfg: Config, st: State)
    requires Regular(cfg, st)
    ensures !Diverges(cfg, st) <==>
            forall beats: seq<Beat> :: |beats| >= 2 ==> Observe(cfg, Rounds(cfg, st, beats)) == UpToDate
  {
    hide Observe;
    hide Rounds;
    hide Diverges;
    hide Regular;
    hide Needed;
    NeededPositive(cfg, st);
    if !Diverges(cfg, st) {
      forall beats: seq<Beat> | |beats| >= 2 ensures Observe(cfg, Rounds(cfg, st, beats)) == UpToDate {
        Converges(cfg, st, beats);
      }
    } else {
      NeverConverges(cfg, st, [Beat("", "", ""), Beat("", "", "")]);
    }
  }

  // ---- when the superseded bundle is apart ----

  /** The superseded bundle shares no object with the new one. */
  predicate Apart(cfg: Config, s: DefinitionStatus)
    requires cfg.Versioned()
  {
    Gone(cfg, s) !! Bundle.Keys(Bundle.Plan(cfg.Options()))
  }

  /**
   * Then only two ways not to converge remain, a lost secret role and a digest that has to change while
   * every update panics, and two rounds are needed only for a CRD with a stale status and a missing version.
   */
  lemma ApartIsSimpler(cfg: Config, st: State)
    requires Regular(cfg, st) && cfg.Versioned() && Apart(cfg, st.status)
    ensures Diverges(cfg, st) <==>
            Stuck(cfg, st) || (KeyOf(cfg.gen) in st.crds && !Matching(cfg, st) && NilChart(cfg, st.status))
    ensures !Diverges(cfg, st) ==>
              Needed(cfg, st) == if Observe(cfg, st) == UpToDate then 0
                                 else if CrdSteps(cfg, st.crds) == 2 then 2 else 1
  {
    hide DryDigest;
    hide LookupDigest;
    hide Deploy.SecretsPresent;
    hide Bundle.Plan;
    hide Bundle.InstallAll;
    hide Gone;
    hide NilChart;
    hide Regular;
    hide Observe;
    RegularIsSane(cfg, st);
    ObserveCases(cfg, st);
    NothingRemoved(cfg, st.bundle, Gone(cfg, st.status));
  }
}
