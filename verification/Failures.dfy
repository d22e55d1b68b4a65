/** What a create or update leaves when it fails part of the way, and what the reconcile loop makes of it. */
module Failures {
  import opened Wrappers
  import opened Convergence
  import opened Reconcile
  import opened ReconcileFacts
  import opened Status
  import Bundle
  import CrdClient
  import Deploy
  import DeployFacts
  import Getters
  import Hash

  // ---- where a round may stop ----

  /** The CRD is as found, or applied, or applied and handed some CA bundle. */
  ghost predicate PartlyApplied(cfg: Config, before: CrdClient.Crds, now: CrdClient.Crds)
    requires cfg.Versioned()
  {
    || now == before
    || now == Applied(cfg.gen, cfg.opts, before)
    || exists ca :: now == CrdsAfter(cfg.(ca := ca), before)
  }

  /** Some of the objects are installed in order, or all of them and the workload restarted. */
  ghost predicate PartlyDeployed(cfg: Config, before: Bundle.Store, now: Bundle.Store, at: string)
    requires cfg.Versioned()
  {
    || Deploy.Stopped(cfg.server, before, now, Bundle.Plan(cfg.Options()), false)
    || now == Deploy.Deployed(cfg.server, before, cfg.Options(), at)
  }

  /** A create or update that failed before its digest was recorded. The bundle comes after the CRD. */
  ghost predicate Begun(cfg: Config, st: State, st': State, now: string)
    requires cfg.Versioned()
  {
    && st'.comps == st.comps && st'.status == st.status
    && PartlyApplied(cfg, st.crds, st'.crds)
    && (|| st'.bundle == st.bundle
        || (&& PartlyDeployed(cfg, st.bundle, st'.bundle, now)
            && exists ca :: st'.crds == CrdsAfter(cfg.(ca := ca), st.crds)))
  }

  /** An update that failed after that: part of the superseded bundle is removed, and some compositions moved. */
  function Halted(cfg: Config, st: State, now: string, removed: set<Bundle.Key>, comps: Getters.Store): State
    requires cfg.Versioned()
  {
    var created := CreateSpec(cfg, st, now);
    created.(bundle := created.bundle - removed, comps := comps)
  }

  function StatusKept(kept: bool, st: State, st': State): State
  {
    if kept then st' else st'.(status := st.status)
  }

  /** The state in which an update that got past its digest fails, seen from the state at that point. */
  ghost predicate PartlyFinished(cfg: Config, before: State, now: State)
    requires cfg.Versioned()
  {
    && now.crds == before.crds && now.status == before.status
    && (|| (&& now.comps == before.comps
            && (|| now.bundle == before.bundle
                || (&& Superseded(cfg, before.status).Some?
                    && Deploy.PartlyGone(before.bundle, now.bundle, Deploy.RemovalKeys(Retired(cfg, before.status))))))
        || (&& now.bundle == WithoutSuperseded(cfg, before)
            && exists ks :: (&& ks <= Getters.Carrying(before.comps, before.status.version)
                             && now.comps == Getters.RelabelSet(before.comps, ks, cfg.Version()))))
  }

  lemma FinishedIsHalted(cfg: Config, cfg': Config, st: State, st': State, now: string)
    requires cfg.Versioned() && cfg' == cfg.(opts := cfg'.opts, ca := cfg'.ca)
    requires PartlyFinished(cfg', CreateSpec(cfg, st, now), st')
    ensures exists removed, comps :: removed <= Gone(cfg, st.status) && st' == Halted(cfg, st, now, removed, comps)
  {
    hide CrdsAfter;
    hide Deploy.Deployed;
    hide Bundle.Plan;
    hide Bundle.Keys;
    hide Deploy.RemovalKeys;
    hide Getters.Carrying;
    hide Getters.RelabelSet;
    hide Digested;
    SameButDigest(cfg, st);
    var created := CreateSpec(cfg, st, now);
    var removed := RemovedBy(cfg', created, st');
    assert Gone(cfg', created.status) == Gone(cfg, st.status);
    assert st' == Halted(cfg, st, now, removed, st'.comps);
  }

  /** What was removed of the superseded bundle. */
  lemma RemovedBy(cfg: Config, before: State, now: State) returns (removed: set<Bundle.Key>)
    requires cfg.Versioned() && PartlyFinished(cfg, before, now)
    ensures removed <= Gone(cfg, before.status) && now.bundle == before.bundle - removed
  {
    hide Bundle.Plan;
    hide Bundle.Keys;
    hide Deploy.RemovalKeys;
    hide Retired;
    removed := {};
    assert before.bundle - {} == before.bundle;
    if now.bundle != before.bundle {
      var o := Retired(cfg, before.status);
      var keys := Deploy.RemovalKeys(o);
      DeployFacts.TeardownKeys(o);
      if now.bundle == WithoutSuperseded(cfg, before) {
        removed := Deploy.Removed(keys, |keys|);
      } else {
        var n :| Deploy.Gone(before.bundle, now.bundle, keys, n);
        removed := Deploy.Removed(keys, n);
      }
    }
  }

  /** A round that may have been cut off anywhere, and whose status may then be lost. */
  ghost predicate Faltering(cfg: Config, st: State, st': State, now: string)
    requires cfg.Versioned()
  {
    || st' == st
    || st' == Round(cfg, st, now)
    || (Observe(cfg, st) in {Absent, Outdated} && Begun(cfg, st, st', now))
    || (&& Observe(cfg, st) == Outdated
        && exists removed, comps, kept ::
             && removed <= Gone(cfg, st.status)
             && st' == StatusKept(kept, st, Halted(cfg, st, now, removed, comps)))
  }

  // ---- before the digest is recorded ----

  /** The CRD as it is once applied. */
  ghost predicate Advanced(cfg: Config, before: CrdClient.Crds, now: CrdClient.Crds)
    requires cfg.Versioned()
  {
    && Current(cfg, now)
    && (Listed(cfg, now) <==> CrdClient.KeyOf(cfg.gen) !in before || Listed(cfg, before) || Current(cfg, before))
  }

  lemma PartlyAppliedProgress(cfg: Config, before: CrdClient.Crds, now: CrdClient.Crds)
    requires Equipped(cfg) && GoodCrd(cfg.gen, before) && PartlyApplied(cfg, before, now)
    ensures GoodCrd(cfg.gen, now)
    ensures now == before || Advanced(cfg, before, now)
  {
    hide Applied;
    hide CrdsAfter;
    hide GoodCrd;
    hide Current;
    hide Listed;
    AppliedProgress(cfg, before);
    if ca :| now == CrdsAfter(cfg.(ca := ca), before) {
      AppliedAdvances(cfg, before, ca);
    }
  }

  lemma AppliedAdvances(cfg: Config, before: CrdClient.Crds, ca: string)
    requires Equipped(cfg) && GoodCrd(cfg.gen, before)
    ensures var now := CrdsAfter(cfg.(ca := ca), before); GoodCrd(cfg.gen, now) && Advanced(cfg, before, now)
  {
    hide CrdsAfter;
    hide GoodCrd;
    hide Current;
    hide Listed;
    CrdProgress(cfg.(ca := ca), before);
    CaIgnored(cfg, ca, before);
    CaIgnored(cfg, ca, CrdsAfter(cfg.(ca := ca), before));
  }

  lemma CaIgnored(cfg: Config, ca: string, crds: CrdClient.Crds)
    requires cfg.Versioned()
    ensures Current(cfg.(ca := ca), crds) == Current(cfg, crds) && Listed(cfg.(ca := ca), crds) == Listed(cfg, crds)
  {
  }

  /** A half-done deployment changes no digest that is going to be computed. */
  lemma PartlyDeployedAlike(cfg: Config, m: Bundle.Store, m': Bundle.Store, at: string, gone: set<Bundle.Key>)
    requires Sane(cfg) && (m' == m || PartlyDeployed(cfg, m, m', at))
    ensures DryDigest(cfg, m' - gone) == DryDigest(cfg, m - gone)
    ensures DryDigest(cfg, m') == DryDigest(cfg, m)
    ensures Bundle.InstallAll(cfg.server, m', Bundle.Plan(cfg.Options()))
         == Bundle.InstallAll(cfg.server, m, Bundle.Plan(cfg.Options()))
  {
    hide Bundle.Plan;
    hide Deploy.Deployed;
    hide Bundle.InstallAll;
    if m' != m {
      var o, items := cfg.Options(), Bundle.Plan(cfg.Options());
      if m' == Deploy.Deployed(cfg.server, m, o, at) {
        DeployFacts.DeployedResumable(cfg.server, m, o, at);
      } else {
        var n :| 0 <= n <= |items| && m' == Bundle.InstallAll(cfg.server, m, items[..n]);
        DeployFacts.PrefixResumable(cfg.server, m, items, n);
      }
      DeployFacts.ResumeReaches(cfg.server, m, m', items);
      forall i | 0 <= i < |items|
        ensures Bundle.Answer(cfg.server, m' - gone, items[i]) == Bundle.Answer(cfg.server, m - gone, items[i])
      {
        AnswerKept(cfg.server, m, gone, items[i]);
        AnswerKept(cfg.server, m', gone, items[i]);
      }
      DeployFacts.DryStreamsAlike(cfg.server, m' - gone, m - gone, items);
      DeployFacts.DryStreamsAlike(cfg.server, m', m, items);
    }
  }

  /** What the next update would do wrong: take secret objects away unnoticed, or panic and not get anywhere. */
  predicate Exposed(cfg: Config, st: State)
    requires cfg.Versioned()
  {
    if NilChart(cfg, st.status)
    then !(st.status.digest == Some(DryDigest(cfg, st.bundle - Gone(cfg, st.status))) && Intact(cfg, st))
    else TakesSecrets(cfg, st.status) && Unnoticed(cfg, st)
  }

  lemma BegunKeeps(cfg: Config, st: State, st': State, now: string)
    requires Regular(cfg, st) && Begun(cfg, st, st', now)
    ensures Regular(cfg, st')
    ensures Matching(cfg, st') == Matching(cfg, st) && Exposed(cfg, st') == Exposed(cfg, st)
    ensures st' == st || Advanced(cfg, st.crds, st'.crds)
  {
    hide DryDigest;
    hide LookupDigest;
    hide Bundle.Plan;
    hide Bundle.InstallAll;
    hide PartlyApplied;
    hide PartlyDeployed;
    hide CrdsAfter;
    hide Sane;
    hide Gone;
    hide NilChart;
    hide TakesSecrets;
    hide GoodCrd;
    hide Advanced;
    RegularIsSane(cfg, st);
    PartlyAppliedProgress(cfg, st.crds, st'.crds);
    if st'.bundle != st.bundle {
      var ca :| st'.crds == CrdsAfter(cfg.(ca := ca), st.crds);
      AppliedAdvances(cfg, st.crds, ca);
    }
    PartlyDeployedAlike(cfg, st.bundle, st'.bundle, now, Gone(cfg, st.status));
  }

  /**
   * A create or update that fails before its digest is recorded, from a state that does not diverge. What it
   * leaves diverges exactly if the recorded digest is the right one already, the CRD lists the version and a
   * secret object is still missing, or if it is outdated and the next update goes wrong. The latter takes a
   * CRD that was missing, or had neither the version nor the status.
   */
  lemma FailedDeployment(cfg: Config, st: State, st': State, now: string)
    requires Regular(cfg, st) && !Diverges(cfg, st) && Begun(cfg, st, st', now) && st' != st
    ensures Regular(cfg, st') && Advanced(cfg, st.crds, st'.crds)
    ensures Diverges(cfg, st') <==>
            || (Matching(cfg, st) && Listed(cfg, st'.crds) && !(SecretKeys(cfg.Options()) <= st'.bundle.Keys))
            || (Observe(cfg, st') == Outdated && Exposed(cfg, st))
    ensures Observe(cfg, st) == Outdated && Exposed(cfg, st) ==>
            !NilChart(cfg, st.status) && !Listed(cfg, st.crds) && !Current(cfg, st.crds)
  {
    hide DryDigest;
    hide LookupDigest;
    hide Begun;
    hide Regular;
    hide Observe;
    hide Gone;
    hide NilChart;
    hide TakesSecrets;
    hide Listed;
    hide Current;
    hide Deploy.SecretsPresent;
    hide SecretKeys;
    NeededPositive(cfg, st);
    BegunKeeps(cfg, st, st', now);
    SecretsPresentIs(st'.bundle, cfg.Options());
  }

  /** The shortest such failure: the CRD is created, and nothing else, for a definition deployed before. */
  lemma FailedBeforeSecretsSticks(cfg: Config, st: State, beats: seq<Beat>)
    requires Regular(cfg, st) && Observe(cfg, st) == Absent
    requires Matching(cfg, st) && !Deploy.SecretsPresent(st.bundle, cfg.Options())
    ensures var st' := st.(crds := CrdsAfter(cfg, st.crds));
            Begun(cfg, st, st', "") && Stuck(cfg, st') && Observe(cfg, Rounds(cfg, st', beats)) != UpToDate
  {
    hide DryDigest;
    hide Regular;
    hide Rounds;
    hide Deploy.SecretsPresent;
    hide Bundle.Plan;
    hide CrdsAfter;
    hide PartlyDeployed;
    hide Listed;
    hide Current;
    RegularIsSane(cfg, st);
    var st' := st.(crds := CrdsAfter(cfg, st.crds));
    assert cfg.(ca := cfg.ca) == cfg;
    assert PartlyApplied(cfg, st.crds, st'.crds);
    AppliedAdvances(cfg, st.crds, cfg.ca);
    BegunKeeps(cfg, st, st', "");
    NeverConverges(cfg, st', beats);
  }

  // ---- after the digest is recorded ----

  lemma ReadAgain(cfg: Config, m: Bundle.Store, now: string, removed: set<Bundle.Key>, gone: set<Bundle.Key>, i: nat)
    requires Sane(cfg) && removed <= gone && i < |Bundle.Plan(cfg.Options())|
    ensures var items := Bundle.Plan(cfg.Options());
            var after := Deploy.Deployed(cfg.server, m, cfg.Options(), now) - removed;
            Bundle.ReadItem(Bundle.InstallAll(cfg.server, after, items) - gone, items[i])
            == Bundle.ReadItem(Bundle.InstallAll(cfg.server, m, items) - gone, items[i])
  {
    hide Bundle.Plan;
    hide Deploy.Deployed;
    hide Bundle.InstallAll;
    var o, item := cfg.Options(), Bundle.Plan(cfg.Options())[i];
    DeployFacts.RemovedItem(cfg.server, m, o, now, removed, i);
    DeployFacts.RemovedItem(cfg.server, m, o, now, gone, i);
    DeployFacts.RemovedItem(cfg.server, Deploy.Deployed(cfg.server, m, o, now) - removed, o, now, gone, i);
    AnswerKept(cfg.server, m, removed, item);
  }

  /** What a second update would leave after the removal was cut off is what the first would have left. */
  lemma RemovalGoesOn(cfg: Config, m: Bundle.Store, now: string, removed: set<Bundle.Key>, gone: set<Bundle.Key>)
    requires Sane(cfg) && removed <= gone
    ensures var items := Bundle.Plan(cfg.Options());
            var after := Deploy.Deployed(cfg.server, m, cfg.Options(), now) - removed;
            && DryDigest(cfg, after - gone) == DryDigest(cfg, m - gone)
            && LookupDigest(cfg, Bundle.InstallAll(cfg.server, after, items) - gone)
               == LookupDigest(cfg, Bundle.InstallAll(cfg.server, m, items) - gone)
  {
    hide Bundle.Plan;
    hide Deploy.Deployed;
    hide Deploy.SecretsPresent;
    hide SecretKeys;
    hide Bundle.InstallAll;
    hide Bundle.ReadItem;
    hide Sane;
    SaneIsEquipped(cfg);
    var o, items := cfg.Options(), Bundle.Plan(cfg.Options());
    var after := Deploy.Deployed(cfg.server, m, o, now) - removed;
    var again, once := Bundle.InstallAll(cfg.server, after, items) - gone,
                      Bundle.InstallAll(cfg.server, m, items) - gone;
    forall i | 0 <= i < |items| ensures Bundle.ReadItem(again, items[i]) == Bundle.ReadItem(once, items[i]) {
      ReadAgain(cfg, m, now, removed, gone, i);
    }
    DeployFacts.LookupStreamsAlike(again, once, items);
    RemovalDigests(cfg, m, now, gone);
    assert after - gone == Deploy.Deployed(cfg.server, m, o, now) - gone;
  }

  /**
   * An update that fails after recording its digest, with the objects `removed` of the superseded bundle
   * already gone: what `Observe` answers from then on, and whether the state diverges, read off the state before.
   */
  lemma FailedRemoval(cfg: Config, st: State, now: string, removed: set<Bundle.Key>, comps: Getters.Store)
    requires Regular(cfg, st) && Observe(cfg, st) == Outdated && removed <= Gone(cfg, st.status)
    ensures var kept, dry, o := Halted(cfg, st, now, removed, comps), DryDigest(cfg, st.bundle), cfg.Options();
            var listed := Listed(cfg, st.crds) || Current(cfg, st.crds);
            var unnoticed := DryDigest(cfg, st.bundle - removed) == dry;
            var read := LookupDigest(cfg, Bundle.InstallAll(cfg.server, st.bundle, Bundle.Plan(o)) - removed);
            && Regular(cfg, kept) && Gone(cfg, kept.status) == Gone(cfg, st.status)
            && NilChart(cfg, kept.status) == NilChart(cfg, st.status)
            && (Observe(cfg, kept) == Failed <==> listed && unnoticed && !(SecretKeys(o) !! removed))
            && (Observe(cfg, kept) == UpToDate <==> listed && unnoticed && SecretKeys(o) !! removed && read == dry)
            && Observe(cfg, kept) != Absent
            && (Diverges(cfg, kept) <==>
                || (listed && unnoticed && !(SecretKeys(o) !! removed))
                || (Observe(cfg, kept) == Outdated &&
                    if NilChart(cfg, st.status) then !(Unnoticed(cfg, st) && Intact(cfg, st))
                    else TakesSecrets(cfg, st.status) &&
                         DryDigest(cfg, st.bundle - Gone(cfg, st.status)) == DryDigest(cfg, st.bundle - removed)))
  {
    hide DryDigest;
    hide LookupDigest;
    hide Bundle.InstallAll;
    hide Bundle.Plan;
    hide Deploy.Deployed;
    hide Deploy.SecretsPresent;
    hide CrdsAfter;
    hide Gone;
    hide Sane;
    hide SecretKeys;
    hide Digested;
    hide Observe;
    hide GoodCrd;
    RegularIsSane(cfg, st);
    ObserveCases(cfg, st);
    var kept := Halted(cfg, st, now, removed, comps);
    CrdProgress(cfg, st.crds);
    DigestedIsDry(cfg, st);
    SameButDigest(cfg, st);
    RemovalDigests(cfg, st.bundle, now, removed);
    RemovalGoesOn(cfg, st.bundle, now, removed, Gone(cfg, st.status));
    ObserveCases(cfg, kept);
  }

  lemma SameButDigest(cfg: Config, st: State)
    requires cfg.Versioned()
    ensures var s' := Digested(cfg, st);
            && s' == st.status.(digest := s'.digest)
            && Gone(cfg, s') == Gone(cfg, st.status) && NilChart(cfg, s') == NilChart(cfg, st.status)
  {
    hide Bundle.Plan;
    hide Bundle.DeployStream;
    hide Hash.DigestOf;
    SupersededSame(cfg, st.status, Digested(cfg, st));
  }

  /**
   * `Update` records the digest before it moves the compositions. If moving them fails and the runtime keeps
   * that status, the move is made up for exactly unless the definition then counts as up to date or is stuck:
   * the version is listed, and the removal went unnoticed and either took a secret object or left all intact.
   */
  lemma FailedMoveIsForgotten(cfg: Config, st: State, now: string, comps: Getters.Store, beats: seq<Beat>)
    requires Regular(cfg, st) && Observe(cfg, st) == Outdated && !NilChart(cfg, st.status)
    requires Moves(cfg, st.status) && beats != []
    ensures var kept := UpdateSpec(cfg, st, now).(comps := comps, status := Digested(cfg, st));
            Rounds(cfg, kept, beats).comps ==
            if (Listed(cfg, st.crds) || Current(cfg, st.crds))
               && Unnoticed(cfg, st) && (TakesSecrets(cfg, st.status) || Intact(cfg, st))
            then comps else CompsAfter(cfg, kept)
  {
    hide DryDigest;
    hide LookupDigest;
    hide Bundle.InstallAll;
    hide Bundle.Plan;
    hide Regular;
    hide Observe;
    hide Rounds;
    hide Listed;
    hide Current;
    hide NilChart;
    hide CompsAfter;
    hide CrdsAfter;
    hide Gone;
    hide Digested;
    hide Deploy.Deployed;
    hide BundleAfter;
    hide SecretKeys;
    hide Status.Refreshed;
    NeededPositive(cfg, st);
    BundleAfterIs(cfg, st, now);
    SameButDigest(cfg, st);
    var gone := Gone(cfg, st.status);
    FailedRemoval(cfg, st, now, gone, comps);
    CompositionsFollow(cfg, Halted(cfg, st, now, gone, comps), beats);
  }

  /** A definition found up to date or stuck keeps its bundle as it is. */
  lemma {:induction false} BundleStays(cfg: Config, st: State, beats: seq<Beat>)
    requires Regular(cfg, st) && cfg.Versioned() && Observe(cfg, st) in {UpToDate, Failed}
    ensures Rounds(cfg, st, beats).bundle == st.bundle
    decreases |beats|
  {
    hide Regular;
    hide Observe;
    hide Round;
    if beats != [] {
      var b := beats[0];
      RegularIsSane(cfg, st);
      BundlesIgnored(cfg, b, st);
      var st' := Round(cfg.At(b), st, b.now);
      RoundIs(cfg.At(b), st, b.now);
      if Observe(cfg, st) == UpToDate {
        UpToDateStays(cfg.At(b), st, b.now);
      }
      AnyBundle(cfg, b, st');
      BundleStays(cfg, st', beats[1..]);
    }
  }

  /**
   * A removal that failed midway is taken up again exactly if the definition is outdated afterwards. If not,
   * what was left of the superseded bundle stays for ever.
   */
  lemma FailedRemovalIsForgotten(cfg: Config, st: State, now: string, removed: set<Bundle.Key>, comps: Getters.Store,
                                 beats: seq<Beat>)
    requires Regular(cfg, st) && Observe(cfg, st) == Outdated && removed <= Gone(cfg, st.status) && beats != []
    ensures var kept := Halted(cfg, st, now, removed, comps);
            var left := kept.bundle.Keys * (Gone(cfg, st.status) - Bundle.Keys(Bundle.Plan(cfg.Options())));
            if Observe(cfg, kept) == Outdated then left !! Rounds(cfg, kept, beats).bundle.Keys
            else left <= Rounds(cfg, kept, beats).bundle.Keys
  {
    hide DryDigest;
    hide LookupDigest;
    hide Bundle.InstallAll;
    hide Bundle.Plan;
    hide Bundle.Keys;
    hide Regular;
    hide Observe;
    hide Rounds;
    hide Listed;
    hide Current;
    hide NilChart;
    hide Gone;
    hide Halted;
    hide SecretKeys;
    hide Intact;
    hide Unnoticed;
    NeededPositive(cfg, st);
    var kept := Halted(cfg, st, now, removed, comps);
    FailedRemoval(cfg, st, now, removed, comps);
    if Observe(cfg, kept) == Outdated {
      SupersededGone(cfg, kept, beats);
    } else {
      BundleStays(cfg, kept, beats);
    }
  }

  // ---- runs of failing rounds ----

  lemma EitherStatus(cfg: Config, st: State, st': State)
    requires Regular(cfg, st) && Regular(cfg, st')
    ensures Regular(cfg, st'.(status := st.status))
  {
  }

  lemma FalteringStaysRegular(cfg: Config, st: State, st': State, now: string)
    requires Regular(cfg, st) && cfg.Versioned() && Faltering(cfg, st, st', now)
    ensures Regular(cfg, st')
  {
    hide Regular;
    hide Observe;
    hide Round;
    hide Begun;
    hide Halted;
    hide Gone;
    hide DryDigest;
    hide LookupDigest;
    hide Bundle.InstallAll;
    hide Bundle.Plan;
    hide Diverges;
    if st' == Round(cfg, st, now) {
      if Diverges(cfg, st) {
        DivergesStays(cfg, st, now);
      } else if Observe(cfg, st) == UpToDate {
        UpToDateStays(cfg, st, now);
      } else {
        RoundProgress(cfg, st, now);
      }
    } else if Begun(cfg, st, st', now) {
      BegunKeeps(cfg, st, st', now);
    } else if st' != st {
      var removed, comps, kept :|
        removed <= Gone(cfg, st.status) && st' == StatusKept(kept, st, Halted(cfg, st, now, removed, comps));
      FailedRemoval(cfg, st, now, removed, comps);
      EitherStatus(cfg, st, Halted(cfg, st, now, removed, comps));
    }
  }

  lemma FalteringKeepsCharts(cfg: Config, st: State, st': State, now: string)
    requires Regular(cfg, st) && cfg.Versioned() && Faltering(cfg, st, st', now) && !NilChart(cfg, st.status)
    ensures !NilChart(cfg, st'.status)
  {
    hide Begun;
    hide Regular;
    hide Observe;
    hide DryDigest;
    hide LookupDigest;
    hide Bundle.InstallAll;
    hide Bundle.Plan;
    hide Status.Refreshed;
    hide CrdsAfter;
    hide BundleAfter;
    hide CompsAfter;
    hide Deploy.Deployed;
    hide Digested;
    hide Gone;
    NeededPositive(cfg, st);
    SameButDigest(cfg, st);
    if st' == Round(cfg, st, now) {
      RoundKeepsCharts(cfg, st, now);
    } else if st' != st && Begun(cfg, st, st', now) {
      BegunStatus(cfg, st, st', now);
    }
  }

  lemma BegunStatus(cfg: Config, st: State, st': State, now: string)
    requires cfg.Versioned() && Begun(cfg, st, st', now)
    ensures st'.status == st.status
  {
  }

  lemma RoundKeepsCharts(cfg: Config, st: State, now: string)
    requires cfg.Versioned() && !NilChart(cfg, st.status)
    ensures !NilChart(cfg, Round(cfg, st, now).status)
  {
    hide DryDigest;
    hide LookupDigest;
    hide Bundle.InstallAll;
    hide Bundle.Plan;
    hide Status.Refreshed;
    hide CrdsAfter;
    hide BundleAfter;
    hide CompsAfter;
    hide Deploy.Deployed;
    hide Deploy.SecretsPresent;
    hide Digested;
    SameButDigest(cfg, st);
    RefreshKeepsDigest(Digested(cfg, st), cfg.gen, cfg.Gvr(), cfg.gen.kind, cfg.chart, cfg.packageURL);
    if Observe(cfg, st) == UpToDate {
      var crd := st.crds[CrdClient.KeyOf(cfg.gen)];
      RefreshKeepsDigest(st.status, crd, cfg.Gvr(), cfg.gen.kind, cfg.chart, cfg.packageURL);
    }
  }

  /** Without a credentials secret only a nil chart keeps a definition from converging. */
  lemma SecretlessConverges(cfg: Config, st: State)
    requires Regular(cfg, st) && cfg.Versioned() && cfg.chart.credentials.None? && !NilChart(cfg, st.status)
    ensures !Diverges(cfg, st)
  {
    hide DryDigest;
    hide LookupDigest;
    hide Bundle.InstallAll;
    hide Bundle.Plan;
    hide Observe;
    hide Gone;
    hide NilChart;
  }

  /** Each state comes from the one before by a round that may have been cut off anywhere. */
  ghost predicate FailingRun(cfg: Config, states: seq<State>, beats: seq<Beat>)
    requires cfg.Versioned()
  {
    && |states| == |beats| + 1
    && forall i :: 0 <= i < |beats| ==> Faltering(cfg.At(beats[i]), states[i], states[i + 1], beats[i].now)
  }

  lemma OneMoreTry(cfg: Config, states: seq<State>, beats: seq<Beat>, st: State, b: Beat)
    requires cfg.Versioned() && FailingRun(cfg, states, beats)
    requires Faltering(cfg.At(b), states[|beats|], st, b.now)
    ensures FailingRun(cfg, states + [st], beats + [b])
  {
    hide Faltering;
  }

  /** What every round of such a run keeps. */
  lemma FalteringKeeps(cfg: Config, b: Beat, st: State, st': State)
    requires Regular(cfg, st) && cfg.Versioned() && Faltering(cfg.At(b), st, st', b.now)
    ensures Regular(cfg, st') && (!NilChart(cfg, st.status) ==> !NilChart(cfg, st'.status))
  {
    hide Regular;
    hide NilChart;
    hide Faltering;
    hide Diverges;
    hide Observe;
    RegularIsSane(cfg, st);
    BundlesIgnored(cfg, b, st);
    StatusIgnores(cfg, b, st.status);
    StatusIgnores(cfg, b, st'.status);
    FalteringStaysRegular(cfg.At(b), st, st', b.now);
    if !NilChart(cfg, st.status) {
      FalteringKeepsCharts(cfg.At(b), st, st', b.now);
    }
    AnyBundle(cfg, b, st');
  }

  lemma {:induction false} FailingRunsKeep(cfg: Config, states: seq<State>, beats: seq<Beat>)
    requires cfg.Versioned() && FailingRun(cfg, states, beats) && Regular(cfg, states[0])
    ensures Regular(cfg, states[|beats|])
    ensures !NilChart(cfg, states[0].status) ==> !NilChart(cfg, states[|beats|].status)
    decreases |beats|
  {
    hide Regular;
    hide NilChart;
    hide Faltering;
    if beats != [] {
      FalteringKeeps(cfg, beats[0], states[0], states[1]);
      FailingRunsKeep(cfg, states[1..], beats[1..]);
    }
  }

  /**
   * Over every run of rounds that fail anywhere: once the failures stop, any two rounds bring the definition up
   * to date exactly if the state reached does not diverge; and without a credentials secret and with a chart
   * recorded for the superseded version, it never does.
   */
  lemma FailingRuns(cfg: Config, states: seq<State>, beats: seq<Beat>)
    requires cfg.Versioned() && FailingRun(cfg, states, beats) && Regular(cfg, states[0])
    ensures var last := states[|beats|];
            && Regular(cfg, last)
            && (!Diverges(cfg, last) <==>
                forall later: seq<Beat> :: |later| >= 2 ==> Observe(cfg, Rounds(cfg, last, later)) == UpToDate)
            && (cfg.chart.credentials.None? && !NilChart(cfg, states[0].status) ==> !Diverges(cfg, last))
  {
    hide Regular;
    hide Diverges;
    hide Observe;
    hide Rounds;
    hide NilChart;
    hide FailingRun;
    LastState(cfg, states, beats);
    var last := states[|beats|];
    FailingRunsKeep(cfg, states, beats);
    ConvergesIff(cfg, last);
    if cfg.chart.credentials.None? && !NilChart(cfg, last.status) {
      SecretlessConverges(cfg, last);
    }
  }

  lemma LastState(cfg: Config, states: seq<State>, beats: seq<Beat>)
    requires cfg.Versioned() && FailingRun(cfg, states, beats)
    ensures |states| == |beats| + 1
  {
  }
}
