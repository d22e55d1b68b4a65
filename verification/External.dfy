/**
 * internal/controllers/compositiondefinitions/compositiondefinitions.go: `Observe`, `Create` and `Update` of
 * one definition, each request with its own failure, tied to the state machine of `Reconcile`.
 */
module External {
  import opened Wrappers
  import opened Reconcile
  import Bundle
  import CertManager
  import CertPropagation
  import Convergence
  import CrdClient
  import CrdFacts
  import Deploy
  import Failures
  import Generation
  import Getters
  import Hash
  import Kube
  import Status

  datatype Error =
    | OnCrd(c: CrdClient.CrdError)
    | OnStatus(g: Generation.Error)
    | OnCertificates(f: CertManager.Failure)
    | OnBundle(b: Bundle.Error)
    | OnCompositions(e: Kube.ApiError)
    | OnMapping(m: Kube.ApiError)
    | NilDereference

  /** How one round goes: what fails, and whether the status survives a failed update. */
  datatype Try = Try(now: string, established: bool, rotation: CertManager.Rotation,
                     firstReady: bool, secondReady: bool,
                     kept: bool)

  class External {
    const kube: Deploy.Client
    const crds: Deploy.CrdStore
    const comps: Getters.Compositions
    const manager: CertManager.Manager
    const cr: Status.CompositionDefinition
    const gen: Generation.Spec
    const packageURL: string
    const templates: Bundle.Templates
    const schema: string
    const serviceNamespace: string
    const serviceName: string

    constructor (kube: Deploy.Client, crds: Deploy.CrdStore, comps: Getters.Compositions, manager: CertManager.Manager,
                 cr: Status.CompositionDefinition, gen: Generation.Spec, packageURL: string,
                 templates: Bundle.Templates, schema: string, serviceNamespace: string, serviceName: string)
      ensures this.kube == kube && this.crds == crds && this.comps == comps && this.manager == manager && this.cr == cr
      ensures this.gen == gen && this.packageURL == packageURL && this.templates == templates && this.schema == schema
      ensures this.serviceNamespace == serviceNamespace && this.serviceName == serviceName
    {
      this.kube, this.crds, this.comps, this.manager, this.cr := kube, crds, comps, manager, cr;
      this.gen, this.packageURL, this.templates, this.schema := gen, packageURL, templates, schema;
      this.serviceNamespace, this.serviceName := serviceNamespace, serviceName;
    }

    function Opts(): CrdClient.ApplyOpts
      reads manager
    {
      CrdClient.ApplyOpts(manager.caBundle, serviceNamespace, serviceName)
    }

    /** `ca` is the bundle handed out after the CRD has been applied. */
    ghost function Cfg(ca: string): Config
      reads manager
    {
      Config(gen, cr.ns, cr.chart, packageURL, templates, schema, Opts(), ca, kube.server)
    }

    function Gvr(): Bundle.GVR
      requires gen.versions != []
    {
      Bundle.GVR(gen.group, gen.versions[0].name, gen.plural)
    }

    function BundleOptions(): Bundle.Options
      requires gen.versions != []
    {
      Bundle.Options(Gvr(), cr.ns, cr.chart.credentials, templates, schema)
    }

    ghost function Now(): State
      reads kube, crds, comps, cr
    {
      State(crds.Objects(), kube.Objects(), comps.Objects(), cr.status)
    }

    /** A generated CRD, a good one in the store, and a manager for the same store. */
    ghost predicate Trusting()
      reads crds, manager.hooks
    {
      && manager.crds == crds && manager.Ready()
      && CrdClient.Generated(gen) && GoodCrd(gen, crds.Objects())
    }

    /** Objects that share nothing, and no other writer. */
    ghost predicate Ready()
      reads kube, crds, comps, cr, manager.hooks
    {
      && kube as object !in {crds, comps, manager, manager.hooks, cr}
      && crds as object !in {comps, manager, manager.hooks, cr}
      && comps as object !in {manager, manager.hooks, cr}
      && cr as object !in {manager, manager.hooks}
      && Trusting()
      && Kube.Quiet(kube.world) && Kube.Stable(kube.server)
      && Kube.Quiet(comps.world) && Kube.Fresh(comps.world)
      && Status.Unique(cr.status.versionInfo)
    }

    /** No request will fail. */
    ghost predicate Calm()
      reads kube, crds, comps, manager.hooks
    {
      Kube.Smooth(kube.world) && Kube.Smooth(crds.world) && Kube.Smooth(comps.world) && Kube.Smooth(manager.hooks.world)
    }

    /** All templates are there; the service is optional. */
    ghost predicate Complete()
    {
      (forall f :: f != Bundle.ServiceFile ==> f in templates.files) && manager.render.Some?
    }

    /** A well-formed bundle is there after the rotation, and all that a conversion webhook needs before it. */
    ghost predicate Certified(rotation: CertManager.Rotation)
      reads manager
    {
      && manager.caBundle.Some? && serviceName != "" && serviceNamespace != ""
      && match rotation
         case StillValid => CertPropagation.Formatted(manager.caBundle.value)
         case Renewed(ca) => CertPropagation.Formatted(ca)
         case RotationFailed => false
    }

    /** The manager hands out this bundle, and it is well-formed. */
    ghost predicate Holds(ca: string)
      reads manager
    {
      manager.caBundle == Some(ca) && CertPropagation.Formatted(ca)
    }

    // ---- the CRD and its certificates ----

    method ApplyCRD(established: bool, rotation: CertManager.Rotation) returns (err: Option<Error>, ca: string)
      requires Trusting()
      modifies crds, manager, manager.hooks
      ensures Trusting()
      ensures err.None? ==>
                && Some(ca) == (if rotation.Renewed? then Some(rotation.ca) else old(manager.caBundle))
                && CertPropagation.Formatted(ca) && manager.caBundle == Some(ca)
                && crds.Objects() == CrdsAfter(old(Cfg(ca)), old(crds.Objects()))
      ensures Failures.PartlyApplied(old(Cfg("")), old(crds.Objects()), crds.Objects())
      ensures old(manager.caBundle).Some? ==> manager.caBundle.Some?
      ensures err.Some? ==> err.value.OnCrd? || err.value.OnCertificates?
      ensures (&& old(Kube.Smooth(crds.world)) && old(Kube.Smooth(manager.hooks.world))
               && established && old(Certified(rotation)) && manager.render.Some?)
              ==> Kube.Smooth(crds.world) && Kube.Smooth(manager.hooks.world) && err.None?
    {
      hide Kube.View;
      hide Kube.Smooth;
      hide CertPropagation.Formatted;
      hide CertPropagation.AfterCrd;
      hide CertPropagation.Faithful;
      hide CrdClient.Decided;
      hide Applied;
      hide Failures.PartlyApplied;
      ca := "";
      ghost var before, opts := crds.Objects(), Opts();
      AppliedIsGood(gen, opts, before);
      NeverFails(gen, opts, before);
      PartlyRotated(Cfg(""), before);
      err := ApplyOnly(established);
      if err.Some? {
        return;
      }
      var failed := manager.ManageCertificates(rotation, CrdClient.KeyOf(gen));
      if failed.Some? {
        return Some(OnCertificates(failed.value)), ca;
      }
      ca := manager.caBundle.value;
      CrdsAfterRotation(Cfg(ca).(opts := opts), before);
      err := None;
    }

    lemma CrdsAfterRotation(cfg: Config, before: CrdClient.Crds)
      requires cfg.Versioned()
      ensures CrdsAfter(cfg, before)
           == CertPropagation.AfterCrd(Applied(cfg.gen, cfg.opts, before), CrdClient.KeyOf(cfg.gen), cfg.ca)
    {
    }

    lemma PartlyRotated(cfg: Config, before: CrdClient.Crds)
      requires cfg.Versioned()
      ensures var applied := Applied(cfg.gen, cfg.opts, before);
              && Failures.PartlyApplied(cfg, before, before) && Failures.PartlyApplied(cfg, before, applied)
              && forall ca ::
                   Failures.PartlyApplied(cfg, before, CertPropagation.AfterCrd(applied, CrdClient.KeyOf(cfg.gen), ca))
    {
      hide CrdsAfter;
      hide Applied;
      forall ca
        ensures Failures.PartlyApplied(cfg, before,
                  CertPropagation.AfterCrd(Applied(cfg.gen, cfg.opts, before), CrdClient.KeyOf(cfg.gen), ca))
      {
        CrdsAfterRotation(cfg.(ca := ca), before);
      }
    }

    method ApplyOnly(established: bool) returns (err: Option<Error>)
      requires Trusting()
      modifies crds
      ensures Kube.Quiet(crds.world) && (err.Some? ==> err.value.OnCrd?)
      ensures crds.Objects() == Applied(gen, Opts(), old(crds.Objects()))
           || (err.Some? && crds.Objects() == old(crds.Objects()))
      ensures err.None? ==> crds.Objects() == Applied(gen, Opts(), old(crds.Objects()))
      ensures old(Kube.Smooth(crds.world)) && established ==>
                Kube.Smooth(crds.world) && (err.None? <==> !CrdClient.Decided(old(crds.Objects()), gen, Opts()).Fail?)
    {
      hide Kube.View;
      hide CrdClient.Decided;
      var failed := CrdClient.ApplyOrUpdateCRD(crds, gen, Opts(), established);
      err := if failed.Some? then Some(OnCrd(failed.value)) else None;
    }

    // ---- Observe ----

    /** The comparison of the stored CRD's status with the generated one's. */
    function StatusAgainst(there: CrdClient.Crds): Result<bool, Generation.Error>
      requires CrdClient.KeyOf(gen) in there
    {
      Generation.StatusesEqual(there[CrdClient.KeyOf(gen)].versions, gen.versions)
    }

    /**
     * The CRD part of `Observe`: an answer, or the CRD if it lists the version with the right status. The
     * existing compositions are listed only to be logged.
     */
    method ObserveCrd() returns (r: Result<Option<Observation>, Error>, crd: Generation.Spec)
      requires gen.versions != []
      requires Kube.Quiet(crds.world) && Kube.Quiet(comps.world) && Kube.Fresh(comps.world)
      requires comps as object != crds as object
      modifies crds, comps
      ensures Kube.Quiet(crds.world) && Kube.Quiet(comps.world) && Kube.Fresh(comps.world)
      ensures crds.Objects() == old(crds.Objects()) && comps.Objects() == old(comps.Objects())
      ensures var there, key := old(crds.Objects()), CrdClient.KeyOf(gen);
              match r
              case Err(_) => true
              case Ok(Some(o)) =>
                || (o == Absent && key !in there)
                || (o == Outdated && key in there && (Listed(Cfg(""), there) ==> StatusAgainst(there) == Ok(false)))
              case Ok(None) => Listed(Cfg(""), there) && Current(Cfg(""), there) && crd == there[key]
      ensures old(Kube.Smooth(crds.world) && Kube.Smooth(comps.world)) ==>
                && Kube.Smooth(crds.world) && Kube.Smooth(comps.world)
                && (r.Err? <==> var there := old(crds.Objects()); Listed(Cfg(""), there) && StatusAgainst(there).Err?)
    {
      hide Kube.View;
      hide CertPropagation.Faithful;
      var key := CrdClient.KeyOf(gen);
      crd := gen;
      var got := CrdClient.Get(crds, key);
      if got.Err? {
        return Err(OnCrd(got.error)), crd;
      }
      if got.value.None? {
        return Ok(Some(Absent)), crd;
      }
      crd := got.value.value;
      var listed := CrdClient.Lookup(crds, key, gen.versions[0].name);
      if listed.Err? {
        return Err(OnCrd(listed.error)), crd;
      }
      if !listed.value {
        return Ok(Some(Outdated)), crd;
      }
      var equal := Generation.StatusEqual(crd, gen);
      if equal.Err? {
        return Err(OnStatus(equal.error)), crd;
      }
      if !equal.value {
        return Ok(Some(Outdated)), crd;
      }
      var found := comps.GetCompositions(gen.versions[0].name);
      if found.Err? {
        return Err(OnCompositions(found.error)), crd;
      }
      r := Ok(None);
    }

    method DryRun() returns (r: Result<Hash.Word, Error>)
      requires gen.versions != [] && Kube.Quiet(kube.world) && Kube.Stable(kube.server)
      modifies kube
      ensures Kube.Quiet(kube.world) && kube.Objects() == old(kube.Objects())
      ensures r.Ok? ==> r.value == DryDigest(Cfg(""), kube.Objects())
      ensures old(Kube.Smooth(kube.world)) && Complete() ==> Kube.Smooth(kube.world) && r.Ok?
    {
      hide Kube.View;
      hide Bundle.Plan;
      hide Bundle.DeployStream;
      hide Hash.DigestOf;
      hide Kube.Stable;
      hide Deploy.Deployed;
      hide Deploy.Stopped;
      var dig := Deploy.Deploy(kube, BundleOptions(), true, false, false, "");
      r := if dig.Ok? then Ok(dig.value) else Err(OnBundle(dig.error));
    }

    /** The bundle part of `Observe`: whether a dry run and a read-back both give the recorded digest. */
    method ObserveBundle() returns (r: Result<bool, Error>)
      requires gen.versions != [] && Kube.Quiet(kube.world) && Kube.Stable(kube.server)
      modifies kube
      ensures Kube.Quiet(kube.world) && kube.Objects() == old(kube.Objects())
      ensures var m, cfg := old(kube.Objects()), Cfg("");
              && (r.Ok? ==> (r.value <==> cr.status.digest == Some(DryDigest(cfg, m)) == Some(LookupDigest(cfg, m))))
              && (r.Ok? && cr.status.digest == Some(DryDigest(cfg, m)) ==> Deploy.SecretsPresent(m, BundleOptions()))
              && (old(Kube.Smooth(kube.world)) && Complete() ==>
                    && Kube.Smooth(kube.world)
                    && (r.Err? <==>
                        cr.status.digest == Some(DryDigest(cfg, m)) && !Deploy.SecretsPresent(m, BundleOptions())))
    {
      hide DryDigest;
      hide Kube.View;
      hide Bundle.Plan;
      hide Deploy.SecretsPresent;
      var dig := DryRun();
      if dig.Err? {
        return Err(dig.error);
      }
      if cr.status.digest != Some(dig.value) {
        return Ok(false);
      }
      var deployed := Deploy.Lookup(kube, BundleOptions());
      if deployed.Err? {
        return Err(OnBundle(deployed.error));
      }
      if cr.status.digest != Some(deployed.value) {
        return Ok(false);
      }
      r := Ok(true);
    }

    /**
     * `unresolved` is the error of looking up the resource of the chart's kind, if there is one; when it is
     * only missing, the generated CRD says what it will be called. A deleted definition whose kind does not
     * resolve counts as gone.
     */
    method Observe(deleted: bool, unresolved: Option<Kube.ApiError>) returns (r: Result<Observation, Error>)
      requires Ready()
      modifies kube, crds, comps, cr
      ensures Ready()
      ensures unresolved.Some? && deleted ==> r == Ok(Absent) && Now() == old(Now())
      ensures unresolved.Some? && !deleted && unresolved != Some(Kube.NotFound) ==>
                r == Err(OnMapping(unresolved.value)) && Now() == old(Now())
      ensures unresolved.None? || (unresolved == Some(Kube.NotFound) && !deleted) ==>
                && (r.Ok? ==>
                      && r.value == Reconcile.Observe(Cfg(""), old(Now())) && r.value != Failed
                      && Now() == old(Now()).(status := Observed(Cfg(""), old(Now()))))
                && (old(Calm()) && Complete() ==> (r.Err? <==> Reconcile.Observe(Cfg(""), old(Now())) == Failed))
      ensures r.Err? ==> Now() == old(Now())
      ensures old(Calm()) && Complete() ==> Calm()
    {
      hide Kube.View;
      hide Kube.Smooth;
      hide DryDigest;
      hide LookupDigest;
      hide Deploy.SecretsPresent;
      hide GoodCrd;
      hide CertPropagation.Faithful;
      hide Complete;
      hide Status.Refreshed;
      if unresolved.Some? {
        if deleted {
          return Ok(Absent);
        }
        if unresolved.value != Kube.NotFound {
          return Err(OnMapping(unresolved.value));
        }
      }
      var seen, crd := ObserveCrd();
      if seen.Err? {
        return Err(seen.error);
      }
      if seen.value.Some? {
        return Ok(seen.value.value);
      }
      var same := ObserveBundle();
      if same.Err? {
        return Err(same.error);
      }
      if !same.value {
        return Ok(Outdated);
      }
      RefreshKeepsDigest(cr.status, crd, Gvr(), gen.kind, cr.chart, packageURL);
      cr.RefreshCompositionDefinitionStatus(crd, Gvr(), gen.kind, packageURL);
      r := Ok(UpToDate);
    }

    // ---- Create ----

    /** The real deployment; its digest is recorded on success only. */
    method DeployBundle(firstReady: bool, secondReady: bool, now: string) returns (err: Option<Error>)
      requires gen.versions != [] && Kube.Quiet(kube.world) && Kube.Stable(kube.server)
      modifies kube, cr
      ensures Kube.Quiet(kube.world)
      ensures err.None? ==>
                && kube.Objects() == Deploy.Deployed(kube.server, old(kube.Objects()), BundleOptions(), now)
                && cr.status == Digested(Cfg(""), old(Now()))
      ensures err.Some? ==>
                && err.value.OnBundle?
                && cr.status == old(cr.status)
                && Failures.PartlyDeployed(Cfg(""), old(kube.Objects()), kube.Objects(), now)
      ensures old(Kube.Smooth(kube.world)) && Complete() && firstReady && secondReady ==>
                Kube.Smooth(kube.world) && err.None?
    {
      hide Kube.View;
      hide Bundle.Plan;
      hide Bundle.DeployStream;
      hide Hash.DigestOf;
      hide Kube.Stable;
      hide Deploy.Deployed;
      hide Deploy.Stopped;
      var dig := Deploy.Deploy(kube, BundleOptions(), false, firstReady, secondReady, now);
      if dig.Err? {
        return Some(OnBundle(dig.error));
      }
      cr.status := cr.status.(digest := Some(dig.value));
      err := None;
    }

    /** What `Create` and `Update` begin with. `ca` is the CA bundle in use afterwards. */
    method ApplyAndDeploy(established: bool, rotation: CertManager.Rotation, firstReady: bool, secondReady: bool,
                          now: string) returns (err: Option<Error>, ca: string)
      requires Ready()
      modifies kube, crds, manager, manager.hooks, cr
      ensures Ready()
      ensures err.None? ==> Now() == CreateSpec(old(Cfg(ca)), old(Now()), now)
      ensures err.None? ==> Holds(ca)
      ensures err.Some? ==> Failures.Begun(old(Cfg(ca)), old(Now()), Now(), now)
      ensures old(manager.caBundle).Some? ==> manager.caBundle.Some?
      ensures err != Some(NilDereference)
      ensures (&& old(Calm()) && old(Certified(rotation)) && Complete()
               && established && firstReady && secondReady) ==> Calm() && err.None?
    {
      hide Kube.View;
      hide Kube.Smooth;
      hide CertPropagation.Formatted;
      hide CertPropagation.Faithful;
      hide GoodCrd;
      hide CrdsAfter;
      hide Failures.PartlyApplied;
      hide Failures.PartlyDeployed;
      hide Deploy.Deployed;
      hide Bundle.Plan;
      ghost var before := Now();
      err, ca := ApplyCRD(established, rotation);
      AppliedBegins(old(Cfg("")), before, Now(), ca, now);
      if err.Some? {
        return;
      }
      ghost var applied := Now();
      err := DeployBundle(firstReady, secondReady, now);
      if err.Some? {
        DeploymentBegins(old(Cfg(ca)), Cfg(""), before, applied, Now(), now);
      }
    }

    lemma AppliedBegins(cfg: Config, before: State, after: State, ca: string, now: string)
      requires cfg.Versioned() && after == before.(crds := after.crds)
      requires Failures.PartlyApplied(cfg, before.crds, after.crds)
      ensures Failures.Begun(cfg.(ca := ca), before, after, now)
    {
      hide CrdsAfter;
    }

    lemma DeploymentBegins(cfg: Config, cfg': Config, before: State, applied: State, after: State, now: string)
      requires cfg.Versioned() && cfg' == cfg.(opts := cfg'.opts, ca := cfg'.ca)
      requires applied == before.(crds := CrdsAfter(cfg, before.crds)) && after == applied.(bundle := after.bundle)
      requires Failures.PartlyDeployed(cfg', before.bundle, after.bundle, now)
      ensures Failures.Begun(cfg, before, after, now)
    {
      hide CrdsAfter;
      hide Bundle.Plan;
      hide Deploy.Deployed;
      assert cfg.(ca := cfg.ca) == cfg;
    }

    method Create(established: bool, rotation: CertManager.Rotation, firstReady: bool, secondReady: bool, now: string)
      returns (err: Option<Error>, ca: string)
      requires Ready()
      modifies kube, crds, manager, manager.hooks, cr
      ensures Ready()
      ensures err.None? ==> Now() == CreateSpec(old(Cfg(ca)), old(Now()), now)
      ensures err.None? ==> Holds(ca)
      ensures err.Some? ==> Failures.Begun(old(Cfg(ca)), old(Now()), Now(), now)
      ensures old(manager.caBundle).Some? ==> manager.caBundle.Some?
      ensures (&& old(Calm()) && old(Certified(rotation)) && Complete()
               && established && firstReady && secondReady) ==> Calm() && err.None?
    {
      err, ca := ApplyAndDeploy(established, rotation, firstReady, secondReady, now);
    }

    // ---- Update ----

    /**
     * The loop over the recorded versions: the bundle of the version last applied is removed. A nil chart
     * is dereferenced after everything but the secret objects is gone.
     */
    method UndeploySuperseded() returns (err: Option<Error>)
      requires gen.versions != [] && Status.Unique(cr.status.versionInfo)
      requires Kube.Quiet(kube.world) && Kube.Quiet(crds.world) && kube as object != crds as object
      requires cr as object !in {kube, crds}
      modifies kube, crds
      ensures Kube.Quiet(kube.world) && Kube.Quiet(crds.world) && crds.Objects() == old(crds.Objects())
      ensures err.None? || err == Some(NilDereference) ==>
                && (err.Some? <==> NilChart(Cfg(""), cr.status))
                && kube.Objects() == if Superseded(Cfg(""), cr.status).Some?
                                     then Without(old(kube.Objects()), Retired(Cfg(""), cr.status))
                                     else old(kube.Objects())
      ensures err.Some? && Superseded(Cfg(""), cr.status).None? ==> kube.Objects() == old(kube.Objects())
      ensures err.Some? && Superseded(Cfg(""), cr.status).Some? ==>
                Deploy.PartlyGone(old(kube.Objects()), kube.Objects(), Deploy.RemovalKeys(Retired(Cfg(""), cr.status)))
      ensures old(Kube.Smooth(kube.world) && Kube.Smooth(crds.world)) && Complete() ==>
                && Kube.Smooth(kube.world) && Kube.Smooth(crds.world)
                && (err.None? || err == Some(NilDereference))
    {
      hide Kube.View;
      hide Deploy.RemovalKeys;
      hide Deploy.Removed;
      err := None;
      if (cr.status.group, cr.status.version, cr.status.kind) == (gen.group, gen.versions[0].name, gen.kind) {
        return;
      }
      ghost var at := Status.Find(cr.status.versionInfo, cr.status.version);
      ghost var due := cr.status.kind == cr.status.managedKind;
      for i := 0 to |cr.status.versionInfo|
        invariant unchanged(cr) && err.None?
        invariant Kube.Quiet(kube.world) && Kube.Quiet(crds.world) && crds.Objects() == old(crds.Objects())
        invariant !(due && at < i) ==> kube.Objects() == old(kube.Objects())
        invariant due && at < i ==>
                    && !NilChart(Cfg(""), cr.status)
                    && kube.Objects() == Without(old(kube.Objects()), Retired(Cfg(""), cr.status))
        invariant old(Kube.Smooth(kube.world) && Kube.Smooth(crds.world)) && Complete() ==>
                    Kube.Smooth(kube.world) && Kube.Smooth(crds.world)
      {
        if cr.status.kind == cr.status.managedKind && cr.status.version == cr.status.versionInfo[i].version {
          assert i == at;
          err := UndeployVersion(cr.status.versionInfo[i]);
          if err.Some? {
            return;
          }
        }
      }
    }

    method UndeployVersion(detail: Status.VersionDetail) returns (err: Option<Error>)
      requires Kube.Quiet(kube.world) && Kube.Quiet(crds.world) && kube as object != crds as object
      modifies kube, crds
      ensures Kube.Quiet(kube.world) && Kube.Quiet(crds.world) && crds.Objects() == old(crds.Objects())
      ensures var o := OldOptions(detail);
              && (err.None? || err == Some(NilDereference) ==>
                    (err.Some? <==> detail.chart.None?) && kube.Objects() == Without(old(kube.Objects()), o))
              && (err.Some? ==> Deploy.PartlyGone(old(kube.Objects()), kube.Objects(), Deploy.RemovalKeys(o)))
              && (old(Kube.Smooth(kube.world) && Kube.Smooth(crds.world)) && Complete() ==>
                    && Kube.Smooth(kube.world) && Kube.Smooth(crds.world)
                    && (err.None? || err == Some(NilDereference)))
    {
      hide Kube.View;
      hide Deploy.RemovalKeys;
      hide Deploy.Removed;
      var failed := Deploy.Undeploy(kube, crds, OldOptions(detail), true);
      if failed.Some? {
        return Some(OnBundle(failed.value));
      }
      err := if detail.chart.None? then Some(NilDereference) else None;
    }

    function OldOptions(detail: Status.VersionDetail): Bundle.Options
      reads cr
    {
      Bundle.Options(Bundle.GVR(cr.status.group, cr.status.version, cr.status.resource), cr.ns,
                     if detail.chart.Some? then detail.chart.value.credentials else None, templates, "")
    }

    /** The compositions of the old version are moved if nothing but the version has changed. */
    method MoveCompositions() returns (err: Option<Error>)
      requires gen.versions != [] && Kube.Quiet(comps.world) && Kube.Fresh(comps.world)
      requires cr as object != comps as object
      modifies comps
      ensures Kube.Quiet(comps.world) && Kube.Fresh(comps.world)
      ensures err.None? ==> comps.Objects() == CompsAfter(Cfg(""), old(Now()))
      ensures err.Some? ==> err.value.OnCompositions?
      ensures err.Some? ==>
                exists ks :: (&& ks <= Getters.Carrying(old(comps.Objects()), cr.status.version)
                              && comps.Objects() == Getters.RelabelSet(old(comps.Objects()), ks, gen.versions[0].name))
      ensures old(Kube.Smooth(comps.world)) ==> Kube.Smooth(comps.world) && err.None?
    {
      hide Kube.View;
      hide Getters.Settled;
      hide Getters.Carrying;
      hide Getters.RelabelSet;
      err := None;
      if cr.status.version != gen.versions[0].name && cr.status.kind == gen.kind && cr.status.group == gen.group {
        ghost var listed, written;
        var failed;
        failed, listed, written := comps.UpdateCompositionsVersion(cr.status.version, gen.versions[0].name);
        err := if failed.Some? then Some(OnCompositions(failed.value)) else None;
      }
    }

    /** What `Update` goes on with after the deployment. */
    method FinishUpdate() returns (err: Option<Error>)
      requires Ready()
      modifies kube, crds, comps, cr
      ensures Ready() && crds.Objects() == old(crds.Objects())
      ensures err.None? ==> !NilChart(Cfg(""), old(cr.status)) && Now() == FinishSpec(Cfg(""), old(Now()))
      ensures err == Some(NilDereference) ==>
                && NilChart(Cfg(""), old(cr.status))
                && Now() == old(Now()).(bundle := WithoutSuperseded(Cfg(""), old(Now())))
      ensures err.Some? ==> Failures.PartlyFinished(Cfg(""), old(Now()), Now())
      ensures old(Calm()) && Complete() ==>
                Calm() && (if NilChart(Cfg(""), old(cr.status)) then err == Some(NilDereference) else err.None?)
    {
      hide Kube.View;
      hide Kube.Smooth;
      hide CertPropagation.Faithful;
      hide GoodCrd;
      hide Superseded;
      hide Retired;
      hide Getters.Carrying;
      hide Getters.RelabelSet;
      hide Status.Refreshed;
      hide Deploy.PartlyGone;
      hide Without;
      ghost var before := Now();
      err := UndeploySuperseded();
      if err.Some? {
        return;
      }
      ghost var undeployed := Now();
      assert undeployed == before.(bundle := WithoutSuperseded(Cfg(""), before));
      err := MoveCompositions();
      if err.Some? {
        return;
      }
      RefreshKeepsDigest(cr.status, gen, Gvr(), gen.kind, cr.chart, packageURL);
      cr.RefreshCompositionDefinitionStatus(gen, Gvr(), gen.kind, packageURL);
      err := None;
    }

    lemma TrustingIsGenerated()
      requires Trusting()
      ensures gen.versions != []
    {
    }

    method Update(established: bool, rotation: CertManager.Rotation, firstReady: bool, secondReady: bool, now: string)
      returns (err: Option<Error>, ca: string)
      requires Ready()
      modifies kube, crds, comps, manager, manager.hooks, cr
      ensures Ready()
      ensures err.None? ==>
                && !NilChart(Cfg(""), old(cr.status))
                && Now() == UpdateSpec(old(Cfg(ca)), old(Now()), now)
      ensures err == Some(NilDereference) ==>
                && NilChart(Cfg(""), old(cr.status))
                && Now() == UpdateSpec(old(Cfg(ca)), old(Now()), now).(status := Digested(Cfg(""), old(Now())))
      ensures err.None? || err == Some(NilDereference) ==> Holds(ca)
      ensures old(manager.caBundle).Some? ==> manager.caBundle.Some?
      ensures err.Some? ==>
                || Failures.Begun(old(Cfg(ca)), old(Now()), Now(), now)
                || Failures.PartlyFinished(Cfg(""), CreateSpec(old(Cfg(ca)), old(Now()), now), Now())
      ensures (&& old(Calm()) && old(Certified(rotation)) && Complete()
               && established && firstReady && secondReady) ==>
                Calm() && (if NilChart(Cfg(""), old(cr.status)) then err == Some(NilDereference) else err.None?)
    {
      hide Kube.View;
      hide Kube.Smooth;
      hide CertPropagation.Formatted;
      hide CertPropagation.Faithful;
      hide GoodCrd;
      hide Failures.PartlyApplied;
      hide Failures.PartlyDeployed;
      hide NilChart;
      hide UpdateSpec;
      hide FinishSpec;
      hide Certified;
      hide Complete;
      hide Trusting;
      hide CreateSpec;
      hide WithoutSuperseded;
      hide Failures.PartlyFinished;
      hide Holds;
      hide Digested;
      ghost var before := Now();
      err, ca := ApplyAndDeploy(established, rotation, firstReady, secondReady, now);
      if err.Some? {
        return;
      }
      assert Cfg("").Versioned() by { TrustingIsGenerated(); }
      UpdateFromCreate(old(Cfg(ca)), Cfg(""), before, now);
      err := FinishUpdate();
    }

    /** An update after which a panic, if there is one, has lost the status held in memory. */
    method UpdateOrRecover(rotation: CertManager.Rotation, now: string) returns (ca: string)
      requires Ready() && Calm() && Certified(rotation) && Complete()
      modifies kube, crds, comps, manager, manager.hooks, cr
      ensures Ready() && Calm()
      ensures Now() == UpdateSpec(old(Cfg(ca)), old(Now()), now) && Holds(ca)
    {
      hide Kube.View;
      hide Kube.Smooth;
      hide Failures.PartlyFinished;
      hide Failures.PartlyApplied;
      hide Failures.PartlyDeployed;
      hide Holds;
      hide CreateSpec;
      hide Trusting;
      hide Certified;
      hide Complete;
      hide NilChart;
      hide UpdateSpec;
      hide Digested;
      TrustingIsGenerated();
      ghost var before := Now();
      var recorded, err := cr.status, None;
      err, ca := Update(true, rotation, true, true, now);
      if err.Some? {
        NilChartIgnores(old(Cfg(ca)), Cfg(""), before);
        UpdatePanics(old(Cfg(ca)), before, now);
        cr.status := recorded;
      }
    }

    /**
     * How the runtime drives the three: an absent resource is created, an outdated one updated. When
     * nothing fails this is one round of the state machine.
     */
    method RunOnce(rotation: CertManager.Rotation, now: string) returns (ca: string)
      requires Ready() && Calm() && Certified(rotation) && Complete()
      modifies kube, crds, comps, manager, manager.hooks, cr
      ensures Ready() && Calm()
      ensures Now() == Round(old(Cfg(ca)), old(Now()), now)
      ensures Holds(ca) || manager.caBundle == old(manager.caBundle)
    {
      hide Kube.View;
      hide Kube.Smooth;
      hide Trusting;
      hide Certified;
      hide Complete;
      hide CreateSpec;
      hide UpdateSpec;
      hide Observed;
      hide Reconcile.Observe;
      ca := "";
      TrustingIsGenerated();
      ghost var before := Now();
      var observed := Observe(false, None);
      if observed.Err? {
        return;
      }
      ObservedKeeps(Cfg(""), before);
      if observed.value == Absent {
        var err;
        err, ca := Create(true, rotation, true, true, now);
        ObserveIgnores(old(Cfg("")), old(Cfg(ca)), before);
      } else if observed.value == Outdated {
        ca := UpdateOrRecover(rotation, now);
        ObserveIgnores(old(Cfg("")), old(Cfg(ca)), before);
      }
    }

    /**
     * The same with any failure, of a request, a rotation, a template or a wait, and with a status that may be
     * lost when an update fails: the round of the state machine, cut off somewhere.
     */
    method TryOnce(t: Try) returns (ca: string)
      requires Ready()
      modifies kube, crds, comps, manager, manager.hooks, cr
      ensures Ready() && (old(manager.caBundle).Some? ==> manager.caBundle.Some?)
      ensures Failures.Faltering(old(Cfg(ca)), old(Now()), Now(), t.now)
    {
      hide Kube.View;
      hide Kube.Smooth;
      hide Trusting;
      hide CreateSpec;
      hide UpdateSpec;
      hide Observed;
      hide Reconcile.Observe;
      hide Failures.Begun;
      hide Failures.PartlyFinished;
      hide Failures.Halted;
      hide Digested;
      hide Gone;
      hide NilChart;
      ca := "";
      TrustingIsGenerated();
      ghost var before := Now();
      var recorded, err := cr.status, None;
      var observed := Observe(false, None);
      if observed.Err? {
        return;
      }
      ObservedKeeps(Cfg(""), before);
      if observed.value == Absent {
        err, ca := Create(t.established, t.rotation, t.firstReady, t.secondReady, t.now);
        ObserveIgnores(old(Cfg("")), old(Cfg(ca)), before);
      } else if observed.value == Outdated {
        err, ca := Update(t.established, t.rotation, t.firstReady, t.secondReady, t.now);
        ObserveIgnores(old(Cfg("")), old(Cfg(ca)), before);
        ghost var left := Now();
        if err.Some? && !t.kept {
          cr.status := recorded;
        }
        UpdateFalters(old(Cfg(ca)), Cfg(""), before, left, t, err.Some?);
      }
    }

    lemma UpdateFalters(cfg: Config, cfg': Config, before: State, left: State, t: Try, failed: bool)
      requires cfg.Versioned() && cfg' == cfg.(opts := cfg'.opts, ca := cfg'.ca)
      requires Reconcile.Observe(cfg, before) == Outdated
      requires !failed ==> left == UpdateSpec(cfg, before, t.now)
      requires failed ==> || Failures.Begun(cfg, before, left, t.now)
                          || Failures.PartlyFinished(cfg', CreateSpec(cfg, before, t.now), left)
      ensures Failures.Faltering(cfg, before, if failed && !t.kept then left.(status := before.status) else left, t.now)
    {
      hide Reconcile.Observe;
      hide UpdateSpec;
      hide CreateSpec;
      hide Failures.PartlyFinished;
      hide Failures.PartlyApplied;
      hide Failures.PartlyDeployed;
      hide Failures.Halted;
      hide Gone;
      if failed {
        if Failures.Begun(cfg, before, left, t.now) {
          assert left.(status := before.status) == left;
        } else {
          Failures.FinishedIsHalted(cfg, cfg', before, left, t.now);
          var removed, comps :|
            removed <= Gone(cfg, before.status) && left == Failures.Halted(cfg, before, t.now, removed, comps);
          assert Failures.StatusKept(t.kept, before, left) == if t.kept then left else left.(status := before.status);
        }
      } else {
        Convergence.RoundIs(cfg, before, t.now);
      }
    }

    /** No rotation fails or issues a malformed bundle. */
    ghost predicate AllCertified(rotations: seq<CertManager.Rotation>)
    {
      forall i :: 0 <= i < |rotations| ==>
        !rotations[i].RotationFailed? && (rotations[i].Renewed? ==> CertPropagation.Formatted(rotations[i].ca))
    }

    lemma CertifiedNext(rotations: seq<CertManager.Rotation>, i: nat)
      requires AllCertified(rotations) && i < |rotations|
      requires manager.caBundle.Some? && CertPropagation.Formatted(manager.caBundle.value)
      requires serviceName != "" && serviceNamespace != ""
      ensures Certified(rotations[i])
    {
    }

    /**
     * Repeated rounds without failures, with rotations of the certificate in between: a definition whose
     * state does not diverge is up to date after two of them.
     */
    method RunMany(rotations: seq<CertManager.Rotation>, nows: seq<string>) returns (ghost beats: seq<Beat>)
      requires Ready() && Calm() && Complete() && |rotations| == |nows|
      requires AllCertified(rotations) && serviceName != "" && serviceNamespace != ""
      requires manager.caBundle.Some? && Holds(manager.caBundle.value)
      modifies kube, crds, comps, manager, manager.hooks, cr
      ensures Ready() && Calm() && |beats| == |nows|
      ensures Now() == Rounds(old(Cfg("")), old(Now()), beats)
      ensures (&& Convergence.Regular(old(Cfg("")), old(Now())) && |nows| >= 2
               && !Convergence.Diverges(old(Cfg("")), old(Now())))
              ==> Reconcile.Observe(old(Cfg("")), Now()) == UpToDate
      ensures CrdFacts.AllWired(old(crds.Objects()), serviceNamespace, serviceName) ==>
                CrdFacts.AllWired(crds.Objects(), serviceNamespace, serviceName)
    {
      hide Kube.View;
      hide Kube.Smooth;
      hide Trusting;
      hide Certified;
      hide Complete;
      hide Round;
      hide Rounds;
      hide Convergence.Regular;
      hide Convergence.Diverges;
      hide Convergence.Needed;
      hide Reconcile.Observe;
      hide CertPropagation.Formatted;
      TrustingIsGenerated();
      ghost var cfg, before := Cfg(""), Now();
      NoRounds(cfg, before);
      beats := [];
      for i := 0 to |nows|
        invariant Ready() && Calm() && |beats| == i
        invariant manager.caBundle.Some? && Holds(manager.caBundle.value)
        invariant Now() == Rounds(cfg, before, beats)
      {
        CertifiedNext(rotations, i);
        ghost var bundle := manager.caBundle.value;
        label round:
        var ca := RunOnce(rotations[i], nows[i]);
        ghost var b := Beat(nows[i], bundle, ca);
        assert old@round(Cfg(ca)) == cfg.At(b);
        OneMoreRound(cfg, before, beats, b);
        beats := beats + [b];
      }
      if CrdFacts.AllWired(before.crds, serviceNamespace, serviceName) {
        OneVersion();
        CrdFacts.RoundsStayWired(cfg, before, beats);
      }
      if Convergence.Regular(cfg, before) && !Convergence.Diverges(cfg, before) {
        Convergence.Converges(cfg, before, beats);
      }
    }

    /**
     * Repeated rounds with any failures: without a credentials secret, and with a chart recorded for the
     * superseded version, the state they reach does not diverge.
     */
    method TryMany(tries: seq<Try>) returns (ghost states: seq<State>, ghost beats: seq<Beat>)
      requires Ready() && manager.caBundle.Some?
      modifies kube, crds, comps, manager, manager.hooks, cr
      ensures Ready() && |beats| == |tries| && |states| == |tries| + 1
      ensures states[0] == old(Now()) && states[|beats|] == Now() && gen.versions != []
      ensures Failures.FailingRun(old(Cfg("")), states, beats)
      ensures (&& Convergence.Regular(old(Cfg("")), old(Now()))
               && cr.chart.credentials.None? && !NilChart(old(Cfg("")), old(cr.status)))
              ==> !Convergence.Diverges(old(Cfg("")), Now())
    {
      hide Kube.View;
      hide Trusting;
      hide Failures.Faltering;
      hide Convergence.Regular;
      hide Convergence.Diverges;
      hide NilChart;
      TrustingIsGenerated();
      ghost var cfg, before := Cfg(""), Now();
      beats, states := [], [before];
      for i := 0 to |tries|
        invariant Ready() && manager.caBundle.Some? && |beats| == i
        invariant |states| == i + 1 && states[0] == before && states[i] == Now()
        invariant Failures.FailingRun(cfg, states, beats)
      {
        ghost var bundle := manager.caBundle.value;
        label round:
        var ca := TryOnce(tries[i]);
        ghost var b := Beat(tries[i].now, bundle, ca);
        assert old@round(Cfg(ca)) == cfg.At(b);
        Failures.OneMoreTry(cfg, states, beats, Now(), b);
        beats, states := beats + [b], states + [Now()];
      }
      if Convergence.Regular(cfg, before) {
        Failures.FailingRuns(cfg, states, beats);
      }
    }

    lemma OneVersion()
      requires Trusting()
      ensures |gen.versions| == 1
    {
    }

    lemma NoRounds(cfg: Config, st: State)
      requires cfg.Versioned()
      ensures Rounds(cfg, st, []) == st
    {
    }
  }

  /** With all the webhook needs, applying a generated CRD over a good one never fails, and leaves a CRD. */
  lemma NeverFails(gen: Generation.Spec, opts: CrdClient.ApplyOpts, crds: CrdClient.Crds)
    requires CrdClient.Generated(gen) && GoodCrd(gen, crds)
    ensures opts.caBundle.Some? && opts.serviceName != "" && opts.serviceNamespace != "" ==>
              !CrdClient.Decided(crds, gen, opts).Fail? && CrdClient.KeyOf(gen) in Applied(gen, opts, crds)
  {
    if opts.caBundle.Some? && opts.serviceName != "" && opts.serviceNamespace != "" && CrdClient.KeyOf(gen) in crds {
      FoundProgress(crds[CrdClient.KeyOf(gen)], gen, opts);
    }
  }

  lemma AppliedIsGood(gen: Generation.Spec, opts: CrdClient.ApplyOpts, crds: CrdClient.Crds)
    requires CrdClient.Generated(gen) && GoodCrd(gen, crds)
    ensures GoodCrd(gen, Applied(gen, opts, crds))
    ensures CertPropagation.Sound(Applied(gen, opts, crds), CrdClient.KeyOf(gen))
    ensures forall ca :: GoodCrd(gen, CertPropagation.AfterCrd(Applied(gen, opts, crds), CrdClient.KeyOf(gen), ca))
    ensures forall ca :: GoodCrd(gen, CertPropagation.AfterCrd(crds, CrdClient.KeyOf(gen), ca))
  {
    var key, applied := CrdClient.KeyOf(gen), Applied(gen, opts, crds);
    if CrdClient.Decided(crds, gen, opts).Store? {
      CrdClient.ReconcileKeepsGood(crds, gen, opts);
    }
    forall ca ensures GoodCrd(gen, CertPropagation.AfterCrd(applied, key, ca)) {
      if key in applied { CrdClient.RotatedIsGood(applied[key], ca); }
    }
    forall ca ensures GoodCrd(gen, CertPropagation.AfterCrd(crds, key, ca)) {
      if key in crds { CrdClient.RotatedIsGood(crds[key], ca); }
    }
  }
}
