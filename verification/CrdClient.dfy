/** internal/tools/crd/crd.go: creating, restating and extending a CRD in the cluster. */
module CrdClient {
  import opened Wrappers
  import opened Generation
  import Hash
  import Kube

  datatype GroupResource = GroupResource(group: string, resource: string)

  /** `caBundle` is nil until a certificate has been read. */
  datatype ApplyOpts = ApplyOpts(caBundle: Option<string>, serviceNamespace: string, serviceName: string)

  datatype CrdError =
    | Api(e: Kube.ApiError)
    | Malformed(g: Generation.Error)
    | NoCABundle | NoServiceName | NoServiceNamespace
    | NotEstablished

  type Crds = map<GroupResource, Spec>

  function KeyOf(crd: Spec): GroupResource
  {
    GroupResource(crd.group, crd.plural)
  }

  /** The conversion webhook every CRD with several versions points to. */
  function WebhookConversion(opts: ApplyOpts): Option<Conversion>
    requires opts.caBundle.Some?
  {
    Some(Conversion("Webhook", Some(Webhook(["v1", "v1alpha1", "v1alpha2"],
      Some(ClientConfig(Some(Service(opts.serviceNamespace, opts.serviceName, 9443, "/convert")),
                        opts.caBundle.value))))))
  }

  datatype Decision = Store(crd: Spec) | Skip | Fail(e: CrdError)

  /** What `ApplyOrUpdateCRD` does with the CRD it found. */
  function Decide(found: Option<Spec>, gen: Spec, opts: ApplyOpts): Decision
    requires gen.versions != []
  {
    if found.None? then Store(gen)
    else
      var crd := found.value;
      match StatusesEqual(crd.versions, gen.versions)
      case Err(e) => Fail(Malformed(e))
      case Ok(equal) =>
        if !equal then
          if gen.versions[0].schema.None? then Fail(Malformed(NilSchema))
          else if AnyUnwritable(crd.versions) then Fail(Malformed(NilProperties))
          else Store(crd.(versions := SetStatus(crd.versions, Property(gen.versions[0].schema, STATUS))))
        else if HasGVK(crd, gen.group, gen.kind, gen.versions[0].name) then Skip
        else if opts.caBundle.None? then Fail(NoCABundle)
        else if opts.serviceName == "" then Fail(NoServiceName)
        else if opts.serviceNamespace == "" then Fail(NoServiceNamespace)
        else
          Store(crd.(versions := SetFlags(AppendAll(crd.versions, gen.versions), gen.versions[0].name, true, false),
                     conversion := WebhookConversion(opts)))
  }

  function Decided(crds: Crds, gen: Spec, opts: ApplyOpts): Decision
    requires gen.versions != []
  {
    Decide(At(crds, KeyOf(gen)), gen, opts)
  }

  /** The API server keeps CRDs as they are written. */
  ghost predicate Verbatim(server: Kube.Server<Spec>)
  {
    forall e, v :: server(e, v) == v
  }

  method Get(cli: Kube.Client<GroupResource, Spec>, gr: GroupResource) returns (r: Result<Option<Spec>, CrdError>)
    requires Kube.Quiet(cli.world)
    modifies cli
    ensures Kube.Quiet(cli.world) && cli.Objects() == old(cli.Objects())
    ensures r.Ok? ==> r.value == At(cli.Objects(), gr)
    ensures old(Kube.Smooth(cli.world)) ==> Kube.Smooth(cli.world) && r.Ok?
  {
    var got := cli.Get(gr);
    match got {
      case Ok(crd) => r := Ok(Some(crd));
      case Err(e) => r := if e == Kube.NotFound then Ok(None) else Err(Api(e));
    }
  }

  /** `established` says whether the watch that follows a write sees the CRD established in time. */
  method Write(cli: Kube.Client<GroupResource, Spec>, crd: Spec, established: bool) returns (err: Option<CrdError>)
    requires Kube.Quiet(cli.world) && Verbatim(cli.server)
    modifies cli
    ensures Kube.Quiet(cli.world)
    ensures cli.Objects() == old(cli.Objects())[KeyOf(crd) := crd]
         || (err.Some? && cli.Objects() == old(cli.Objects()))
    ensures old(Kube.Smooth(cli.world)) && established ==> Kube.Smooth(cli.world) && err.None?
  {
    assert Kube.Stable(cli.server);
    var r := cli.Apply(KeyOf(crd), crd, false);
    if r.Err? {
      return Some(Api(r.error));
    }
    if !established {
      return Some(NotEstablished);
    }
    err := None;
  }

  method ApplyOrUpdateCRD(cli: Kube.Client<GroupResource, Spec>, newcrd: Spec, opts: ApplyOpts, established: bool)
    returns (err: Option<CrdError>)
    requires newcrd.versions != []
    requires Kube.Quiet(cli.world) && Verbatim(cli.server)
    requires var found := At(cli.Objects(), KeyOf(newcrd)); found.Some? ==> KeyOf(found.value) == KeyOf(newcrd)
    modifies cli
    ensures Kube.Quiet(cli.world)
    ensures match Decided(old(cli.Objects()), newcrd, opts)
            case Fail(_) => err.Some? && cli.Objects() == old(cli.Objects())
            case Skip => cli.Objects() == old(cli.Objects())
            case Store(crd) =>
              || cli.Objects() == old(cli.Objects())[KeyOf(newcrd) := crd]
              || (err.Some? && cli.Objects() == old(cli.Objects()))
    ensures old(Kube.Smooth(cli.world)) && established ==>
              Kube.Smooth(cli.world) && (err.None? <==> !Decided(old(cli.Objects()), newcrd, opts).Fail?)
  {
    hide Kube.View;
    hide SetFlags;
    hide AppendAll;
    hide SetStatus;
    var got := Get(cli, KeyOf(newcrd));
    if got.Err? {
      return Some(got.error);
    }
    if got.value.None? {
      err := Write(cli, newcrd, established);
      return;
    }
    var crd := new Crd(got.value.value);
    var equal := StatusEqual(crd.Value(), newcrd);
    if equal.Err? {
      return Some(Malformed(equal.error));
    }
    if !equal.value {
      var failed := crd.UpdateStatus(newcrd.versions[0]);
      if failed.Some? {
        return Some(Malformed(failed.value));
      }
      err := Write(cli, crd.Value(), established);
      return;
    }
    var found := crd.GVKExists(newcrd.group, newcrd.kind, newcrd.versions[0].name);
    if found {
      return None;
    }
    crd.AppendVersion(newcrd.versions);
    if opts.caBundle.None? {
      return Some(NoCABundle);
    }
    if opts.serviceName == "" {
      return Some(NoServiceName);
    }
    if opts.serviceNamespace == "" {
      return Some(NoServiceNamespace);
    }
    crd.conversion := WebhookConversion(opts);
    crd.SetServedStorage(newcrd.versions[0].name, true, false);
    err := Write(cli, crd.Value(), established);
  }

  /** Whether the CRD exists and lists this version. */
  method Lookup(cli: Kube.Client<GroupResource, Spec>, gr: GroupResource, version: string)
    returns (r: Result<bool, CrdError>)
    requires Kube.Quiet(cli.world)
    modifies cli
    ensures Kube.Quiet(cli.world) && cli.Objects() == old(cli.Objects())
    ensures r.Ok? ==> (r.value <==> gr in cli.Objects() && HasName(cli.Objects()[gr].versions, version))
    ensures old(Kube.Smooth(cli.world)) ==> Kube.Smooth(cli.world) && r.Ok?
  {
    var got := Get(cli, gr);
    if got.Err? {
      return Err(got.error);
    }
    if got.value.None? {
      return Ok(false);
    }
    var vs := got.value.value.versions;
    for i := 0 to |vs|
      invariant forall k :: 0 <= k < i ==> vs[k].name != version
    {
      if vs[i].name == version {
        return Ok(true);
      }
    }
    r := Ok(false);
  }

  method Uninstall(cli: Kube.Client<GroupResource, Spec>, gr: GroupResource) returns (err: Option<CrdError>)
    requires Kube.Quiet(cli.world)
    modifies cli
    ensures Kube.Quiet(cli.world)
    ensures cli.Objects() == old(cli.Objects()) - {gr} || (err.Some? && cli.Objects() == old(cli.Objects()))
    ensures old(Kube.Smooth(cli.world)) ==> Kube.Smooth(cli.world) && err.None?
  {
    assert gr !in cli.Objects() ==> cli.Objects() - {gr} == cli.Objects();
    var r := cli.Uninstall(gr);
    err := if r.Ok? then None else Some(Api(r.error));
  }

  // ---- the version list in every reachable state ----

  /** What the generator produces: one real version, served and stored, with a status property. */
  ghost predicate Generated(gen: Spec)
  {
    && |gen.versions| == 1
    && Real(gen.versions[0])
    && gen.versions[0].served && gen.versions[0].storage
    && HasStatus(gen.versions[0])
  }

  ghost predicate Distinct(vs: seq<Version>)
  {
    forall i, j :: 0 <= i < j < |vs| ==> vs[i].name != vs[j].name
  }

  /** The version that stores objects: the only one, or `vacuum`. */
  function StorageName(vs: seq<Version>): string
    requires vs != []
  {
    if |vs| == 1 then vs[0].name else VACUUM
  }

  ghost predicate GoodVersions(vs: seq<Version>)
  {
    && (|vs| == 1 || |vs| >= 3)
    && Distinct(vs)
    && Real(vs[0])
    && HasName(vs, StorageName(vs))
    && (forall i :: 0 <= i < |vs| ==>
          && (vs[i].storage <==> vs[i].name == StorageName(vs))
          && (vs[i].served <==> Real(vs[i]))
          && HasStatus(vs[i])
          && (Real(vs[i]) ==> StatusDigest(vs[i]) == StatusDigest(vs[0])))
  }

  ghost predicate Good(crd: Spec)
  {
    && GoodVersions(crd.versions)
    && (|crd.versions| > 1 ==> CompleteConversion(crd.conversion))
  }

  /** The first-version comparison is exact: it stands for all real versions. */
  lemma StatusCheckIsExact(crd: Spec, gen: Spec)
    requires Good(crd) && Generated(gen)
    ensures StatusesEqual(crd.versions, gen.versions).Ok?
    ensures StatusesEqual(crd.versions, gen.versions).value <==>
            forall i :: 0 <= i < |crd.versions| && Real(crd.versions[i]) ==>
              StatusDigest(crd.versions[i]) == StatusDigest(gen.versions[0])
  {
    assert FirstStatus(crd.versions) == 0 && FirstStatus(gen.versions) == 0;
  }

  /** Rewriting the status keeps the list good and makes the next comparison succeed. */
  lemma StatusRewriteIsGood(crd: Spec, gen: Spec)
    requires Good(crd) && Generated(gen)
    ensures var crd' := crd.(versions := SetStatus(crd.versions, Property(gen.versions[0].schema, STATUS)));
            && Good(crd')
            && Names(crd'.versions) == Names(crd.versions)
            && StatusesEqual(crd'.versions, gen.versions) == Ok(true)
  {
    var vs, vs' := crd.versions, SetStatus(crd.versions, Property(gen.versions[0].schema, STATUS));
    forall i | 0 <= i < |vs|
      ensures vs'[i].name == vs[i].name && HasStatus(vs'[i]) && StatusDigest(vs'[i]) == StatusDigest(gen.versions[0])
    {
    }
    var k :| 0 <= k < |vs| && vs[k].name == StorageName(vs);
    assert vs'[k].name == StorageName(vs');
    assert Names(vs') == Names(vs);
    assert FirstStatus(vs') == 0 && FirstStatus(gen.versions) == 0;
  }

  /** `vs'` is `vs` with its real versions demoted, then `v`, then `vacuum` when there was none. */
  ghost predicate Extended(vs: seq<Version>, v: Version, vs': seq<Version>)
  {
    && |vs'| == (if |vs| == 1 then 3 else |vs| + 1)
    && (forall i :: 0 <= i < |vs| ==> vs'[i] == Demoted(vs[i]))
    && vs'[|vs|] == v.(served := true, storage := false)
    && (|vs| == 1 ==> vs'[2] == VACUUM_VERSION)
  }

  lemma AppendSingle(vs: seq<Version>, v: Version)
    ensures AppendAll(vs, [v]) == AppendOne(vs, v)
  {
    assert AppendAll(AppendOne(vs, v), []) == AppendOne(vs, v);
  }

  lemma VacuumPresent(vs: seq<Version>)
    requires GoodVersions(vs)
    ensures HasName(vs, VACUUM) <==> |vs| > 1
  {
  }

  lemma AppendExtends(vs: seq<Version>, v: Version)
    requires GoodVersions(vs) && Real(v) && !HasName(vs, v.name)
    ensures Extended(vs, v, SetFlags(AppendAll(vs, [v]), v.name, true, false))
  {
    AppendSingle(vs, v);
    VacuumPresent(vs);
    var grown := vs + [v] + if |vs| > 1 then [] else [VACUUM_VERSION];
    assert grown[|vs|] == v && forall i :: 0 <= i < |vs| ==> grown[i] == vs[i];
  }

  lemma ExtendedNames(vs: seq<Version>, v: Version, vs': seq<Version>)
    requires GoodVersions(vs) && Real(v) && Extended(vs, v, vs')
    ensures Names(vs) <= Names(vs') && HasName(vs', v.name) && HasName(vs', VACUUM)
  {
    VacuumPresent(vs);
    assert vs'[|vs|].name == v.name;
    if |vs| == 1 {
      assert vs'[2].name == VACUUM;
    } else {
      var k :| 0 <= k < |vs| && vs[k].name == VACUUM;
      assert vs'[k].name == VACUUM;
    }
  }

  lemma ExtendedDistinct(vs: seq<Version>, v: Version, vs': seq<Version>)
    requires GoodVersions(vs) && Real(v) && !HasName(vs, v.name) && Extended(vs, v, vs')
    ensures Distinct(vs')
  {
    VacuumPresent(vs);
    forall i | 0 <= i < |vs| ensures vs'[i].name == vs[i].name != v.name && (|vs| == 1 ==> Real(vs[i])) {
    }
    assert vs'[|vs|].name == v.name;
    hide GoodVersions;
    forall i, j | 0 <= i < j < |vs'| ensures vs'[i].name != vs'[j].name {
      assert i < |vs| ==> vs'[i].name == vs[i].name;
      assert j < |vs| ==> vs'[j].name == vs[j].name;
    }
  }

  lemma ExtendedIsGood(vs: seq<Version>, v: Version, vs': seq<Version>)
    requires GoodVersions(vs) && Real(v) && HasStatus(v) && !HasName(vs, v.name) && Extended(vs, v, vs')
    requires StatusDigest(v) == StatusDigest(vs[0])
    ensures GoodVersions(vs')
  {
    ExtendedNames(vs, v, vs');
    ExtendedDistinct(vs, v, vs');
    forall i | 0 <= i < |vs'|
      ensures (vs'[i].storage <==> vs'[i].name == VACUUM) && (vs'[i].served <==> Real(vs'[i])) && HasStatus(vs'[i])
      ensures Real(vs'[i]) ==> StatusDigest(vs'[i]) == StatusDigest(vs[0])
    {
      if i < |vs| {
        assert vs'[i].schema == vs[i].schema && vs'[i].name == vs[i].name;
      } else if i == |vs| {
        assert vs'[i].schema == v.schema;
      }
    }
  }

  /**
   * The one input family that breaks the list: a CRD found under this plural has another kind, a
   * single version, and that version already has the wanted name. Nothing is appended, yet its
   * storage flag is cleared.
   */
  predicate ClearsStorage(crd: Spec, gen: Spec)
    requires gen.versions != []
  {
    && StatusesEqual(crd.versions, gen.versions) == Ok(true)
    && crd.kind != gen.kind
    && |crd.versions| == 1
    && HasName(crd.versions, gen.versions[0].name)
  }

  /**
   * A CRD written by `ApplyOrUpdateCRD` is good exactly when the found CRD is outside that family,
   * and unless it is, version names are only ever added at the end.
   */
  lemma ApplyKeepsGood(crd: Spec, gen: Spec, opts: ApplyOpts)
    requires Good(crd) && Generated(gen) && KeyOf(crd) == KeyOf(gen)
    requires Decide(Some(crd), gen, opts).Store?
    ensures var crd' := Decide(Some(crd), gen, opts).crd;
            && (Good(crd') <==> !ClearsStorage(crd, gen))
            && KeyOf(crd') == KeyOf(crd) && crd'.kind == crd.kind
            && Names(crd.versions) <= Names(crd'.versions)
  {
    hide SetFlags;
    hide AppendAll;
    hide SetStatus;
    StatusCheckIsExact(crd, gen);
    var vs, v := crd.versions, gen.versions[0];
    if StatusesEqual(vs, gen.versions) == Ok(false) {
      StatusRewriteIsGood(crd, gen);
    } else {
      assert gen.versions == [v];
      if !HasName(vs, v.name) {
        AppendIsGood(vs, v);
      } else {
        NothingAppended(vs, v);
      }
    }
  }

  lemma AppendIsGood(vs: seq<Version>, v: Version)
    requires GoodVersions(vs) && Real(v) && HasStatus(v) && !HasName(vs, v.name)
    requires StatusDigest(v) == StatusDigest(vs[0])
    ensures var vs' := SetFlags(AppendAll(vs, [v]), v.name, true, false); GoodVersions(vs') && Names(vs) <= Names(vs')
  {
    hide GoodVersions;
    var vs' := SetFlags(AppendAll(vs, [v]), v.name, true, false);
    AppendExtends(vs, v);
    ExtendedNames(vs, v, vs');
    ExtendedIsGood(vs, v, vs');
  }

  lemma NothingAppended(vs: seq<Version>, v: Version)
    requires GoodVersions(vs) && Real(v) && HasName(vs, v.name)
    ensures var vs' := SetFlags(AppendAll(vs, [v]), v.name, true, false);
            Names(vs') == Names(vs) && (GoodVersions(vs') <==> |vs| > 1)
  {
    AppendSingle(vs, v);
    FlagsCleared(vs, v.name);
  }

  lemma FlagsCleared(vs: seq<Version>, name: string)
    requires GoodVersions(vs) && HasName(vs, name) && name != VACUUM
    ensures var vs' := SetFlags(vs, name, true, false);
            Names(vs') == Names(vs) && (GoodVersions(vs') <==> |vs| > 1)
  {
    var vs' := SetFlags(vs, name, true, false);
    if |vs| > 1 {
      assert forall i :: 0 <= i < |vs| ==> vs'[i] == vs[i];
      assert vs' == vs;
    } else {
      assert !vs'[0].storage && |vs'| == 1;
      assert Names(vs') == Names(vs);
    }
  }

  /** A concrete member of the family: the written CRD has no storage version at all. */
  lemma ClearsStorageExample()
    ensures var v := Version("v1-0-0", true, true, Some(Some(map[STATUS := "{}"])));
            var found := Spec("g", "Foo", "foos", [v], None);
            var gen := Spec("g", "Foos", "foos", [v], None);
            var opts := ApplyOpts(Some("ca"), "ns", "svc");
            && Good(found) && Generated(gen) && KeyOf(found) == KeyOf(gen)
            && Decide(Some(found), gen, opts).Store?
            && forall w :: w in Decide(Some(found), gen, opts).crd.versions ==> !w.storage
  {
    var v := Version("v1-0-0", true, true, Some(Some(map[STATUS := "{}"])));
    assert [v][0] == v;
    assert HasName([v], "v1-0-0");
    assert FirstStatus([v]) == 0;
    assert AppendAll([v], [v]) == AppendAll(AppendOne([v], v), [v][1..]) == [v];
  }

  // ---- runs ----

  /** One call on the CRD store; `effective` is false when its write fails without effect. */
  datatype Event =
    | Reconcile(gen: Spec, opts: ApplyOpts, effective: bool)
    | Rotate(key: GroupResource, ca: string)
    | Delete(key: GroupResource)

  /** `propagateCABundle` touches only CRDs with several versions. */
  function Rotated(crd: Spec, ca: string): Spec
  {
    if |crd.versions| > 1 && CompleteConversion(crd.conversion)
    then crd.(conversion := WithCABundle(crd.conversion, ca)) else crd
  }

  predicate Proper(e: Event)
  {
    e.Reconcile? ==> e.gen.versions != []
  }

  function Step(crds: Crds, e: Event): Crds
    requires Proper(e)
  {
    match e
    case Reconcile(gen, opts, effective) =>
      var d := Decided(crds, gen, opts);
      if effective && d.Store? then crds[KeyOf(gen) := d.crd] else crds
    case Rotate(key, ca) => if key in crds then crds[key := Rotated(crds[key], ca)] else crds
    case Delete(key) => crds - {key}
  }

  /** Every request generates a proper CRD, and one plural stands for one kind. */
  ghost predicate Allowed(events: seq<Event>, kinds: map<GroupResource, string>)
  {
    forall i :: 0 <= i < |events| ==> Proper(events[i]) && AllowedEvent(events[i], kinds)
  }

  ghost predicate AllowedEvent(e: Event, kinds: map<GroupResource, string>)
  {
    e.Reconcile? ==> Generated(e.gen) && KeyOf(e.gen) in kinds && kinds[KeyOf(e.gen)] == e.gen.kind
  }

  ghost predicate AllGood(crds: Crds, kinds: map<GroupResource, string>)
  {
    forall k :: k in crds ==> GoodAt(crds[k], k, kinds)
  }

  ghost predicate GoodAt(crd: Spec, key: GroupResource, kinds: map<GroupResource, string>)
  {
    Good(crd) && KeyOf(crd) == key && key in kinds && kinds[key] == crd.kind
  }

  function Execute(crds: Crds, events: seq<Event>): Crds
    requires forall i :: 0 <= i < |events| ==> Proper(events[i])
    decreases |events|
  {
    if events == [] then crds else Execute(Step(crds, events[0]), events[1..])
  }

  lemma StepKeepsGood(crds: Crds, e: Event, kinds: map<GroupResource, string>)
    requires AllGood(crds, kinds) && Proper(e) && AllowedEvent(e, kinds)
    ensures AllGood(Step(crds, e), kinds)
    ensures forall k :: k in crds && k in Step(crds, e) ==> Names(crds[k].versions) <= Names(Step(crds, e)[k].versions)
  {
    forall k | k in Step(crds, e)
      ensures GoodAt(Step(crds, e)[k], k, kinds)
      ensures k in crds ==> Names(crds[k].versions) <= Names(Step(crds, e)[k].versions)
    {
      StepKeepsGoodAt(crds, e, kinds, k);
    }
  }

  lemma StepKeepsGoodAt(crds: Crds, e: Event, kinds: map<GroupResource, string>, k: GroupResource)
    requires AllGood(crds, kinds) && Proper(e) && AllowedEvent(e, kinds)
    requires k in Step(crds, e)
    ensures GoodAt(Step(crds, e)[k], k, kinds)
    ensures k in crds ==> Names(crds[k].versions) <= Names(Step(crds, e)[k].versions)
  {
    if k in crds && Step(crds, e)[k] == crds[k] {
      assert GoodAt(crds[k], k, kinds);
    } else if e.Reconcile? {
      assert k == KeyOf(e.gen) && (k in crds ==> GoodAt(crds[k], k, kinds));
      ReconcileKeepsGood(crds, e.gen, e.opts);
    } else {
      assert e.Rotate? && GoodAt(crds[k], k, kinds);
      RotatedIsGood(crds[k], e.ca);
    }
  }

  lemma RotatedIsGood(crd: Spec, ca: string)
    requires Good(crd)
    ensures var crd' := Rotated(crd, ca);
            Good(crd') && KeyOf(crd') == KeyOf(crd) && crd'.kind == crd.kind && crd'.versions == crd.versions
  {
  }

  lemma ReconcileKeepsGood(crds: Crds, gen: Spec, opts: ApplyOpts)
    requires Generated(gen) && (KeyOf(gen) in crds ==> Good(crds[KeyOf(gen)]))
    requires KeyOf(gen) in crds ==> KeyOf(crds[KeyOf(gen)]) == KeyOf(gen) && crds[KeyOf(gen)].kind == gen.kind
    requires Decided(crds, gen, opts).Store?
    ensures var crd := Decided(crds, gen, opts).crd;
            && Good(crd) && KeyOf(crd) == KeyOf(gen) && crd.kind == gen.kind
            && (KeyOf(gen) in crds ==> Names(crds[KeyOf(gen)].versions) <= Names(crd.versions))
  {
    if KeyOf(gen) in crds {
      ApplyKeepsGood(crds[KeyOf(gen)], gen, opts);
    } else {
      assert gen.versions[0].name == StorageName(gen.versions);
    }
  }

  /** The invariant over every run, with every failure in between. */
  lemma {:induction false} RunKeepsGood(crds: Crds, events: seq<Event>, kinds: map<GroupResource, string>)
    requires AllGood(crds, kinds) && Allowed(events, kinds)
    ensures AllGood(Execute(crds, events), kinds)
    decreases |events|
  {
    if events != [] {
      StepKeepsGood(crds, events[0], kinds);
      RunKeepsGood(Step(crds, events[0]), events[1..], kinds);
    }
  }

  /** Until it is deleted, a CRD never loses or reorders a version. */
  lemma {:induction false} RunGrowsVersions(crds: Crds, events: seq<Event>, kinds: map<GroupResource, string>,
                                            key: GroupResource)
    requires AllGood(crds, kinds) && Allowed(events, kinds)
    requires key in crds && forall i :: 0 <= i < |events| ==> events[i] != Delete(key)
    ensures key in Execute(crds, events) && Names(crds[key].versions) <= Names(Execute(crds, events)[key].versions)
    decreases |events|
  {
    if events != [] {
      StepKeepsGood(crds, events[0], kinds);
      assert key in Step(crds, events[0]);
      RunGrowsVersions(Step(crds, events[0]), events[1..], kinds, key);
    }
  }

  // ---- two calls at once ----

  /** A generated CRD of the kind in the cluster, and all that a conversion webhook needs. */
  ghost predicate Competes(crd: Spec, gen: Spec, opts: ApplyOpts)
  {
    && Good(crd) && Generated(gen) && crd.kind == gen.kind && KeyOf(crd) == KeyOf(gen)
    && opts.caBundle.Some? && opts.serviceName != "" && opts.serviceNamespace != ""
  }

  /** The call appends a version. */
  ghost predicate Appends(crd: Spec, gen: Spec, opts: ApplyOpts)
  {
    && Competes(crd, gen, opts)
    && StatusesEqual(crd.versions, gen.versions) == Ok(true) && !HasName(crd.versions, gen.versions[0].name)
  }

  lemma ExtendedLists(vs: seq<Version>, v: Version, vs': seq<Version>, name: string)
    requires Extended(vs, v, vs') && name != VACUUM
    ensures HasName(vs', name) <==> HasName(vs, name) || name == v.name
  {
    assert forall i :: 0 <= i < |vs| ==> vs'[i].name == vs[i].name;
    assert vs'[|vs|].name == v.name;
    if k :| 0 <= k < |vs'| && vs'[k].name == name {
      assert k < |vs| ==> HasName(vs, name);
    }
  }

  lemma AppendLists(crd: Spec, gen: Spec, opts: ApplyOpts, name: string)
    requires Appends(crd, gen, opts) && name != VACUUM
    ensures gen.versions != []
    ensures var d := Decide(Some(crd), gen, opts);
            && d.Store? && KeyOf(d.crd) == KeyOf(crd)
            && (HasName(d.crd.versions, name) <==> HasName(crd.versions, name) || name == gen.versions[0].name)
  {
    hide HasStatus;
    var vs, v := crd.versions, gen.versions[0];
    assert gen.versions == [v];
    AppendExtends(vs, v);
    ExtendedLists(vs, v, SetFlags(AppendAll(vs, [v]), v.name, true, false), name);
  }

  /** What a call writes lists its own version and none else that was not listed before. */
  lemma StoreLists(crd: Spec, gen: Spec, opts: ApplyOpts, name: string)
    requires Competes(crd, gen, opts) && name != VACUUM
    ensures gen.versions != []
    ensures var d := Decide(Some(crd), gen, opts);
            d.Store? ==>
              && KeyOf(d.crd) == KeyOf(crd)
              && (HasName(d.crd.versions, name) ==> HasName(crd.versions, name) || name == gen.versions[0].name)
  {
    StatusCheckIsExact(crd, gen);
    if StatusesEqual(crd.versions, gen.versions) == Ok(true) {
      if !HasName(crd.versions, gen.versions[0].name) {
        AppendLists(crd, gen, opts, name);
      }
    } else {
      var d := Decide(Some(crd), gen, opts);
      if d.Store? && HasName(d.crd.versions, name) {
        var k :| 0 <= k < |d.crd.versions| && d.crd.versions[k].name == name;
        assert crd.versions[k].name == name;
      }
    }
  }

  /**
   * The growth of the version list depends on calls that do not overlap. `kube.Apply` takes the resource
   * version anew, so a call that read the CRD before another one appended its version still succeeds. The
   * other version stays listed exactly if this call writes nothing.
   */
  lemma OverlappingAppendIsLost(w: Kube.World<GroupResource, Spec>, server: Kube.Server<Spec>, crd: Spec,
                                first: Spec, second: Spec, opts: ApplyOpts)
    requires Kube.Quiet(w) && Kube.Smooth(w) && Verbatim(server)
    requires Appends(crd, first, opts) && Competes(crd, second, opts)
    requires first.versions[0].name != second.versions[0].name
    requires Decide(Some(crd), first, opts).Store? ==>
               At(Kube.View(w), KeyOf(crd)) == Some(Decide(Some(crd), first, opts).crd)
    ensures var d := Decide(Some(crd), second, opts);
            var (w', ok) := if d.Store? then Written(w, server, KeyOf(crd), d.crd) else (w, true);
            && ok && KeyOf(crd) in Kube.View(w) && KeyOf(crd) in Kube.View(w')
            && HasName(Kube.View(w)[KeyOf(crd)].versions, first.versions[0].name)
            && (HasName(Kube.View(w')[KeyOf(crd)].versions, first.versions[0].name) <==> !d.Store?)
  {
    hide Decide;
    hide Good;
    hide Kube.ApplySpec;
    var name := first.versions[0].name;
    AppendLists(crd, first, opts, name);
    StoreLists(crd, second, opts, name);
    var d := Decide(Some(crd), second, opts);
    if d.Store? {
      Kube.ApplyQuiet(w, server, KeyOf(crd), d.crd, false);
      Kube.ApplySmooth(w, server, KeyOf(crd), d.crd, false);
    }
  }

  /** The write that ends a call, and whether it succeeds. */
  function Written(w: Kube.World<GroupResource, Spec>, server: Kube.Server<Spec>, key: GroupResource, crd: Spec)
    : (Kube.World<GroupResource, Spec>, bool)
  {
    var (w', r) := Kube.ApplySpec(w, server, key, crd, false);
    (w', r.Ok?)
  }
}
