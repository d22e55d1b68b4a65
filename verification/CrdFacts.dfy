/** What every version of a CRD, and its conversion webhook, look like over whole runs. */
module CrdFacts {
  import opened Wrappers
  import opened Generation
  import opened CrdClient
  import Reconcile

  // ---- the conversion webhook ----

  /** The conversion of a CRD with several versions is sent to this service, as crd.go configures it. */
  predicate Wired(crd: Spec, ns: string, name: string)
  {
    |crd.versions| > 1 ==>
      && crd.conversion.Some? && crd.conversion.value.strategy == "Webhook" && crd.conversion.value.webhook.Some?
      && var webhook := crd.conversion.value.webhook.value;
         && webhook.reviewVersions == ["v1", "v1alpha1", "v1alpha2"] && webhook.clientConfig.Some?
         && var service := webhook.clientConfig.value.service;
            && service.Some? && service.value.ns == ns && service.value.name == name
            && service.value.port == 9443 && service.value.path == "/convert"
  }

  ghost predicate AllWired(crds: Crds, ns: string, name: string)
  {
    forall k :: k in crds ==> Wired(crds[k], ns, name)
  }

  /** The request generates one version, and names this webhook service. */
  predicate Asks(e: Event, ns: string, name: string)
  {
    e.Reconcile? ==> |e.gen.versions| == 1 && e.opts.serviceNamespace == ns && e.opts.serviceName == name
  }

  lemma DecideWired(found: Option<Spec>, gen: Spec, opts: ApplyOpts)
    requires |gen.versions| == 1
    requires found.Some? ==> Wired(found.value, opts.serviceNamespace, opts.serviceName)
    ensures var d := Decide(found, gen, opts); d.Store? ==> Wired(d.crd, opts.serviceNamespace, opts.serviceName)
  {
    hide AppendAll;
    hide SetFlags;
    hide StatusesEqual;
    hide HasGVK;
  }

  lemma RotatedWired(crd: Spec, ca: string, ns: string, name: string)
    requires Wired(crd, ns, name)
    ensures Wired(Rotated(crd, ca), ns, name)
  {
  }

  lemma StepStaysWired(crds: Crds, e: Event, ns: string, name: string)
    requires AllWired(crds, ns, name) && Proper(e) && Asks(e, ns, name)
    ensures AllWired(Step(crds, e), ns, name)
  {
    hide Decide;
    hide Rotated;
    hide Wired;
    forall k | k in Step(crds, e) ensures Wired(Step(crds, e)[k], ns, name) {
      assert k in crds ==> Wired(crds[k], ns, name);
      if e.Reconcile? && k == KeyOf(e.gen) {
        DecideWired(At(crds, k), e.gen, e.opts);
      } else if e.Rotate? && k in crds {
        RotatedWired(crds[k], e.ca, ns, name);
      }
    }
  }

  /**
   * Over every run, also after status rewrites and rotations, each CRD with several versions is converted by
   * the service that the requests name.
   */
  lemma {:induction false} RunStaysWired(crds: Crds, events: seq<Event>, ns: string, name: string)
    requires AllWired(crds, ns, name)
    requires forall i :: 0 <= i < |events| ==> Proper(events[i]) && Asks(events[i], ns, name)
    ensures AllWired(Execute(crds, events), ns, name)
    decreases |events|
  {
    hide Step;
    if events != [] {
      StepStaysWired(crds, events[0], ns, name);
      RunStaysWired(Step(crds, events[0]), events[1..], ns, name);
    }
  }

  /** A version is appended only with a bundle and a service to convert to; otherwise the call fails. */
  lemma AppendNeedsService(crd: Spec, gen: Spec, opts: ApplyOpts)
    requires gen.versions != [] && StatusesEqual(crd.versions, gen.versions) == Ok(true)
    requires crd.group != gen.group || crd.kind != gen.kind ||
             forall i :: 0 <= i < |crd.versions| ==> crd.versions[i].name != gen.versions[0].name
    ensures var d := Decide(Some(crd), gen, opts);
            && (d.Store? <==> opts.caBundle.Some? && opts.serviceName != "" && opts.serviceNamespace != "")
            && !d.Skip?
  {
    hide AppendAll;
    hide SetFlags;
  }

  /** A call that appends a version hands the CRD the bundle it was given. */
  lemma AppendTrusts(crd: Spec, gen: Spec, opts: ApplyOpts)
    requires Appends(crd, gen, opts)
    ensures gen.versions != []
    ensures var d := Decide(Some(crd), gen, opts);
            d.Store? && CompleteConversion(d.crd.conversion)
            && Some(d.crd.conversion.value.webhook.value.clientConfig.value.caBundle) == opts.caBundle
  {
    hide AppendAll;
    hide SetFlags;
  }

  /** The reconcile loop keeps its CRDs converted by the service it is configured with. */
  lemma {:induction false} RoundsStayWired(cfg: Reconcile.Config, st: Reconcile.State, beats: seq<Reconcile.Beat>)
    requires |cfg.gen.versions| == 1 && AllWired(st.crds, cfg.opts.serviceNamespace, cfg.opts.serviceName)
    ensures AllWired(Reconcile.Rounds(cfg, st, beats).crds, cfg.opts.serviceNamespace, cfg.opts.serviceName)
    decreases |beats|
  {
    hide Reconcile.Round;
    if beats != [] {
      var b := beats[0];
      RoundStaysWired(cfg.At(b), st, b.now);
      RoundsStayWired(cfg, Reconcile.Round(cfg.At(b), st, b.now), beats[1..]);
    }
  }

  lemma RoundStaysWired(cfg: Reconcile.Config, st: Reconcile.State, now: string)
    requires |cfg.gen.versions| == 1 && AllWired(st.crds, cfg.opts.serviceNamespace, cfg.opts.serviceName)
    ensures AllWired(Reconcile.Round(cfg, st, now).crds, cfg.opts.serviceNamespace, cfg.opts.serviceName)
  {
    hide Step;
    hide Reconcile.Observe;
    var ns, name, e := cfg.opts.serviceNamespace, cfg.opts.serviceName, Reconcile(cfg.gen, cfg.opts, true);
    var applied := Step(st.crds, e);
    StepStaysWired(st.crds, e, ns, name);
    StepStaysWired(applied, Rotate(KeyOf(cfg.gen), cfg.ca), ns, name);
    CrdsOfRound(cfg, st, now);
  }

  lemma CrdsOfRound(cfg: Reconcile.Config, st: Reconcile.State, now: string)
    requires cfg.Versioned()
    ensures Reconcile.Round(cfg, st, now).crds in
              {st.crds, Step(Step(st.crds, Reconcile(cfg.gen, cfg.opts, true)), Rotate(KeyOf(cfg.gen), cfg.ca))}
  {
    hide Reconcile.Observe;
    hide Step;
  }

  // ---- the properties of a version ----

  /** A version's schema without its status. */
  function Rest(v: Version): Option<Option<map<string, string>>>
  {
    match v.schema
    case None => None
    case Some(None) => Some(None)
    case Some(Some(properties)) => Some(Some(properties - {STATUS}))
  }

  /** Versions keep their places, their names and all properties but the status; others may follow. */
  ghost predicate KeepsSchemas(vs: seq<Version>, vs': seq<Version>)
  {
    |vs| <= |vs'| && forall i :: 0 <= i < |vs| ==> vs'[i].name == vs[i].name && Rest(vs'[i]) == Rest(vs[i])
  }

  lemma {:induction false} AppendKeepsSchemas(vs: seq<Version>, added: seq<Version>)
    ensures KeepsSchemas(vs, AppendAll(vs, added))
    decreases |added|
  {
    if added != [] {
      AppendKeepsSchemas(AppendOne(vs, added[0]), added[1..]);
    }
  }

  lemma DecideKeepsSchemas(crd: Spec, gen: Spec, opts: ApplyOpts)
    requires gen.versions != [] && Decide(Some(crd), gen, opts).Store?
    ensures KeepsSchemas(crd.versions, Decide(Some(crd), gen, opts).crd.versions)
  {
    hide AppendAll;
    hide Rest;
    hide Flagged;
    hide WithStatus;
    hide StatusesEqual;
    hide HasGVK;
    hide WebhookConversion;
    var status := Property(gen.versions[0].schema, STATUS);
    AppendKeepsSchemas(crd.versions, gen.versions);
    forall v: Version
      ensures WithStatus(v, status).name == v.name && Rest(WithStatus(v, status)) == Rest(v)
      ensures Flagged(v, gen.versions[0].name, true, false).name == v.name
      ensures Rest(Flagged(v, gen.versions[0].name, true, false)) == Rest(v)
    {
      RestKept(v, status, gen.versions[0].name, true, false);
    }
  }

  /** Neither a status nor flags belong to it. */
  lemma RestKept(v: Version, status: string, name: string, served: bool, storage: bool)
    ensures WithStatus(v, status).name == v.name && Rest(WithStatus(v, status)) == Rest(v)
    ensures Flagged(v, name, served, storage).name == v.name && Rest(Flagged(v, name, served, storage)) == Rest(v)
    ensures Demoted(v).name == v.name && Rest(Demoted(v)) == Rest(v)
  {
    if v.schema.Some? && v.schema.value.Some? {
      var m := v.schema.value.value;
      assert m[STATUS := status] - {STATUS} == m - {STATUS};
    }
  }

  lemma StepKeepsSchemas(crds: Crds, e: Event, key: GroupResource)
    requires Proper(e) && key in crds && e != Delete(key)
    ensures key in Step(crds, e) && KeepsSchemas(crds[key].versions, Step(crds, e)[key].versions)
  {
    hide Decide;
    if e.Reconcile? && KeyOf(e.gen) == key && Decide(Some(crds[key]), e.gen, e.opts).Store? {
      DecideKeepsSchemas(crds[key], e.gen, e.opts);
    }
  }

  /** Whatever the generated CRDs say: until its deletion no call changes a listed version, but for its status. */
  lemma {:induction false} RunKeepsSchemas(crds: Crds, events: seq<Event>, key: GroupResource)
    requires forall i :: 0 <= i < |events| ==> Proper(events[i]) && events[i] != Delete(key)
    requires key in crds
    ensures key in Execute(crds, events) && KeepsSchemas(crds[key].versions, Execute(crds, events)[key].versions)
    decreases |events|
  {
    hide Step;
    if events != [] {
      StepKeepsSchemas(crds, events[0], key);
      RunKeepsSchemas(Step(crds, events[0]), events[1..], key);
    }
  }

  /** Where versions come from: a set of names, each with the properties it may have under a key. */
  type Origin = (GroupResource, string, Option<Option<map<string, string>>>) -> bool

  ghost predicate ComesFrom(crds: Crds, origin: Origin)
  {
    forall k, i :: k in crds && 0 <= i < |crds[k].versions| ==> FromOne(k, crds[k].versions[i], origin)
  }

  predicate FromOne(k: GroupResource, v: Version, origin: Origin)
  {
    origin(k, v.name, Rest(v))
  }

  ghost predicate AllFrom(k: GroupResource, vs: seq<Version>, origin: Origin)
  {
    forall i :: 0 <= i < |vs| ==> FromOne(k, vs[i], origin)
  }

  ghost predicate Sourced(e: Event, origin: Origin)
  {
    e.Reconcile? ==> AllFrom(KeyOf(e.gen), e.gen.versions, origin)
  }

  lemma {:induction false} AppendComesFrom(k: GroupResource, vs: seq<Version>, added: seq<Version>, origin: Origin)
    requires AllFrom(k, vs, origin) && AllFrom(k, added, origin) && FromOne(k, VACUUM_VERSION, origin)
    ensures AllFrom(k, AppendAll(vs, added), origin)
    decreases |added|
  {
    if added != [] {
      AppendOneComesFrom(k, vs, added[0], origin);
      AppendComesFrom(k, AppendOne(vs, added[0]), added[1..], origin);
    }
  }

  lemma AppendOneComesFrom(k: GroupResource, vs: seq<Version>, v: Version, origin: Origin)
    requires AllFrom(k, vs, origin) && FromOne(k, v, origin) && FromOne(k, VACUUM_VERSION, origin)
    ensures AllFrom(k, AppendOne(vs, v), origin)
  {
    var grown := vs + [v] + if HasName(vs, VACUUM) then [] else [VACUUM_VERSION];
    forall i | 0 <= i < |grown| ensures FromOne(k, grown[i], origin) {
      assert i < |vs| ==> grown[i] == vs[i];
    }
    forall i | 0 <= i < |grown| ensures FromOne(k, Demote(grown)[i], origin) {
      assert FromOne(k, grown[i], origin);
      RestKept(grown[i], "", "", true, false);
    }
  }

  lemma DecideComesFrom(found: Option<Spec>, gen: Spec, opts: ApplyOpts, origin: Origin)
    requires gen.versions != [] && Decide(found, gen, opts).Store?
    requires found.Some? ==> KeyOf(found.value) == KeyOf(gen) && AllFrom(KeyOf(gen), found.value.versions, origin)
    requires AllFrom(KeyOf(gen), gen.versions, origin) && FromOne(KeyOf(gen), VACUUM_VERSION, origin)
    ensures AllFrom(KeyOf(gen), Decide(found, gen, opts).crd.versions, origin)
  {
    hide AppendAll;
    hide Rest;
    hide Flagged;
    hide WithStatus;
    hide StatusesEqual;
    hide HasGVK;
    hide WebhookConversion;
    if found.Some? {
      var k, status, name := KeyOf(gen), Property(gen.versions[0].schema, STATUS), gen.versions[0].name;
      var grown := AppendAll(found.value.versions, gen.versions);
      AppendComesFrom(k, found.value.versions, gen.versions, origin);
      forall v: Version | FromOne(k, v, origin)
        ensures FromOne(k, WithStatus(v, status), origin) && FromOne(k, Flagged(v, name, true, false), origin)
      {
        RestKept(v, status, name, true, false);
      }
    }
  }

  ghost predicate Keyed(crds: Crds)
  {
    forall k :: k in crds ==> KeyOf(crds[k]) == k
  }

  lemma StepComesFrom(crds: Crds, e: Event, origin: Origin)
    requires Proper(e) && Keyed(crds) && ComesFrom(crds, origin) && Sourced(e, origin)
    requires forall k :: FromOne(k, VACUUM_VERSION, origin)
    ensures Keyed(Step(crds, e)) && ComesFrom(Step(crds, e), origin)
  {
    hide Decide;
    hide FromOne;
    if e.Reconcile? {
      var found := At(crds, KeyOf(e.gen));
      if Decide(found, e.gen, e.opts).Store? {
        assert found.Some? ==> AllFrom(KeyOf(e.gen), found.value.versions, origin);
        DecideComesFrom(found, e.gen, e.opts, origin);
        KeyDecided(found, e.gen, e.opts);
      }
    }
  }

  lemma KeyDecided(found: Option<Spec>, gen: Spec, opts: ApplyOpts)
    requires gen.versions != [] && (found.Some? ==> KeyOf(found.value) == KeyOf(gen))
    ensures Decide(found, gen, opts).Store? ==> KeyOf(Decide(found, gen, opts).crd) == KeyOf(gen)
  {
    hide AppendAll;
    hide SetFlags;
  }

  /**
   * Nothing makes versions up: over every run each version in the cluster was there before, was generated
   * under that key with these properties, or is the hidden one.
   */
  lemma {:induction false} RunComesFrom(crds: Crds, events: seq<Event>, origin: Origin)
    requires Keyed(crds) && ComesFrom(crds, origin)
    requires forall i :: 0 <= i < |events| ==> Proper(events[i]) && Sourced(events[i], origin)
    requires forall k :: FromOne(k, VACUUM_VERSION, origin)
    ensures ComesFrom(Execute(crds, events), origin)
    decreases |events|
  {
    hide Step;
    hide FromOne;
    hide Sourced;
    if events != [] {
      StepComesFrom(crds, events[0], origin);
      RunComesFrom(Step(crds, events[0]), events[1..], origin);
    }
  }

  // ---- the storage version ----

  const KEEPS_UNKNOWN := "{\"type\":\"object\",\"x-kubernetes-preserve-unknown-fields\":true}"

  /** A version that stores objects next to others keeps fields of the spec that it does not know. */
  ghost predicate StoresAll(crd: Spec)
  {
    forall i :: 0 <= i < |crd.versions| && |crd.versions| > 1 && crd.versions[i].storage ==>
      Property(crd.versions[i].schema, "spec") == KEEPS_UNKNOWN
  }

  /** The properties of the hidden version, the status aside. */
  function HiddenOnly(): Origin
  {
    (k: GroupResource, name: string, rest: Option<Option<map<string, string>>>) =>
      name == VACUUM ==> rest == Rest(VACUUM_VERSION)
  }

  lemma HiddenSources(crds: Crds, events: seq<Event>, kinds: map<GroupResource, string>)
    requires AllGood(crds, kinds) && Allowed(events, kinds)
    requires forall k, i :: k in crds && 0 <= i < |crds[k].versions| && crds[k].versions[i].name == VACUUM ==>
               Rest(crds[k].versions[i]) == Rest(VACUUM_VERSION)
    ensures Keyed(crds) && ComesFrom(crds, HiddenOnly()) && forall k :: FromOne(k, VACUUM_VERSION, HiddenOnly())
    ensures forall i :: 0 <= i < |events| ==> Sourced(events[i], HiddenOnly())
  {
    hide Good;
    hide Rest;
    forall k | k in crds ensures KeyOf(crds[k]) == k {
      assert GoodAt(crds[k], k, kinds);
    }
    forall i | 0 <= i < |events| ensures Sourced(events[i], HiddenOnly()) {
      assert AllowedEvent(events[i], kinds);
    }
  }

  /** Over every run, what a CRD with several versions stores keeps all fields of the spec. */
  lemma RunStoresAll(crds: Crds, events: seq<Event>, kinds: map<GroupResource, string>)
    requires AllGood(crds, kinds) && Allowed(events, kinds)
    requires forall k, i :: k in crds && 0 <= i < |crds[k].versions| && crds[k].versions[i].name == VACUUM ==>
               Rest(crds[k].versions[i]) == Rest(VACUUM_VERSION)
    ensures forall k :: k in Execute(crds, events) ==> StoresAll(Execute(crds, events)[k])
  {
    hide Execute;
    hide Good;
    hide FromOne;
    hide Proper;
    var after := Execute(crds, events);
    RunKeepsGood(crds, events, kinds);
    HiddenSources(crds, events, kinds);
    RunComesFrom(crds, events, HiddenOnly());
    forall k | k in after ensures StoresAll(after[k]) {
      assert GoodAt(after[k], k, kinds);
      forall i | 0 <= i < |after[k].versions| && |after[k].versions| > 1 && after[k].versions[i].storage
        ensures Property(after[k].versions[i].schema, "spec") == KEEPS_UNKNOWN
      {
        StorageIsHidden(after[k], i);
        HiddenSpec(k, after[k].versions[i]);
      }
    }
  }

  lemma StorageIsHidden(crd: Spec, i: nat)
    requires Good(crd) && |crd.versions| > 1 && i < |crd.versions| && crd.versions[i].storage
    ensures crd.versions[i].name == VACUUM
  {
  }

  lemma HiddenSpec(k: GroupResource, v: Version)
    requires v.name == VACUUM && FromOne(k, v, HiddenOnly())
    ensures Property(v.schema, "spec") == KEEPS_UNKNOWN
  {
    assert Rest(v) == Rest(VACUUM_VERSION);
    var hidden := VACUUM_VERSION.schema.value.value - {STATUS};
    assert "spec" in hidden && hidden["spec"] == KEEPS_UNKNOWN;
    assert v.schema.Some? && v.schema.value.Some?;
    var m := v.schema.value.value;
    assert m - {STATUS} == hidden;
    assert "spec" in m && m["spec"] == (m - {STATUS})["spec"];
  }

  /**
   * Not so for the status: it keeps unknown fields when the hidden version is appended, and the next rewrite
   * gives it the generated status like all others.
   */
  lemma StorageStatus(crd: Spec, gen: Spec, opts: ApplyOpts, i: nat)
    requires Competes(crd, gen, opts) && i < |crd.versions| && crd.versions[i].name == VACUUM
    ensures gen.versions != []
    ensures Property(VACUUM_VERSION.schema, STATUS) == KEEPS_UNKNOWN
    ensures var d := Decide(Some(crd), gen, opts);
            d.Store? ==>
              && i < |d.crd.versions|
              && Property(d.crd.versions[i].schema, STATUS) ==
                 if StatusesEqual(crd.versions, gen.versions) == Ok(true) then Property(crd.versions[i].schema, STATUS)
                 else Property(gen.versions[0].schema, STATUS)
  {
    hide AppendAll;
    StatusCheckIsExact(crd, gen);
    if StatusesEqual(crd.versions, gen.versions) == Ok(true) {
      AppendKeepsStatus(crd.versions, gen.versions);
    }
  }

  lemma {:induction false} AppendKeepsStatus(vs: seq<Version>, added: seq<Version>)
    ensures var vs' := AppendAll(vs, added);
            |vs| <= |vs'| && forall i :: 0 <= i < |vs| ==> vs'[i].schema == vs[i].schema
    decreases |added|
  {
    if added != [] {
      AppendKeepsStatus(AppendOne(vs, added[0]), added[1..]);
    }
  }
}
