/** internal/controllers/certificates/certificates.go: the certificate manager and its loop over definitions. */
module CertManager {
  import opened Wrappers
  import opened CertPropagation
  import CrdClient
  import Generation
  import Kube
  import Retry
  import Status

  type Key = CrdClient.GroupResource
  type Crds = CrdClient.Crds
  type Event = CrdClient.Event

  /** How the section under `certGenMu` ends: nothing to do, a new pair in place, or an error. */
  datatype Rotation = StillValid | Renewed(ca: string) | RotationFailed

  datatype Failure = Rotating | Propagating(e: Error)

  /** Group, version and kind to the resource that serves them; not found when there is none. */
  datatype GVK = GVK(group: string, version: string, kind: string)
  type Resolver = GVK -> Result<Key, Kube.ApiError>

  /** The definition has recorded what it applied last. */
  predicate Recorded(d: Status.DefinitionStatus)
  {
    (d.group != "" || d.version != "") && d.kind != ""
  }

  function Resolved(d: Status.DefinitionStatus, resolve: Resolver): Result<Key, Kube.ApiError>
  {
    resolve(GVK(d.group, d.version, d.kind))
  }

  /** The updates due for the first `n` definitions; definition number i finds the bundle `seen[i]`. */
  function Rotations(defs: seq<Status.DefinitionStatus>, resolve: Resolver, seen: seq<string>, n: nat): seq<Event>
    requires n <= |defs| == |seen|
  {
    if n == 0 then []
    else
      Rotations(defs, resolve, seen, n - 1)
      + if Recorded(defs[n - 1]) && Resolved(defs[n - 1], resolve).Ok?
        then [CrdClient.Rotate(Resolved(defs[n - 1], resolve).value, seen[n - 1])] else []
  }

  ghost predicate OnlyRotations(events: seq<Event>)
  {
    forall i :: 0 <= i < |events| ==> events[i].Rotate?
  }

  lemma {:induction false} RotationsOnly(defs: seq<Status.DefinitionStatus>, resolve: Resolver,
                                         seen: seq<string>, n: nat)
    requires n <= |defs| == |seen|
    ensures OnlyRotations(Rotations(defs, resolve, seen, n))
  {
    if n > 0 {
      RotationsOnly(defs, resolve, seen, n - 1);
    }
  }

  lemma {:induction false} ExecuteMore(crds: Crds, events: seq<Event>, e: Event)
    requires OnlyRotations(events) && e.Rotate?
    ensures CrdClient.Execute(crds, events + [e]) == CrdClient.Step(CrdClient.Execute(crds, events), e)
    decreases |events|
  {
    if events == [] {
      assert CrdClient.Execute(CrdClient.Step(crds, e), [e][1..]) == CrdClient.Step(crds, e);
    } else {
      assert (events + [e])[1..] == events[1..] + [e];
      ExecuteMore(CrdClient.Step(crds, events[0]), events[1..], e);
    }
  }

  /** In every reachable state, updating the bundle of a CRD with several versions cannot fail. */
  lemma GoodIsSound(crds: Crds, kinds: map<Key, string>, gr: Key)
    requires CrdClient.AllGood(crds, kinds)
    ensures Sound(crds, gr)
  {
    if gr in crds {
      assert CrdClient.GoodAt(crds[gr], gr, kinds);
    }
  }

  /** The bundle a CRD's conversion webhook trusts. */
  function BundleOf(crd: Generation.Spec): string
    requires Generation.CompleteConversion(crd.conversion)
  {
    crd.conversion.value.webhook.value.clientConfig.value.caBundle
  }

  ghost predicate Trusts(crd: Generation.Spec, ca: string)
  {
    |crd.versions| > 1 ==> Generation.CompleteConversion(crd.conversion) && BundleOf(crd) == ca
  }

  lemma StepReaches(crds: Crds, e: Event, kinds: map<Key, string>, ca: string, key: Key)
    requires CrdClient.AllGood(crds, kinds) && e.Rotate? && e.ca == ca && key in crds
    ensures var next := CrdClient.Step(crds, e);
            && next.Keys == crds.Keys
            && next[key].versions == crds[key].versions
            && (Trusts(crds[key], ca) || e.key == key ==> Trusts(next[key], ca))
  {
    hide CrdClient.Good;
    hide CrdClient.Rotated;
    hide Trusts;
    assert CrdClient.GoodAt(crds[key], key, kinds);
    RotatedTrusts(crds[key], ca);
  }

  lemma RotatedTrusts(crd: Generation.Spec, ca: string)
    requires CrdClient.Good(crd)
    ensures Trusts(CrdClient.Rotated(crd, ca), ca) && CrdClient.Rotated(crd, ca).versions == crd.versions
  {
  }

  /**
   * If the bundle did not change during the loop, it ends up in every CRD with several versions that a
   * recorded definition resolves to; and no CRD comes or goes, or changes its versions.
   */
  lemma {:induction false} BundleReaches(crds: Crds, events: seq<Event>, kinds: map<Key, string>, ca: string, key: Key,
                                         reached: bool)
    requires CrdClient.AllGood(crds, kinds) && OnlyRotations(events)
    requires forall i :: 0 <= i < |events| ==> events[i].ca == ca
    requires key in crds && (reached ==> Trusts(crds[key], ca))
    ensures var after := CrdClient.Execute(crds, events);
            && after.Keys == crds.Keys && after[key].versions == crds[key].versions
            && (reached || CrdClient.Rotate(key, ca) in events ==> Trusts(after[key], ca))
    decreases |events|
  {
    hide Trusts;
    hide CrdClient.AllGood;
    hide CrdClient.Step;
    if events != [] {
      var next := CrdClient.Step(crds, events[0]);
      CrdClient.StepKeepsGood(crds, events[0], kinds);
      StepReaches(crds, events[0], kinds, ca, key);
      var hit := reached || events[0] == CrdClient.Rotate(key, ca);
      assert CrdClient.Rotate(key, ca) in events ==> hit || CrdClient.Rotate(key, ca) in events[1..];
      BundleReaches(next, events[1..], kinds, ca, key, hit);
    }
  }

  /** The recorded and resolved definitions among the first `n` are exactly the ones rotated. */
  lemma {:induction false} RotationsCover(defs: seq<Status.DefinitionStatus>, resolve: Resolver, seen: seq<string>,
                                          n: nat, i: nat)
    requires i < n <= |defs| == |seen|
    requires Recorded(defs[i]) && Resolved(defs[i], resolve).Ok?
    ensures CrdClient.Rotate(Resolved(defs[i], resolve).value, seen[i]) in Rotations(defs, resolve, seen, n)
  {
    if i < n - 1 {
      RotationsCover(defs, resolve, seen, n - 1, i);
    }
  }

  lemma {:induction false} RotationsCarry(defs: seq<Status.DefinitionStatus>, resolve: Resolver, seen: seq<string>,
                                          n: nat, ca: string)
    requires n <= |defs| == |seen| && forall i :: 0 <= i < n ==> seen[i] == ca
    ensures OnlyRotations(Rotations(defs, resolve, seen, n))
    ensures forall e :: e in Rotations(defs, resolve, seen, n) ==> e.ca == ca
  {
    if n > 0 {
      RotationsCarry(defs, resolve, seen, n - 1, ca);
    }
  }

  /** Definitions that have not recorded an API version and a kind are passed over. */
  lemma {:induction false} UnrecordedSkipped(defs: seq<Status.DefinitionStatus>, resolve: Resolver, seen: seq<string>,
                                             n: nat)
    requires n <= |defs| == |seen|
    requires forall i :: 0 <= i < n ==> (defs[i].group == "" && defs[i].version == "") || defs[i].kind == ""
    ensures Rotations(defs, resolve, seen, n) == []
  {
    if n > 0 {
      UnrecordedSkipped(defs, resolve, seen, n - 1);
    }
  }

  /** What the loop reaches when the bundle stays the same. */
  lemma LoopReaches(crds: Crds, kinds: map<Key, string>, defs: seq<Status.DefinitionStatus>, resolve: Resolver,
                    seen: seq<string>, ca: string, i: nat)
    requires CrdClient.AllGood(crds, kinds) && i < |defs| == |seen|
    requires forall j :: 0 <= j < |seen| ==> seen[j] == ca
    requires Recorded(defs[i]) && Resolved(defs[i], resolve).Ok? && Resolved(defs[i], resolve).value in crds
    ensures var events := Rotations(defs, resolve, seen, |defs|);
            && OnlyRotations(events)
            && Resolved(defs[i], resolve).value in CrdClient.Execute(crds, events)
            && Trusts(CrdClient.Execute(crds, events)[Resolved(defs[i], resolve).value], ca)
  {
    RotationsCarry(defs, resolve, seen, |defs|, ca);
    RotationsCover(defs, resolve, seen, |defs|, i);
    BundleReaches(crds, Rotations(defs, resolve, seen, |defs|), kinds, ca, Resolved(defs[i], resolve).value, false);
  }

  /** The webhook configuration after the same updates. */
  function HooksAfter(hooks: map<string, Hook>, m: Setup, events: seq<Event>): map<string, Hook>
    requires OnlyRotations(events)
  {
    if events == [] || m.render.None? then hooks
    else AfterHook(HooksAfter(hooks, m, events[..|events| - 1]), m, events[|events| - 1].ca)
  }

  /** If the bundle stays the same, the webhook configuration ends up with it, however often it is written. */
  lemma {:induction false} HookReaches(hooks: map<string, Hook>, m: Setup, events: seq<Event>, ca: string)
    requires Faithful(m) && OnlyRotations(events) && m.render.Some? && events != []
    requires forall e :: e in events ==> e.ca == ca
    ensures HooksAfter(hooks, m, events)
         == hooks[m.hookName := m.hookServer(At(hooks, m.hookName), m.render.value(ca))]
  {
    var rest := events[..|events| - 1];
    if rest != [] {
      HookReaches(hooks, m, rest, ca);
      HookTwice(hooks, AfterHook(hooks, m, ca), m, ca);
    }
  }

  lemma HooksMore(hooks: map<string, Hook>, m: Setup, events: seq<Event>, e: Event)
    requires OnlyRotations(events) && e.Rotate? && m.render.Some?
    ensures OnlyRotations(events + [e])
    ensures HooksAfter(hooks, m, events + [e]) == AfterHook(HooksAfter(hooks, m, events), m, e.ca)
  {
    assert (events + [e])[..|events|] == events;
  }

  /** Every definition was handled: skipped, or found with a CRD and a well-formed bundle. */
  ghost predicate Handled(crds: Crds, d: Status.DefinitionStatus, resolve: Resolver, ca: string)
  {
    Recorded(d) ==>
      match Resolved(d, resolve)
      case Ok(key) => key in crds && Formatted(ca)
      case Err(e) => e == Kube.NotFound
  }

  class Manager {
    const crds: Kube.Client<Key, Generation.Spec>
    const hooks: Kube.Client<string, Hook>
    const hookName: string
    const render: Option<string -> Hook>
    /** `None` until a certificate has been read. */
    var caBundle: Option<string>

    constructor (crds: Kube.Client<Key, Generation.Spec>, hooks: Kube.Client<string, Hook>, hookName: string,
                 render: Option<string -> Hook>, caBundle: Option<string>)
      ensures this.crds == crds && this.hooks == hooks && this.hookName == hookName && this.render == render
      ensures this.caBundle == caBundle
    {
      this.crds, this.hooks, this.hookName, this.render, this.caBundle := crds, hooks, hookName, render, caBundle;
    }

    function Setup(): Setup
    {
      CertPropagation.Setup(crds.server, hooks.server, hookName, render)
    }

    function Here(): Places
      reads crds, hooks
    {
      Places(crds.world, hooks.world)
    }

    /** The three objects are apart, the API server keeps CRDs verbatim, and nobody else writes. */
    ghost predicate Ready()
      reads crds, hooks
    {
      && crds as object != hooks as object && crds as object != this && hooks as object != this
      && QuietPlaces(Here()) && Faithful(Setup())
    }

    /** One attempt, as `propagateCABundle` makes it. */
    method PropagateCABundle(ca: string, gr: Key) returns (err: Option<Error>)
      requires crds as object != hooks as object
      modifies crds, hooks
      ensures (Here(), if err.Some? then Err(err.value) else Ok(())) == PropagateOnce(old(Here()), Setup(), gr, ca)
    {
      hide Kube.ApplySpec;
      var got := crds.Get(gr);
      if got.Err? {
        return Some(if got.error == Kube.NotFound then Missing else Request(got.error));
      }
      var crd := new Generation.Crd(got.value);
      if |crd.versions| > 1 {
        var failed := crd.UpdateCABundle(ca);
        if failed.Some? {
          return Some(Unconvertible);
        }
        var applied := crds.Apply(CrdClient.KeyOf(crd.Value()), crd.Value(), false);
        if applied.Err? {
          return Some(Request(applied.error));
        }
      }
      if render.None? {
        return Some(NoTemplate);
      }
      var hooked := hooks.Apply(hookName, render.value(ca), false);
      err := if hooked.Err? then Some(Request(hooked.error)) else None;
    }

    method PropagateCABundleWithRetry(ca: string, gr: Key) returns (err: Option<Error>)
      requires Ready() && Sound(crds.Objects(), gr)
      modifies crds, hooks
      ensures Ready()
      ensures err.None? ==>
                && Formatted(ca) && gr in old(crds.Objects()) && render.Some?
                && crds.Objects() == AfterCrd(old(crds.Objects()), gr, ca)
                && hooks.Objects() == AfterHook(old(hooks.Objects()), Setup(), ca)
      ensures err.Some? ==>
                && (crds.Objects() == old(crds.Objects()) || crds.Objects() == AfterCrd(old(crds.Objects()), gr, ca))
                && SameHook(old(hooks.Objects()), hooks.Objects(), Setup(), ca)
      ensures err != Some(Unconvertible)
      ensures !Formatted(ca) ==> err == Some(BadFormat) && Here() == old(Here())
      ensures old(SmoothPlaces(Here())) && Formatted(ca) && gr in old(crds.Objects()) && render.Some? ==>
                SmoothPlaces(Here()) && err.None?
    {
      hide AfterCrd;
      hide AfterHook;
      hide Faithful;
      hide Kube.View;
      hide Formatted;
      hide PropagateOnce;
      var ok := ValidateCABundleFormat(ca);
      if !ok {
        return Some(BadFormat);
      }
      ghost var before := Here();
      PropagateQuiet(before, Setup(), gr, ca);
      if SmoothPlaces(before) && gr in crds.Objects() && render.Some? {
        PropagateSmooth(before, Setup(), gr, ca);
      }
      var run := Retry.Do(BUNDLE_RETRY, Attempt(Setup(), gr, ca), Wait(), Missing, Here());
      crds.world := run.world.crds;
      hooks.world := run.world.hooks;
      assert Here() == PropagateSpec(before, Setup(), gr, ca).0;
      err := if run.result.Err? then Some(run.result.error) else None;
    }

    /** One definition of the loop. */
    method UpdateOne(d: Status.DefinitionStatus, resolve: Resolver, ca: string) returns (err: Option<Error>)
      requires Ready() && forall gr :: Sound(crds.Objects(), gr)
      modifies crds, hooks
      ensures Ready()
      ensures err.None? ==>
                && Handled(old(crds.Objects()), d, resolve, ca)
                && crds.Objects() == if Recorded(d) && Resolved(d, resolve).Ok?
                                     then AfterCrd(old(crds.Objects()), Resolved(d, resolve).value, ca)
                                     else old(crds.Objects())
      ensures err.None? ==>
                if Recorded(d) && Resolved(d, resolve).Ok?
                then render.Some? && hooks.Objects() == AfterHook(old(hooks.Objects()), Setup(), ca)
                else hooks.Objects() == old(hooks.Objects())
      ensures err.Some? ==>
                || hooks.Objects() == old(hooks.Objects())
                || (&& Recorded(d) && Resolved(d, resolve).Ok? && render.Some?
                    && hooks.Objects() == AfterHook(old(hooks.Objects()), Setup(), ca))
      ensures err.Some? ==>
                || crds.Objects() == old(crds.Objects())
                || (Recorded(d) && Resolved(d, resolve).Ok?
                    && crds.Objects() == AfterCrd(old(crds.Objects()), Resolved(d, resolve).value, ca))
      ensures err != Some(Unconvertible)
    {
      hide AfterCrd;
      hide AfterHook;
      hide Formatted;
      hide Kube.View;
      hide Sound;
      err := None;
      if (d.group != "" || d.version != "") && d.kind != "" {
        var gr := resolve(GVK(d.group, d.version, d.kind));
        if gr.Err? {
          if gr.error == Kube.NotFound {
            return None;
          }
          return Some(NoMapping(gr.error));
        }
        err := PropagateCABundleWithRetry(ca, gr.value);
      }
    }

    /**
     * The loop over all definitions. `seen[i]` is the bundle in memory when definition number i is
     * reached; a rotation may change it in between.
     */
    method UpdateExistingResources(defs: seq<Status.DefinitionStatus>, resolve: Resolver, seen: seq<string>,
                                   ghost kinds: map<Key, string>) returns (err: Option<Error>)
      requires Ready() && CrdClient.AllGood(crds.Objects(), kinds) && |seen| == |defs|
      modifies crds, hooks
      ensures Ready() && CrdClient.AllGood(crds.Objects(), kinds)
      ensures OnlyRotations(Rotations(defs, resolve, seen, |defs|))
      ensures err.None? ==>
                && crds.Objects() == CrdClient.Execute(old(crds.Objects()), Rotations(defs, resolve, seen, |defs|))
                && forall i :: 0 <= i < |defs| ==> Handled(crds.Objects(), defs[i], resolve, seen[i])
      ensures err.None? ==>
                hooks.Objects() == HooksAfter(old(hooks.Objects()), Setup(), Rotations(defs, resolve, seen, |defs|))
      ensures err.Some? ==>
                exists n :: (&& 0 <= n <= |defs| && OnlyRotations(Rotations(defs, resolve, seen, n))
                             && crds.Objects() ==
                                CrdClient.Execute(old(crds.Objects()), Rotations(defs, resolve, seen, n)))
      ensures err.Some? ==>
                exists n :: (&& 0 <= n <= |defs| && OnlyRotations(Rotations(defs, resolve, seen, n))
                             && hooks.Objects() ==
                                HooksAfter(old(hooks.Objects()), Setup(), Rotations(defs, resolve, seen, n)))
      ensures err != Some(Unconvertible)
    {
      hide Formatted;
      hide Kube.View;
      hide Sound;
      hide CrdClient.AllGood;
      hide CrdClient.Step;
      hide AfterHook;
      hide HooksAfter;
      ghost var before, hooked := crds.Objects(), hooks.Objects();
      NoHooks(hooked);
      RotationsOnly(defs, resolve, seen, |defs|);
      for i := 0 to |defs|
        invariant Ready() && CrdClient.AllGood(crds.Objects(), kinds)
        invariant OnlyRotations(Rotations(defs, resolve, seen, i))
        invariant crds.Objects() == CrdClient.Execute(before, Rotations(defs, resolve, seen, i))
        invariant hooks.Objects() == HooksAfter(hooked, Setup(), Rotations(defs, resolve, seen, i))
        invariant forall k :: 0 <= k < i ==> Handled(crds.Objects(), defs[k], resolve, seen[k])
      {
        ghost var now := crds.Objects();
        forall gr ensures Sound(now, gr) {
          GoodIsSound(now, kinds, gr);
        }
        err := UpdateOne(defs[i], resolve, seen[i]);
        LoopStep(before, now, defs, resolve, seen, i, kinds);
        HookStep(hooked, defs, resolve, seen, i);
        if err.Some? {
          return;
        }
      }
      err := None;
    }

    lemma NoHooks(hooked: map<string, Hook>)
      ensures HooksAfter(hooked, Setup(), []) == hooked
    {
    }

    lemma HookStep(hooked: map<string, Hook>, defs: seq<Status.DefinitionStatus>, resolve: Resolver, seen: seq<string>,
                   i: nat)
      requires i < |defs| == |seen| && OnlyRotations(Rotations(defs, resolve, seen, i))
      ensures OnlyRotations(Rotations(defs, resolve, seen, i + 1))
      ensures var d, events := defs[i], Rotations(defs, resolve, seen, i);
              var now := HooksAfter(hooked, Setup(), events);
              HooksAfter(hooked, Setup(), Rotations(defs, resolve, seen, i + 1)) ==
              if Recorded(d) && Resolved(d, resolve).Ok? && render.Some? then AfterHook(now, Setup(), seen[i]) else now
    {
      hide AfterHook;
      var d, events := defs[i], Rotations(defs, resolve, seen, i);
      assert events + [] == events;
      RotationsOnly(defs, resolve, seen, i + 1);
      if Recorded(d) && Resolved(d, resolve).Ok? {
        if render.Some? {
          HooksMore(hooked, Setup(), events, CrdClient.Rotate(Resolved(d, resolve).value, seen[i]));
        }
      }
    }

    ghost function AfterOne(now: Crds, d: Status.DefinitionStatus, resolve: Resolver, ca: string): Crds
    {
      if Recorded(d) && Resolved(d, resolve).Ok? then AfterCrd(now, Resolved(d, resolve).value, ca) else now
    }

    lemma LoopStep(before: Crds, now: Crds, defs: seq<Status.DefinitionStatus>, resolve: Resolver, seen: seq<string>,
                   i: nat, kinds: map<Key, string>)
      requires i < |defs| == |seen| && CrdClient.AllGood(now, kinds)
      requires OnlyRotations(Rotations(defs, resolve, seen, i))
      requires now == CrdClient.Execute(before, Rotations(defs, resolve, seen, i))
      ensures OnlyRotations(Rotations(defs, resolve, seen, i + 1))
      ensures AfterOne(now, defs[i], resolve, seen[i])
             == CrdClient.Execute(before, Rotations(defs, resolve, seen, i + 1))
      ensures CrdClient.AllGood(AfterOne(now, defs[i], resolve, seen[i]), kinds)
      ensures AfterOne(now, defs[i], resolve, seen[i]).Keys == now.Keys
    {
      var d := defs[i];
      assert Rotations(defs, resolve, seen, i) + [] == Rotations(defs, resolve, seen, i);
      if Recorded(d) && Resolved(d, resolve).Ok? {
        var e := CrdClient.Rotate(Resolved(d, resolve).value, seen[i]);
        ExecuteMore(before, Rotations(defs, resolve, seen, i), e);
        CrdClient.StepKeepsGood(now, e, kinds);
      }
    }

    /** After an apply: rotate if the certificate is about to expire, then hand the bundle to this CRD. */
    method ManageCertificates(rotation: Rotation, gr: Key) returns (err: Option<Failure>)
      requires Ready() && Sound(crds.Objects(), gr)
      modifies this, crds, hooks
      ensures Ready()
      ensures caBundle == if rotation.Renewed? then Some(rotation.ca) else old(caBundle)
      ensures rotation.RotationFailed? ==> err == Some(Rotating) && Here() == old(Here())
      ensures err.None? ==>
                && caBundle.Some? && Formatted(caBundle.value) && gr in old(crds.Objects())
                && crds.Objects() == AfterCrd(old(crds.Objects()), gr, caBundle.value)
                && render.Some? && hooks.Objects() == AfterHook(old(hooks.Objects()), Setup(), caBundle.value)
      ensures err.Some? ==>
                || hooks.Objects() == old(hooks.Objects())
                || (caBundle.Some? && SameHook(old(hooks.Objects()), hooks.Objects(), Setup(), caBundle.value))
      ensures err.Some? ==>
                || crds.Objects() == old(crds.Objects())
                || (caBundle.Some? && crds.Objects() == AfterCrd(old(crds.Objects()), gr, caBundle.value))
      ensures (&& old(SmoothPlaces(Here())) && !rotation.RotationFailed?
               && caBundle.Some? && Formatted(caBundle.value)
               && gr in old(crds.Objects()) && render.Some?)
              ==> SmoothPlaces(Here()) && err.None?
    {
      hide AfterCrd;
      hide AfterHook;
      hide Formatted;
      hide Kube.View;
      if rotation.RotationFailed? {
        return Some(Rotating);
      }
      if rotation.Renewed? {
        caBundle := Some(rotation.ca);
      }
      if caBundle.None? {
        return Some(Propagating(BadFormat));
      }
      var ok := ValidateCABundleFormat(caBundle.value);
      if !ok {
        return Some(Propagating(BadFormat));
      }
      var failed := PropagateCABundleWithRetry(caBundle.value, gr);
      err := if failed.Some? then Some(Propagating(failed.value)) else None;
    }
  }
}
