/** internal/controllers/certificates/certificates.go: carrying a new CA bundle to the CRDs and the webhook. */
module CertPropagation {
  import opened Wrappers
  import opened Generation
  import opened CrdClient
  import Kube
  import Retry
  import Status

  // ---- the format of a bundle ----

  const BEGIN := "-----BEGIN"
  const END := "-----END"

  /** `marker` starts at position `i`. */
  predicate Occurs(bundle: string, marker: string, i: nat)
  {
    i <= |bundle| && marker <= bundle[i..]
  }

  /** There are both markers, and some BEGIN comes before every END. */
  ghost predicate Formatted(bundle: string)
  {
    && (exists j :: Occurs(bundle, END, j))
    && exists i :: Occurs(bundle, BEGIN, i) && forall j :: Occurs(bundle, END, j) ==> i < j
  }

  /** The first position of `marker`, or -1. */
  method Index(bundle: string, marker: string) returns (i: int)
    ensures i >= 0 ==> Occurs(bundle, marker, i)
    ensures forall k: nat :: k < (if i >= 0 then i else |bundle| + 1) ==> !Occurs(bundle, marker, k)
  {
    i := 0;
    while i <= |bundle|
      invariant 0 <= i <= |bundle| + 1
      invariant forall k: nat :: k < i ==> !Occurs(bundle, marker, k)
    {
      if marker <= bundle[i..] {
        return;
      }
      i := i + 1;
    }
    i := -1;
  }

  method ValidateCABundleFormat(bundle: string) returns (ok: bool)
    ensures ok <==> Formatted(bundle)
  {
    if |bundle| == 0 {
      return false;
    }
    var beginIdx := Index(bundle, BEGIN);
    if beginIdx < 0 {
      return false;
    }
    var endIdx := Index(bundle, END);
    if endIdx < 0 {
      return false;
    }
    ok := beginIdx < endIdx;
  }

  // ---- one CRD ----

  datatype Error = BadFormat | Missing | Unconvertible | NoTemplate | Request(e: Kube.ApiError)
    | NoMapping(e: Kube.ApiError)

  /** The webhook configuration rendered for a bundle. */
  type Hook = string

  /** The CRDs and the webhook configuration, each as one client sees them. */
  datatype Places = Places(crds: Kube.World<GroupResource, Spec>, hooks: Kube.World<string, Hook>)

  datatype Setup = Setup(crdServer: Kube.Server<Spec>, hookServer: Kube.Server<Hook>, hookName: string,
                         render: Option<string -> Hook>)

  function ApplyWebhook(w: Places, m: Setup, ca: string): (Places, Result<(), Error>)
  {
    if m.render.None? then (w, Err(NoTemplate))
    else
      var (h, r) := Kube.ApplySpec(w.hooks, m.hookServer, m.hookName, m.render.value(ca), false);
      (w.(hooks := h), if r.Err? then Err(Request(r.error)) else Ok(()))
  }

  /** One attempt: the CRD if it has several versions, then the webhook configuration. */
  function PropagateOnce(w: Places, m: Setup, gr: GroupResource, ca: string): (Places, Result<(), Error>)
  {
    var (c1, got) := Kube.GetRequest(w.crds, gr);
    var w1 := w.(crds := c1);
    match got
    case Err(e) => (w1, Err(if e == Kube.NotFound then Missing else Request(e)))
    case Ok(stored) =>
      var crd := stored.value;
      if |crd.versions| <= 1 then ApplyWebhook(w1, m, ca)
      else if !CompleteConversion(crd.conversion) then (w1, Err(Unconvertible))
      else
        var (c2, r) := Kube.ApplySpec(c1, m.crdServer, KeyOf(crd),
                                    crd.(conversion := WithCABundle(crd.conversion, ca)), false);
        var w2 := w1.(crds := c2);
        if r.Err? then (w2, Err(Request(r.error))) else ApplyWebhook(w2, m, ca)
  }

  const BUNDLE_RETRY: Retry.Config<Error> :=
    Retry.Config(5, 250 * Retry.MILLISECOND, 2000 * Retry.MILLISECOND,
                 Some((e: Error) => e != Request(Kube.Canceled) && e != Request(Kube.Rejected)))

  function Attempt(m: Setup, gr: GroupResource, ca: string): Places -> (Places, Result<(), Error>)
  {
    (w: Places) => PropagateOnce(w, m, gr, ca)
  }

  /** A pause, during which others may write in both places. */
  function Wait(): (Places, Retry.Duration) -> (Places, Option<Error>)
  {
    (w: Places, d: Retry.Duration) =>
      var (c, stop) := Kube.Pause(w.crds, d);
      var (h, _) := Kube.Pause(w.hooks, d);
      (Places(c, h), if stop.Some? then Some(Request(stop.value)) else None)
  }

  function PropagateSpec(w: Places, m: Setup, gr: GroupResource, ca: string): (Places, Result<(), Error>)
  {
    var run := Retry.DoFrom(BUNDLE_RETRY, Attempt(m, gr, ca), Wait(), Missing, w, 1);
    (run.world, run.result)
  }

  // ---- what propagation does without other writers ----

  ghost predicate QuietPlaces(w: Places)
  {
    Kube.Quiet(w.crds) && Kube.Quiet(w.hooks)
  }

  ghost predicate SmoothPlaces(w: Places)
  {
    Kube.Smooth(w.crds) && Kube.Smooth(w.hooks)
  }

  ghost predicate Faithful(m: Setup)
  {
    Verbatim(m.crdServer) && Kube.Stable(m.hookServer)
  }

  /** A CRD stored under this key is the one it names, and has a complete conversion if it needs one. */
  ghost predicate Sound(crds: Crds, gr: GroupResource)
  {
    gr in crds ==> KeyOf(crds[gr]) == gr && (|crds[gr].versions| > 1 ==> CompleteConversion(crds[gr].conversion))
  }

  function AfterCrd(crds: Crds, gr: GroupResource, ca: string): Crds
  {
    CrdClient.Step(crds, Rotate(gr, ca))
  }

  function AfterHook(hooks: map<string, Hook>, m: Setup, ca: string): map<string, Hook>
    requires m.render.Some?
  {
    hooks[m.hookName := m.hookServer(At(hooks, m.hookName), m.render.value(ca))]
  }

  ghost predicate SameHook(before: map<string, Hook>, now: map<string, Hook>, m: Setup, ca: string)
  {
    now == before || (m.render.Some? && now == AfterHook(before, m, ca))
  }

  /** Both places hold their old content or the new one. */
  ghost predicate Midway(before: Places, w: Places, m: Setup, gr: GroupResource, ca: string)
  {
    var c0, c, h0, h := Kube.View(before.crds), Kube.View(w.crds), Kube.View(before.hooks), Kube.View(w.hooks);
    QuietPlaces(w) && (c == c0 || c == AfterCrd(c0, gr, ca)) && SameHook(h0, h, m, ca)
  }

  /**
   * On success the CRD exists and both places hold the new bundle. On failure each holds the old or the
   * new one, and the failure is never that of a malformed CRD.
   */
  ghost predicate Propagated(before: Places, after: Places, m: Setup, gr: GroupResource, ca: string,
                             r: Result<(), Error>)
  {
    && Midway(before, after, m, gr, ca)
    && (r.Ok? ==>
          && gr in Kube.View(before.crds)
          && m.render.Some?
          && Kube.View(after.crds) == AfterCrd(Kube.View(before.crds), gr, ca)
          && Kube.View(after.hooks) == AfterHook(Kube.View(before.hooks), m, ca))
    && r != Err(Unconvertible)
  }

  lemma HookTwice(before: map<string, Hook>, now: map<string, Hook>, m: Setup, ca: string)
    requires Faithful(m) && m.render.Some? && SameHook(before, now, m, ca)
    ensures AfterHook(now, m, ca) == AfterHook(before, m, ca)
  {
    var key, stored := m.hookName, AfterHook(before, m, ca)[m.hookName];
    assert before[key := stored][key := stored] == before[key := stored];
  }

  lemma HookOnce(before: map<string, Hook>, w: Places, m: Setup, ca: string)
    requires QuietPlaces(w) && Faithful(m) && SameHook(before, Kube.View(w.hooks), m, ca)
    ensures var (w', r) := ApplyWebhook(w, m, ca);
            && QuietPlaces(w') && w'.crds == w.crds
            && SameHook(before, Kube.View(w'.hooks), m, ca)
            && (r.Ok? ==> m.render.Some? && Kube.View(w'.hooks) == AfterHook(before, m, ca))
            && r != Err(Unconvertible)
            && (Kube.Smooth(w.hooks) && m.render.Some? ==> Kube.Smooth(w'.hooks) && r.Ok?)
  {
    hide Kube.ApplySpec;
    hide Kube.View;
    if m.render.Some? {
      var hook, view := m.render.value(ca), Kube.View(w.hooks);
      HookTwice(before, view, m, ca);
      Kube.ApplyQuiet(w.hooks, m.hookServer, m.hookName, hook, false);
      var (h, r) := Kube.ApplySpec(w.hooks, m.hookServer, m.hookName, hook, false);
      assert ApplyWebhook(w, m, ca).0.hooks == h;
      assert Kube.View(h) == view || Kube.View(h) == AfterHook(view, m, ca);
      if Kube.Smooth(w.hooks) {
        Kube.ApplySmooth(w.hooks, m.hookServer, m.hookName, hook, false);
      }
    }
  }

  lemma RotateTwice(crds: Crds, gr: GroupResource, ca: string)
    requires Sound(crds, gr)
    ensures Sound(AfterCrd(crds, gr, ca), gr)
    ensures AfterCrd(AfterCrd(crds, gr, ca), gr, ca) == AfterCrd(crds, gr, ca)
    ensures gr in crds ==> (|AfterCrd(crds, gr, ca)[gr].versions| == |crds[gr].versions|)
  {
  }

  lemma CrdOnce(before: Crds, w: Places, m: Setup, gr: GroupResource, ca: string)
    requires Kube.Quiet(w.crds) && Faithful(m) && Sound(before, gr)
    requires Kube.View(w.crds) == before || Kube.View(w.crds) == AfterCrd(before, gr, ca)
    requires gr in w.crds.objects && |w.crds.objects[gr].value.versions| > 1
    ensures var crd := w.crds.objects[gr].value;
            && CompleteConversion(crd.conversion)
            && var (c, r) := Kube.ApplySpec(Kube.Tick(w.crds), m.crdServer, KeyOf(crd),
                                          crd.(conversion := WithCABundle(crd.conversion, ca)), false);
               && Kube.Quiet(c)
               && (Kube.View(c) == before || Kube.View(c) == AfterCrd(before, gr, ca))
               && (r.Ok? ==> Kube.View(c) == AfterCrd(before, gr, ca))
               && (Kube.Smooth(w.crds) ==> Kube.Smooth(c) && r.Ok?)
  {
    RotateTwice(before, gr, ca);
    var view := Kube.View(w.crds);
    var crd := w.crds.objects[gr].value;
    assert view[gr] == crd;
    Kube.QuietTick(w.crds);
    var rotated := crd.(conversion := WithCABundle(crd.conversion, ca));
    assert view[gr := rotated] == AfterCrd(view, gr, ca) == AfterCrd(before, gr, ca);
    assert Kube.Stable(m.crdServer);
    Kube.ApplyQuiet(Kube.Tick(w.crds), m.crdServer, gr, rotated, false);
    if Kube.Smooth(w.crds) {
      Kube.ApplySmooth(Kube.Tick(w.crds), m.crdServer, gr, rotated, false);
    }
  }

  lemma OnceFromMidway(before: Places, w: Places, m: Setup, gr: GroupResource, ca: string)
    requires Faithful(m) && Sound(Kube.View(before.crds), gr) && Midway(before, w, m, gr, ca)
    ensures var (w', r) := PropagateOnce(w, m, gr, ca);
            && Propagated(before, w', m, gr, ca, r)
            && (SmoothPlaces(w) && gr in Kube.View(before.crds) && m.render.Some? ==> SmoothPlaces(w') && r.Ok?)
  {
    hide WithCABundle;
    hide CompleteConversion;
    hide ApplyWebhook;
    hide Kube.ApplySpec;
    hide AfterHook;
    hide SameHook;
    hide Faithful;
    var c0, h0 := Kube.View(before.crds), Kube.View(before.hooks);
    RotateTwice(c0, gr, ca);
    Kube.QuietTick(w.crds);
    var (c1, got) := Kube.GetRequest(w.crds, gr);
    assert c1 == Kube.Tick(w.crds);
    assert gr in w.crds.objects <==> gr in Kube.View(w.crds);
    if got.Ok? {
      var w1 := w.(crds := c1);
      var crd := got.value.value;
      assert crd == Kube.View(w.crds)[gr];
      if |crd.versions| <= 1 {
        assert AfterCrd(c0, gr, ca) == c0;
        HookOnce(h0, w1, m, ca);
      } else {
        CrdOnce(c0, w, m, gr, ca);
        var c2 := Kube.ApplySpec(c1, m.crdServer, KeyOf(crd),
                                 crd.(conversion := WithCABundle(crd.conversion, ca)), false).0;
        HookOnce(h0, w1.(crds := c2), m, ca);
      }
    }
  }

  lemma MidwayStart(w: Places, m: Setup, gr: GroupResource, ca: string)
    requires QuietPlaces(w)
    ensures Midway(w, w, m, gr, ca)
  {
  }

  lemma WaitFromMidway(before: Places, w: Places, m: Setup, gr: GroupResource, ca: string, d: Retry.Duration)
    requires Midway(before, w, m, gr, ca)
    ensures var (w', stop) := Wait()(w, d);
            Midway(before, w', m, gr, ca) && (stop.Some? ==> Propagated(before, w', m, gr, ca, Err(stop.value)))
  {
    hide AfterCrd;
    hide SameHook;
    Kube.QuietTick(w.crds);
    Kube.QuietTick(w.hooks);
  }

  /** Propagation with all its retries. */
  lemma PropagateQuiet(w: Places, m: Setup, gr: GroupResource, ca: string)
    requires QuietPlaces(w) && Faithful(m) && Sound(Kube.View(w.crds), gr)
    ensures var (w', r) := PropagateSpec(w, m, gr, ca); Propagated(w, w', m, gr, ca, r)
  {
    hide PropagateOnce;
    hide Midway;
    hide Kube.View;
    hide Faithful;
    MidwayStart(w, m, gr, ca);
    var inv: Places -> bool := s => Midway(w, s, m, gr, ca);
    var post: (Places, Result<(), Error>) -> bool :=
      (s: Places, r: Result<(), Error>) => Propagated(w, s, m, gr, ca, r);
    var operation, wait := Attempt(m, gr, ca), Wait();
    forall s | inv(s)
      ensures post(operation(s).0, operation(s).1)
      ensures operation(s).1.Err? ==> inv(operation(s).0)
    {
      OnceFromMidway(w, s, m, gr, ca);
    }
    forall s, d | inv(s)
      ensures inv(wait(s, d).0)
      ensures wait(s, d).1.Some? ==> post(wait(s, d).0, Err(wait(s, d).1.value))
    {
      WaitFromMidway(w, s, m, gr, ca, d);
    }
    Retry.DoInvariant(BUNDLE_RETRY, operation, wait, Missing, w, 1, inv, post);
  }

  lemma PropagateSmooth(w: Places, m: Setup, gr: GroupResource, ca: string)
    requires QuietPlaces(w) && SmoothPlaces(w) && Faithful(m) && Sound(Kube.View(w.crds), gr)
    requires gr in Kube.View(w.crds) && m.render.Some?
    ensures var (w', r) := PropagateSpec(w, m, gr, ca); SmoothPlaces(w') && r.Ok?
  {
    OnceFromMidway(w, w, m, gr, ca);
  }
}
