/**
 * Which failures the retried operations survive, and which they do not: internal/tools/kube/client.go,
 * getters.go and certificates.go.
 */
module Progress {
  import opened Wrappers
  import opened Kube
  import CertPropagation
  import CrdClient
  import Generation
  import Getters
  import Retry

  /** What an operation puts up with: errors of requests, and what other writers do to its object. */
  datatype Patience<!V> = Patience(errors: ApiError -> bool, others: Option<V> -> bool)

  /** Other writers leave the object alone, or do to it what is put up with. */
  predicate Harmless<K(==), V>(t: Turn<K, V>, key: K, p: Patience<V>)
  {
    key in t.others ==> p.others(t.others[key])
  }

  predicate Served<K(==), V>(t: Turn<K, V>, key: K, p: Patience<V>)
  {
    t.outcome.Succeeds? && Harmless(t, key, p)
  }

  /** The request fails, perhaps after taking effect. */
  predicate Fails<K(==), V>(t: Turn<K, V>, key: K, p: Patience<V>)
  {
    !t.outcome.Succeeds? && p.errors(t.outcome.error) && Harmless(t, key, p)
  }

  /** The next attempt goes through: it reads, and nobody touches the object before it writes. */
  predicate GoesThrough<K(==), V>(script: seq<Turn<K, V>>, key: K, p: Patience<V>)
  {
    && (|script| >= 1 ==> Served(script[0], key, p))
    && (|script| >= 2 ==> script[1].outcome.Succeeds? && key !in script[1].others)
  }

  /** An attempt fails: its read, or its write, or another writer comes in between. */
  function Failed<K(==), V>(script: seq<Turn<K, V>>, key: K, p: Patience<V>): Option<seq<Turn<K, V>>>
  {
    if |script| >= 1 && Fails(script[0], key, p) then Some(script[1..])
    else if |script| >= 2 && Served(script[0], key, p)
            && (Fails(script[1], key, p) || (Served(script[1], key, p) && key in script[1].others))
    then Some(script[2..])
    else None
  }

  /** At most `n` attempts fail, each followed by an undisturbed pause, before one goes through. */
  predicate Bumpy<K(==), V>(script: seq<Turn<K, V>>, key: K, p: Patience<V>, n: nat)
    decreases n
  {
    || GoesThrough(script, key, p)
    || (n > 0 && var rest := Failed(script, key, p);
        rest.Some? && (rest.value == [] || (Served(rest.value[0], key, p) && Bumpy(rest.value[1..], key, p, n - 1))))
  }

  // ---- Apply ----

  /** Any error but a cancelled context, or a deletion; a missing object is not an error of the read. */
  function ApplyPatience<V>(): Patience<V>
  {
    Patience((e: ApiError) => e != Canceled && e != NotFound, (o: Option<V>) => o.Some?)
  }

  /** Once read, the object is there. */
  predicate Anchored<K(==), V>(a: Applying<K, V>, key: K)
  {
    a.versioned ==> key in a.world.objects
  }

  lemma AttemptGoesThrough<K(!new), V(!new)>(a: Applying<K, V>, server: Server<V>, key: K, value: V, dryRun: bool)
    requires Anchored(a, key) && GoesThrough(a.world.script, key, ApplyPatience())
    ensures ApplyOnce(a, server, key, value, dryRun).1.Ok?
  {
  }

  lemma WriteFails<K(!new), V(!new)>(a: Applying<K, V>, server: Server<V>, key: K, value: V, dryRun: bool)
    requires Anchored(a, key) && |a.world.script| >= 2 && Served(a.world.script[0], key, ApplyPatience())
    requires var t := a.world.script[1];
             Fails(t, key, ApplyPatience()) || (Served(t, key, ApplyPatience()) && key in t.others)
    ensures var (a', r) := ApplyOnce(a, server, key, value, dryRun);
            r.Err? ==> r.error != Canceled && Anchored(a', key) && a'.world.script == a.world.script[2..]
  {
    var w1 := Tick(a.world);
    assert w1.script == a.world.script[1..] && Tick(w1).script == a.world.script[2..];
  }

  lemma AttemptFails<K(!new), V(!new)>(a: Applying<K, V>, server: Server<V>, key: K, value: V, dryRun: bool)
    requires Anchored(a, key) && Failed(a.world.script, key, ApplyPatience()).Some?
    ensures var (a', r) := ApplyOnce(a, server, key, value, dryRun);
            r.Err? ==> && r.error != Canceled && Anchored(a', key)
                       && a'.world.script == Failed(a.world.script, key, ApplyPatience()).value
  {
    if Fails(a.world.script[0], key, ApplyPatience()) {
      ApplyReadFails(a, server, key, value, dryRun);
    } else {
      hide ApplyOnce;
      WriteFails(a, server, key, value, dryRun);
    }
  }

  lemma {:induction false} ApplyFrom<K(!new), V(!new)>(a: Applying<K, V>, server: Server<V>, key: K, value: V,
                                                       dryRun: bool, attempt: nat)
    requires 1 <= attempt <= 10 && Anchored(a, key) && Bumpy(a.world.script, key, ApplyPatience(), 10 - attempt)
    ensures Retry.DoFrom(CLIENT_RETRY, ApplyAttempt(server, key, value, dryRun), ApplyWait(), Transient, a, attempt)
              .result.Ok?
    decreases 10 - attempt
  {
    hide ApplyOnce;
    hide Retry.Delay;
    var (a', r) := ApplyOnce(a, server, key, value, dryRun);
    if GoesThrough(a.world.script, key, ApplyPatience()) {
      AttemptGoesThrough(a, server, key, value, dryRun);
    } else {
      AttemptFails(a, server, key, value, dryRun);
      if r.Err? {
        var a'' := a'.(world := Tick(a'.world));
        ApplyFrom(a'', server, key, value, dryRun, attempt + 1);
      }
    }
  }

  /** Fewer than ten failed attempts, whatever fails but the context, and whoever else writes: `Apply` succeeds. */
  lemma ApplyProgress<K(!new), V(!new)>(w: World<K, V>, server: Server<V>, key: K, value: V, dryRun: bool)
    requires Bumpy(w.script, key, ApplyPatience(), 9)
    ensures ApplySpec(w, server, key, value, dryRun).1.Ok?
  {
    ApplyFrom(Applying(w, false), server, key, value, dryRun, 1);
  }

  /** The reads of the next `n` attempts fail, the pauses between them pass. */
  predicate ReadsFail<K(==), V>(script: seq<Turn<K, V>>, errors: ApiError -> bool, n: nat)
    decreases n
  {
    n == 0 ||
    (&& script != [] && !script[0].outcome.Succeeds? && errors(script[0].outcome.error)
     && (n == 1 || (|script| >= 2 && script[1].outcome.Succeeds? && ReadsFail(script[2..], errors, n - 1))))
  }

  lemma ApplyReadFails<K(!new), V(!new)>(a: Applying<K, V>, server: Server<V>, key: K, value: V, dryRun: bool)
    requires !NextOutcome(a.world).Succeeds? && NextOutcome(a.world).error != NotFound
    ensures ApplyOnce(a, server, key, value, dryRun) == (a.(world := Tick(a.world)), Err(NextOutcome(a.world).error))
  {
  }

  lemma {:induction false} ApplyFailsFrom<K(!new), V(!new)>(a: Applying<K, V>, server: Server<V>, key: K, value: V,
                                                            dryRun: bool, attempt: nat)
    requires 1 <= attempt <= 10
    requires ReadsFail(a.world.script, (e: ApiError) => e != NotFound, 11 - attempt)
    ensures var run := Retry.DoFrom(CLIENT_RETRY, ApplyAttempt(server, key, value, dryRun), ApplyWait(), Transient, a,
                                    attempt);
            run.result.Err? && run.world.world.writes == a.world.writes
    decreases 10 - attempt
  {
    hide Retry.Delay;
    hide ApplyOnce;
    ApplyReadFails(a, server, key, value, dryRun);
    var (a', r) := ApplyOnce(a, server, key, value, dryRun);
    if r.error != Canceled && attempt < 10 {
      ApplyFailsFrom(a'.(world := Tick(a'.world)), server, key, value, dryRun, attempt + 1);
    }
  }

  /** Ten failed reads make it fail, without a write. */
  lemma ApplyGivesUp<K(!new), V(!new)>(w: World<K, V>, server: Server<V>, key: K, value: V, dryRun: bool)
    requires ReadsFail(w.script, (e: ApiError) => e != NotFound, 10)
    ensures var (w', r) := ApplySpec(w, server, key, value, dryRun); r.Err? && w'.writes == w.writes
  {
    ApplyFailsFrom(Applying(w, false), server, key, value, dryRun, 1);
  }

  /** A cancelled context ends it at once. */
  lemma ApplyStopsWhenCanceled<K(!new), V(!new)>(w: World<K, V>, server: Server<V>, key: K, value: V, dryRun: bool)
    requires NextOutcome(w) == Refused(Canceled)
    ensures ApplySpec(w, server, key, value, dryRun) == (Tick(w), Err(Canceled))
  {
  }

  // ---- Uninstall ----

  /** A deletion carries no precondition, so other writers never disturb it. */
  function UninstallPatience<V>(): Patience<V>
  {
    Patience((e: ApiError) => e != Canceled && e != NotFound, (o: Option<V>) => true)
  }

  lemma UninstallAttempted<K(!new), V(!new)>(w: World<K, V>, key: K)
    ensures GoesThrough(w.script, key, UninstallPatience()) ==> UninstallOnce(w, key).1.Ok?
    ensures Failed(w.script, key, UninstallPatience()).Some? ==>
              var (w', r) := UninstallOnce(w, key);
              r.Err? ==> r.error != Canceled && w'.script == Failed(w.script, key, UninstallPatience()).value
  {
  }

  lemma {:induction false} UninstallFrom<K(!new), V(!new)>(w: World<K, V>, key: K, attempt: nat)
    requires 1 <= attempt <= 10 && Bumpy(w.script, key, UninstallPatience(), 10 - attempt)
    ensures Retry.DoFrom(CLIENT_RETRY, UninstallAttempt(key), Wait(), Transient, w, attempt).result.Ok?
    decreases 10 - attempt
  {
    hide Retry.Delay;
    hide UninstallOnce;
    hide Failed;
    UninstallAttempted(w, key);
    var (w', r) := UninstallOnce(w, key);
    if r.Err? {
      UninstallFrom(Tick(w'), key, attempt + 1);
    }
  }

  lemma UninstallProgress<K(!new), V(!new)>(w: World<K, V>, key: K)
    requires Bumpy(w.script, key, UninstallPatience(), 9)
    ensures UninstallSpec(w, key).1.Ok?
  {
    UninstallFrom(w, key, 1);
  }

  // ---- relabelling ----

  /** Neither a cancelled context nor a request refused for good; others may delete, or keep labels readable. */
  function RelabelPatience(): Patience<Getters.Composition>
  {
    Patience((e: ApiError) => e != Canceled && e != Rejected && e != NotFound,
             (o: Option<Getters.Composition>) => o.Some? ==> !o.value.labels.NotStrings?)
  }

  predicate Readable(w: Getters.World, key: Getters.Key)
  {
    key in w.objects ==> !w.objects[key].value.labels.NotStrings?
  }

  lemma RelabelAttempted(w: Getters.World, key: Getters.Key, version: string)
    requires Readable(w, key)
    ensures GoesThrough(w.script, key, RelabelPatience()) ==> Getters.RelabelOnce(w, key, version).1.Ok?
    ensures Failed(w.script, key, RelabelPatience()).Some? ==>
              var (w', r) := Getters.RelabelOnce(w, key, version);
              r.Err? ==> && r.error !in {Canceled, Rejected, NotFound} && Readable(w', key)
                         && w'.script == Failed(w.script, key, RelabelPatience()).value
  {
  }

  lemma {:induction false} RelabelFrom(w: Getters.World, key: Getters.Key, version: string, attempt: nat)
    requires 1 <= attempt <= 5 && Readable(w, key) && Bumpy(w.script, key, RelabelPatience(), 5 - attempt)
    ensures Retry.DoFrom(Getters.COMPOSITION_RETRY, Getters.RelabelAttempt(key, version), Wait(), Transient, w, attempt)
              .result.Ok?
    decreases 5 - attempt
  {
    hide Retry.Delay;
    hide Getters.RelabelOnce;
    RelabelAttempted(w, key, version);
    var (w', r) := Getters.RelabelOnce(w, key, version);
    if r.Err? {
      RelabelFrom(Tick(w'), key, version, attempt + 1);
    }
  }

  /** Fewer than five failed attempts, conflicts among them: the composition ends up labelled or gone. */
  lemma RelabelProgress(w: Getters.World, key: Getters.Key, version: string)
    requires Readable(w, key) && Bumpy(w.script, key, RelabelPatience(), 4)
    ensures Getters.RelabelSpec(w, key, version).1.Ok?
  {
    RelabelFrom(w, key, version, 1);
  }

  lemma {:induction false} RelabelFailsFrom(w: Getters.World, key: Getters.Key, version: string, attempt: nat)
    requires 1 <= attempt <= 5 && ReadsFail(w.script, (e: ApiError) => e != NotFound, 6 - attempt)
    ensures Retry.DoFrom(Getters.COMPOSITION_RETRY, Getters.RelabelAttempt(key, version), Wait(), Transient, w, attempt)
              .result.Err?
    decreases 5 - attempt
  {
    hide Retry.Delay;
    var (w', r) := Getters.RelabelOnce(w, key, version);
    if r.error != Canceled && r.error != Rejected && attempt < 5 {
      RelabelFailsFrom(Tick(w'), key, version, attempt + 1);
    }
  }

  /** Five failed reads are too many, and one is if the server refuses for good or the context is cancelled. */
  lemma RelabelGivesUp(w: Getters.World, key: Getters.Key, version: string)
    ensures ReadsFail(w.script, (e: ApiError) => e != NotFound, 5) ==> Getters.RelabelSpec(w, key, version).1.Err?
    ensures NextOutcome(w) in {Refused(Canceled), Refused(Rejected)} ==>
              Getters.RelabelSpec(w, key, version) == (Tick(w), Err(NextOutcome(w).error))
  {
    if ReadsFail(w.script, (e: ApiError) => e != NotFound, 5) {
      RelabelFailsFrom(w, key, version, 1);
    }
  }

  // ---- propagating a CA bundle ----

  /** At most `n` reads of the CRD fail, each followed by a pause, and nothing else goes wrong. */
  ghost predicate ReadsBumpy(script: seq<Turn<CrdClient.GroupResource, Generation.Spec>>, n: nat)
    decreases n
  {
    || (forall i :: 0 <= i < |script| ==> script[i] == Turn(map[], Succeeds))
    || (n > 0 && |script| >= 2
        && script[0].others == map[] && !script[0].outcome.Succeeds?
        && script[0].outcome.error != Canceled && script[0].outcome.error != Rejected
        && script[1] == Turn(map[], Succeeds) && ReadsBumpy(script[2..], n - 1))
  }

  /** All that an attempt needs, but for the reads of the CRD. */
  ghost predicate Propagates(w: CertPropagation.Places, m: CertPropagation.Setup, gr: CrdClient.GroupResource)
  {
    && gr in w.crds.objects && m.render.Some?
    && (|w.crds.objects[gr].value.versions| > 1 ==>
          Generation.CompleteConversion(w.crds.objects[gr].value.conversion))
    && Quiet(w.hooks) && Smooth(w.hooks)
  }

  lemma PropagatesAtOnce(w: CertPropagation.Places, m: CertPropagation.Setup, gr: CrdClient.GroupResource, ca: string)
    requires Propagates(w, m, gr) && Quiet(w.crds) && Smooth(w.crds)
    ensures CertPropagation.PropagateOnce(w, m, gr, ca).1.Ok?
  {
    hide ApplySpec;
    QuietTick(w.crds);
    var crd := w.crds.objects[gr].value;
    if |crd.versions| > 1 {
      var written := crd.(conversion := Generation.WithCABundle(crd.conversion, ca));
      ApplySmooth(Tick(w.crds), m.crdServer, CrdClient.KeyOf(crd), written, false);
    }
    ApplySmooth(w.hooks, m.hookServer, m.hookName, m.render.value(ca), false);
  }

  lemma AllSucceed<K(!new), V(!new)>(w: World<K, V>)
    requires forall i :: 0 <= i < |w.script| ==> w.script[i] == Turn(map[], Succeeds)
    ensures Quiet(w) && Smooth(w)
  {
  }

  lemma PropagateReadFails(w: CertPropagation.Places, m: CertPropagation.Setup, gr: CrdClient.GroupResource, ca: string,
                           n: nat)
    requires Propagates(w, m, gr) && n > 0 && ReadsBumpy(w.crds.script, n)
    requires !forall i :: 0 <= i < |w.crds.script| ==> w.crds.script[i] == Turn(map[], Succeeds)
    ensures var (w', r) := CertPropagation.PropagateOnce(w, m, gr, ca);
            var (w'', stop) := CertPropagation.Wait()(w', 0);
            && r.Err? && r.error != CertPropagation.Request(Canceled) && r.error != CertPropagation.Request(Rejected)
            && (forall d :: CertPropagation.Wait()(w', d) == (w'', stop))
            && stop.None? && Propagates(w'', m, gr) && ReadsBumpy(w''.crds.script, n - 1)
  {
    QuietTick(w.hooks);
    var t := Tick(w.crds);
    assert t.objects == w.crds.objects && t.script == w.crds.script[1..];
    assert Tick(t).objects == t.objects && Tick(t).script == w.crds.script[2..];
  }

  lemma {:induction false} PropagateFrom(w: CertPropagation.Places, m: CertPropagation.Setup,
                                         gr: CrdClient.GroupResource, ca: string, attempt: nat)
    requires 1 <= attempt <= 5 && Propagates(w, m, gr) && ReadsBumpy(w.crds.script, 5 - attempt)
    ensures Retry.DoFrom(CertPropagation.BUNDLE_RETRY, CertPropagation.Attempt(m, gr, ca), CertPropagation.Wait(),
                         CertPropagation.Missing, w, attempt).result.Ok?
    decreases 5 - attempt
  {
    hide Retry.Delay;
    hide CertPropagation.PropagateOnce;
    hide CertPropagation.Wait;
    hide Propagates;
    var script := w.crds.script;
    if forall i :: 0 <= i < |script| ==> script[i] == Turn(map[], Succeeds) {
      AllSucceed(w.crds);
      PropagatesAtOnce(w, m, gr, ca);
    } else {
      PropagateReadFails(w, m, gr, ca, 5 - attempt);
      var w' := CertPropagation.PropagateOnce(w, m, gr, ca).0;
      PropagateFrom(CertPropagation.Wait()(w', 0).0, m, gr, ca, attempt + 1);
    }
  }

  /** Fewer than five failed reads, of a CRD that is missing for a while too: the bundle is propagated. */
  lemma PropagateProgress(w: CertPropagation.Places, m: CertPropagation.Setup, gr: CrdClient.GroupResource, ca: string)
    requires Propagates(w, m, gr) && ReadsBumpy(w.crds.script, 4)
    ensures CertPropagation.PropagateSpec(w, m, gr, ca).1.Ok?
  {
    PropagateFrom(w, m, gr, ca, 1);
  }

  /** A read refused for good, or a cancelled context, ends it at once. */
  lemma PropagateStops(w: CertPropagation.Places, m: CertPropagation.Setup, gr: CrdClient.GroupResource, ca: string)
    requires NextOutcome(w.crds) in {Refused(Canceled), Refused(Rejected)}
    ensures CertPropagation.PropagateSpec(w, m, gr, ca)
         == (w.(crds := Tick(w.crds)), Err(CertPropagation.Request(NextOutcome(w.crds).error)))
  {
  }
}
