/** internal/controllers/compositiondefinitions/helpers/getters/getters.go */
module Getters {
  import opened Wrappers
  import Kube
  import Retry

  const VERSION_LABEL := "krateo.io/composition-version"

  datatype Labels = NoLabels | NotStrings | Labels(m: map<string, string>)

  /** A composition: its labels, and everything else it says. */
  datatype Composition = Composition(labels: Labels, rest: string)

  /** Namespace and name. */
  datatype Key = Key(ns: string, name: string)

  type World = Kube.World<Key, Composition>
  type Moment = map<Key, Kube.Stored<Composition>>

  function LabelMap(c: Composition): map<string, string>
  {
    if c.labels.Labels? then c.labels.m else map[]
  }

  predicate HasVersion(c: Composition, version: string)
  {
    VERSION_LABEL in LabelMap(c) && LabelMap(c)[VERSION_LABEL] == version
  }

  function Relabelled(c: Composition, version: string): Composition
  {
    c.(labels := Labels(LabelMap(c)[VERSION_LABEL := version]))
  }

  function Keep(existing: Option<Composition>, c: Composition): Composition
  {
    c
  }

  // ---- one list, one attempt to relabel ----

  /** The compositions carrying a version label. */
  function Listed(m: Moment, version: string): set<Key>
  {
    set k | k in m && HasVersion(m[k].value, version)
  }

  function ListRequest(w: World, version: string): (World, Result<set<Key>, Kube.ApiError>)
  {
    var t := Kube.Tick(w);
    match Kube.NextOutcome(w)
    case Succeeds => (t, Ok(Listed(t.objects, version)))
    case Refused(e) => (t, Err(e))
    case Lost(e) => (t, Err(e))
  }

  function RelabelOnce(w: World, key: Key, version: string): (World, Result<(), Kube.ApiError>)
  {
    var (w1, got) := Kube.GetRequest(w, key);
    match got
    case Err(e) => (w1, if e == Kube.NotFound then Ok(()) else Err(e))
    case Ok(u) =>
      if u.value.labels.NotStrings? then (w1, Err(Kube.Unreadable))
      else if HasVersion(u.value, version) then (w1, Ok(()))
      else
        var (w2, r) := Kube.UpdateRequest(w1, Keep, key, Relabelled(u.value, version), u.version, false);
        (w2, if r.Ok? || r.error == Kube.NotFound then Ok(()) else Err(r.error))
  }

  predicate Retryable(e: Kube.ApiError)
  {
    e != Kube.Canceled && e != Kube.Rejected && e != Kube.NotFound
  }

  const COMPOSITION_RETRY: Retry.Config<Kube.ApiError> :=
    Retry.Config(5, 250 * Retry.MILLISECOND, 2000 * Retry.MILLISECOND, Some((e: Kube.ApiError) => Retryable(e)))

  function ListAttempt(version: string): World -> (World, Result<set<Key>, Kube.ApiError>)
  {
    (w: World) => ListRequest(w, version)
  }

  function RelabelAttempt(key: Key, version: string): World -> (World, Result<(), Kube.ApiError>)
  {
    (w: World) => RelabelOnce(w, key, version)
  }

  // ---- what holds whatever other writers do ----

  /** Versions are unique, and only a missing composition is reported missing. */
  ghost predicate Sound(w: World)
  {
    && Kube.Fresh(w)
    && forall i :: 0 <= i < |w.script| ==>
         w.script[i].outcome != Kube.Refused(Kube.NotFound) && w.script[i].outcome != Kube.Lost(Kube.NotFound)
  }

  /** A write that changes nothing but the version label of the object it replaces. */
  ghost predicate OnlyLabel(wr: Kube.Write<Key, Composition>, version: string)
  {
    && wr.before.Some? && wr.after.Some?
    && !HasVersion(wr.before.value.value, version)
    && Relabels(wr.before.value.value, wr.after.value.value, version)
  }

  /** The version label is set; every other label, and the rest, is as before. */
  ghost predicate Relabels(c: Composition, c': Composition, version: string)
  {
    && c'.rest == c.rest && c'.labels.Labels? && VERSION_LABEL in c'.labels.m && c'.labels.m[VERSION_LABEL] == version
    && forall l :: l != VERSION_LABEL ==> At(c'.labels.m, l) == if c.labels.Labels? then At(c.labels.m, l) else None
  }

  lemma RelabelledRelabels(c: Composition, version: string)
    ensures Relabels(c, Relabelled(c, version), version)
  {
  }

  /** `w` is `w0` some requests later, and all writes in between only set the label. */
  ghost predicate Later(w0: World, w: World, version: string)
  {
    && Sound(w)
    && w0.moments <= w.moments
    && w0.writes <= w.writes
    && forall i :: |w0.writes| <= i < |w.writes| ==> OnlyLabel(w.writes[i], version)
  }

  /** At some moment since `w0` the composition was missing or carried the label. */
  ghost predicate Settled(w0: World, w: World, key: Key, version: string)
  {
    exists t :: |w0.moments| <= t < |w.moments| && Done(w.moments[t], key, version)
  }

  ghost predicate Done(m: Moment, key: Key, version: string)
  {
    key in m ==> HasVersion(m[key].value, version)
  }

  lemma TickLater(w0: World, w: World, version: string)
    requires Later(w0, w, version)
    ensures Later(w0, Kube.Tick(w), version)
    ensures var t := Kube.Tick(w); t.moments[|w.moments|] == t.objects && |t.moments| == |w.moments| + 1
  {
  }

  lemma RelabelOnceLater(w0: World, w: World, key: Key, version: string)
    requires Later(w0, w, version)
    ensures var (w', r) := RelabelOnce(w, key, version);
            Later(w0, w', version) && (r.Ok? ==> Settled(w0, w', key, version))
  {
    TickLater(w0, w, version);
    var (w1, got) := Kube.GetRequest(w, key);
    var (w', r) := RelabelOnce(w, key, version);
    if got.Err? {
      assert r.Ok? ==> Done(w'.moments[|w.moments|], key, version);
    } else if got.value.value.labels.NotStrings? || HasVersion(got.value.value, version) {
      assert r.Ok? ==> Done(w'.moments[|w.moments|], key, version);
    } else {
      TickLater(w0, w1, version);
      Kube.TickFresh(w1, key);
      UpdateLater(w0, w1, key, got.value, version);
    }
  }

  lemma UpdateLater(w0: World, w1: World, key: Key, read: Kube.Stored<Composition>, version: string)
    requires Later(w0, w1, version) && Later(w0, Kube.Tick(w1), version)
    requires key in w1.objects && w1.objects[key] == read
    requires var t := Kube.Tick(w1);
             key in t.objects && t.objects[key].version == read.version ==> t.objects[key] == read
    requires !HasVersion(read.value, version)
    ensures var (w2, r) := Kube.UpdateRequest(w1, Keep, key, Relabelled(read.value, version), read.version, false);
            && Later(w0, w2, version)
            && (r.Ok? || r.error == Kube.NotFound ==> Settled(w0, w2, key, version))
  {
    hide Relabels;
    RelabelledRelabels(read.value, version);
    var t := Kube.Tick(w1);
    var (w2, r) := Kube.UpdateRequest(w1, Keep, key, Relabelled(read.value, version), read.version, false);
    assert t.moments[|w1.moments|] == t.objects;
    if w2 != t {
      assert w2 == Kube.Put(t, key, Relabelled(read.value, version));
      assert w2.moments[|t.moments|] == w2.objects;
      assert Done(w2.moments[|t.moments|], key, version);
    } else {
      assert r == Err(Kube.NotFound) ==> Done(w2.moments[|w1.moments|], key, version);
    }
  }

  /** One composition, with all retries. */
  function RelabelSpec(w: World, key: Key, version: string): (World, Result<(), Kube.ApiError>)
  {
    var run := Retry.DoFrom(COMPOSITION_RETRY, RelabelAttempt(key, version), Kube.Wait(), Kube.Transient, w, 1);
    (run.world, run.result)
  }

  lemma RelabelLater(w0: World, w: World, key: Key, version: string)
    requires Later(w0, w, version)
    ensures var (w', r) := RelabelSpec(w, key, version);
            Later(w0, w', version) && (r.Ok? ==> Settled(w0, w', key, version))
  {
    var operation, wait := RelabelAttempt(key, version), Kube.Wait();
    var inv: World -> bool := s => Later(w0, s, version);
    var post: (World, Result<(), Kube.ApiError>) -> bool :=
      (s: World, r: Result<(), Kube.ApiError>) => Later(w0, s, version) && (r.Ok? ==> Settled(w0, s, key, version));
    forall s | inv(s)
      ensures post(operation(s).0, operation(s).1)
      ensures operation(s).1.Err? ==> inv(operation(s).0)
    {
      RelabelOnceLater(w0, s, key, version);
    }
    forall s, d | inv(s)
      ensures inv(wait(s, d).0)
      ensures wait(s, d).1.Some? ==> post(wait(s, d).0, Err(wait(s, d).1.value))
    {
      TickLater(w0, s, version);
    }
    Retry.DoInvariant(COMPOSITION_RETRY, operation, wait, Kube.Transient, w, 1, inv, post);
  }

  lemma SettledStays(w0: World, w: World, w': World, key: Key, version: string)
    requires Settled(w0, w, key, version) && w.moments <= w'.moments
    ensures Settled(w0, w', key, version)
  {
    var t :| |w0.moments| <= t < |w.moments| && Done(w.moments[t], key, version);
    assert Done(w'.moments[t], key, version);
  }

  function ListSpec(w: World, version: string): (World, Result<set<Key>, Kube.ApiError>)
  {
    var run := Retry.DoFrom(COMPOSITION_RETRY, ListAttempt(version), Kube.Wait(), Kube.Transient, w, 1);
    (run.world, run.result)
  }

  /** Listing writes nothing, and answers what some moment of the store held. */
  lemma ListLater(w0: World, w: World, listed: string, version: string)
    requires Later(w0, w, version)
    ensures var (w', r) := ListSpec(w, listed);
            && Later(w0, w', version)
            && (r.Ok? ==> exists t :: |w0.moments| <= t < |w'.moments| && r.value == Listed(w'.moments[t], listed))
  {
    var operation, wait := ListAttempt(listed), Kube.Wait();
    var inv: World -> bool := s => Later(w0, s, version);
    var post: (World, Result<set<Key>, Kube.ApiError>) -> bool :=
      (s: World, r: Result<set<Key>, Kube.ApiError>) =>
        && Later(w0, s, version)
        && (r.Ok? ==> exists t :: |w0.moments| <= t < |s.moments| && r.value == Listed(s.moments[t], listed));
    forall s | inv(s)
      ensures post(operation(s).0, operation(s).1)
      ensures operation(s).1.Err? ==> inv(operation(s).0)
    {
      TickLater(w0, s, version);
      assert Kube.Tick(s).moments[|s.moments|] == Kube.Tick(s).objects;
    }
    forall s, d | inv(s)
      ensures inv(wait(s, d).0)
      ensures wait(s, d).1.Some? ==> post(wait(s, d).0, Err(wait(s, d).1.value))
    {
      TickLater(w0, s, version);
    }
    Retry.DoInvariant(COMPOSITION_RETRY, operation, wait, Kube.Transient, w, 1, inv, post);
  }

  // ---- without another writer ----

  /** Nothing but this key may have changed, by at most one write. */
  ghost predicate AtMostOne(w: World, w': World, key: Key, version: string)
  {
    && Kube.Quiet(w')
    && (|| (w'.objects == w.objects && w'.writes == w.writes)
        || (&& key in w.objects && !HasVersion(w.objects[key].value, version)
            && Kube.View(w') == Kube.View(w)[key := Relabelled(w.objects[key].value, version)]
            && |w'.writes| == |w.writes| + 1 && w.writes <= w'.writes && w'.writes[|w.writes|].key == key))
  }

  lemma RelabelOnceQuiet(w: World, key: Key, version: string)
    requires Kube.Quiet(w)
    ensures var (w', r) := RelabelOnce(w, key, version);
            AtMostOne(w, w', key, version) && (r.Ok? ==> Done(w'.objects, key, version))
  {
    Kube.QuietTick(w);
    var w1 := Kube.Tick(w);
    Kube.QuietTick(w1);
    if key in w.objects {
      Kube.PutView(Kube.Tick(w1), key, Relabelled(w.objects[key].value, version));
    }
  }

  /** After its one write an attempt finds the label in place and writes nothing. */
  lemma DoneIsFinal(w: World, s: World, key: Key, version: string)
    requires Kube.Quiet(w) && AtMostOne(w, s, key, version)
    ensures var (s', r) := RelabelOnce(s, key, version);
            AtMostOne(w, s', key, version) && (r.Ok? ==> Done(s'.objects, key, version))
  {
    RelabelOnceQuiet(s, key, version);
    var s' := RelabelOnce(s, key, version).0;
    if s.writes != w.writes {
      assert key in Kube.View(s) && Kube.View(s)[key] == Relabelled(w.objects[key].value, version);
      assert HasVersion(s.objects[key].value, version);
      assert s'.objects == s.objects && s'.writes == s.writes;
      assert Kube.View(s') == Kube.View(s);
    } else {
      assert s.objects == w.objects;
      assert Kube.View(s) == Kube.View(w);
    }
  }

  /** With all its retries and ambiguous failures, a composition is written at most once. */
  lemma RelabelQuiet(w: World, key: Key, version: string)
    requires Kube.Quiet(w)
    ensures var (w', r) := RelabelSpec(w, key, version);
            AtMostOne(w, w', key, version) && (r.Ok? ==> Done(w'.objects, key, version))
  {
    var operation, wait := RelabelAttempt(key, version), Kube.Wait();
    var inv: World -> bool := s => AtMostOne(w, s, key, version);
    var post: (World, Result<(), Kube.ApiError>) -> bool :=
      (s: World, r: Result<(), Kube.ApiError>) =>
        AtMostOne(w, s, key, version) && (r.Ok? ==> Done(s.objects, key, version));
    forall s | inv(s)
      ensures post(operation(s).0, operation(s).1)
      ensures operation(s).1.Err? ==> inv(operation(s).0)
    {
      DoneIsFinal(w, s, key, version);
    }
    forall s, d | inv(s)
      ensures inv(wait(s, d).0)
      ensures wait(s, d).1.Some? ==> post(wait(s, d).0, Err(wait(s, d).1.value))
    {
      Kube.QuietTick(s);
    }
    Retry.DoInvariant(COMPOSITION_RETRY, operation, wait, Kube.Transient, w, 1, inv, post);
  }

  type Store = map<Key, Composition>

  function Carrying(m: Store, version: string): set<Key>
  {
    set k | k in m && HasVersion(m[k], version)
  }

  /** The store after the compositions `ks` have been relabelled. */
  function RelabelSet(m: Store, ks: set<Key>, version: string): Store
  {
    map k | k in m :: if k in ks then Relabelled(m[k], version) else m[k]
  }

  lemma ListQuiet(w: World, version: string)
    requires Kube.Quiet(w)
    ensures var (w', r) := ListSpec(w, version);
            && Kube.Quiet(w') && w'.objects == w.objects && w'.writes == w.writes
            && (r.Ok? ==> r.value == Carrying(Kube.View(w), version))
  {
    var operation, wait := ListAttempt(version), Kube.Wait();
    var inv: World -> bool := s => Kube.Quiet(s) && s.objects == w.objects && s.writes == w.writes;
    var post: (World, Result<set<Key>, Kube.ApiError>) -> bool :=
      (s: World, r: Result<set<Key>, Kube.ApiError>) =>
        && Kube.Quiet(s) && s.objects == w.objects && s.writes == w.writes
        && (r.Ok? ==> r.value == Carrying(Kube.View(w), version));
    forall s | inv(s)
      ensures post(operation(s).0, operation(s).1)
      ensures operation(s).1.Err? ==> inv(operation(s).0)
    {
      Kube.QuietTick(s);
    }
    forall s, d | inv(s)
      ensures inv(wait(s, d).0)
      ensures wait(s, d).1.Some? ==> post(wait(s, d).0, Err(wait(s, d).1.value))
    {
      Kube.QuietTick(s);
    }
    Retry.DoInvariant(COMPOSITION_RETRY, operation, wait, Kube.Transient, w, 1, inv, post);
  }

  /** Without another writer: exactly the compositions `written` are relabelled, by one write each. */
  ghost predicate Written(w0: World, w: World, written: set<Key>, version: string)
  {
    && Kube.Quiet(w)
    && Kube.View(w) == RelabelSet(Kube.View(w0), written, version)
    && w0.writes <= w.writes
    && |w.writes| == |w0.writes| + |written|
    && (forall i :: |w0.writes| <= i < |w.writes| ==> w.writes[i].key in written)
  }

  lemma WriteOneMore(w0: World, w: World, w': World, written: set<Key>, key: Key, version: string)
    requires Written(w0, w, written, version) && key !in written && AtMostOne(w, w', key, version)
    ensures Written(w0, w', if |w'.writes| == |w.writes| then written else written + {key}, version)
    ensures Done(w'.objects, key, version) && key in w0.objects && !HasVersion(w0.objects[key].value, version) ==>
              |w'.writes| == |w.writes| + 1
  {
    var m0, m := Kube.View(w0), Kube.View(w);
    assert key in m0 <==> key in m;
    assert key in m ==> m[key] == m0[key];
    if |w'.writes| == |w.writes| {
      assert Kube.View(w') == m;
    } else {
      assert Kube.View(w') == m[key := Relabelled(m[key], version)];
      assert m[key := Relabelled(m0[key], version)] == RelabelSet(m0, written + {key}, version);
    }
  }

  /** Relabelling takes a composition out of the selector, so the rest is what a rerun has to do. */
  lemma PendingShrinks(m: Store, ks: set<Key>, old_: string, new_: string)
    requires old_ != new_ && ks <= Carrying(m, old_)
    ensures Carrying(RelabelSet(m, ks, new_), old_) == Carrying(m, old_) - ks
    ensures Carrying(RelabelSet(m, ks, new_), new_) == Carrying(m, new_) + ks
    ensures RelabelSet(RelabelSet(m, ks, new_), Carrying(m, old_) - ks, new_) == RelabelSet(m, Carrying(m, old_), new_)
  {
  }

  lemma StartLater(w: World, version: string)
    requires Sound(w)
    ensures Later(w, w, version)
  {
  }

  lemma NothingWritten(w0: World, w: World, version: string)
    requires Kube.Quiet(w) && w.objects == w0.objects && w.writes == w0.writes
    ensures Written(w0, w, {}, version)
  {
    assert Kube.View(w) == RelabelSet(Kube.View(w0), {}, version);
  }

  /** The compositions `ks` have been dealt with. */
  ghost predicate Moved(w0: World, w: World, ks: set<Key>, written: set<Key>, version: string)
  {
    && Later(w0, w, version)
    && (forall k :: k in ks ==> Settled(w0, w, k, version))
    && (Kube.Quiet(w0) ==> written <= ks && Written(w0, w, written, version))
  }

  lemma MoveOne(w0: World, w: World, key: Key, ks: set<Key>, written: set<Key>, version: string)
    requires Moved(w0, w, ks, written, version) && key !in ks
    ensures var (w', r) := RelabelSpec(w, key, version);
            var written' := if |w'.writes| > |w.writes| then written + {key} else written;
            && Later(w0, w', version)
            && w.moments <= w'.moments
            && (r.Ok? ==> Moved(w0, w', ks + {key}, written', version))
            && (Kube.Quiet(w0) ==> Written(w0, w', written', version) && AtMostOne(w, w', key, version)
                                   && (r.Ok? ==> Done(w'.objects, key, version)))
  {
    var (w', r) := RelabelSpec(w, key, version);
    RelabelLater(w0, w, key, version);
    StartLater(w, version);
    RelabelLater(w, w, key, version);
    forall k | k in ks ensures Settled(w0, w', k, version) {
      SettledStays(w0, w, w', k, version);
    }
    if Kube.Quiet(w0) {
      RelabelQuiet(w, key, version);
      WriteOneMore(w0, w, w', written, key, version);
    }
  }

  /** A listed composition that was not written yet carries the old label, so success means a write. */
  lemma PendingIsWritten(w0: World, w: World, w': World, key: Key, written: set<Key>, old_: string, new_: string)
    requires old_ != new_ && key in Carrying(Kube.View(w0), old_) && key !in written
    requires Written(w0, w, written, new_) && AtMostOne(w, w', key, new_)
    ensures Done(w'.objects, key, new_) ==> |w'.writes| > |w.writes|
  {
    WriteOneMore(w0, w, w', written, key, new_);
  }

  /** When nothing goes wrong the first attempt succeeds, unless the labels cannot be read. */
  lemma RelabelSmooth(w: World, key: Key, version: string)
    requires Kube.Smooth(w) && Kube.Quiet(w) && (key in Kube.View(w) ==> !Kube.View(w)[key].labels.NotStrings?)
    ensures var (w', r) := RelabelSpec(w, key, version); Kube.Smooth(w') && r.Ok?
  {
    Kube.QuietTick(w);
    Kube.QuietTick(Kube.Tick(w));
  }

  lemma ListSmooth(w: World, version: string)
    requires Kube.Smooth(w) && Kube.Quiet(w)
    ensures var (w', r) := ListSpec(w, version); Kube.Smooth(w') && r.Ok?
  {
    Kube.QuietTick(w);
  }

  lemma QuietlyWritten(w0: World, w: World, written: set<Key>, version: string)
    requires Written(w0, w, written, version)
    ensures Kube.Quiet(w)
  {
  }

  /** What carries a version has readable labels, and keeps them. */
  lemma StillLabelled(w0: World, w: World, written: set<Key>, key: Key, old_: string, new_: string)
    requires Written(w0, w, written, new_) && key in Carrying(Kube.View(w0), old_)
    ensures key in Kube.View(w) && Kube.View(w)[key].labels.Labels?
  {
  }

  /** The compositions of the cluster, through a dynamic client. */
  class Compositions {
    var world: World

    constructor (world: World)
      ensures this.world == world
    {
      this.world := world;
    }

    ghost function Objects(): Store
      reads this
    {
      Kube.View(world)
    }

    method UpdateCompositionWithRetry(key: Key, newVersion: string) returns (err: Option<Kube.ApiError>)
      modifies this
      ensures world == RelabelSpec(old(world), key, newVersion).0
      ensures err.None? <==> RelabelSpec(old(world), key, newVersion).1.Ok?
    {
      var run := Retry.Do(COMPOSITION_RETRY, RelabelAttempt(key, newVersion), Kube.Wait(), Kube.Transient, world);
      world := run.world;
      err := if run.result.Err? then Some(run.result.error) else None;
    }

    method GetCompositionsWithRetry(version: string, ghost newVersion: string)
      returns (r: Result<set<Key>, Kube.ApiError>)
      requires Sound(world)
      modifies this
      ensures Moved(old(world), world, {}, {}, newVersion)
      ensures r.Ok? ==> exists t :: |old(world).moments| <= t < |world.moments|
                                    && r.value == Listed(world.moments[t], version)
      ensures r.Ok? && old(Kube.Quiet(world)) ==> r.value == Carrying(old(Objects()), version)
      ensures old(Kube.Quiet(world) && Kube.Smooth(world)) ==> Kube.Smooth(world) && r.Ok?
    {
      ghost var w0 := world;
      StartLater(w0, newVersion);
      ListLater(w0, w0, version, newVersion);
      var run := Retry.Do(COMPOSITION_RETRY, ListAttempt(version), Kube.Wait(), Kube.Transient, world);
      if Kube.Quiet(w0) {
        ListQuiet(w0, version);
        if Kube.Smooth(w0) { ListSmooth(w0, version); }
        NothingWritten(w0, run.world, newVersion);
      }
      world := run.world;
      r := run.result;
    }

    /** A single list request. */
    method GetCompositions(version: string) returns (r: Result<set<Key>, Kube.ApiError>)
      requires Kube.Quiet(world)
      modifies this
      ensures Kube.Quiet(world) && (old(Kube.Fresh(world)) ==> Kube.Fresh(world)) && Objects() == old(Objects())
      ensures r.Ok? ==> r.value == Carrying(Objects(), version)
      ensures old(Kube.Smooth(world)) ==> Kube.Smooth(world) && r.Ok?
    {
      Kube.QuietTick(world);
      var (w, listed) := ListRequest(world, version);
      world := w;
      r := listed;
    }

    /** One round of the loop over the listed compositions; the ghosts say how far it has come. */
    method MoveComposition(key: Key, newVersion: string, ghost w0: World, ghost ks: set<Key>, ghost written: set<Key>,
                           ghost oldVersion: string) returns (err: Option<Kube.ApiError>, ghost written': set<Key>)
      requires Moved(w0, world, ks, written, newVersion) && key !in ks
      requires Kube.Quiet(w0) && oldVersion != newVersion ==>
                 key in Carrying(Kube.View(w0), oldVersion) && written == ks
      modifies this
      ensures old(world).moments <= world.moments
      ensures Later(w0, world, newVersion)
      ensures err.None? ==> Moved(w0, world, ks + {key}, written', newVersion)
      ensures Kube.Quiet(w0) ==> written' <= ks + {key} && Written(w0, world, written', newVersion)
      ensures err.None? && Kube.Quiet(w0) && oldVersion != newVersion ==> written' == ks + {key}
      ensures (&& old(Kube.Quiet(world) && Kube.Smooth(world))
               && key in old(Objects()) && old(Objects())[key].labels.Labels?) ==> Kube.Smooth(world) && err.None?
    {
      hide Settled;
      hide Written;
      ghost var w := world;
      if Kube.Quiet(w) && Kube.Smooth(w) && key in Objects() && Objects()[key].labels.Labels? {
        RelabelSmooth(w, key, newVersion);
      }
      err := UpdateCompositionWithRetry(key, newVersion);
      MoveOne(w0, w, key, ks, written, newVersion);
      written' := if |world.writes| > |w.writes| then written + {key} else written;
      if Kube.Quiet(w0) && oldVersion != newVersion {
        PendingIsWritten(w0, w, world, key, written, oldVersion, newVersion);
      }
    }

    /**
     * Moves every composition labelled `oldVersion` to `newVersion`. `listed` are the ones found;
     * `written` are those that actually had to be written, when nobody else writes.
     */
    method UpdateCompositionsVersion(oldVersion: string, newVersion: string)
      returns (err: Option<Kube.ApiError>, ghost listed: set<Key>, ghost written: set<Key>)
      requires Sound(world)
      modifies this
      ensures Later(old(world), world, newVersion)
      ensures err.None? ==> forall k :: k in listed ==> Settled(old(world), world, k, newVersion)
      ensures err.None? ==> exists t :: |old(world).moments| <= t < |world.moments|
                                        && listed == Listed(world.moments[t], oldVersion)
      ensures old(Kube.Quiet(world)) ==>
                && Written(old(world), world, written, newVersion)
                && written <= Carrying(old(Objects()), oldVersion)
                && (err.None? && oldVersion != newVersion ==> written == Carrying(old(Objects()), oldVersion))
      ensures old(Kube.Quiet(world) && Kube.Smooth(world)) ==> Kube.Smooth(world) && err.None?
    {
      hide Written;
      hide Settled;
      hide Carrying;
      hide Later;
      hide Listed;
      hide Kube.View;
      ghost var w0 := world;
      var found := GetCompositionsWithRetry(oldVersion, newVersion);
      written, listed := {}, {};
      if found.Err? {
        return Some(found.error), listed, written;
      }
      var todo := found.value;
      listed := todo;
      ghost var t :| |w0.moments| <= t < |world.moments| && listed == Listed(world.moments[t], oldVersion);
      while todo != {}
        invariant todo <= listed
        invariant |w0.moments| <= t < |world.moments| && listed == Listed(world.moments[t], oldVersion)
        invariant Moved(w0, world, listed - todo, written, newVersion)
        invariant Kube.Quiet(w0) && oldVersion != newVersion ==> written == listed - todo
        invariant Kube.Quiet(w0) && Kube.Smooth(w0) ==> Kube.Smooth(world)
        decreases todo
      {
        var key :| key in todo;
        if Kube.Quiet(w0) && Kube.Smooth(w0) {
          QuietlyWritten(w0, world, written, newVersion);
          StillLabelled(w0, world, written, key, oldVersion, newVersion);
        }
        err, written := MoveComposition(key, newVersion, w0, listed - todo, written, oldVersion);
        if err.Some? {
          return err, listed, written;
        }
        assert listed - (todo - {key}) == (listed - todo) + {key};
        todo := todo - {key};
      }
      assert listed - todo == listed;
      err := None;
    }
  }
}
