/**
 * internal/tools/kube/client.go over a model of the API server.
 *
 * A `World` is the server seen by one client: versioned objects, plus a script that says, for each
 * request in turn, what other writers do just before it is served and whether the request succeeds,
 * is refused, or takes effect while its answer is lost. Quantifying over scripts covers every
 * failure and every interleaving with other writers.
 */
module Kube {
  import opened Wrappers
  import Retry

  /** `Rejected` stands for forbidden, unauthorized, invalid and bad requests, `Unreadable` for odd objects. */
  datatype ApiError = NotFound | AlreadyExists | Conflict | Canceled | Rejected | Unreadable | Transient

  datatype Outcome = Succeeds | Refused(error: ApiError) | Lost(error: ApiError)

  /** What happens around one request. In `others`, `None` stands for a deletion. */
  datatype Turn<K(==), V> = Turn(others: map<K, Option<V>>, outcome: Outcome)

  datatype Stored<V> = Stored(value: V, version: nat)

  /** One effective write of this client. */
  datatype Write<K, V> = Write(key: K, before: Option<Stored<V>>, after: Option<Stored<V>>)

  datatype World<K(==), V> = World(objects: map<K, Stored<V>>, next: nat, script: seq<Turn<K, V>>,
                                   moments: seq<map<K, Stored<V>>>, writes: seq<Write<K, V>>)

  /** What the server stores when `V` is written over an existing object, or as a new one. */
  type Server<!V> = (Option<V>, V) -> V

  /** The stored values without their resource versions. */
  function View<K(==), V>(w: World<K, V>): map<K, V>
  {
    map k | k in w.objects :: w.objects[k].value
  }

  /** No version in the store has been handed out for a later write. */
  ghost predicate Fresh<K(!new), V(!new)>(w: World<K, V>)
  {
    forall k :: k in w.objects ==> w.objects[k].version < w.next
  }

  /** No other writer is active, and only a missing object is reported missing. */
  ghost predicate Quiet<K(!new), V(!new)>(w: World<K, V>)
  {
    forall i :: 0 <= i < |w.script| ==>
      && w.script[i].others == map[]
      && w.script[i].outcome != Refused(NotFound)
      && w.script[i].outcome != Lost(NotFound)
  }

  /** Nothing goes wrong and no other writer is active. */
  ghost predicate Smooth<K(!new), V(!new)>(w: World<K, V>)
  {
    forall i :: 0 <= i < |w.script| ==> w.script[i] == Turn(map[], Succeeds)
  }

  // ---- single requests ----

  function NextOutcome<K(==), V>(w: World<K, V>): Outcome
  {
    if w.script == [] then Succeeds else w.script[0].outcome
  }

  /** Other writers act, then the request is served. */
  function Tick<K(==), V>(w: World<K, V>): World<K, V>
  {
    var others := if w.script == [] then map[] else w.script[0].others;
    var objects :=
      map k | k in w.objects.Keys + others.Keys && (k in others ==> others[k].Some?)
        :: if k in others then Stored(others[k].value, w.next) else w.objects[k];
    World(objects, w.next + 1, if w.script == [] then [] else w.script[1..], w.moments + [objects], w.writes)
  }

  function Put<K(==), V>(w: World<K, V>, key: K, value: V): World<K, V>
  {
    var s := Stored(value, w.next);
    var objects := w.objects[key := s];
    World(objects, w.next + 1, w.script, w.moments + [objects], w.writes + [Write(key, At(w.objects, key), Some(s))])
  }

  function Remove<K(==), V>(w: World<K, V>, key: K): World<K, V>
  {
    var objects := w.objects - {key};
    World(objects, w.next, w.script, w.moments + [objects], w.writes + [Write(key, At(w.objects, key), None)])
  }

  function GetRequest<K(==), V>(w: World<K, V>, key: K): (World<K, V>, Result<Stored<V>, ApiError>)
  {
    var t := Tick(w);
    match NextOutcome(w)
    case Refused(e) => (t, Err(e))
    case Lost(e) => (t, Err(e))
    case Succeeds => if key in t.objects then (t, Ok(t.objects[key])) else (t, Err(NotFound))
  }

  /** An object that already carries a resource version is not accepted as a new one. */
  function CreateRequest<K(==), V>(w: World<K, V>, server: Server<V>, key: K, value: V, versioned: bool, dryRun: bool)
    : (World<K, V>, Result<V, ApiError>)
  {
    var t := Tick(w);
    var stored := server(None, value);
    if NextOutcome(w).Refused? then (t, Err(NextOutcome(w).error))
    else if versioned then (t, Err(Rejected))
    else if key in t.objects then (t, Err(AlreadyExists))
    else
      var t' := if dryRun then t else Put(t, key, stored);
      (t', if NextOutcome(w).Lost? then Err(NextOutcome(w).error) else Ok(stored))
  }

  /** An update carries the resource version it was based on. */
  function UpdateRequest<K(==), V>(w: World<K, V>, server: Server<V>, key: K, value: V, version: nat, dryRun: bool)
    : (World<K, V>, Result<V, ApiError>)
  {
    var t := Tick(w);
    if NextOutcome(w).Refused? then (t, Err(NextOutcome(w).error))
    else if key !in t.objects then (t, Err(NotFound))
    else if t.objects[key].version != version then (t, Err(Conflict))
    else
      var stored := server(Some(t.objects[key].value), value);
      var t' := if dryRun then t else Put(t, key, stored);
      (t', if NextOutcome(w).Lost? then Err(NextOutcome(w).error) else Ok(stored))
  }

  /** A delete carries no precondition here. */
  function DeleteRequest<K(==), V>(w: World<K, V>, key: K): (World<K, V>, Result<(), ApiError>)
  {
    var t := Tick(w);
    if NextOutcome(w).Refused? then (t, Err(NextOutcome(w).error))
    else if key !in t.objects then (t, Err(NotFound))
    else (Remove(t, key), if NextOutcome(w).Lost? then Err(NextOutcome(w).error) else Ok(()))
  }

  /** A merge patch is applied to whatever is stored. */
  function PatchRequest<K(==), V>(w: World<K, V>, key: K, patch: V -> V): (World<K, V>, Result<V, ApiError>)
  {
    var t := Tick(w);
    if NextOutcome(w).Refused? then (t, Err(NextOutcome(w).error))
    else if key !in t.objects then (t, Err(NotFound))
    else
      var stored := patch(t.objects[key].value);
      (Put(t, key, stored), if NextOutcome(w).Lost? then Err(NextOutcome(w).error) else Ok(stored))
  }

  /** A pause between attempts; it ends early when the context is cancelled. */
  function Pause<K(==), V>(w: World<K, V>, d: Retry.Duration): (World<K, V>, Option<ApiError>)
  {
    (Tick(w), if NextOutcome(w).Succeeds? then None else Some(Canceled))
  }

  // ---- the two retried operations ----

  const CLIENT_RETRY: Retry.Config<ApiError> :=
    Retry.Config(10, 100 * Retry.MILLISECOND, 100 * Retry.MILLISECOND, Some((e: ApiError) => e != Canceled))

  /** Between attempts of `Apply` the object keeps the resource version it was last given. */
  datatype Applying<K(==), V> = Applying(world: World<K, V>, versioned: bool)

  /** One attempt of `Apply`: read, then create, or write over the version just read. */
  function ApplyOnce<K(==), V>(a: Applying<K, V>, server: Server<V>, key: K, value: V, dryRun: bool)
    : (Applying<K, V>, Result<V, ApiError>)
  {
    var (w1, got) := GetRequest(a.world, key);
    match got
    case Ok(current) =>
      var (w2, r) := UpdateRequest(w1, server, key, value, current.version, dryRun);
      (Applying(w2, true), r)
    case Err(e) =>
      if e == NotFound then
        var (w2, r) := CreateRequest(w1, server, key, value, a.versioned, dryRun);
        (a.(world := w2), r)
      else (a.(world := w1), Err(e))
  }

  /** One attempt of `Uninstall`: an object that is already gone is a success. */
  function UninstallOnce<K(==), V>(w: World<K, V>, key: K): (World<K, V>, Result<(), ApiError>)
  {
    var (w1, got) := GetRequest(w, key);
    match got
    case Err(e) => (w1, if e == NotFound then Ok(()) else Err(e))
    case Ok(_) =>
      var (w2, deleted) := DeleteRequest(w1, key);
      (w2, if deleted == Err(NotFound) then Ok(()) else deleted)
  }

  function ApplyAttempt<K(==), V>(server: Server<V>, key: K, value: V, dryRun: bool)
    : Applying<K, V> -> (Applying<K, V>, Result<V, ApiError>)
  {
    a => ApplyOnce(a, server, key, value, dryRun)
  }

  function ApplyWait<K(==), V>(): (Applying<K, V>, Retry.Duration) -> (Applying<K, V>, Option<ApiError>)
  {
    (a: Applying<K, V>, d: Retry.Duration) =>
      var (w, stop) := Pause(a.world, d);
      (a.(world := w), stop)
  }

  function UninstallAttempt<K(==), V>(key: K): World<K, V> -> (World<K, V>, Result<(), ApiError>)
  {
    w => UninstallOnce(w, key)
  }

  function Wait<K(==), V>(): (World<K, V>, Retry.Duration) -> (World<K, V>, Option<ApiError>)
  {
    (w: World<K, V>, d: Retry.Duration) => Pause(w, d)
  }

  function ApplySpec<K(==), V>(w: World<K, V>, server: Server<V>, key: K, value: V, dryRun: bool)
    : (World<K, V>, Result<V, ApiError>)
  {
    var run := Retry.DoFrom(CLIENT_RETRY, ApplyAttempt(server, key, value, dryRun), ApplyWait(), Transient,
                            Applying(w, false), 1);
    (run.world.world, run.result)
  }

  function UninstallSpec<K(==), V>(w: World<K, V>, key: K): (World<K, V>, Result<(), ApiError>)
  {
    var run := Retry.DoFrom(CLIENT_RETRY, UninstallAttempt(key), Wait(), Transient, w, 1);
    (run.world, run.result)
  }

  // ---- what a single attempt guarantees whatever other writers do ----

  lemma TickFresh<K(!new), V(!new)>(w: World<K, V>, key: K)
    requires Fresh(w)
    ensures Fresh(Tick(w)) && Tick(w).next > w.next
    ensures key in w.objects && key in Tick(w).objects && Tick(w).objects[key].version == w.objects[key].version ==>
              Tick(w).objects[key] == w.objects[key]
  {
  }

  /**
   * An attempt makes at most one effective write. It either creates an object that is missing, or
   * replaces exactly the object it read: a change made in between is a conflict, never lost. An
   * attempt that answers success has written, unless it is a dry run, which never writes. Once an
   * attempt has read the object, a later one cannot create it anew.
   */
  lemma AttemptReplacesWhatItRead<K(!new), V(!new)>(a: Applying<K, V>, server: Server<V>, key: K,
                                                    value: V, dryRun: bool)
    requires Fresh(a.world)
    ensures var w := a.world;
            var (a', r) := ApplyOnce(a, server, key, value, dryRun);
            var w' := a'.world;
            var (w1, got) := GetRequest(w, key);
            var read := if got.Ok? then Some(got.value) else None;
            var seen := if got.Ok? then Some(got.value.value) else None;
            && Fresh(w')
            && (w'.writes != w.writes ==>
                  && !dryRun
                  && w'.writes == w.writes + [Write(key, read, Some(Stored(server(seen, value), Tick(w1).next)))])
            && (r.Ok? ==> (w'.writes == w.writes <==> dryRun))
            && (a'.versioned <==> a.versioned || got.Ok?)
            && (a.versioned && got == Err(NotFound) ==> r.Err? && w'.writes == w.writes)
  {
    TickFresh(a.world, key);
    var (w1, got) := GetRequest(a.world, key);
    TickFresh(w1, key);
  }

  // ---- what a whole run guarantees whatever other writers do ----

  /** This write replaced what the store held at moment `t`, and put there what the server makes of `value`. */
  ghost predicate WrittenAt<K(!new), V(!new)>(w: World<K, V>, wr: Write<K, V>, server: Server<V>, key: K,
                                             value: V, t: nat)
  {
    && t + 1 < |w.moments| && wr.key == key && wr.after.Some?
    && At(w.moments[t], key) == wr.before && At(w.moments[t + 1], key) == wr.after
    && wr.after.value.value == server(Held(w, key, t), value)
  }

  ghost predicate WrittenSince<K(!new), V(!new)>(w0: World<K, V>, w: World<K, V>, wr: Write<K, V>, server: Server<V>,
                                                 key: K, value: V)
  {
    exists t: nat :: |w0.moments| <= t && WrittenAt(w, wr, server, key, value, t)
  }

  lemma StillWritten<K(!new), V(!new)>(w0: World<K, V>, w: World<K, V>, w': World<K, V>, wr: Write<K, V>,
                                       server: Server<V>, key: K, value: V)
    requires WrittenSince(w0, w, wr, server, key, value) && w.moments <= w'.moments
    ensures WrittenSince(w0, w', wr, server, key, value)
  {
    var t: nat :| |w0.moments| <= t && WrittenAt(w, wr, server, key, value, t);
    assert Held(w', key, t) == Held(w, key, t);
    assert WrittenAt(w', wr, server, key, value, t);
  }

  function Held<K(==), V>(w: World<K, V>, key: K, t: nat): Option<V>
    requires t < |w.moments|
  {
    if key in w.moments[t] then Some(w.moments[t][key].value) else None
  }

  /** All own writes since `w0` are of this kind. */
  ghost predicate Later<K(!new), V(!new)>(w0: World<K, V>, w: World<K, V>, server: Server<V>, key: K,
                                         value: V, dryRun: bool)
  {
    && Fresh(w) && w0.moments <= w.moments && w0.writes <= w.writes && (dryRun ==> w.writes == w0.writes)
    && forall i :: |w0.writes| <= i < |w.writes| ==> WrittenSince(w0, w, w.writes[i], server, key, value)
  }

  /** The answer is what the server makes of `value` at some moment of the run, and is stored unless dry. */
  ghost predicate Answered<K(!new), V(!new)>(w0: World<K, V>, w: World<K, V>, server: Server<V>, key: K, value: V,
                                             dryRun: bool, r: V)
  {
    && w0.writes <= w.writes
    && (exists t: nat :: |w0.moments| <= t < |w.moments| && r == server(Held(w, key, t), value))
    && (!dryRun ==> && |w.writes| > |w0.writes|
                    && var last := w.writes[|w.writes| - 1]; last.after.Some? && last.after.value.value == r)
  }

  lemma LaterGrows<K(!new), V(!new)>(w0: World<K, V>, w: World<K, V>, w': World<K, V>, server: Server<V>, key: K,
                                     value: V,
                                     dryRun: bool)
    requires Later(w0, w, server, key, value, dryRun) && Fresh(w') && w.moments <= w'.moments && w'.writes == w.writes
    ensures Later(w0, w', server, key, value, dryRun)
  {
    forall i | |w0.writes| <= i < |w.writes| ensures WrittenSince(w0, w', w'.writes[i], server, key, value) {
      StillWritten(w0, w, w', w.writes[i], server, key, value);
    }
  }

  lemma LaterWrites<K(!new), V(!new)>(w0: World<K, V>, w: World<K, V>, server: Server<V>, key: K, value: V)
    requires Later(w0, w, server, key, value, false) && |w.moments| > |w0.moments| && Fresh(w)
    requires w.moments[|w.moments| - 1] == w.objects
    ensures var stored := server(if key in w.objects then Some(w.objects[key].value) else None, value);
            var w' := Put(w, key, stored);
            && Later(w0, w', server, key, value, false) && Answered(w0, w', server, key, value, false, stored)
  {
    var n := |w.moments| - 1;
    var stored := server(Held(w, key, n), value);
    var w' := Put(w, key, stored);
    assert Held(w', key, n) == Held(w, key, n);
    assert WrittenAt(w', w'.writes[|w.writes|], server, key, value, n);
    assert WrittenSince(w0, w', w'.writes[|w.writes|], server, key, value);
    forall i | |w0.writes| <= i < |w.writes| ensures WrittenSince(w0, w', w'.writes[i], server, key, value) {
      StillWritten(w0, w, w', w.writes[i], server, key, value);
    }
  }

  lemma TickLater<K(!new), V(!new)>(w0: World<K, V>, w: World<K, V>, server: Server<V>, key: K, value: V, dryRun: bool)
    requires Later(w0, w, server, key, value, dryRun)
    ensures var t := Tick(w);
            && Later(w0, t, server, key, value, dryRun)
            && |t.moments| > |w0.moments| && t.moments[|t.moments| - 1] == t.objects && t.writes == w.writes
  {
    TickFresh(w, key);
    LaterGrows(w0, w, Tick(w), server, key, value, dryRun);
  }

  lemma AttemptLater<K(!new), V(!new)>(w0: World<K, V>, a: Applying<K, V>, server: Server<V>, key: K,
                                       value: V, dryRun: bool)
    requires Later(w0, a.world, server, key, value, dryRun)
    ensures var (a', r) := ApplyOnce(a, server, key, value, dryRun);
            && Later(w0, a'.world, server, key, value, dryRun)
            && (r.Ok? ==> Answered(w0, a'.world, server, key, value, dryRun, r.value))
  {
    hide Tick;
    hide Later;
    hide Put;
    hide Answered;
    TickLater(w0, a.world, server, key, value, dryRun);
    var w1 := Tick(a.world);
    TickLater(w0, w1, server, key, value, dryRun);
    var w2 := Tick(w1);
    if dryRun {
      DryAnswer(w0, w2, server, key, value);
    } else {
      assert Fresh(w2) by { LaterFresh(w0, w2, server, key, value, dryRun); }
      LaterWrites(w0, w2, server, key, value);
    }
  }

  lemma LaterFresh<K(!new), V(!new)>(w0: World<K, V>, w: World<K, V>, server: Server<V>, key: K, value: V, dryRun: bool)
    requires Later(w0, w, server, key, value, dryRun)
    ensures Fresh(w)
  {
  }

  lemma DryAnswer<K(!new), V(!new)>(w0: World<K, V>, w: World<K, V>, server: Server<V>, key: K, value: V)
    requires Later(w0, w, server, key, value, true)
    requires |w.moments| > |w0.moments| && w.moments[|w.moments| - 1] == w.objects
    ensures Answered(w0, w, server, key, value, true,
                     server(if key in w.objects then Some(w.objects[key].value) else None, value))
  {
    assert server(Held(w, key, |w.moments| - 1), value) ==
           server(if key in w.objects then Some(w.objects[key].value) else None, value);
  }

  /**
   * `Apply` with all its retries, under any interference: every effective write replaced what the store held at
   * that moment by what the server makes of `value` there; success means that the answer was written last,
   * unless dry; a dry run writes nothing.
   */
  lemma ApplyLater<K(!new), V(!new)>(w0: World<K, V>, server: Server<V>, key: K, value: V, dryRun: bool)
    requires Fresh(w0)
    ensures var (w', r) := ApplySpec(w0, server, key, value, dryRun);
            && Later(w0, w', server, key, value, dryRun)
            && (r.Ok? ==> Answered(w0, w', server, key, value, dryRun, r.value))
  {
    var operation, wait := ApplyAttempt(server, key, value, dryRun), ApplyWait();
    var inv: Applying<K, V> -> bool := (s: Applying<K, V>) => Later(w0, s.world, server, key, value, dryRun);
    var post: (Applying<K, V>, Result<V, ApiError>) -> bool :=
      (s: Applying<K, V>, r: Result<V, ApiError>) =>
        && Later(w0, s.world, server, key, value, dryRun)
        && (r.Ok? ==> Answered(w0, s.world, server, key, value, dryRun, r.value));
    forall s | inv(s)
      ensures post(operation(s).0, operation(s).1)
      ensures operation(s).1.Err? ==> inv(operation(s).0)
    {
      AttemptLater(w0, s, server, key, value, dryRun);
    }
    forall s, d | inv(s)
      ensures inv(wait(s, d).0)
      ensures wait(s, d).1.Some? ==> post(wait(s, d).0, Err(wait(s, d).1.value))
    {
      TickLater(w0, s.world, server, key, value, dryRun);
    }
    Retry.DoInvariant(CLIENT_RETRY, operation, wait, Transient, Applying(w0, false), 1, inv, post);
  }

  // ---- what the operations guarantee without other writers ----

  /** Writing the same object again over its stored form changes nothing. */
  ghost predicate Stable<V(!new)>(server: Server<V>)
  {
    forall e, v {:trigger server(Some(server(e, v)), v)} :: server(Some(server(e, v)), v) == server(e, v)
  }

  lemma QuietTick<K(!new), V(!new)>(w: World<K, V>)
    requires Quiet(w)
    ensures Tick(w).objects == w.objects && View(Tick(w)) == View(w) && Quiet(Tick(w))
    ensures Smooth(w) ==> Smooth(Tick(w))
  {
    assert Tick(w).objects == w.objects;
  }

  lemma PutView<K(!new), V(!new)>(w: World<K, V>, key: K, value: V)
    ensures View(Put(w, key, value)) == View(w)[key := value]
  {
  }

  lemma RemoveView<K(!new), V(!new)>(w: World<K, V>, key: K)
    ensures View(Remove(w, key)) == View(w) - {key}
  {
  }

  ghost predicate Applied<K(!new), V(!new)>(before: map<K, V>, after: map<K, V>, server: Server<V>, key: K, value: V,
                                            dryRun: bool, result: Result<V, ApiError>)
  {
    var stored := server(At(before, key), value);
    && (result.Ok? ==> result.value == stored && after == if dryRun then before else before[key := stored])
    && (result.Err? ==> after == before || (!dryRun && after == before[key := stored]))
  }

  /** Without other writers, what was read once is still there. */
  ghost predicate StillThere<K(!new), V(!new)>(a: Applying<K, V>, key: K)
  {
    Quiet(a.world) && (a.versioned ==> key in a.world.objects)
  }

  lemma ApplyOnceQuiet<K(!new), V(!new)>(a: Applying<K, V>, server: Server<V>, key: K, value: V, dryRun: bool)
    requires StillThere(a, key)
    ensures var (a', r) := ApplyOnce(a, server, key, value, dryRun);
            && StillThere(a', key) && Applied(View(a.world), View(a'.world), server, key, value, dryRun, r)
            && (Smooth(a.world) ==> Smooth(a'.world) && r.Ok?)
  {
    var w := a.world;
    QuietTick(w);
    var w1 := Tick(w);
    QuietTick(w1);
    PutView(Tick(w1), key, server(None, value));
    if key in w.objects {
      PutView(Tick(w1), key, server(Some(w.objects[key].value), value));
    }
  }

  /**
   * `Apply` with all its retries is one write: on success the stored object is what the server makes
   * of the value, on failure the store holds either the old or that new object, and a dry run
   * changes nothing. A repeated ambiguous write is harmless because the server is stable.
   */
  lemma ApplyQuiet<K(!new), V(!new)>(w: World<K, V>, server: Server<V>, key: K, value: V, dryRun: bool)
    requires Quiet(w) && Stable(server)
    ensures var (w', r) := ApplySpec(w, server, key, value, dryRun);
            Quiet(w') && Applied(View(w), View(w'), server, key, value, dryRun, r)
  {
    var before := View(w);
    var operation, wait := ApplyAttempt(server, key, value, dryRun), ApplyWait();
    var inv: Applying<K, V> -> bool := s => Midway(before, s, server, key, value, dryRun);
    var post: (Applying<K, V>, Result<V, ApiError>) -> bool :=
      (s: Applying<K, V>, r: Result<V, ApiError>) =>
        Quiet(s.world) && Applied(before, View(s.world), server, key, value, dryRun, r);
    forall s | inv(s)
      ensures post(operation(s).0, operation(s).1)
      ensures operation(s).1.Err? ==> inv(operation(s).0)
    {
      AttemptFromMidway(before, s, server, key, value, dryRun);
    }
    forall s, d | inv(s)
      ensures inv(wait(s, d).0)
      ensures wait(s, d).1.Some? ==> post(wait(s, d).0, Err(wait(s, d).1.value))
    {
      QuietTick(s.world);
    }
    Retry.DoInvariant(CLIENT_RETRY, operation, wait, Transient, Applying(w, false), 1, inv, post);
  }

  /** Between attempts: the write has or has not taken effect. */
  ghost predicate Midway<K(!new), V(!new)>(before: map<K, V>, a: Applying<K, V>, server: Server<V>, key: K, value: V,
                                           dryRun: bool)
  {
    var now := View(a.world);
    StillThere(a, key) && (now == before || (!dryRun && now == before[key := server(At(before, key), value)]))
  }

  lemma AttemptFromMidway<K(!new), V(!new)>(before: map<K, V>, a: Applying<K, V>, server: Server<V>, key: K, value: V,
                                            dryRun: bool)
    requires Stable(server) && Midway(before, a, server, key, value, dryRun)
    ensures var (a', r) := ApplyOnce(a, server, key, value, dryRun);
            && Quiet(a'.world) && Applied(before, View(a'.world), server, key, value, dryRun, r)
            && (r.Err? ==> Midway(before, a', server, key, value, dryRun))
  {
    ApplyOnceQuiet(a, server, key, value, dryRun);
    var stored := server(At(before, key), value);
    assert before[key := stored][key := stored] == before[key := stored];
  }

  /** When nothing goes wrong the first attempt succeeds. */
  lemma ApplySmooth<K(!new), V(!new)>(w: World<K, V>, server: Server<V>, key: K, value: V, dryRun: bool)
    requires Quiet(w) && Smooth(w)
    ensures var (w', r) := ApplySpec(w, server, key, value, dryRun); Smooth(w') && r.Ok?
  {
    ApplyOnceQuiet(Applying(w, false), server, key, value, dryRun);
  }

  lemma UninstallSmooth<K(!new), V(!new)>(w: World<K, V>, key: K)
    requires Quiet(w) && Smooth(w)
    ensures var (w', r) := UninstallSpec(w, key); Smooth(w') && r.Ok?
  {
    UninstallOnceQuiet(w, key);
  }

  ghost predicate Uninstalled<K(!new), V(!new)>(before: map<K, V>, after: map<K, V>, key: K,
                                                result: Result<(), ApiError>)
  {
    && (after == before || after == before - {key})
    && (result.Ok? ==> key !in after)
  }

  lemma UninstallOnceQuiet<K(!new), V(!new)>(w: World<K, V>, key: K)
    requires Quiet(w)
    ensures var (w', r) := UninstallOnce(w, key);
            && Quiet(w') && Uninstalled(View(w), View(w'), key, r)
            && (Smooth(w) ==> Smooth(w') && r.Ok?)
  {
    QuietTick(w);
    var w1 := Tick(w);
    QuietTick(w1);
    RemoveView(Tick(w1), key);
    assert key !in View(w) ==> View(w) - {key} == View(w);
  }

  /** `Uninstall` with all its retries removes the key, or on failure possibly leaves it. */
  lemma UninstallQuiet<K(!new), V(!new)>(w: World<K, V>, key: K)
    requires Quiet(w)
    ensures var (w', r) := UninstallSpec(w, key);
            Quiet(w') && Uninstalled(View(w), View(w'), key, r)
  {
    var before := View(w);
    var operation, wait := UninstallAttempt(key), Wait();
    var inv: World<K, V> -> bool :=
      s => Quiet(s) && (View(s) == before || View(s) == before - {key});
    var post: (World<K, V>, Result<(), ApiError>) -> bool :=
      (s, r) => Quiet(s) && Uninstalled(before, View(s), key, r);
    forall s | inv(s)
      ensures post(operation(s).0, operation(s).1)
      ensures operation(s).1.Err? ==> inv(operation(s).0)
    {
      UninstallOnceQuiet(s, key);
      assert before - {key} - {key} == before - {key};
    }
    forall s, d | inv(s)
      ensures inv(wait(s, d).0)
      ensures wait(s, d).1.Some? ==> post(wait(s, d).0, Err(wait(s, d).1.value))
    {
      QuietTick(s);
    }
    Retry.DoInvariant(CLIENT_RETRY, operation, wait, Transient, w, 1, inv, post);
  }

  /** A client and the server it talks to. */
  class Client<K(==, !new), V(==, !new)> {
    const server: Server<V>
    var world: World<K, V>

    constructor (server: Server<V>, world: World<K, V>)
      ensures this.server == server && this.world == world
    {
      this.server, this.world := server, world;
    }

    ghost function Objects(): map<K, V>
      reads this
    {
      View(world)
    }

    method Get(key: K) returns (r: Result<V, ApiError>)
      modifies this
      ensures world == GetRequest(old(world), key).0
      ensures r == match GetRequest(old(world), key).1 case Ok(s) => Ok(s.value) case Err(e) => Err(e)
      ensures old(Quiet(world)) ==>
                && Quiet(world) && Objects() == old(Objects())
                && (r.Ok? ==> key in Objects() && r.value == Objects()[key])
                && (r == Err(NotFound) ==> key !in Objects())
                && (old(Smooth(world)) ==> Smooth(world) && (r.Ok? || r == Err(NotFound)))
    {
      if Quiet(world) { QuietTick(world); }
      var (w, got) := GetRequest(world, key);
      world := w;
      match got {
        case Ok(stored) => r := Ok(stored.value);
        case Err(e) => r := Err(e);
      }
    }

    method Apply(key: K, value: V, dryRun: bool) returns (r: Result<V, ApiError>)
      modifies this
      ensures (world, r) == ApplySpec(old(world), server, key, value, dryRun)
      ensures old(Quiet(world)) && Stable(server) ==>
                && Quiet(world) && Applied(old(Objects()), Objects(), server, key, value, dryRun, r)
                && (old(Smooth(world)) ==> Smooth(world) && r.Ok?)
    {
      if Quiet(world) && Stable(server) { ApplyQuiet(world, server, key, value, dryRun); }
      if Quiet(world) && Smooth(world) { ApplySmooth(world, server, key, value, dryRun); }
      var run := Retry.Do(CLIENT_RETRY, ApplyAttempt(server, key, value, dryRun), ApplyWait(), Transient,
                          Applying(world, false));
      world := run.world.world;
      r := run.result;
    }

    method Patch(key: K, patch: V -> V) returns (r: Result<V, ApiError>)
      modifies this
      ensures old(Quiet(world)) ==>
                && Quiet(world)
                && (r.Ok? ==> key in old(Objects()))
                && (Objects() == old(Objects())
                    || (key in old(Objects()) && Objects() == old(Objects())[key := patch(old(Objects()[key]))]))
                && (r.Ok? ==> Objects() == old(Objects())[key := patch(old(Objects()[key]))])
                && (old(Smooth(world)) ==> Smooth(world) && (key in old(Objects()) ==> r.Ok?))
    {
      if Quiet(world) {
        QuietTick(world);
        if key in world.objects {
          PutView(Tick(world), key, patch(world.objects[key].value));
        }
      }
      var (w, patched) := PatchRequest(world, key, patch);
      world := w;
      r := patched;
    }

    method Uninstall(key: K) returns (r: Result<(), ApiError>)
      modifies this
      ensures (world, r) == UninstallSpec(old(world), key)
      ensures old(Quiet(world)) ==>
                && Quiet(world) && Uninstalled(old(Objects()), Objects(), key, r)
                && (old(Smooth(world)) ==> Smooth(world) && r.Ok?)
    {
      if Quiet(world) { UninstallQuiet(world, key); }
      if Quiet(world) && Smooth(world) { UninstallSmooth(world, key); }
      var run := Retry.Do(CLIENT_RETRY, UninstallAttempt(key), Wait(), Transient, world);
      world := run.world;
      r := run.result;
    }
  }
}
