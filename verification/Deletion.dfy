/**
 * `Delete` of internal/controllers/compositiondefinitions/compositiondefinitions.go, and the two filters of
 * getters.go by which it decides whether a definition is the last one.
 */
module Deletion {
  import opened Wrappers
  import opened Status
  import Bundle
  import Convergence
  import CrdClient
  import Deploy
  import DeployFacts
  import Getters
  import Kube
  import Naming
  import Reconcile
  import ReconcileFacts
  import Retry

  /** The status records this group and kind. */
  predicate OfKind(d: DefinitionStatus, group: string, kind: string)
  {
    d.group == group && d.kind == kind
  }

  predicate OfVersion(d: DefinitionStatus, group: string, kind: string, version: string)
  {
    OfKind(d, group, kind) && d.version == version
  }

  type Definitions = seq<DefinitionStatus>

  /** The definitions, by position, that record this group and kind. */
  function KindMatches(defs: Definitions, group: string, kind: string): set<nat>
  {
    set i: nat | i < |defs| && OfKind(defs[i], group, kind)
  }

  function VersionMatches(defs: Definitions, group: string, kind: string, version: string): set<nat>
  {
    set i: nat | i < |defs| && OfVersion(defs[i], group, kind, version)
  }

  method GetCompositionDefinitions(defs: Definitions, group: string, kind: string) returns (lst: Definitions)
    ensures |lst| == |KindMatches(defs, group, kind)|
    ensures forall d :: d in lst <==> d in defs && OfKind(d, group, kind)
  {
    hide OfKind;
    lst := [];
    ghost var found: set<nat> := {};
    for i := 0 to |defs|
      invariant found == set k: nat | k < i && OfKind(defs[k], group, kind)
      invariant |lst| == |found|
      invariant forall d :: d in lst <==> d in defs[..i] && OfKind(d, group, kind)
    {
      if OfKind(defs[i], group, kind) {
        lst := lst + [defs[i]];
        found := found + {i};
      }
      assert defs[..i + 1] == defs[..i] + [defs[i]];
    }
    assert found == KindMatches(defs, group, kind);
    assert defs[..|defs|] == defs;
  }

  method GetCompositionDefinitionsWithVersion(defs: Definitions, group: string, kind: string, version: string)
    returns (lst: Definitions)
    ensures |lst| == |VersionMatches(defs, group, kind, version)|
    ensures forall d :: d in lst <==> d in defs && OfVersion(d, group, kind, version)
  {
    hide OfVersion;
    lst := [];
    ghost var found: set<nat> := {};
    for i := 0 to |defs|
      invariant found == set k: nat | k < i && OfVersion(defs[k], group, kind, version)
      invariant |lst| == |found|
      invariant forall d :: d in lst <==> d in defs[..i] && OfVersion(d, group, kind, version)
    {
      if OfVersion(defs[i], group, kind, version) {
        lst := lst + [defs[i]];
        found := found + {i};
      }
      assert defs[..i + 1] == defs[..i] + [defs[i]];
    }
    assert found == VersionMatches(defs, group, kind, version);
    assert defs[..|defs|] == defs;
  }

  // ---- when deleting is safe ----

  lemma SubsetSize(a: set<nat>, b: set<nat>)
    requires a <= b
    ensures |a| <= |b|
  {
    assert b == a + (b - a);
  }

  lemma OneOf(s: set<nat>, me: nat)
    ensures me in s ==> |s| == 1 + |s - {me}|
    ensures me !in s ==> s - {me} == s
    ensures (forall i :: i in s ==> i == me) <==> |s - {me}| == 0
  {
    if me in s {
      assert s == (s - {me}) + {me};
    }
    if forall i :: i in s ==> i == me {
      assert s - {me} == {};
    }
    if |s - {me}| == 0 {
      forall i | i in s ensures i == me {
        assert i != me ==> i in s - {me};
      }
    }
  }

  /**
   * The CRD is spared whenever another definition records the same group and kind, exactly unless the
   * deleted definition does not record them itself and only one other does.
   */
  lemma CrdSpared(defs: Definitions, me: nat, group: string, kind: string)
    requires me < |defs|
    ensures var others := KindMatches(defs, group, kind) - {me};
            (others != {} ==> |KindMatches(defs, group, kind)| > 1)
            <==> OfKind(defs[me], group, kind) || |others| != 1
  {
    var s := KindMatches(defs, group, kind);
    OneOf(s, me);
    assert s - {me} != {} ==> |s - {me}| != 0;
  }

  /**
   * Compositions are deleted only by the last definition that records the version, exactly unless the
   * deleted definition does not record it itself and only one other does.
   */
  lemma CompositionsSpared(defs: Definitions, me: nat, group: string, kind: string, version: string)
    requires me < |defs|
    ensures var others := VersionMatches(defs, group, kind, version) - {me};
            (|VersionMatches(defs, group, kind, version)| == 1 ==> others == {})
            <==> OfVersion(defs[me], group, kind, version) || |others| != 1
  {
    var s := VersionMatches(defs, group, kind, version);
    OneOf(s, me);
    assert s - {me} != {} ==> |s - {me}| != 0;
  }

  /** A definition that records its own version removes the CRD only if it also deletes the compositions. */
  lemma CrdAfterCompositions(defs: Definitions, me: nat, group: string, kind: string, version: string)
    requires me < |defs| && OfVersion(defs[me], group, kind, version)
    requires |KindMatches(defs, group, kind)| <= 1
    ensures |VersionMatches(defs, group, kind, version)| == 1
  {
    SubsetSize(VersionMatches(defs, group, kind, version), KindMatches(defs, group, kind));
    OneOf(VersionMatches(defs, group, kind, version), me);
  }

  /** A definition deleted before it has recorded anything takes the CRD from the one that uses it. */
  lemma UnrecordedTakesTheCrd(mine: DefinitionStatus, other: DefinitionStatus, group: string, kind: string)
    requires !OfKind(mine, group, kind) && OfKind(other, group, kind)
    ensures |KindMatches([mine, other], group, kind)| == 1
    ensures |VersionMatches([mine, other], group, kind, other.version)| == 1
  {
    assert KindMatches([mine, other], group, kind) == {1};
    assert VersionMatches([mine, other], group, kind, other.version) == {1};
  }

  // ---- runs of several definitions ----

  type Id = string
  datatype GK = GK(group: string, kind: string)
  type Plural = GK -> CrdClient.GroupResource

  /** The recorded definitions, the CRDs there are, and the compositions of each. */
  datatype Cluster = Cluster(defs: map<Id, DefinitionStatus>, crds: set<CrdClient.GroupResource>,
                             comps: map<CrdClient.GroupResource, Getters.Store>)

  /** A reconcile that applied a CRD and recorded it; a deletion, for the kind and version of the chart. */
  datatype Event = Recorded(id: Id, status: DefinitionStatus) | Deleted(id: Id, chart: GK, version: string)

  function KindOf(d: DefinitionStatus): GK
  {
    GK(d.group, d.kind)
  }

  function Recording(defs: map<Id, DefinitionStatus>, gk: GK): set<Id>
  {
    set id | id in defs && KindOf(defs[id]) == gk
  }

  function RecordingVersion(defs: map<Id, DefinitionStatus>, gk: GK, version: string): set<Id>
  {
    set id | id in defs && KindOf(defs[id]) == gk && defs[id].version == version
  }

  /** A definition that changes nothing but its version takes the compositions of the old one along. */
  function Taken(c: Cluster, id: Id, status: DefinitionStatus, plural: Plural)
    : map<CrdClient.GroupResource, Getters.Store>
  {
    var key := plural(KindOf(status));
    if id in c.defs && KindOf(c.defs[id]) == KindOf(status) && c.defs[id].version != status.version && key in c.comps
    then c.comps[key := Getters.RelabelSet(c.comps[key],
                                           Getters.Carrying(c.comps[key], c.defs[id].version), status.version)]
    else c.comps
  }

  /** The last definition of a version takes its compositions with it. */
  function Left(c: Cluster, chart: GK, version: string, plural: Plural): map<CrdClient.GroupResource, Getters.Store>
  {
    var key := plural(chart);
    if |RecordingVersion(c.defs, chart, version)| == 1 && key in c.comps
    then c.comps[key := c.comps[key] - Getters.Carrying(c.comps[key], version)]
    else c.comps
  }

  /** With a CRD the API server removes all its objects. */
  function Served(comps: map<CrdClient.GroupResource, Getters.Store>, crds: set<CrdClient.GroupResource>)
    : map<CrdClient.GroupResource, Getters.Store>
  {
    map gr | gr in comps && gr in crds :: comps[gr]
  }

  function Step(c: Cluster, e: Event, plural: Plural): Cluster
  {
    match e
    case Recorded(id, status) =>
      Cluster(c.defs[id := status], c.crds + {plural(KindOf(status))}, Taken(c, id, status, plural))
    case Deleted(id, chart, version) =>
      var crds := if |Recording(c.defs, chart)| > 1 then c.crds else c.crds - {plural(chart)};
      Cluster(c.defs - {id}, crds, Served(Left(c, chart, version, plural), crds))
  }

  function Run(c: Cluster, events: seq<Event>, plural: Plural): Cluster
    decreases |events|
  {
    if events == [] then c else Run(Step(c, events[0], plural), events[1..], plural)
  }

  /** Each deleted definition records its own chart's kind and version at that moment. */
  ghost predicate OwnRecorded(c: Cluster, events: seq<Event>, plural: Plural)
    decreases |events|
  {
    events == [] ||
    (&& OwnRecordedIn(c, events[0])
     && OwnRecorded(Step(c, events[0], plural), events[1..], plural))
  }

  predicate OwnRecordedIn(c: Cluster, e: Event)
  {
    e.Deleted? ==> e.id in RecordingVersion(c.defs, e.chart, e.version)
  }

  ghost predicate Injective(plural: Plural)
  {
    forall a, b :: plural(a) == plural(b) ==> a == b
  }

  /** Whatever a definition records has its CRD. */
  ghost predicate AllServed(c: Cluster, plural: Plural)
  {
    forall id :: id in c.defs ==> plural(KindOf(c.defs[id])) in c.crds
  }

  /** Some definition other than `me` records the kind and the version of this composition. */
  predicate InUse(defs: map<Id, DefinitionStatus>, me: Id, gr: CrdClient.GroupResource, comp: Getters.Composition,
                   plural: Plural)
  {
    exists id :: id in defs && id != me && plural(KindOf(defs[id])) == gr && Getters.HasVersion(comp, defs[id].version)
  }

  /**
   * No step loses a composition whose version another definition records, be it deleted as one of its version
   * or together with its CRD.
   */
  ghost predicate Spares(c: Cluster, e: Event, c': Cluster, plural: Plural)
  {
    forall gr, k :: gr in c.crds && gr in c.comps && k in c.comps[gr] && !(gr in c'.comps && k in c'.comps[gr]) ==>
      e.Deleted? && gr == plural(e.chart) && !InUse(c.defs, e.id, gr, c.comps[gr][k], plural)
  }

  ghost predicate AllSpare(c: Cluster, events: seq<Event>, plural: Plural)
    decreases |events|
  {
    events == [] ||
    (&& Spares(c, events[0], Step(c, events[0], plural), plural)
     && AllSpare(Step(c, events[0], plural), events[1..], plural))
  }

  lemma TwoMembers<T>(s: set<T>, a: T, b: T)
    requires a in s && b in s && a != b
    ensures |s| > 1
  {
    assert s == {a, b} + (s - {a, b});
  }

  lemma StepServes(c: Cluster, e: Event, plural: Plural)
    requires AllServed(c, plural) && Injective(plural) && OwnRecordedIn(c, e)
    ensures AllServed(Step(c, e, plural), plural)
  {
    if e.Deleted? {
      forall other | other in c.defs && other != e.id && KindOf(c.defs[other]) == e.chart
        ensures |Recording(c.defs, e.chart)| > 1
      {
        TwoMembers(Recording(c.defs, e.chart), e.id, other);
      }
    }
  }

  lemma StepSpares(c: Cluster, e: Event, plural: Plural)
    requires OwnRecordedIn(c, e) && Injective(plural)
    ensures Spares(c, e, Step(c, e, plural), plural)
  {
    if e.Deleted? {
      var c' := Step(c, e, plural);
      forall gr, k, id |
        && gr in c.crds && gr in c.comps && k in c.comps[gr] && !(gr in c'.comps && k in c'.comps[gr])
        && id in c.defs && id != e.id && plural(KindOf(c.defs[id])) == gr
        ensures !Getters.HasVersion(c.comps[gr][k], c.defs[id].version)
      {
        LostIsUnrecorded(c, e.id, e.chart, e.version, plural, k, id);
      }
    }
  }

  /** What the deletion of `me` removes does not carry the version of another definition of the kind. */
  lemma LostIsUnrecorded(c: Cluster, me: Id, chart: GK, version: string, plural: Plural, k: Getters.Key, other: Id)
    requires me in RecordingVersion(c.defs, chart, version) && other in c.defs && other != me
    requires var key := plural(chart);
             && KindOf(c.defs[other]) == chart && key in c.crds && key in c.comps && k in c.comps[key]
             && var c' := Step(c, Deleted(me, chart, version), plural);
                !(key in c'.comps && k in c'.comps[key])
    ensures !Getters.HasVersion(c.comps[plural(chart)][k], c.defs[other].version)
  {
    TwoMembers(Recording(c.defs, chart), me, other);
    if c.defs[other].version == version {
      TwoMembers(RecordingVersion(c.defs, chart, version), me, other);
    }
  }

  /**
   * And they do remove: the last definition of a version leaves no composition of it, and the last one of a
   * kind neither the CRD nor any composition.
   */
  lemma StepCleans(c: Cluster, e: Event, plural: Plural)
    requires e.Deleted? && OwnRecordedIn(c, e)
    ensures var (c', key) := (Step(c, e, plural), plural(e.chart));
            && ((forall id :: id in c.defs && id != e.id && KindOf(c.defs[id]) == e.chart ==>
                   c.defs[id].version != e.version) ==>
                  key in c'.comps ==> Getters.Carrying(c'.comps[key], e.version) == {})
            && ((forall id :: id in c.defs && id != e.id ==> KindOf(c.defs[id]) != e.chart) ==>
                  key !in c'.crds && key !in c'.comps)
  {
    var kinds, s := Recording(c.defs, e.chart), RecordingVersion(c.defs, e.chart, e.version);
    if forall id :: id in s ==> id == e.id {
      assert s == {e.id};
    }
    if forall id :: id in kinds ==> id == e.id {
      assert kinds == {e.id};
    }
  }

  /**
   * Over every run, the CRD of a kind that some definition records is there, and no composition is lost
   * while a definition that remains records its version.
   */
  lemma {:induction false} RunServes(c: Cluster, events: seq<Event>, plural: Plural)
    requires AllServed(c, plural) && Injective(plural) && OwnRecorded(c, events, plural)
    ensures AllServed(Run(c, events, plural), plural) && AllSpare(c, events, plural)
    decreases |events|
  {
    hide Step;
    hide Spares;
    hide AllServed;
    hide OwnRecordedIn;
    if events != [] {
      StepServes(c, events[0], plural);
      StepSpares(c, events[0], plural);
      RunServes(Step(c, events[0], plural), events[1..], plural);
    }
  }

  // ---- Delete itself ----

  datatype Error = Mapping(e: Kube.ApiError) | OnComposition(e: Kube.ApiError) | Waiting | OnBundle(b: Bundle.Error)

  /** A composition `held` by a finalizer is only marked; it goes away later. */
  method UninstallComposition(comps: Getters.Compositions, key: Getters.Key, held: bool) returns (err: Option<Error>)
    requires Kube.Quiet(comps.world)
    modifies comps
    ensures Kube.Quiet(comps.world)
    ensures comps.Objects() == old(comps.Objects()) || (!held && comps.Objects() == old(comps.Objects()) - {key})
    ensures err.None? && !held ==> comps.Objects() == old(comps.Objects()) - {key}
  {
    ghost var before := comps.Objects();
    assert key !in before ==> before - {key} == before;
    Kube.QuietTick(comps.world);
    if held {
      var outcome := Kube.NextOutcome(comps.world);
      comps.world := Kube.Tick(comps.world);
      return if outcome.Succeeds? then None else Some(OnComposition(outcome.error));
    }
    Kube.UninstallQuiet(comps.world, key);
    var run := Retry.Do(Kube.CLIENT_RETRY, Kube.UninstallAttempt(key), Kube.Wait(), Kube.Transient, comps.world);
    comps.world := run.world;
    err := if run.result.Err? then Some(OnComposition(run.result.error)) else None;
  }

  /** Some of the compositions that carried the version are gone, and nothing else. */
  ghost predicate OnlyRemoved(before: Getters.Store, now: Getters.Store, version: string)
  {
    exists gone :: gone <= Getters.Carrying(before, version) && now == before - gone
  }

  lemma RemoveOneMore(before: Getters.Store, now: Getters.Store, key: Getters.Key, version: string)
    requires OnlyRemoved(before, now, version) && key in Getters.Carrying(before, version)
    ensures OnlyRemoved(before, now - {key}, version)
  {
    var gone :| gone <= Getters.Carrying(before, version) && now == before - gone;
    assert now - {key} == before - (gone + {key});
  }

  /** All compositions of the version are deleted, and none must be left. */
  method DeleteCompositions(comps: Getters.Compositions, version: string, held: set<Getters.Key>)
    returns (err: Option<Error>)
    requires Kube.Quiet(comps.world)
    modifies comps
    ensures Kube.Quiet(comps.world)
    ensures OnlyRemoved(old(comps.Objects()), comps.Objects(), version)
    ensures err.None? ==> Getters.Carrying(comps.Objects(), version) == {}
  {
    hide Kube.View;
    hide Getters.Carrying;
    ghost var before := comps.Objects();
    assert OnlyRemoved(before, before, version) by { assert before == before - {}; }
    var ul := comps.GetCompositions(version);
    if ul.Err? {
      return Some(OnComposition(ul.error));
    }
    var todo := ul.value;
    while todo != {}
      invariant todo <= Getters.Carrying(before, version)
      invariant Kube.Quiet(comps.world) && OnlyRemoved(before, comps.Objects(), version)
      decreases todo
    {
      var key :| key in todo;
      RemoveOneMore(before, comps.Objects(), key, version);
      err := UninstallComposition(comps, key, key in held);
      if err.Some? {
        return;
      }
      todo := todo - {key};
    }
    ul := comps.GetCompositions(version);
    if ul.Err? {
      return Some(OnComposition(ul.error));
    }
    if |ul.value| > 0 {
      return Some(Waiting);
    }
    err := None;
  }

  /**
   * `resource` is what the chart's kind resolves to, and `o` names the bundle of the chart's version;
   * all definitions, the deleted one among them, are `defs`.
   */
  method Delete(kube: Deploy.Client, crds: Deploy.CrdStore, comps: Getters.Compositions, defs: Definitions,
                kind: string, resource: Result<(), Kube.ApiError>, o: Bundle.Options, held: set<Getters.Key>)
    returns (err: Option<Error>)
    requires Kube.Quiet(kube.world) && Kube.Quiet(crds.world) && Kube.Quiet(comps.world)
    requires kube as object != crds as object && comps as object !in {kube, crds}
    modifies kube, crds, comps
    ensures var (kinds, last) := (KindMatches(defs, o.gvr.group, kind),
                                  |VersionMatches(defs, o.gvr.group, kind, o.gvr.version)| == 1);
            && (resource.Err? ==>
                  && (err.None? <==> resource.error == Kube.NotFound)
                  && kube.Objects() == old(kube.Objects()) && crds.Objects() == old(crds.Objects())
                  && comps.Objects() == old(comps.Objects()))
            && (resource.Ok? && err.None? ==>
                  && kube.Objects() == old(kube.Objects()) - Bundle.Keys(Bundle.Plan(o))
                  && crds.Objects() == (if |kinds| > 1 then old(crds.Objects())
                                        else old(crds.Objects()) - {Deploy.CrdKey(o)}))
            && (resource.Ok? && err.None? && last ==> Getters.Carrying(comps.Objects(), o.gvr.version) == {})
            && (crds.Objects() != old(crds.Objects()) ==> |kinds| <= 1)
            && (if last then OnlyRemoved(old(comps.Objects()), comps.Objects(), o.gvr.version)
                else comps.Objects() == old(comps.Objects()))
            && (last && (kube.Objects() != old(kube.Objects()) || crds.Objects() != old(crds.Objects())) ==>
                  Getters.Carrying(comps.Objects(), o.gvr.version) == {})
  {
    hide Kube.View;
    hide Getters.Carrying;
    hide OnlyRemoved;
    hide KindMatches;
    hide VersionMatches;
    hide Deploy.RemovalKeys;
    hide Deploy.Removed;
    hide Bundle.Plan;
    hide Bundle.Keys;
    NothingRemoved(comps.Objects(), o.gvr.version);
    if resource.Err? {
      return if resource.error == Kube.NotFound then None else Some(Mapping(resource.error));
    }
    var lst := GetCompositionDefinitionsWithVersion(defs, o.gvr.group, kind, o.gvr.version);
    if |lst| == 1 {
      err := DeleteCompositions(comps, o.gvr.version, held);
      if err.Some? {
        return;
      }
    }
    lst := GetCompositionDefinitions(defs, o.gvr.group, kind);
    DeployFacts.TeardownKeys(o);
    var failed := Deploy.Undeploy(kube, crds, o, |lst| > 1);
    err := if failed.Some? then Some(OnBundle(failed.value)) else None;
  }

  lemma NothingRemoved(m: Getters.Store, version: string)
    ensures OnlyRemoved(m, m, version)
  {
    assert m == m - {};
  }

  // ---- Delete as a step of a run ----

  /** The list of all definitions, in some order. */
  ghost predicate Lists(ids: seq<Id>, defs: map<Id, DefinitionStatus>, listed: Definitions)
  {
    && (forall i, j :: 0 <= i < j < |ids| ==> ids[i] != ids[j])
    && (forall id :: id in ids <==> id in defs)
    && |listed| == |ids| && forall i :: 0 <= i < |ids| ==> listed[i] == defs[ids[i]]
  }

  function Places(ids: seq<Id>, s: set<Id>): set<nat>
  {
    set i: nat | i < |ids| && ids[i] in s
  }

  function Members(ids: seq<Id>, s: set<Id>): set<Id>
  {
    set id | id in ids && id in s
  }

  lemma OnePlaceMore(ids: seq<Id>, s: set<Id>)
    requires ids != []
    ensures var last := |ids| - 1;
            Places(ids, s) == Places(ids[..last], s) + if ids[last] in s then {last} else {}
  {
  }

  lemma OneMemberMore(ids: seq<Id>, s: set<Id>)
    requires ids != []
    ensures var last := |ids| - 1;
            Members(ids, s) == Members(ids[..last], s) + if ids[last] in s then {ids[last]} else {}
  {
    var last := |ids| - 1;
    assert forall id :: id in ids <==> id in ids[..last] || id == ids[last];
  }

  lemma {:induction false} SameCount(ids: seq<Id>, s: set<Id>)
    requires forall i, j :: 0 <= i < j < |ids| ==> ids[i] != ids[j]
    ensures |Places(ids, s)| == |Members(ids, s)|
  {
    if ids != [] {
      var last := |ids| - 1;
      SameCount(ids[..last], s);
      OnePlaceMore(ids, s);
      OneMemberMore(ids, s);
      assert last !in Places(ids[..last], s) && ids[last] !in Members(ids[..last], s);
    }
  }

  lemma CountsAgree(ids: seq<Id>, defs: map<Id, DefinitionStatus>, listed: Definitions, gk: GK, version: string)
    requires Lists(ids, defs, listed)
    ensures |KindMatches(listed, gk.group, gk.kind)| == |Recording(defs, gk)|
    ensures |VersionMatches(listed, gk.group, gk.kind, version)| == |RecordingVersion(defs, gk, version)|
  {
    var r, v := Recording(defs, gk), RecordingVersion(defs, gk, version);
    SameCount(ids, r);
    SameCount(ids, v);
    assert Members(ids, r) == r && Members(ids, v) == v;
    assert KindMatches(listed, gk.group, gk.kind) == Places(ids, r);
    assert VersionMatches(listed, gk.group, gk.kind, version) == Places(ids, v);
  }

  lemma AllRemoved(before: Getters.Store, now: Getters.Store, version: string)
    requires OnlyRemoved(before, now, version) && Getters.Carrying(now, version) == {}
    ensures now == before - Getters.Carrying(before, version)
  {
    var gone :| gone <= Getters.Carrying(before, version) && now == before - gone;
    forall k | k in Getters.Carrying(before, version) ensures k in gone {
      assert k !in gone ==> k in Getters.Carrying(now, version);
    }
  }

  lemma DeletedStep(c: Cluster, id: Id, chart: GK, version: string, plural: Plural, comps: Getters.Store,
                    before: CrdClient.Crds, after: CrdClient.Crds)
    requires plural(chart) in c.comps && c.crds == before.Keys
    requires after == if |Recording(c.defs, chart)| > 1 then before else before - {plural(chart)}
    requires comps == if |RecordingVersion(c.defs, chart, version)| == 1
                      then c.comps[plural(chart)] - Getters.Carrying(c.comps[plural(chart)], version)
                      else c.comps[plural(chart)]
    ensures Cluster(c.defs - {id}, after.Keys, Served(c.comps[plural(chart) := comps], after.Keys))
         == Step(c, Deleted(id, chart, version), plural)
  {
    hide Recording;
    hide RecordingVersion;
    hide Getters.Carrying;
    hide Served;
    assert c.comps[plural(chart) := c.comps[plural(chart)]] == c.comps;
  }

  /** A deletion that succeeds, with what the API server does about it, is the step of the run. */
  method DeleteStep(kube: Deploy.Client, crds: Deploy.CrdStore, comps: Getters.Compositions, listed: Definitions,
                    kind: string, o: Bundle.Options, held: set<Getters.Key>,
                    ghost c: Cluster, ghost ids: seq<Id>, ghost id: Id, ghost plural: Plural)
    returns (err: Option<Error>)
    requires Kube.Quiet(kube.world) && Kube.Quiet(crds.world) && Kube.Quiet(comps.world)
    requires kube as object != crds as object && comps as object !in {kube, crds}
    requires Lists(ids, c.defs, listed) && c.crds == crds.Objects().Keys
    requires var key := Deploy.CrdKey(o);
             plural(GK(o.gvr.group, kind)) == key && key in c.comps && c.comps[key] == comps.Objects()
    modifies kube, crds, comps
    ensures err.None? ==>
              Cluster(c.defs - {id}, crds.Objects().Keys,
                      Served(c.comps[Deploy.CrdKey(o) := comps.Objects()], crds.Objects().Keys))
              == Step(c, Deleted(id, GK(o.gvr.group, kind), o.gvr.version), plural)
  {
    hide Kube.View;
    hide Getters.Carrying;
    hide OnlyRemoved;
    hide KindMatches;
    hide VersionMatches;
    hide Recording;
    hide RecordingVersion;
    hide Bundle.Plan;
    hide Bundle.Keys;
    hide Lists;
    hide Served;
    hide Step;
    CountsAgree(ids, c.defs, listed, GK(o.gvr.group, kind), o.gvr.version);
    ghost var before, there := comps.Objects(), crds.Objects();
    err := Delete(kube, crds, comps, listed, kind, Ok(()), o, held);
    if err.None? {
      if |VersionMatches(listed, o.gvr.group, kind, o.gvr.version)| == 1 {
        AllRemoved(before, comps.Objects(), o.gvr.version);
      }
      DeletedStep(c, id, GK(o.gvr.group, kind), o.gvr.version, plural, comps.Objects(), there, crds.Objects());
    }
  }

  // ---- the bundles of other definitions ----

  /**
   * A deletion leaves the installed bundle of another definition whole exactly when no clash of names
   * applies. One of the same resource and version always loses at least the cluster role, whatever its
   * namespace.
   */
  lemma OtherBundleSpared(o: Bundle.Options, other: Bundle.Options, json: string,
                          before: Bundle.Store, after: Bundle.Store)
    requires Naming.ByResource(o.templates, json) && Naming.ByResource(other.templates, json)
    requires '-' !in o.gvr.resource && '-' !in other.gvr.resource
    requires Bundle.Keys(Bundle.Plan(other)) <= before.Keys
    requires after == before - Bundle.Keys(Bundle.Plan(o))
    ensures Bundle.Keys(Bundle.Plan(other)) <= after.Keys <==> !Naming.Clash(o, other, json)
    ensures !Naming.Clash(o, other, json) ==> forall k :: k in Bundle.Keys(Bundle.Plan(other)) ==> after[k] == before[k]
    ensures var role := Naming.FileKey(other, Bundle.ClusterRoleFile, json);
            && role in before
            && ((o.gvr.resource, o.gvr.version) == (other.gvr.resource, other.gvr.version) ==> role !in after)
  {
    hide Bundle.Plan;
    hide Bundle.Keys;
    hide Naming.ByResource;
    hide Naming.Clash;
    Naming.KeysApartIff(o, other, json);
    ClusterRoleKey(o, json);
    ClusterRoleKey(other, json);
  }

  /** The cluster role, whose name does not depend on the namespace. */
  lemma ClusterRoleKey(o: Bundle.Options, json: string)
    requires Naming.ByResource(o.templates, json)
    ensures var role := Naming.FileKey(o, Bundle.ClusterRoleFile, json);
            && role in Bundle.Keys(Bundle.Plan(o))
            && role == Bundle.Key(Bundle.ClusterRole, "", Naming.NameOf(o.gvr, Bundle.ClusterRoleFile, json))
  {
    hide Bundle.Plan;
    hide Bundle.Keys;
    hide Naming.ByResource;
    hide Naming.NameOf;
    Naming.KeysAre(o, json);
    assert Bundle.ClusterRoleFile in Naming.Used(o);
  }

  /**
   * Deleting a definition of the same resource and version, with a secret in the same namespace, leaves
   * another one that was up to date stuck exactly when a dry run does not miss what is gone.
   */
  lemma TwinDeletionSticks(cfg: Reconcile.Config, st: Reconcile.State, o: Bundle.Options, json: string)
    requires Convergence.Regular(cfg, st) && Reconcile.Observe(cfg, st) == Reconcile.UpToDate
    requires Naming.ByResource(cfg.templates, json) && o.templates == cfg.templates
    requires (o.gvr.resource, o.gvr.version) == (cfg.gen.plural, cfg.Version())
    requires cfg.chart.credentials.Some? && o.credentials.Some?
             && o.credentials.value.ns == cfg.chart.credentials.value.ns
    ensures var left := st.bundle - Bundle.Keys(Bundle.Plan(o));
            Convergence.Stuck(cfg, st.(bundle := left)) <==>
            Reconcile.DryDigest(cfg, left) == Reconcile.DryDigest(cfg, st.bundle)
  {
    hide Bundle.Plan;
    hide Bundle.Keys;
    hide Reconcile.DryDigest;
    hide Reconcile.Observe;
    hide Convergence.Regular;
    hide Convergence.Stuck;
    hide Convergence.SecretKeys;
    Convergence.NeededPositive(cfg, st);
    SharedSecret(cfg, o, json);
    ReconcileFacts.LostSecretsStick(cfg, st, Bundle.Keys(Bundle.Plan(o)));
  }

  lemma SharedSecret(cfg: Reconcile.Config, o: Bundle.Options, json: string)
    requires cfg.Versioned() && Naming.ByResource(cfg.templates, json) && o.templates == cfg.templates
    requires (o.gvr.resource, o.gvr.version) == (cfg.gen.plural, cfg.Version())
    requires cfg.chart.credentials.Some? && o.credentials.Some?
             && o.credentials.value.ns == cfg.chart.credentials.value.ns
    ensures !(Convergence.SecretKeys(cfg.Options()) !! Bundle.Keys(Bundle.Plan(o)))
  {
    hide Bundle.Plan;
    hide Bundle.Keys;
    Naming.KeysAre(o, json);
    var key := Naming.FileKey(o, Bundle.SecretRoleFile, json);
    assert Bundle.SecretRoleFile in Naming.Used(o);
    assert key in Bundle.Keys(Bundle.Plan(o)) && key in Convergence.SecretKeys(cfg.Options());
  }
}
