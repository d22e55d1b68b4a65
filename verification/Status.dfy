/** internal/controllers/compositiondefinitions/helpers/status/status.go */
module Status {
  import opened Wrappers
  import opened Generation
  import Bundle
  import CrdClient
  import Hash

  datatype ChartInfo = ChartInfo(url: string, version: string, repo: string, insecureSkipVerifyTLS: bool,
                                 credentials: Option<Bundle.SecretRef>)

  datatype VersionDetail = VersionDetail(version: string, served: bool, stored: bool, chart: Option<ChartInfo>)

  /** `digest` is absent until a deployment has succeeded; group, version and kind are the last applied ones. */
  datatype DefinitionStatus = DefinitionStatus(
    digest: Option<Hash.Word>, group: string, version: string, kind: string, resource: string,
    managedGroup: string, managedKind: string, versionInfo: seq<VersionDetail>, packageURL: string)

  type Infos = seq<VersionDetail>

  function Find(infos: Infos, name: string): (i: nat)
    ensures i <= |infos|
    ensures i < |infos| ==> infos[i].version == name
    ensures forall j :: 0 <= j < i ==> infos[j].version != name
  {
    if infos == [] || infos[0].version == name then 0 else 1 + Find(infos[1..], name)
  }

  /** A known version gets the CRD's flags; an unknown one is added, with chart data only for `wanted`. */
  function Refresh(infos: Infos, v: Version, wanted: string, chart: ChartInfo): Infos
  {
    var i := Find(infos, v.name);
    if i < |infos| then infos[i := infos[i].(served := v.served, stored := v.storage)]
    else infos + [VersionDetail(v.name, v.served, v.storage, if v.name == wanted then Some(chart) else None)]
  }

  function RefreshAll(infos: Infos, vs: seq<Version>, wanted: string, chart: ChartInfo): Infos
  {
    if vs == [] then infos
    else Refresh(RefreshAll(infos, vs[..|vs| - 1], wanted, chart), vs[|vs| - 1], wanted, chart)
  }

  function Refreshed(s: DefinitionStatus, crd: Spec, gvr: Bundle.GVR, kind: string, chart: ChartInfo,
                     packageURL: string)
    : DefinitionStatus
  {
    s.(versionInfo := RefreshAll(s.versionInfo, crd.versions, gvr.version, chart),
       managedGroup := crd.group, managedKind := crd.kind,
       group := gvr.group, version := gvr.version, kind := kind, resource := gvr.resource, packageURL := packageURL)
  }

  class CompositionDefinition {
    const ns: string
    const chart: ChartInfo
    var status: DefinitionStatus

    constructor (ns: string, chart: ChartInfo, status: DefinitionStatus)
      ensures this.ns == ns && this.chart == chart && this.status == status
    {
      this.ns, this.chart, this.status := ns, chart, status;
    }

    method UpdateVersionInfo(versions: seq<Version>, wanted: string)
      modifies this
      ensures status == old(status).(versionInfo := RefreshAll(old(status.versionInfo), versions, wanted, chart))
    {
      ghost var before := status;
      for n := 0 to |versions|
        invariant status == before.(versionInfo := RefreshAll(before.versionInfo, versions[..n], wanted, chart))
      {
        var v := versions[n];
        assert versions[..n + 1][..n] == versions[..n];
        ghost var infos := status.versionInfo;
        var i := -1;
        for j := 0 to |status.versionInfo|
          invariant i == -1 && status.versionInfo == infos
          invariant status == before.(versionInfo := infos)
          invariant forall k :: 0 <= k < j ==> infos[k].version != v.name
        {
          if status.versionInfo[j].version == v.name {
            i := j;
            break;
          }
        }
        assert i == if Find(infos, v.name) < |infos| then Find(infos, v.name) else -1;
        if i == -1 {
          var detail := VersionDetail(v.name, v.served, v.storage, None);
          if wanted == detail.version {
            detail := detail.(chart := Some(chart));
          }
          status := status.(versionInfo := status.versionInfo + [detail]);
        } else {
          var detail := status.versionInfo[i].(served := v.served);
          detail := detail.(stored := v.storage);
          status := status.(versionInfo := status.versionInfo[i := detail]);
        }
      }
      assert versions[..|versions|] == versions;
    }

    method RefreshCompositionDefinitionStatus(crd: Spec, gvr: Bundle.GVR, kind: string, packageURL: string)
      modifies this
      ensures status == Refreshed(old(status), crd, gvr, kind, chart, packageURL)
    {
      UpdateVersionInfo(crd.versions, gvr.version);
      status := status.(managedGroup := crd.group, managedKind := crd.kind);
      status := status.(group := gvr.group, version := gvr.version, kind := kind);
      status := status.(resource := gvr.resource, packageURL := packageURL);
    }
  }

  // ---- what refreshing keeps and reaches ----

  ghost predicate Unique(infos: Infos)
  {
    forall i, j :: 0 <= i < j < |infos| ==> infos[i].version != infos[j].version
  }

  /** Entries keep their place, their name and their chart. */
  ghost predicate Extends(a: Infos, b: Infos)
  {
    && |a| <= |b|
    && forall i :: 0 <= i < |a| ==> b[i].version == a[i].version && b[i].chart == a[i].chart
  }

  ghost predicate Records(infos: Infos, v: Version)
  {
    && Find(infos, v.name) < |infos|
    && infos[Find(infos, v.name)].served == v.served
    && infos[Find(infos, v.name)].stored == v.storage
  }

  lemma FindInExtension(a: Infos, b: Infos, name: string)
    requires Extends(a, b)
    ensures Find(a, name) < |a| ==> Find(b, name) == Find(a, name)
    ensures Find(a, name) == |a| ==> Find(b, name) >= |a|
  {
    var i, j := Find(a, name), Find(b, name);
    if i < |a| {
      assert b[i].version == name;
    }
    if j < |a| {
      assert a[j].version == name;
    }
  }

  lemma RefreshStep(infos: Infos, v: Version, wanted: string, chart: ChartInfo)
    ensures var r := Refresh(infos, v, wanted, chart);
            Extends(infos, r) && Records(r, v) && (Unique(infos) ==> Unique(r))
  {
    var r := Refresh(infos, v, wanted, chart);
    assert Extends(infos, r);
    FindInExtension(infos, r, v.name);
    if Find(infos, v.name) == |infos| {
      assert r[|infos|].version == v.name;
    }
  }

  lemma RefreshKeeps(infos: Infos, v: Version, wanted: string, chart: ChartInfo, u: Version)
    requires u.name != v.name && Records(infos, u)
    ensures Records(Refresh(infos, v, wanted, chart), u)
  {
    RefreshStep(infos, v, wanted, chart);
    FindInExtension(infos, Refresh(infos, v, wanted, chart), u.name);
  }

  lemma {:induction false} RefreshExtends(infos: Infos, vs: seq<Version>, wanted: string, chart: ChartInfo)
    ensures var r := RefreshAll(infos, vs, wanted, chart);
            Extends(infos, r) && (Unique(infos) ==> Unique(r))
  {
    if vs != [] {
      RefreshExtends(infos, vs[..|vs| - 1], wanted, chart);
      RefreshStep(RefreshAll(infos, vs[..|vs| - 1], wanted, chart), vs[|vs| - 1], wanted, chart);
    }
  }

  lemma {:induction false} RefreshRecords(infos: Infos, vs: seq<Version>, wanted: string, chart: ChartInfo, i: nat)
    requires CrdClient.Distinct(vs) && i < |vs|
    ensures Records(RefreshAll(infos, vs, wanted, chart), vs[i])
  {
    var rest, v := vs[..|vs| - 1], vs[|vs| - 1];
    var mid := RefreshAll(infos, rest, wanted, chart);
    if i < |rest| {
      assert rest[i] == vs[i] && vs[i].name != v.name;
      RefreshRecords(infos, rest, wanted, chart, i);
      RefreshKeeps(mid, v, wanted, chart, vs[i]);
    } else {
      RefreshStep(mid, v, wanted, chart);
    }
  }

  /**
   * Version information is only ever extended, names stay unique, and afterwards every version of
   * the CRD is recorded with the CRD's flags. Charts of known versions are never touched, so a
   * version recorded without a chart stays without one.
   */
  lemma RefreshRecordsAll(infos: Infos, vs: seq<Version>, wanted: string, chart: ChartInfo)
    requires CrdClient.Distinct(vs)
    ensures var r := RefreshAll(infos, vs, wanted, chart);
            && Extends(infos, r)
            && (Unique(infos) ==> Unique(r))
            && (forall i :: 0 <= i < |vs| ==> Records(r, vs[i]))
  {
    RefreshExtends(infos, vs, wanted, chart);
    forall i | 0 <= i < |vs| ensures Records(RefreshAll(infos, vs, wanted, chart), vs[i]) {
      RefreshRecords(infos, vs, wanted, chart, i);
    }
  }

  lemma {:induction false} RecordedIsFixed(infos: Infos, vs: seq<Version>, wanted: string, chart: ChartInfo)
    requires forall i :: 0 <= i < |vs| ==> Records(infos, vs[i])
    ensures RefreshAll(infos, vs, wanted, chart) == infos
  {
    if vs != [] {
      var rest := vs[..|vs| - 1];
      assert forall i :: 0 <= i < |rest| ==> rest[i] == vs[i];
      RecordedIsFixed(infos, rest, wanted, chart);
      assert Records(infos, vs[|vs| - 1]);
    }
  }

  /** Refreshing twice from the same CRD changes nothing the second time. */
  lemma RefreshIdempotent(s: DefinitionStatus, crd: Spec, gvr: Bundle.GVR, kind: string, chart: ChartInfo, url: string)
    requires CrdClient.Distinct(crd.versions)
    ensures var r := Refreshed(s, crd, gvr, kind, chart, url); Refreshed(r, crd, gvr, kind, chart, url) == r
  {
    RefreshRecordsAll(s.versionInfo, crd.versions, gvr.version, chart);
    RecordedIsFixed(RefreshAll(s.versionInfo, crd.versions, gvr.version, chart), crd.versions, gvr.version, chart);
  }
}
