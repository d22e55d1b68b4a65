/** internal/tools/crd/generation/generation.go: in-place edits of a CustomResourceDefinition. */
module Generation {
  import opened Wrappers
  import Hash

  /** The properties of a version's schema, each as the JSON text that is hashed; `None` is a nil map. */
  type Properties = Option<map<string, string>>

  datatype Version = Version(name: string, served: bool, storage: bool, schema: Option<Properties>)

  datatype Service = Service(ns: string, name: string, port: int, path: string)
  datatype ClientConfig = ClientConfig(service: Option<Service>, caBundle: string)
  datatype Webhook = Webhook(reviewVersions: seq<string>, clientConfig: Option<ClientConfig>)
  datatype Conversion = Conversion(strategy: string, webhook: Option<Webhook>)

  datatype Spec = Spec(group: string, kind: string, plural: string, versions: seq<Version>,
                       conversion: Option<Conversion>)

  datatype Error =
    | NoConversion | NoWebhook | NoClientConfig
    | NilSchema
    | NilProperties // a panic: assignment to an entry of a nil map
    | NoStatus

  const VACUUM := "vacuum"
  const STATUS := "status"

  /** The JSON text of a property that is absent. */
  const ZERO_PROPERTY := "{}"

  const VACUUM_VERSION := Version(VACUUM, false, true, Some(Some(map[
    "apiVersion" := "{\"type\":\"string\"}",
    "kind" := "{\"type\":\"string\"}",
    "metadata" := "{\"type\":\"object\"}",
    "spec" := "{\"type\":\"object\",\"x-kubernetes-preserve-unknown-fields\":true}",
    STATUS := "{\"type\":\"object\",\"x-kubernetes-preserve-unknown-fields\":true}"])))

  predicate Real(v: Version)
  {
    v.name != VACUUM
  }

  predicate HasName(vs: seq<Version>, name: string)
  {
    exists i :: 0 <= i < |vs| && vs[i].name == name
  }

  function Names(vs: seq<Version>): (ns: seq<string>)
    ensures |ns| == |vs| && forall i :: 0 <= i < |vs| ==> ns[i] == vs[i].name
  {
    seq(|vs|, i requires 0 <= i < |vs| => vs[i].name)
  }

  // ---- what the edits do to a list of versions ----

  function Flagged(v: Version, name: string, served: bool, storage: bool): Version
  {
    if v.name == name then v.(served := served, storage := storage) else v
  }

  function SetFlags(vs: seq<Version>, name: string, served: bool, storage: bool): seq<Version>
  {
    seq(|vs|, i requires 0 <= i < |vs| => Flagged(vs[i], name, served, storage))
  }

  function Demoted(v: Version): Version
  {
    if Real(v) then v.(served := true, storage := false) else v
  }

  function Demote(vs: seq<Version>): seq<Version>
  {
    seq(|vs|, i requires 0 <= i < |vs| => Demoted(vs[i]))
  }

  /** A new version is appended, followed by the hidden storage version if there is none yet. */
  function AppendOne(vs: seq<Version>, v: Version): seq<Version>
  {
    if HasName(vs, v.name) then vs
    else Demote(vs + [v] + if HasName(vs, VACUUM) then [] else [VACUUM_VERSION])
  }

  function AppendAll(vs: seq<Version>, added: seq<Version>): seq<Version>
    decreases |added|
  {
    if added == [] then vs else AppendAll(AppendOne(vs, added[0]), added[1..])
  }

  function Property(schema: Option<Properties>, name: string): string
  {
    if schema.Some? && schema.value.Some? && name in schema.value.value then schema.value.value[name] else ZERO_PROPERTY
  }

  /** A schema without any property, read back as a nil map, which cannot take a status. */
  predicate Unwritable(v: Version)
  {
    v.schema == Some(None)
  }

  predicate AnyUnwritable(vs: seq<Version>)
  {
    exists i :: 0 <= i < |vs| && Unwritable(vs[i])
  }

  function WithStatus(v: Version, status: string): Version
  {
    if v.schema.Some? && v.schema.value.Some?
    then v.(schema := Some(Some(v.schema.value.value[STATUS := status]))) else v
  }

  function SetStatus(vs: seq<Version>, status: string): seq<Version>
  {
    seq(|vs|, i requires 0 <= i < |vs| => WithStatus(vs[i], status))
  }

  predicate HasStatus(v: Version)
  {
    v.schema.Some? && v.schema.value.Some? && STATUS in v.schema.value.value
  }

  /** The digest `StatusEqual` compares. */
  function StatusDigest(v: Version): Hash.Word
  {
    Hash.Digest(Property(v.schema, STATUS))
  }

  function FirstStatus(vs: seq<Version>): (i: int)
    ensures -1 <= i < |vs|
    ensures i >= 0 ==> HasStatus(vs[i])
    ensures forall j :: 0 <= j < (if i >= 0 then i else |vs|) ==> !HasStatus(vs[j])
  {
    if vs == [] then -1
    else if HasStatus(vs[0]) then 0
    else
      var i := FirstStatus(vs[1..]);
      if i < 0 then -1 else i + 1
  }

  function StatusesEqual(a: seq<Version>, b: seq<Version>): Result<bool, Error>
  {
    var i, j := FirstStatus(a), FirstStatus(b);
    if i < 0 || j < 0 then Err(NoStatus) else Ok(StatusDigest(a[i]) == StatusDigest(b[j]))
  }

  predicate HasGVK(crd: Spec, group: string, kind: string, version: string)
  {
    crd.group == group && crd.kind == kind && HasName(crd.versions, version)
  }

  predicate CompleteConversion(c: Option<Conversion>)
  {
    c.Some? && c.value.webhook.Some? && c.value.webhook.value.clientConfig.Some?
  }

  function WithCABundle(c: Option<Conversion>, ca: string): (c': Option<Conversion>)
    requires CompleteConversion(c)
    ensures CompleteConversion(c')
  {
    var w := c.value.webhook.value;
    Some(c.value.(webhook := Some(w.(clientConfig := Some(w.clientConfig.value.(caBundle := ca))))))
  }

  // ---- the object the functions edit ----

  class Crd {
    const group: string
    const kind: string
    const plural: string
    var versions: seq<Version>
    var conversion: Option<Conversion>

    constructor (spec: Spec)
      ensures Value() == spec
    {
      group, kind, plural, versions, conversion := spec.group, spec.kind, spec.plural, spec.versions, spec.conversion;
    }

    function Value(): Spec
      reads this
    {
      Spec(group, kind, plural, versions, conversion)
    }

    method UpdateCABundle(ca: string) returns (err: Option<Error>)
      modifies this
      ensures err.None? <==> CompleteConversion(old(conversion))
      ensures Value() == if err.Some? then old(Value())
                         else old(Value()).(conversion := WithCABundle(old(conversion), ca))
    {
      if conversion.None? {
        return Some(NoConversion);
      }
      if conversion.value.webhook.None? {
        return Some(NoWebhook);
      }
      if conversion.value.webhook.value.clientConfig.None? {
        return Some(NoClientConfig);
      }
      var webhook := conversion.value.webhook.value;
      conversion := Some(conversion.value.(webhook := Some(
        webhook.(clientConfig := Some(webhook.clientConfig.value.(caBundle := ca))))));
      err := None;
    }

    method SetServedStorage(version: string, served: bool, storage: bool)
      modifies this`versions
      ensures versions == SetFlags(old(versions), version, served, storage)
    {
      var before := versions;
      for i := 0 to |versions|
        invariant |versions| == |before|
        invariant forall k :: 0 <= k < i ==> versions[k] == Flagged(before[k], version, served, storage)
        invariant forall k :: i <= k < |before| ==> versions[k] == before[k]
      {
        if versions[i].name == version {
          versions := versions[i := versions[i].(served := served, storage := storage)];
        }
      }
    }

    method AppendVersion(toadd: seq<Version>)
      modifies this`versions
      ensures versions == AppendAll(old(versions), toadd)
    {
      for n := 0 to |toadd|
        invariant AppendAll(versions, toadd[n..]) == AppendAll(old(versions), toadd)
      {
        AppendOneInPlace(toadd[n]);
        assert toadd[n..][0] == toadd[n] && toadd[n..][1..] == toadd[n + 1..];
      }
    }

    /** The body of the outer loop of `AppendVersion`. */
    method AppendOneInPlace(el2: Version)
      modifies this`versions
      ensures versions == AppendOne(old(versions), el2)
    {
      var exist, vacuum := false, false;
      for i := 0 to |versions|
        invariant !exist && forall k :: 0 <= k < i ==> versions[k].name != el2.name
      {
        if versions[i].name == el2.name {
          exist := true;
          break;
        }
      }
      for i := 0 to |versions|
        invariant !vacuum && forall k :: 0 <= k < i ==> versions[k].name != VACUUM
      {
        if versions[i].name == VACUUM {
          vacuum := true;
          break;
        }
      }
      assert exist == HasName(versions, el2.name) && vacuum == HasName(versions, VACUUM);
      if !exist {
        versions := versions + [el2];
        if !vacuum {
          versions := versions + [VACUUM_VERSION];
        }
        DemoteInPlace();
      }
    }

    method DemoteInPlace()
      modifies this`versions
      ensures versions == Demote(old(versions))
    {
      var grown := versions;
      for i := 0 to |versions|
        invariant |versions| == |grown|
        invariant forall k :: 0 <= k < i ==> versions[k] == Demoted(grown[k])
        invariant forall k :: i <= k < |grown| ==> versions[k] == grown[k]
      {
        if versions[i].name != VACUUM {
          versions := versions[i := versions[i].(served := true, storage := false)];
        }
      }
    }

    /** A panic at a nil map leaves the versions before it edited; the caller never writes them. */
    method UpdateStatus(version: Version) returns (err: Option<Error>)
      modifies this`versions
      ensures err == if version.schema.None? then Some(NilSchema)
                     else if AnyUnwritable(old(versions)) then Some(NilProperties) else None
      ensures var status := Property(version.schema, STATUS);
              match err
              case None => versions == SetStatus(old(versions), status)
              case Some(NilProperties) =>
                exists n :: (&& 0 <= n < |old(versions)| && Unwritable(old(versions)[n])
                             && !AnyUnwritable(old(versions)[..n])
                             && versions == SetStatus(old(versions)[..n], status) + old(versions)[n..])
              case _ => versions == old(versions)
    {
      if version.schema.None? {
        return Some(NilSchema);
      }
      var newStatus := Property(version.schema, STATUS);
      var before := versions;
      for i := 0 to |versions|
        invariant |versions| == |before|
        invariant forall k :: 0 <= k < i ==> versions[k] == WithStatus(before[k], newStatus) && !Unwritable(before[k])
        invariant forall k :: i <= k < |before| ==> versions[k] == before[k]
      {
        if versions[i].schema.Some? {
          if versions[i].schema.value.None? {
            assert before[..i] + before[i..] == before;
            assert versions == SetStatus(before[..i], newStatus) + before[i..];
            return Some(NilProperties);
          }
          versions := versions[i := WithStatus(versions[i], newStatus)];
        }
      }
      err := None;
    }

    method GVKExists(group: string, kind: string, version: string) returns (found: bool)
      ensures found <==> HasGVK(Value(), group, kind, version)
    {
      if this.group != group {
        return false;
      }
      if this.kind != kind {
        return false;
      }
      for i := 0 to |versions|
        invariant forall k :: 0 <= k < i ==> versions[k].name != version
      {
        if versions[i].name == version {
          return true;
        }
      }
      found := false;
    }
  }

  method SearchFirstStatus(vs: seq<Version>) returns (r: int)
    ensures r == FirstStatus(vs)
  {
    for i := 0 to |vs|
      invariant forall k :: 0 <= k < i ==> !HasStatus(vs[k])
    {
      if vs[i].schema.Some? {
        if vs[i].schema.value.Some? && STATUS in vs[i].schema.value.value {
          return i;
        }
      }
    }
    r := -1;
  }

  method StatusEqual(crd1: Spec, crd2: Spec) returns (r: Result<bool, Error>)
    ensures r == StatusesEqual(crd1.versions, crd2.versions)
  {
    var i1 := SearchFirstStatus(crd1.versions);
    if i1 == -1 {
      return Err(NoStatus);
    }
    var d1 := Hash.Write(Hash.FNV_OFFSET, Hash.Utf8(crd1.versions[i1].schema.value.value[STATUS]));
    var i2 := SearchFirstStatus(crd2.versions);
    if i2 == -1 {
      return Err(NoStatus);
    }
    var d2 := Hash.Write(Hash.FNV_OFFSET, Hash.Utf8(crd2.versions[i2].schema.value.value[STATUS]));
    r := Ok(d1 == d2);
  }
}
