/** What deploying, reading back and removing a bundle have to do with each other. */
module DeployFacts {
  import opened Wrappers
  import opened Bundle
  import opened Deploy
  import Hash
  import Json
  import Kube

  type Server = Kube.Server<Content>

  /** A restart annotation already in the cluster does not change what the server makes of a write. */
  ghost predicate RestartStable(server: Server)
  {
    forall e, v, t {:trigger server(Some(Restart(server(e, v), t)), v)} ::
      server(Some(Restart(server(e, v), t)), v) == server(e, v)
  }

  // ---- installing ----

  lemma {:induction false} InstallOther(server: Server, m: Store, items: seq<Item>, key: Key)
    requires key !in Keys(items)
    ensures At(InstallAll(server, m, items), key) == At(m, key)
  {
    if items != [] {
      var rest := items[..|items| - 1];
      assert items[|items| - 1].obj.key in Keys(items);
      assert Keys(rest) <= Keys(items);
      InstallOther(server, m, rest, key);
    }
  }

  lemma {:induction false} InstallOwn(server: Server, m: Store, items: seq<Item>, i: nat)
    requires DistinctKeys(items) && i < |items|
    ensures At(InstallAll(server, m, items), items[i].obj.key) == Some(Answer(server, m, items[i]))
  {
    var last := |items| - 1;
    var rest := items[..last];
    if i == last {
      assert items[last].obj.key !in Keys(rest);
      InstallOther(server, m, rest, items[last].obj.key);
    } else {
      InstallOwn(server, m, rest, i);
    }
  }

  /** A real deployment hashes what a dry run from the same store hashes. */
  lemma {:induction false} DryHashesTheSame(server: Server, m: Store, items: seq<Item>)
    requires DistinctKeys(items)
    ensures DeployStream(server, m, items, false) == DeployStream(server, m, items, true)
  {
    if items != [] {
      var last := |items| - 1;
      var rest := items[..last];
      DryHashesTheSame(server, m, rest);
      assert items[last].obj.key !in Keys(rest);
      InstallOther(server, m, rest, items[last].obj.key);
    }
  }

  /** `after` holds the answers `before` would get, up to restarts, and answers the same writes alike. */
  ghost predicate Settled(server: Server, before: Store, after: Store, items: seq<Item>)
  {
    forall i :: 0 <= i < |items| ==> SettledItem(server, before, after, items[i])
  }

  ghost predicate SettledItem(server: Server, before: Store, after: Store, item: Item)
  {
    && item.obj.key in after
    && Cleaned(item, after[item.obj.key]) == Cleaned(item, Answer(server, before, item))
    && Answer(server, after, item) == Answer(server, before, item)
  }

  lemma {:induction false} SettledStreams(server: Server, before: Store, after: Store, items: seq<Item>)
    requires Settled(server, before, after, items)
    ensures DeployStream(server, after, items, true) == DeployStream(server, before, items, true)
    ensures LookupStream(after, items) == DeployStream(server, before, items, true)
  {
    if items != [] {
      var last := |items| - 1;
      assert SettledItem(server, before, after, items[last]);
      forall i | 0 <= i < last ensures SettledItem(server, before, after, items[..last][i]) {
        assert items[..last][i] == items[i];
      }
      SettledStreams(server, before, after, items[..last]);
    }
  }

  ghost predicate AnswersAlike(server: Server, a: Store, b: Store, items: seq<Item>)
  {
    forall i :: 0 <= i < |items| ==> Answer(server, a, items[i]) == Answer(server, b, items[i])
  }

  lemma {:induction false} DryStreamsAlike(server: Server, a: Store, b: Store, items: seq<Item>)
    requires AnswersAlike(server, a, b, items)
    ensures DeployStream(server, a, items, true) == DeployStream(server, b, items, true)
  {
    if items != [] {
      var rest := items[..|items| - 1];
      assert forall i :: 0 <= i < |rest| ==> rest[i] == items[i];
      DryStreamsAlike(server, a, b, rest);
      assert Answer(server, a, items[|items| - 1]) == Answer(server, b, items[|items| - 1]);
    }
  }

  ghost predicate ReadsAlike(a: Store, b: Store, items: seq<Item>)
  {
    forall i :: 0 <= i < |items| ==> ReadItem(a, items[i]) == ReadItem(b, items[i])
  }

  lemma {:induction false} LookupStreamsAlike(a: Store, b: Store, items: seq<Item>)
    requires ReadsAlike(a, b, items)
    ensures LookupStream(a, items) == LookupStream(b, items)
  {
    if items != [] {
      var rest := items[..|items| - 1];
      assert forall i :: 0 <= i < |rest| ==> rest[i] == items[i];
      LookupStreamsAlike(a, b, rest);
      assert ReadItem(a, items[|items| - 1]) == ReadItem(b, items[|items| - 1]);
    }
  }

  lemma DeployedKeys(server: Server, m: Store, o: Options, now: string)
    ensures Deployed(server, m, o, now).Keys == m.Keys + Keys(Plan(o))
  {
    hide Plan;
    hide Keys;
    InstalledKeys(server, m, Plan(o));
  }

  /** A deployment of which some keys have been removed, item by item. */
  lemma RemovedItem(server: Server, m: Store, o: Options, now: string, gone: set<Key>, i: nat)
    requires Kube.Stable(server) && RestartStable(server) && DistinctKeys(Plan(o)) && i < |Plan(o)|
    ensures var item, after, installed := Plan(o)[i], Deployed(server, m, o, now) - gone,
                                              InstallAll(server, m, Plan(o)) - gone;
            && (item.obj.key in after <==> item.obj.key !in gone)
            && Answer(server, after, item) == Answer(server, m - gone, item)
            && ReadItem(after, item) == ReadItem(installed, item)
            && (item.obj.key !in gone ==> At(installed, item.obj.key) == Some(Answer(server, m, item)))
  {
    hide Plan;
    DeployedIsSettled(server, m, o, now);
    assert SettledItem(server, m, Deployed(server, m, o, now), Plan(o)[i]);
    InstallOwn(server, m, Plan(o), i);
    DeploymentItem(o, i);
  }

  lemma DeploymentItem(o: Options, i: nat)
    requires DistinctKeys(Plan(o)) && i < |Plan(o)|
    ensures Plan(o)[i].obj.key == DeploymentKey(o) <==> Plan(o)[i].file == DeploymentFile
  {
    PlanParts(o);
    var d := |SecretItems(o)| + 7;
    assert Plan(o)[d] == WorkloadItems(o)[2];
    assert Plan(o)[d].obj.key == DeploymentKey(o) && Plan(o)[d].file == DeploymentFile;
    if i != d {
      OtherFiles(o, i);
      DistinctPair(Plan(o), if i < d then i else d, if i < d then d else i);
    }
  }

  lemma OtherFiles(o: Options, i: nat)
    requires i < |Plan(o)| && i != |SecretItems(o)| + 7
    ensures Plan(o)[i].file != DeploymentFile
  {
    hide SecretItems;
    hide RbacItems;
    hide WorkloadItems;
    PlanParts(o);
    SecretFiles(o);
    RbacFiles(o);
    WorkloadFiles(o);
    var n := |SecretItems(o)|;
    if i < n {
      assert SecretItems(o)[i].file != DeploymentFile;
    } else if i < n + 5 {
      assert RbacItems(o)[i - n].file != DeploymentFile;
    } else {
      assert WorkloadItems(o)[i - n - 5].file != DeploymentFile;
    }
  }

  lemma DeployedIsSettled(server: Server, before: Store, o: Options, now: string)
    requires Kube.Stable(server) && RestartStable(server) && DistinctKeys(Plan(o))
    ensures Settled(server, before, Deployed(server, before, o, now), Plan(o))
  {
    var after := Deployed(server, before, o, now);
    forall i | 0 <= i < |Plan(o)| ensures SettledItem(server, before, after, Plan(o)[i]) {
      InstallOwn(server, before, Plan(o), i);
      DeploymentItem(o, i);
    }
  }

  /**
   * After a successful deployment, a dry run and a read-back with the same options give the digest
   * that was recorded, although the restart annotation was written in between.
   */
  lemma DigestAgreement(server: Server, before: Store, o: Options, now: string)
    requires Kube.Stable(server) && RestartStable(server) && DistinctKeys(Plan(o))
    ensures var after := Deployed(server, before, o, now);
            var digest := Hash.DigestOf(DeployStream(server, before, Plan(o), false));
            && Hash.DigestOf(DeployStream(server, after, Plan(o), true)) == digest
            && Hash.DigestOf(LookupStream(after, Plan(o))) == digest
            && SecretsPresent(after, o)
  {
    DryHashesTheSame(server, before, Plan(o));
    DeployedIsSettled(server, before, o, now);
    SettledStreams(server, before, Deployed(server, before, o, now), Plan(o));
    if o.credentials.Some? {
      PlanSecrets(o);
      assert SettledItem(server, before, Deployed(server, before, o, now), Plan(o)[0]);
      assert SettledItem(server, before, Deployed(server, before, o, now), Plan(o)[1]);
    }
  }

  // ---- resuming after a failure ----

  /** `mid` differs from `before` only in items already written, which the server answers alike. */
  ghost predicate Resumable(server: Server, before: Store, mid: Store, items: seq<Item>)
  {
    && (forall key :: key !in Keys(items) ==> At(mid, key) == At(before, key))
    && (forall i :: 0 <= i < |items| ==> Answer(server, mid, items[i]) == Answer(server, before, items[i]))
  }

  lemma ResumeReaches(server: Server, before: Store, mid: Store, items: seq<Item>)
    requires DistinctKeys(items) && Resumable(server, before, mid, items)
    ensures InstallAll(server, mid, items) == InstallAll(server, before, items)
  {
    var a, b := InstallAll(server, mid, items), InstallAll(server, before, items);
    forall key ensures At(a, key) == At(b, key) {
      if key in Keys(items) {
        var i :| 0 <= i < |items| && items[i].obj.key == key;
        InstallOwn(server, mid, items, i);
        InstallOwn(server, before, items, i);
      } else {
        InstallOther(server, mid, items, key);
        InstallOther(server, before, items, key);
      }
    }
    SameStore(a, b);
  }

  lemma SameStore(a: Store, b: Store)
    requires forall key :: At(a, key) == At(b, key)
    ensures a == b
  {
    forall key ensures key in a <==> key in b {
      assert At(a, key) == At(b, key);
    }
    forall key | key in a ensures a[key] == b[key] {
      assert At(a, key) == At(b, key);
    }
  }

  lemma PrefixResumable(server: Server, before: Store, items: seq<Item>, n: nat)
    requires Kube.Stable(server) && DistinctKeys(items) && n <= |items|
    ensures Resumable(server, before, InstallAll(server, before, items[..n]), items)
  {
    var mid, done := InstallAll(server, before, items[..n]), items[..n];
    DistinctPrefix(items, n);
    forall key | key !in Keys(items) ensures At(mid, key) == At(before, key) {
      assert Keys(done) <= Keys(items);
      InstallOther(server, before, done, key);
    }
    forall i | 0 <= i < |items| ensures Answer(server, mid, items[i]) == Answer(server, before, items[i]) {
      if i < n {
        InstallOwn(server, before, done, i);
      } else {
        forall j | 0 <= j < n ensures items[j].obj.key != items[i].obj.key {
          DistinctPair(items, j, i);
        }
        InstallOther(server, before, done, items[i].obj.key);
      }
    }
  }

  lemma DeployedResumable(server: Server, before: Store, o: Options, now: string)
    requires Kube.Stable(server) && RestartStable(server) && DistinctKeys(Plan(o))
    ensures Resumable(server, before, Deployed(server, before, o, now), Plan(o))
  {
    var after, items := Deployed(server, before, o, now), Plan(o);
    DeployedIsSettled(server, before, o, now);
    forall i | 0 <= i < |items| ensures Answer(server, after, items[i]) == Answer(server, before, items[i]) {
      assert SettledItem(server, before, after, items[i]);
    }
    PlanParts(o);
    assert items[|SecretItems(o)| + 7].obj.key == DeploymentKey(o);
    assert DeploymentKey(o) in Keys(items);
    forall key | key !in Keys(items) ensures At(after, key) == At(before, key) {
      InstallOther(server, before, items, key);
    }
  }

  /**
   * Wherever a deployment stopped, before, during or after its restart, running it again installs
   * exactly what one undisturbed run would have installed.
   */
  lemma DeployResumes(server: Server, before: Store, mid: Store, o: Options, now: string)
    requires Kube.Stable(server) && RestartStable(server) && DistinctKeys(Plan(o))
    requires Stopped(server, before, mid, Plan(o), false) || mid == Deployed(server, before, o, now)
    ensures forall later :: Deployed(server, mid, o, later) == Deployed(server, before, o, later)
  {
    hide Plan;
    if mid == Deployed(server, before, o, now) {
      DeployedResumable(server, before, o, now);
    } else {
      var n :| 0 <= n <= |Plan(o)| && mid == InstallAll(server, before, Plan(o)[..n]);
      PrefixResumable(server, before, Plan(o), n);
    }
    ResumeReaches(server, before, mid, Plan(o));
  }

  // ---- teardown ----

  /** Undeploying removes exactly the keys deploying writes. */
  lemma TeardownKeys(o: Options)
    ensures Removed(RemovalKeys(o), |RemovalKeys(o)|) == Keys(Plan(o))
  {
    var n, removal := |SecretItems(o)|, RemovalKeys(o);
    PlanParts(o);
    forall i | 0 <= i < |Plan(o)| ensures Plan(o)[i].obj.key in Removed(removal, |removal|) {
      var j := if i < n then |removal| - 2 + i
               else if i < n + 5 then 3 + (i - n)
               else if i == n + 5 then 0
               else if i == n + 6 then 2
               else if i == n + 7 then 1
               else 8;
      KeyPositions(o, i, j);
    }
    forall j | 0 <= j < |removal| ensures removal[j] in Keys(Plan(o)) {
      var i := if j == 0 then n + 5
               else if j == 1 then n + 7
               else if j == 2 then n + 6
               else if j < 8 then n + (j - 3)
               else if j == 8 && ServiceFile in o.templates.files then n + 8
               else j - (|removal| - 2);
      KeyPositions(o, i, j);
    }
  }

  /** Where the i-th installed object sits among the removed ones. */
  lemma KeyPositions(o: Options, i: nat, j: nat)
    requires var n := |SecretItems(o)|;
             || (i < n && j == |RemovalKeys(o)| - 2 + i)
             || (n <= i < n + 5 && j == 3 + (i - n))
             || (i == n + 5 && j == 0) || (i == n + 6 && j == 2) || (i == n + 7 && j == 1)
             || (i == n + 8 && j == 8 && ServiceFile in o.templates.files)
    ensures i < |Plan(o)| && j < |RemovalKeys(o)| && Plan(o)[i].obj.key == RemovalKeys(o)[j]
  {
    hide AccountValues;
    PlanParts(o);
    var n := |SecretItems(o)|;
    if i < n {
      assert Plan(o)[i] == SecretItems(o)[i];
    } else if i < n + 5 {
      assert Plan(o)[i] == RbacItems(o)[i - n];
    } else {
      assert Plan(o)[i] == WorkloadItems(o)[i - n - 5];
    }
  }

  /** Deploying and then undeploying leaves the store as it was, less what it held under those keys. */
  lemma DeployThenUndeploy(server: Server, before: Store, after: Store, o: Options, now: string)
    requires Gone(Deployed(server, before, o, now), after, RemovalKeys(o), |RemovalKeys(o)|)
    ensures after == before - Keys(Plan(o))
  {
    TeardownKeys(o);
    PlanParts(o);
    assert Plan(o)[|SecretItems(o)| + 7].obj.key == DeploymentKey(o);
    assert DeploymentKey(o) in Keys(Plan(o));
    forall key ensures At(after, key) == At(before - Keys(Plan(o)), key) {
      if key !in Keys(Plan(o)) {
        InstallOther(server, before, Plan(o), key);
      }
    }
    SameStore(after, before - Keys(Plan(o)));
  }

  /** An undeployment that stopped anywhere, followed by a complete one, equals a complete one. */
  lemma UndeployResumes(before: Store, mid: Store, after: Store, o: Options)
    requires PartlyGone(before, mid, RemovalKeys(o))
    requires Gone(mid, after, RemovalKeys(o), |RemovalKeys(o)|)
    ensures Gone(before, after, RemovalKeys(o), |RemovalKeys(o)|)
  {
    var n :| Gone(before, mid, RemovalKeys(o), n);
    assert Removed(RemovalKeys(o), n) <= Removed(RemovalKeys(o), |RemovalKeys(o)|);
  }

  // ---- drift ----

  /** The content has the fields its kind has, and they are proper JSON values. */
  ghost predicate Shaped(file: Template, c: Content)
  {
    && Json.Delimited(Fields(Clean(c)))
    && match file
       case ServiceAccountFile => c.Plain?
       case JsonSchemaFile => c.Data?
       case ConfigMapFile => c.Data?
       case DeploymentFile => c.Workload?
       case ServiceFile => c.Endpoint?
       case ClusterRoleFile => c.Rules?
       case RoleFile => c.Rules?
       case SecretRoleFile => c.Rules?
       case _ => c.Binding?
  }

  ghost predicate WellShaped(m: Store, items: seq<Item>)
  {
    forall i :: 0 <= i < |items| ==>
      && items[i].obj.key.name != ""
      && (items[i].obj.key in m ==> Shaped(items[i].file, m[items[i].obj.key]))
  }

  /**
   * The two stores agree on one object: on its presence, and on its content, apart from the data of the
   * values-schema ConfigMap and the restart annotation of the Deployment.
   */
  ghost predicate SameHashed(m1: Store, m2: Store, item: Item)
  {
    var key := item.obj.key;
    && (key in m1 <==> key in m2)
    && (key in m1 && item.file != JsonSchemaFile ==>
          || m1[key] == m2[key]
          || (item.file == DeploymentFile && m1[key].Workload? && m2[key].Workload? && m1[key].spec == m2[key].spec))
  }

  lemma ShapedZero(file: Template)
    ensures Shaped(file, Zero(file))
  {
    var f := Fields(Clean(Zero(file)));
    assert Json.Valid(ZERO_ROLE_REF);
    forall i | 0 <= i < |f| ensures Json.Valid(f[i]) && !f[i].Number? {
    }
  }

  /** The number of values an object contributes depends on its file only. */
  function Width(file: Template): nat
  {
    match file
    case ServiceAccountFile => 2
    case JsonSchemaFile => 2
    case ClusterRoleBindingFile => 4
    case RoleBindingFile => 4
    case SecretRoleBindingFile => 4
    case _ => 3
  }

  lemma HashedWidth(name: string, ns: string, item: Item, c: Content)
    requires Shaped(item.file, c)
    ensures var h := Hashed(name, ns, item.NameOnly(), Cleaned(item, c));
            |h| == Width(item.file) && Json.Delimited(h) && h[0] == Json.String(name)
  {
  }

  lemma SameContent(name: string, ns: string, item: Item, c1: Content, c2: Content)
    requires Shaped(item.file, c1) && Shaped(item.file, c2) && !item.NameOnly()
    ensures Hashed(name, ns, false, Cleaned(item, c1)) == Hashed(name, ns, false, Cleaned(item, c2))
        <==> Cleaned(item, c1) == Cleaned(item, c2)
  {
    var h1, h2 := Hashed(name, ns, false, Cleaned(item, c1)), Hashed(name, ns, false, Cleaned(item, c2));
    if h1 == h2 {
      assert Fields(Cleaned(item, c1)) == h1[2..] == h2[2..] == Fields(Cleaned(item, c2));
      var f1, f2 := Fields(Cleaned(item, c1)), Fields(Cleaned(item, c2));
      if |f1| >= 1 { assert f1[0] == f2[0]; }
      if |f1| >= 2 { assert f1[1] == f2[1]; }
    }
  }

  lemma ReadWidth(m: Store, item: Item)
    requires item.obj.key in m ==> Shaped(item.file, m[item.obj.key])
    ensures |ReadItem(m, item)| == Width(item.file) && Json.Delimited(ReadItem(m, item))
    ensures ReadItem(m, item)[0] == Json.String(if item.obj.key in m then item.obj.key.name else "")
  {
    ShapedZero(item.file);
    if item.obj.key in m {
      HashedWidth(item.obj.key.name, item.obj.key.ns, item, m[item.obj.key]);
    } else {
      assert Cleaned(item, Zero(item.file)) == Zero(item.file);
      HashedWidth("", "", item, Zero(item.file));
    }
  }

  lemma ReadSame(m1: Store, m2: Store, item: Item)
    requires item.obj.key.name != ""
    requires item.obj.key in m1 ==> Shaped(item.file, m1[item.obj.key])
    requires item.obj.key in m2 ==> Shaped(item.file, m2[item.obj.key])
    ensures ReadItem(m1, item) == ReadItem(m2, item) <==> SameHashed(m1, m2, item)
  {
    var key := item.obj.key;
    ReadWidth(m1, item);
    ReadWidth(m2, item);
    if key in m1 && key in m2 && !item.NameOnly() {
      SameContent(key.name, key.ns, item, m1[key], m2[key]);
    }
  }

  lemma {:induction false} ReadDelimited(m: Store, items: seq<Item>)
    requires WellShaped(m, items)
    ensures Json.Delimited(LookupStream(m, items))
  {
    if items != [] {
      ReadDelimited(m, items[..|items| - 1]);
      ReadWidth(m, items[|items| - 1]);
    }
  }

  lemma ConcatSame<T>(a: seq<T>, b: seq<T>, x: seq<T>, y: seq<T>)
    requires |a| == |b|
    ensures a + x == b + y <==> a == b && x == y
  {
    if a + x == b + y {
      assert a == (a + x)[..|a|] && b == (b + y)[..|a|] && x == (a + x)[|a|..] && y == (b + y)[|a|..];
    }
  }

  ghost predicate AllSame(m1: Store, m2: Store, items: seq<Item>)
  {
    forall i :: 0 <= i < |items| ==> SameHashed(m1, m2, items[i])
  }

  lemma AllSameSplit(m1: Store, m2: Store, items: seq<Item>)
    requires items != []
    ensures AllSame(m1, m2, items) <==>
            AllSame(m1, m2, items[..|items| - 1]) && SameHashed(m1, m2, items[|items| - 1])
  {
    var rest := items[..|items| - 1];
    assert forall i :: 0 <= i < |rest| ==> rest[i] == items[i];
    if AllSame(m1, m2, rest) && SameHashed(m1, m2, items[|items| - 1]) {
      forall i | 0 <= i < |items| ensures SameHashed(m1, m2, items[i]) {
        assert i < |rest| ==> rest[i] == items[i];
      }
    }
  }

  lemma {:induction false} StreamsSame(m1: Store, m2: Store, items: seq<Item>)
    requires WellShaped(m1, items) && WellShaped(m2, items)
    ensures |LookupStream(m1, items)| == |LookupStream(m2, items)|
    ensures LookupStream(m1, items) == LookupStream(m2, items) <==> AllSame(m1, m2, items)
  {
    hide ReadItem;
    hide SameHashed;
    if items != [] {
      var rest, last := items[..|items| - 1], items[|items| - 1];
      StreamsSame(m1, m2, rest);
      ReadWidth(m1, last);
      ReadWidth(m2, last);
      ReadSame(m1, m2, last);
      AllSameSplit(m1, m2, items);
      ConcatSame(LookupStream(m1, rest), LookupStream(m2, rest), ReadItem(m1, last), ReadItem(m2, last));
    }
  }

  /**
   * Reading back two stores hashes the same text exactly when they agree on the presence and hashed
   * content of every object of the bundle. Data of the values-schema ConfigMap is not hashed, so a
   * change of it is exactly the drift that goes unseen.
   */
  lemma DriftIsSeen(m1: Store, m2: Store, items: seq<Item>)
    requires WellShaped(m1, items) && WellShaped(m2, items)
    ensures Json.EncodeStream(LookupStream(m1, items)) == Json.EncodeStream(LookupStream(m2, items))
        <==> AllSame(m1, m2, items)
  {
    StreamsSame(m1, m2, items);
    ReadDelimited(m1, items);
    ReadDelimited(m2, items);
    Json.StreamDecodable(LookupStream(m1, items), LookupStream(m2, items));
  }
}
