/** `ReadDir` of internal/tools/tgzfs/fs.go: listings sorted in place, inside the tree that other views share. */
module TgzfsListing {
  import opened Wrappers
  import opened Paths
  import opened Tgzfs
  import TgzfsReads

  /** Go's order on strings. */
  predicate Less(a: string, b: string)
  {
    b != "" && (a == "" || a[0] < b[0] || (a[0] == b[0] && Less(a[1..], b[1..])))
  }

  /** Where the order of two names is decided: they agree before, and the first ends or has the smaller character. */
  predicate DecidedAt(a: string, b: string, i: nat)
  {
    && i <= |a| && i < |b| && (forall k :: 0 <= k < i ==> a[k] == b[k])
    && (i == |a| || a[i] < b[i])
  }

  lemma {:induction false} LessIsDecided(a: string, b: string) returns (i: nat)
    requires Less(a, b)
    ensures DecidedAt(a, b, i)
  {
    i := 0;
    if a != "" && !(a[0] < b[0]) {
      var j := LessIsDecided(a[1..], b[1..]);
      i := j + 1;
    }
  }

  lemma {:induction false} DecidedIsLess(a: string, b: string, i: nat)
    requires DecidedAt(a, b, i)
    ensures Less(a, b)
  {
    if i > 0 {
      DecidedIsLess(a[1..], b[1..], i - 1);
    }
  }

  /** The order is the lexicographic one. */
  lemma LessIsLexicographic(a: string, b: string)
    ensures Less(a, b) <==> exists i: nat :: DecidedAt(a, b, i)
  {
    if Less(a, b) {
      var i := LessIsDecided(a, b);
    }
    if i: nat :| DecidedAt(a, b, i) {
      DecidedIsLess(a, b, i);
    }
  }

  lemma {:induction false} LessTransitive(a: string, b: string, c: string)
    requires !Less(b, a) && !Less(c, b)
    ensures !Less(c, a)
    decreases |b|
  {
    if a != "" && b != "" && c != "" && a[0] == b[0] == c[0] {
      LessTransitive(a[1..], b[1..], c[1..]);
    }
  }

  lemma {:induction false} LessTotal(a: string, b: string)
    ensures Less(a, b) ==> !Less(b, a)
    ensures Less(a, b) || Less(b, a) || a == b
    decreases |a|
  {
    if a != "" && b != "" && a[0] == b[0] {
      LessTotal(a[1..], b[1..]);
      assert a == [a[0]] + a[1..] && b == [b[0]] + b[1..];
    }
  }

  ghost predicate Sorted(l: seq<Node>)
  {
    forall i, j :: 0 <= i < j < |l| ==> !Less(l[j].name, l[i].name)
  }

  ghost predicate Increasing(l: seq<Node>)
  {
    forall i, j :: 0 <= i < j < |l| ==> Less(l[i].name, l[j].name)
  }

  lemma InsertPermutes<T>(l: seq<T>, i: nat, j: nat)
    requires j <= i < |l|
    ensures var l' := l[..j] + [l[i]] + l[j..i] + l[i + 1..];
            |l'| == |l| && multiset(l') == multiset(l)
  {
    assert l == l[..j] + l[j..i] + [l[i]] + l[i + 1..];
  }

  lemma InsertSorts(l: seq<Node>, i: nat, j: nat)
    requires j <= i < |l| && Sorted(l[..i])
    requires forall k :: j <= k < i ==> Less(l[i].name, l[k].name)
    requires j > 0 ==> !Less(l[i].name, l[j - 1].name)
    ensures Sorted((l[..j] + [l[i]] + l[j..i] + l[i + 1..])[..i + 1])
  {
    var l' := l[..j] + [l[i]] + l[j..i] + l[i + 1..];
    var s := l'[..i + 1];
    forall p, q | 0 <= p < q < |s| ensures !Less(s[q].name, s[p].name) {
      var p', q' := if p < j then p else if p == j then i else p - 1, if q < j then q else if q == j then i else q - 1;
      assert s[p] == l[p'] && s[q] == l[q'];
      if q == j {
        if p < j - 1 {
          assert !Less(l[..i][j - 1].name, l[..i][p].name);
          LessTransitive(l[p].name, l[j - 1].name, l[i].name);
        }
      } else if p == j {
        LessTotal(l[i].name, l[q'].name);
      } else {
        assert !Less(l[..i][q'].name, l[..i][p'].name);
      }
    }
  }

  /** Sorts the list of a directory in place; entries of equal name may come in any order. */
  method SortByName(dir: Node)
    modifies dir
    ensures multiset(dir.entries) == multiset(old(dir.entries))
    ensures Sorted(dir.entries)
  {
    hide Less;
    for i := 0 to |dir.entries|
      invariant |dir.entries| == |old(dir.entries)|
      invariant multiset(dir.entries) == multiset(old(dir.entries))
      invariant Sorted(dir.entries[..i])
    {
      var l := dir.entries;
      var j := i;
      while j > 0 && Less(l[i].name, l[j - 1].name)
        invariant j <= i
        invariant forall k :: j <= k < i ==> Less(l[i].name, l[k].name)
      {
        j := j - 1;
      }
      InsertPermutes(l, i, j);
      InsertSorts(l, i, j);
      dir.entries := l[..j] + [l[i]] + l[j..i] + l[i + 1..];
    }
    assert dir.entries[..|dir.entries|] == dir.entries;
  }

  // ---- sorting keeps index and tree in agreement ----

  lemma {:induction false} CountOnce(l: seq<Node>, x: Node)
    requires NoDuplicates(l)
    ensures multiset(l)[x] <= 1
  {
    if l != [] {
      var rest := l[..|l| - 1];
      assert l == rest + [l[|l| - 1]];
      assert forall i :: 0 <= i < |rest| ==> rest[i] == l[i];
      CountOnce(rest, x);
      assert x == l[|l| - 1] ==> x !in rest;
    }
  }

  lemma {:induction false} OnceNoDuplicates(l: seq<Node>)
    requires forall x :: multiset(l)[x] <= 1
    ensures NoDuplicates(l)
  {
    forall i, j | 0 <= i < j < |l| ensures l[i] != l[j] {
      assert l == l[..j] + [l[j]] + l[j + 1..];
      assert l[..j][i] == l[i];
      assert multiset(l[..j])[l[i]] >= 1;
      assert multiset(l)[l[j]] == multiset(l[..j])[l[j]] + 1 + multiset(l[j + 1..])[l[j]];
    }
  }

  lemma PermutationEnumerates(l: seq<Node>, l': seq<Node>, s: set<Node>)
    requires Enumerates(l, s) && multiset(l) == multiset(l')
    ensures Enumerates(l', s)
  {
    forall x ensures multiset(l')[x] <= 1 {
      CountOnce(l, x);
    }
    OnceNoDuplicates(l');
    forall i | 0 <= i < |l'| ensures l'[i] in s {
      assert l'[i] in multiset(l);
    }
    forall x | x in s ensures x in l' {
      assert x in multiset(l);
    }
  }

  lemma AgreePermuted(index: map<string, Node>, lists: map<string, seq<Node>>, root: seq<Node>,
                      lists': map<string, seq<Node>>, root': seq<Node>)
    requires Agree(index, lists, root, {})
    requires lists'.Keys == lists.Keys && forall d :: d in lists ==> multiset(lists'[d]) == multiset(lists[d])
    requires multiset(root') == multiset(root)
    ensures Agree(index, lists', root', {})
  {
    hide Enumerates;
    hide Children;
    PermutationEnumerates(root, root', Children(index, None, {}));
    forall d | d in index ensures Enumerates(lists'[d], Children(index, Some(d), {})) {
      PermutationEnumerates(lists[d], lists'[d], Children(index, Some(d), {}));
    }
  }

  // ---- names in one directory are distinct ----

  lemma {:induction false} ParentAndBase(s: string)
    ensures s == if Parent(s).None? then Base(s) else Join(Parent(s).value, Base(s))
    decreases |s|
  {
    if s != "" {
      assert s == s[..|s| - 1] + [s[|s| - 1]];
      if s[|s| - 1] != '/' {
        ParentAndBase(s[..|s| - 1]);
      }
    }
  }

  lemma SortedIsIncreasing(tfs: TarFs, d: string, l: seq<Node>)
    requires tfs.Named() && Enumerates(l, Children(tfs.index, Some(d), {})) && Sorted(l)
    ensures Increasing(l)
  {
    hide Less;
    forall i, j | 0 <= i < j < |l| ensures Less(l[i].name, l[j].name) {
      assert l[i] in Children(tfs.index, Some(d), {}) && l[j] in Children(tfs.index, Some(d), {});
      var a :| a in tfs.index && Parent(a) == Some(d) && tfs.index[a] == l[i];
      var b :| b in tfs.index && Parent(b) == Some(d) && tfs.index[b] == l[j];
      ParentAndBase(a);
      ParentAndBase(b);
      assert l[i] != l[j];
      LessTotal(l[i].name, l[j].name);
    }
  }

  lemma ListEnumerates(tfs: TarFs, d: string)
    requires tfs.Agrees({}) && d in tfs.index
    ensures Enumerates(tfs.index[d].entries, Children(tfs.index, Some(d), {}))
  {
    assert tfs.Lists()[d] == tfs.index[d].entries;
  }

  /** What the listing of a path is, and how asking for it fails. */
  ghost function ListingOf(tfs: TarFs, name: string): Result<seq<Node>, TgzfsReads.Error>
    reads tfs, tfs.rootEntry, tfs.index.Values
  {
    if name == "." then Ok(tfs.RootList())
    else match TgzfsReads.Get(tfs.index, name)
      case Err(e) => Err(e)
      case Ok(n) => if n.isDir then Ok(n.entries) else Err(TgzfsReads.NotDir)
  }

  /**
   * A listing holds exactly the entries of the directory, once each and in increasing order of their
   * names; the root's list is returned as it is. All `views` of the tree stay in agreement.
   */
  method ReadDir(tfs: TarFs, name: string, ghost views: set<TarFs>) returns (r: Result<seq<Node>, TgzfsReads.Error>)
    requires tfs in views && tfs.Named() && forall v :: v in views ==> v.Agrees({})
    modifies tfs.index.Values
    ensures forall v :: v in views ==> v.Agrees({})
    ensures r.Err? || name == "." ==> r == old(ListingOf(tfs, name))
    ensures r.Ok? && name != "." ==>
              && old(ListingOf(tfs, name)).Ok?
              && multiset(r.value) == multiset(old(ListingOf(tfs, name)).value)
              && Enumerates(r.value, Children(tfs.index, Some(name), {}))
              && Increasing(r.value)
              && ListingOf(tfs, name) == r
  {
    if name == "." {
      return Ok(tfs.RootList());
    }
    var e := TgzfsReads.Get(tfs.index, name);
    if e.Err? {
      return Err(e.error);
    }
    if !e.value.isDir {
      return Err(TgzfsReads.NotDir);
    }
    SortShared(tfs, name, views);
    r := Ok(e.value.entries);
  }

  method SortShared(tfs: TarFs, name: string, ghost views: set<TarFs>)
    requires tfs in views && tfs.Named() && forall v :: v in views ==> v.Agrees({})
    requires name in tfs.index
    modifies tfs.index[name]
    ensures forall v :: v in views ==> v.Agrees({})
    ensures var l := tfs.index[name].entries;
            && multiset(l) == multiset(old(tfs.index[name].entries))
            && Enumerates(l, Children(tfs.index, Some(name), {}))
            && Increasing(l)
  {
    hide Agree;
    hide Less;
    hide Increasing;
    hide Sorted;
    SortByName(tfs.index[name]);
    forall v | v in views ensures v.Agrees({}) {
      assert forall p :: p in v.index ==> v.index[p] in v.index.Values;
      AgreePermuted(v.index, old(v.Lists()), old(v.RootList()), v.Lists(), v.RootList());
    }
    ListEnumerates(tfs, name);
    SortedIsIncreasing(tfs, name, tfs.index[name].entries);
  }
}
