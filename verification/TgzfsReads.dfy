/** Reading an archive: subtrees, sorted listings and paged listings (internal/tools/tgzfs/fs.go, file.go). */
module TgzfsReads {
  import opened Wrappers
  import opened Paths
  import opened Tgzfs
  import Retry

  datatype Error = Invalid | NotExist | NotDir

  /** `fs.ValidPath`: no element is empty, "." or "..". */
  predicate ValidPath(s: string)
    decreases |s|
  {
    && Base(s) !in {"", ".", ".."}
    && (Parent(s).Some? ==> ValidPath(Parent(s).value))
  }

  function Get(index: map<string, Node>, name: string): Result<Node, Error>
  {
    if name != "." && !ValidPath(name) then Err(Invalid)
    else if name !in index then Err(NotExist)
    else Ok(index[name])
  }

  // ---- subtrees ----

  /** The path below `dir`, if `name` lies below it. */
  function Below(dir: string, name: string): (p: Option<string>)
    ensures p.Some? ==> name == Join(dir, p.value)
  {
    if dir + "/" <= name then Some(name[|dir| + 1..]) else None
  }

  lemma BelowOfJoin(dir: string, p: string)
    ensures Below(dir, Join(dir, p)) == Some(p)
  {
    assert dir + "/" <= Join(dir, p);
  }

  /** The index of a subtree: the paths below `dir`, with the same nodes. */
  ghost function SubIndex(index: map<string, Node>, dir: string): map<string, Node>
  {
    var paths := set n | n in index && Below(dir, n).Some? :: Below(dir, n).value;
    map p | p in paths && Join(dir, p) in index :: index[Join(dir, p)]
  }

  /** Looking a path up in the subtree is looking the joined path up in the whole. */
  lemma SubLooksUp(index: map<string, Node>, dir: string, p: string)
    ensures p in SubIndex(index, dir) <==> Join(dir, p) in index
    ensures p in SubIndex(index, dir) ==> SubIndex(index, dir)[p] == index[Join(dir, p)]
  {
    BelowOfJoin(dir, p);
  }

  lemma {:induction false} BaseOfJoin(d: string, p: string)
    ensures Base(Join(d, p)) == Base(p)
    decreases |p|
  {
    var s := Join(d, p);
    if p != "" {
      assert s[..|s| - 1] == Join(d, p[..|p| - 1]);
      if p[|p| - 1] != '/' {
        BaseOfJoin(d, p[..|p| - 1]);
      }
    }
  }

  lemma {:induction false} ValidJoin(d: string, p: string)
    ensures ValidPath(Join(d, p)) <==> ValidPath(d) && ValidPath(p)
    decreases |p|
  {
    BaseOfJoin(d, p);
    ParentOfJoin(d, p);
    if Parent(p).Some? {
      ValidJoin(d, Parent(p).value);
    }
  }

  /** What a file system is made of, apart from its root list when it has no root entry. */
  datatype View = View(index: map<string, Node>, rootEntry: Node?)

  ghost function SubOf(v: View, dir: string): Result<View, Error>
  {
    if dir == "." then Ok(v)
    else match Get(v.index, dir)
      case Err(e) => Err(e)
      case Ok(n) => if n.isDir then Ok(View(SubIndex(v.index, dir), n)) else Err(NotDir)
  }

  lemma SubIndexOfSub(index: map<string, Node>, a: string, b: string)
    ensures SubIndex(SubIndex(index, a), b) == SubIndex(index, Join(a, b))
  {
    var nested, direct := SubIndex(SubIndex(index, a), b), SubIndex(index, Join(a, b));
    forall p
      ensures p in nested <==> p in direct
      ensures p in nested ==> nested[p] == direct[p]
    {
      SubLooksUp(SubIndex(index, a), b, p);
      SubLooksUp(index, a, Join(b, p));
      SubLooksUp(index, Join(a, b), p);
      JoinAssociates(a, b, p);
    }
  }

  /** A subtree of a subtree is the subtree of the joined path, in what it holds and in how it fails. */
  lemma SubOfSub(v: View, a: string, b: string)
    requires a != "." && SubOf(v, a).Ok?
    ensures SubOf(SubOf(v, a).value, b) == if b == "." then SubOf(v, a) else SubOf(v, Join(a, b))
  {
    if b != "." {
      assert |Join(a, b)| > 1 || Join(a, b) == "/";
      NotDot(a);
      ValidJoin(a, b);
      SubLooksUp(v.index, a, b);
      SubIndexOfSub(v.index, a, b);
    }
  }

  lemma NotDot(a: string)
    requires a in {"."} || ValidPath(a)
    ensures a != ""
  {
  }

  /** The child lists of a subtree. */
  ghost function SubLists(index: map<string, Node>, lists: map<string, seq<Node>>, dir: string): map<string, seq<Node>>
  {
    map p | p in SubIndex(index, dir) && Join(dir, p) in lists :: lists[Join(dir, p)]
  }

  lemma SubChildren(index: map<string, Node>, dir: string, d: Option<string>)
    ensures Children(SubIndex(index, dir), d, {}) ==
            Children(index, Some(if d.None? then dir else Join(dir, d.value)), {})
  {
    var sub, parent := SubIndex(index, dir), if d.None? then dir else Join(dir, d.value);
    forall x | x in Children(sub, d, {}) ensures x in Children(index, Some(parent), {}) {
      var p :| p in sub && Parent(p) == d && sub[p] == x;
      SubLooksUp(index, dir, p);
      ParentOfJoin(dir, p);
      assert index[Join(dir, p)] == x;
    }
    forall x | x in Children(index, Some(parent), {}) ensures x in Children(sub, d, {}) {
      var n :| n in index && Parent(n) == Some(parent) && index[n] == x;
      var p := ParentBelow(dir, d, n);
      SubLooksUp(index, dir, p);
      assert sub[p] == x;
    }
  }

  /** A path whose parent is in the subtree, or is its root, is itself below the root. */
  lemma ParentBelow(dir: string, d: Option<string>, n: string) returns (p: string)
    requires Parent(n) == Some(if d.None? then dir else Join(dir, d.value))
    ensures n == Join(dir, p) && Parent(p) == d
  {
    var parent := Parent(n).value;
    var last := n[|parent| + 1..];
    assert n == Join(parent, last);
    p := if d.None? then last else Join(d.value, last);
    if d.Some? {
      JoinAssociates(dir, d.value, last);
    }
    ParentOfJoin(dir, p);
    NoSelfJoin(dir, Parent(p), d);
  }

  lemma NoSelfJoin(dir: string, p: Option<string>, q: Option<string>)
    ensures (if p.None? then dir else Join(dir, p.value)) == (if q.None? then dir else Join(dir, q.value)) ==> p == q
  {
    if p.Some? && q.Some? && Join(dir, p.value) == Join(dir, q.value) {
      JoinInjective(dir, p.value, q.value);
    }
  }

  /** The agreement of index and tree carries over to a subtree. */
  lemma SubAgrees(index: map<string, Node>, lists: map<string, seq<Node>>, root: seq<Node>, dir: string)
    requires Agree(index, lists, root, {}) && dir in index
    ensures Agree(SubIndex(index, dir), SubLists(index, lists, dir), lists[dir], {})
    ensures index[dir] !in SubIndex(index, dir).Values
  {
    var sub := SubIndex(index, dir);
    SubChildren(index, dir, None);
    forall p | p in sub
      ensures Join(dir, p) in index && sub[p] == index[Join(dir, p)] && |Join(dir, p)| > |dir|
      ensures Parent(p).Some? ==> Parent(p).value in sub
      ensures Children(sub, Some(p), {}) == Children(index, Some(Join(dir, p)), {})
    {
      SubLooksUp(index, dir, p);
      SubChildren(index, dir, Some(p));
      ParentOfJoin(dir, p);
      if Parent(p).Some? {
        SubLooksUp(index, dir, Parent(p).value);
      }
    }
    forall p, q | p in sub && q in sub && p != q ensures sub[p] != sub[q] {
      if Join(dir, p) == Join(dir, q) {
        JoinInjective(dir, p, q);
      }
    }
  }

  method Sub(tfs: TarFs, dir: string) returns (r: Result<TarFs, Error>)
    requires tfs.Agrees({})
    ensures r.Ok? <==> SubOf(View(tfs.index, tfs.rootEntry), dir).Ok?
    ensures r.Err? ==> Err(r.error) == SubOf(View(tfs.index, tfs.rootEntry), dir)
    ensures r.Ok? ==> Ok(View(r.value.index, r.value.rootEntry)) == SubOf(View(tfs.index, tfs.rootEntry), dir)
    ensures r.Ok? ==> r.value.Agrees({}) && (tfs.Named() ==> r.value.Named())
    ensures r.Ok? ==> if dir == "." then r.value == tfs else fresh(r.value)
  {
    if dir == "." {
      return Ok(tfs);
    }
    var e := Get(tfs.index, dir);
    if e.Err? {
      return Err(e.error);
    }
    if !e.value.isDir {
      return Err(NotDir);
    }
    var found := SubEntries(tfs.index, dir);
    var subfs := new TarFs(found, e.value);
    SubtreeAgrees(tfs, subfs, dir);
    r := Ok(subfs);
  }

  lemma SubtreeAgrees(tfs: TarFs, subfs: TarFs, dir: string)
    requires tfs.Agrees({}) && dir in tfs.index
    requires subfs.index == SubIndex(tfs.index, dir) && subfs.rootEntry == tfs.index[dir]
    ensures subfs.Agrees({}) && (tfs.Named() ==> subfs.Named())
  {
    SubAgrees(tfs.index, tfs.Lists(), tfs.RootList(), dir);
    forall p | p in subfs.index ensures Join(dir, p) in tfs.index && subfs.index[p] == tfs.index[Join(dir, p)] {
      SubLooksUp(tfs.index, dir, p);
    }
    assert tfs.Named() ==> subfs.Named() by {
      forall p | p in subfs.index ensures Base(p) == Base(Join(dir, p)) {
        BaseOfJoin(dir, p);
      }
    }
    assert subfs.Lists() == SubLists(tfs.index, tfs.Lists(), dir);
  }

  /** The loop over all entries, in the arbitrary order in which a map is iterated. */
  method SubEntries(index: map<string, Node>, dir: string) returns (found: map<string, Node>)
    ensures found == SubIndex(index, dir)
  {
    found := map[];
    var todo := index.Keys;
    while todo != {}
      invariant todo <= index.Keys
      invariant forall p :: p in found <==> Join(dir, p) in index.Keys - todo
      invariant forall p :: p in found ==> Join(dir, p) in index && found[p] == index[Join(dir, p)]
      decreases todo
    {
      var name :| name in todo;
      todo := todo - {name};
      if dir + "/" <= name {
        var p := name[|dir| + 1..];
        assert name == Join(dir, p);
        forall q | q != p ensures Join(dir, q) != name {
          if Join(dir, q) == name { JoinInjective(dir, p, q); }
        }
        found := found[p := index[name]];
      } else {
        forall q ensures Join(dir, q) != name {
          BelowOfJoin(dir, q);
        }
      }
    }
    forall p
      ensures p in found <==> p in SubIndex(index, dir)
      ensures p in found ==> found[p] == SubIndex(index, dir)[p]
    {
      SubLooksUp(index, dir, p);
    }
  }

  // ---- pages of a directory ----

  datatype Page<T> = Entries(s: seq<T>) | Eof | OutOfRange

  /** One call of `ReadDir(n)` at a position: the answer and the new position. Sums are 64-bit. */
  function PageOf<T>(listing: seq<T>, pos: nat, n: int): (Page<T>, nat)
  {
    if pos >= |listing| then (if n <= 0 then Entries([]) else Eof, pos)
    else if n > 0 && Retry.Wrap(pos + n) <= |listing| then
      if pos + n <= |listing| then (Entries(listing[pos..pos + n]), pos + n) else (OutOfRange, pos)
    else (Entries(listing[pos..]), |listing|)
  }

  /** The entries that a series of calls returns, one after the other. */
  function Pages<T>(listing: seq<T>, pos: nat, ns: seq<int>): (seq<T>, nat)
    decreases |ns|
  {
    if ns == [] then ([], pos)
    else
      var (page, pos1) := PageOf(listing, pos, ns[0]);
      var (rest, pos2) := Pages(listing, pos1, ns[1..]);
      ((if page.Entries? then page.s else []) + rest, pos2)
  }

  /** The sizes asked for are far enough from the largest 64-bit number. */
  predicate Sane<T>(listing: seq<T>, ns: seq<int>)
  {
    forall i :: 0 <= i < |ns| ==> -Retry.HALF <= ns[i] && |listing| + ns[i] < Retry.HALF
  }

  /**
   * However the sizes are chosen, the pages put together are the listing from where reading began up
   * to the final position: nothing is skipped and nothing repeated.
   */
  lemma {:induction false} PagesConcatenate<T>(listing: seq<T>, pos: nat, ns: seq<int>)
    requires pos <= |listing| && Sane(listing, ns)
    ensures var (s, end) := Pages(listing, pos, ns);
            pos <= end <= |listing| && s == listing[pos..end]
    decreases |ns|
  {
    if ns != [] {
      var (page, pos1) := PageOf(listing, pos, ns[0]);
      assert page == (if ns[0] > 0 && pos == |listing| then Eof else Entries(listing[pos..pos1]));
      PagesConcatenate(listing, pos1, ns[1..]);
      var end := Pages(listing, pos1, ns[1..]).1;
      assert listing[pos..end] == listing[pos..pos1] + listing[pos1..end];
    }
  }

  /** A call for all entries, or enough pages of positive size, reach the end. */
  lemma {:induction false} PagesReachEnd<T>(listing: seq<T>, pos: nat, ns: seq<int>)
    requires pos <= |listing| && Sane(listing, ns)
    requires |ns| >= |listing| - pos || exists i :: 0 <= i < |ns| && ns[i] <= 0
    ensures Pages(listing, pos, ns).1 == |listing|
    decreases |ns|
  {
    if ns != [] {
      var pos1 := PageOf(listing, pos, ns[0]).1;
      if ns[0] <= 0 {
        PagesConcatenate(listing, pos1, ns[1..]);
      } else {
        assert pos1 > pos || pos == |listing|;
        if i :| 0 <= i < |ns| && ns[i] <= 0 {
          assert ns[1..][i - 1] == ns[i];
        }
        PagesReachEnd(listing, pos1, ns[1..]);
      }
    }
  }

  /**
   * A directory whose order changes after some pages: what all pages return, before and after, is the
   * listing up to the final position exactly if the entries already read are the first ones of the new order.
   */
  lemma ResortedIff<T>(l: seq<T>, sorted: seq<T>, ns: seq<int>, ms: seq<int>)
    requires multiset(l) == multiset(sorted) && Sane(l, ns) && Sane(sorted, ms)
    ensures var (before, pos) := Pages(l, 0, ns);
            var (after, end) := Pages(sorted, pos, ms);
            && pos <= end <= |l| == |sorted|
            && (multiset(before + after) == multiset(sorted[..end]) <==> multiset(l[..pos]) == multiset(sorted[..pos]))
            && (end == |l| ==>
                  (multiset(before + after) == multiset(l) <==> multiset(l[..pos]) == multiset(sorted[..pos])))
  {
    hide Pages;
    hide Sane;
    assert |l| == |multiset(l)| == |multiset(sorted)| == |sorted|;
    PagesConcatenate(l, 0, ns);
    var (before, pos) := Pages(l, 0, ns);
    PagesConcatenate(sorted, pos, ms);
    var (after, end) := Pages(sorted, pos, ms);
    assert before == l[..pos];
    assert sorted[..end] == sorted[..pos] + after;
    assert sorted[..|sorted|] == sorted;
    assert multiset(before + after) == multiset(l[..pos]) + multiset(after);
    Cancel(multiset(l[..pos]), multiset(sorted[..pos]), multiset(after));
  }

  lemma Cancel<T>(a: multiset<T>, b: multiset<T>, c: multiset<T>)
    ensures a + c == b + c <==> a == b
  {
    assert (a + c) - c == a && (b + c) - c == b;
  }

  /** For instance, sorting after the first of two entries: "b" is returned twice and "a" never. */
  lemma ResortedBetweenPages()
    ensures PageOf(["b", "a"], 0, 1) == (Entries(["b"]), 1)
    ensures PageOf(["a", "b"], 1, 1) == (Entries(["b"]), 2)
  {
    assert ["b", "a"][0..1] == ["b"] && ["a", "b"][1..2] == ["b"];
  }

  /** Very large sizes overflow: the slice bounds are then out of range exactly when reading has begun. */
  lemma PageOverflows<T>(listing: seq<T>, pos: nat, n: int)
    requires |listing| < Retry.HALF && 0 < n < Retry.HALF
    ensures PageOf(listing, pos, n).0 == OutOfRange <==> pos < |listing| && pos + n >= Retry.HALF
  {
  }

  class File {
    const node: Node
    var readDirPos: nat

    constructor (node: Node)
      ensures this.node == node && readDirPos == 0
    {
      this.node, readDirPos := node, 0;
    }

    method ReadDir(n: int) returns (r: Result<Page<Node>, Error>)
      modifies this`readDirPos
      ensures r.Err? <==> !node.isDir
      ensures r.Err? ==> r.error == NotDir && readDirPos == old(readDirPos)
      ensures r.Ok? ==> (r.value, readDirPos) == PageOf(node.entries, old(readDirPos), n)
    {
      if !node.isDir {
        return Err(NotDir);
      }
      var page: Page<Node>;
      page, readDirPos := NextPage(node.entries, readDirPos, n);
      r := Ok(page);
    }
  }

  class RootFile {
    const tfs: TarFs
    var readDirPos: nat

    constructor (tfs: TarFs)
      ensures this.tfs == tfs && readDirPos == 0
    {
      this.tfs, readDirPos := tfs, 0;
    }

    method ReadDir(n: int) returns (page: Page<Node>)
      modifies this`readDirPos
      ensures (page, readDirPos) == PageOf(tfs.rootEntries, old(readDirPos), n)
    {
      page, readDirPos := NextPage(tfs.rootEntries, readDirPos, n);
    }
  }

  method NextPage(listing: seq<Node>, readDirPos: nat, n: int) returns (page: Page<Node>, newPos: nat)
    ensures (page, newPos) == PageOf(listing, readDirPos, n)
  {
    page, newPos := Entries([]), readDirPos;
    if readDirPos >= |listing| {
      if n <= 0 {
        return;
      }
      page := Eof;
      return;
    }
    if n > 0 && Retry.Wrap(readDirPos + n) <= |listing| {
      if readDirPos + n > |listing| {
        page := OutOfRange;
        return;
      }
      page := Entries(listing[readDirPos..readDirPos + n]);
      newPos := newPos + n;
    } else {
      page := Entries(listing[readDirPos..]);
      newPos := newPos + (|listing| - readDirPos);
    }
  }
}
