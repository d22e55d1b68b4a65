/** internal/tools/tgzfs/fs.go: an archive as an index of paths and as a tree of nodes. */
module Tgzfs {
  import opened Wrappers
  import opened Paths

  /** A header's entry, or a directory made up for one that has no header. */
  class Node {
    const name: string
    const isDir: bool
    const data: string
    var entries: seq<Node>

    constructor (name: string, isDir: bool, data: string)
      ensures this.name == name && this.isDir == isDir && this.data == data && entries == []
    {
      this.name, this.isDir, this.data, entries := name, isDir, data, [];
    }
  }

  ghost predicate NoDuplicates(l: seq<Node>)
  {
    forall i, j :: 0 <= i < j < |l| ==> l[i] != l[j]
  }

  /** `l` holds exactly the elements of `s`, once each. */
  ghost predicate Enumerates(l: seq<Node>, s: set<Node>)
  {
    NoDuplicates(l) && (forall i :: 0 <= i < |l| ==> l[i] in s) && (forall x :: x in s ==> x in l)
  }

  /** The nodes whose parent is `d`, apart from the `pending` ones. */
  ghost function Children(index: map<string, Node>, d: Option<string>, pending: set<string>): set<Node>
  {
    set n | n in index && n !in pending && Parent(n) == d :: index[n]
  }

  ghost predicate Injective(index: map<string, Node>)
  {
    forall a, b :: a in index && b in index && a != b ==> index[a] != index[b]
  }

  ghost predicate Agree(index: map<string, Node>, lists: map<string, seq<Node>>, root: seq<Node>, pending: set<string>)
  {
    && lists.Keys == index.Keys
    && Injective(index)
    && (forall n :: n in index && n !in pending && Parent(n).Some? ==> Parent(n).value in index)
    && (forall d :: d in index ==> Enumerates(lists[d], Children(index, Some(d), pending)))
    && Enumerates(root, Children(index, None, pending))
  }

  /** A new node is indexed; it is pending until it enters a list. */
  lemma IndexPending(index: map<string, Node>, lists: map<string, seq<Node>>, root: seq<Node>, pending: set<string>,
                     name: string, e: Node)
    requires Agree(index, lists, root, pending) && name !in index && e !in index.Values
    requires forall n :: n in index && n !in pending ==> Parent(n) != Some(name)
    ensures Agree(index[name := e], lists[name := []], root, pending + {name})
  {
    var index', pending' := index[name := e], pending + {name};
    assert Children(index', Some(name), pending') == {};
    forall d | d != Some(name) ensures Children(index', d, pending') == Children(index, d, pending) {
      ChildrenSame(index, index', d, pending, pending');
    }
    forall n | n in index ensures index'[n] != e {
      assert index[n] in index.Values;
    }
  }

  lemma ChildrenSame(index: map<string, Node>, index': map<string, Node>, d: Option<string>,
                     pending: set<string>, pending': set<string>)
    requires forall n :: n in index && n !in pending ==> n in index' && n !in pending' && index'[n] == index[n]
    requires forall n :: n in index' && n !in pending' ==> n in index && n !in pending
    ensures Children(index', d, pending') == Children(index, d, pending)
  {
    var a, b := Children(index, d, pending), Children(index', d, pending');
    forall x | x in a ensures x in b {
      var n :| n in index && n !in pending && Parent(n) == d && index[n] == x;
      assert n in index' && index'[n] == x;
    }
    forall x | x in b ensures x in a {
      var n :| n in index' && n !in pending' && Parent(n) == d && index'[n] == x;
      assert n in index && index[n] == x;
    }
  }

  lemma ChildrenGain(index: map<string, Node>, pending: set<string>, name: string)
    requires Injective(index) && name in index && name !in pending
    ensures var before, after := pending + {name}, pending;
            && Children(index, Parent(name), after) == Children(index, Parent(name), before) + {index[name]}
            && index[name] !in Children(index, Parent(name), before)
            && forall d :: d != Parent(name) ==> Children(index, d, after) == Children(index, d, before)
  {
  }

  lemma EnumeratesMore(l: seq<Node>, s: set<Node>, x: Node)
    requires Enumerates(l, s) && x !in s
    ensures Enumerates(l + [x], s + {x})
  {
  }

  lemma ParentsIndexed(index: map<string, Node>, lists: map<string, seq<Node>>, root: seq<Node>, pending: set<string>)
    requires Agree(index, lists, root, pending)
    ensures forall n :: n in index && n !in pending && Parent(n).Some? ==> Parent(n).value in index
  {
  }

  lemma {:induction false} AncestorsIndexed(index: map<string, Node>, lists: map<string, seq<Node>>, root: seq<Node>,
                                            pending: set<string>, d: string)
    requires Agree(index, lists, root, pending) && d in index
    requires forall p :: p in pending ==> |p| > |d|
    ensures Chain(d) <= index.Keys
    decreases |d|
  {
    if Parent(d).Some? {
      AncestorsIndexed(index, lists, root, pending, Parent(d).value);
    }
  }

  /** A pending node enters its parent's list. */
  lemma EnterList(index: map<string, Node>, lists: map<string, seq<Node>>, root: seq<Node>, pending: set<string>,
                  name: string)
    requires Agree(index, lists, root, pending + {name}) && name in index && name !in pending
    ensures match Parent(name)
            case None => Agree(index, lists, root + [index[name]], pending)
            case Some(d) => d in index ==> Agree(index, lists[d := lists[d] + [index[name]]], root, pending)
  {
    ChildrenGain(index, pending, name);
    match Parent(name) {
      case None => EnumeratesMore(root, Children(index, None, pending + {name}), index[name]);
      case Some(d) =>
        if d in index {
          EnumeratesMore(lists[d], Children(index, Some(d), pending + {name}), index[name]);
        }
    }
  }

  /**
   * A header for a path that is already indexed, whether repeated or a directory after an entry beneath
   * it, breaks the agreement: the old node stays in its parent's list.
   */
  lemma RepeatedPathBreaks(index: map<string, Node>, lists: map<string, seq<Node>>, root: seq<Node>,
                           name: string, e: Node)
    requires Agree(index, lists, root, {}) && name in index && e !in index.Values
    ensures match Parent(name)
            case None => !Agree(index[name := e], lists[name := []], root + [e], {})
            case Some(d) => d in index && !Agree(index[name := e], lists[name := []][d := lists[d] + [e]], root, {})
  {
    var old_, index' := index[name], index[name := e];
    assert old_ in Children(index, Parent(name), {});
    assert old_ !in index'.Values by {
      forall n | n in index' ensures index'[n] != old_ {
        assert n != name ==> index[n] in index.Values;
        assert index[name] in index.Values;
      }
    }
    assert old_ !in Children(index', Parent(name), {});
    match Parent(name) {
      case None => assert old_ in root && old_ in root + [e];
      case Some(d) => assert old_ in lists[d] && old_ in lists[d] + [e];
    }
  }

  datatype Header = Header(name: string, isDir: bool, data: string)

  /** All paths the headers stand for. */
  function Covered(headers: seq<Header>): set<string>
  {
    if headers == [] then {}
    else
      var h := headers[|headers| - 1];
      Covered(headers[..|headers| - 1]) + if h.name == "." then {} else Chain(h.name)
  }

  /** Names are clean and distinct, and no directory header comes after an entry beneath it. */
  ghost predicate Orderly(headers: seq<Header>)
  {
    forall i :: 0 <= i < |headers| && headers[i].name != "." ==>
      Clean(headers[i].name) && headers[i].name !in Covered(headers[..i])
  }

  /** `New` on the headers of an archive, with their names cleaned. */
  method New(headers: seq<Header>) returns (tfs: TarFs)
    requires Orderly(headers)
    ensures fresh(tfs) && fresh(tfs.index.Values) && tfs.rootEntry == null
    ensures tfs.Agrees({}) && tfs.Named()
    ensures tfs.index.Keys == Covered(headers)
    ensures forall i :: 0 <= i < |headers| ==> tfs.Holds(headers[i])
  {
    hide TarFs.Agrees;
    hide TarFs.Named;
    hide TarFs.Holds;
    hide Chain;
    tfs := new TarFs(map[], null);
    for i := 0 to |headers|
      invariant fresh(tfs) && fresh(tfs.index.Values) && tfs.rootEntry == null
      invariant tfs.Agrees({}) && tfs.Named()
      invariant tfs.index.Keys == Covered(headers[..i])
      invariant forall k :: 0 <= k < i ==> tfs.Holds(headers[k])
    {
      assert headers[..i + 1][..i] == headers[..i];
      tfs.Take(headers[i]);
    }
    assert headers[..|headers|] == headers;
  }

  class TarFs {
    var index: map<string, Node>
    var rootEntries: seq<Node>
    /** For a subtree: its directory, whose list (and not a copy of it) is the root list. */
    const rootEntry: Node?

    constructor (index: map<string, Node>, rootEntry: Node?)
      ensures this.index == index && this.rootEntry == rootEntry && rootEntries == []
      ensures index == map[] && rootEntry == null ==> Agrees({}) && Named()
    {
      this.index, this.rootEntry, rootEntries := index, rootEntry, [];
    }

    /** The entry of a header is indexed under its name. */
    ghost predicate Holds(h: Header)
      reads this
    {
      h.name != "." ==> h.name in index && index[h.name].isDir == h.isDir && index[h.name].data == h.data
    }

    function RootList(): seq<Node>
      reads this, rootEntry
    {
      if rootEntry == null then rootEntries else rootEntry.entries
    }

    /** The child list of every indexed node. */
    ghost function Lists(): map<string, seq<Node>>
      reads this, index.Values
    {
      map n | n in index :: index[n].entries
    }

    /** Index and tree describe the same archive, except that `pending` paths are in no list yet. */
    ghost predicate Agrees(pending: set<string>)
      reads this, rootEntry, index.Values
    {
      (rootEntry != null ==> rootEntry !in index.Values) && Agree(index, Lists(), RootList(), pending)
    }

    /** Every node carries the last element of its path as its name. */
    ghost predicate Named()
      reads this
    {
      forall n :: n in index ==> index[n].name == Base(n)
    }

    /** One round of the loop over the headers. */
    method Take(h: Header)
      requires h.name != "." ==> Clean(h.name) && h.name !in index
      requires rootEntry == null && Agrees({}) && Named()
      modifies this, index.Values
      ensures Agrees({}) && Named() && fresh(index.Values - old(index.Values))
      ensures index.Keys == old(index.Keys) + if h.name == "." then {} else Chain(h.name)
      ensures Holds(h) && forall g: Header :: old(Holds(g)) ==> Holds(g)
    {
      hide Chain;
      hide Agrees;
      if h.name == "." {
        return;
      }
      AppendHeader(h);
    }

    method AppendHeader(h: Header)
      requires Clean(h.name) && rootEntry == null && Agrees({}) && h.name !in index
      modifies this, index.Values
      ensures Agrees({})
      ensures index.Keys == old(index.Keys) + Chain(h.name)
      ensures forall n :: n in old(index) ==> index[n] == old(index[n])
      ensures forall n :: n in index && n !in old(index) ==> fresh(index[n]) && index[n].name == Base(n)
      ensures h.name in index && index[h.name].isDir == h.isDir && index[h.name].data == h.data
    {
      var e := new Node(Base(h.name), h.isDir, h.data);
      NothingBeneath(h.name);
      Append(h.name, e, {});
    }

    lemma NothingBeneath(name: string)
      requires Agrees({}) && name !in index
      ensures forall n :: n in index ==> Parent(n) != Some(name)
    {
      NoOrphans({});
    }

    /**
     * `append`: indexes a node and enters it in its parent's list, making up missing ancestors. In the
     * recursion the descendants waiting for their parent are `pending`.
     */
    method Append(name: string, e: Node, ghost pending: set<string>)
      requires Clean(name) && rootEntry == null
      requires Agrees(pending) && name !in index && name !in pending
      requires forall p :: p in pending ==> |p| > |name|
      requires e !in index.Values && e.entries == []
      requires forall n :: n in index && n !in pending ==> Parent(n) != Some(name)
      modifies this, index.Values, e
      ensures Agrees(pending)
      ensures index.Keys == old(index.Keys) + Chain(name)
      ensures index[name] == e
      ensures forall n :: n in old(index) ==> index[n] == old(index[n])
      ensures forall n :: n in index && n !in old(index) && n != name ==>
                fresh(index[n]) && index[n].isDir && index[n].name == Base(n)
      decreases |name|, 0
    {
      hide Clean;
      hide Base;
      hide Agree;
      hide Agrees;
      hide Lists;
      hide Injective;
      var dir := Parent(name);
      IndexNode(name, e, pending);
      if dir.None? || dir.value in index {
        Enter(name, e, pending);
        if dir.Some? {
          WithAncestors(pending, dir.value);
        }
        return;
      }
      AppendParent(dir.value, name, pending + {name});
      Enter(name, e, pending);
    }

    /** Makes up the directory `dir` for its pending entry `name`. */
    method AppendParent(dir: string, name: string, ghost pending: set<string>)
      requires Clean(name) && Parent(name) == Some(dir) && rootEntry == null
      requires Agrees(pending) && dir !in index && dir !in pending
      requires forall p :: p in pending ==> |p| > |dir|
      modifies this, index.Values
      ensures Agrees(pending)
      ensures index.Keys == old(index.Keys) + Chain(dir)
      ensures forall n :: n in old(index) ==> index[n] == old(index[n])
      ensures forall n :: n in index && n !in old(index) ==>
                fresh(index[n]) && index[n].isDir && index[n].name == Base(n)
      decreases |dir|, 1
    {
      hide Agree;
      hide Agrees;
      hide Lists;
      var parent := new Node(Base(dir), true, "");
      ParentClean(name);
      NoOrphans(pending);
      Append(dir, parent, pending);
    }

    lemma NoOrphans(pending: set<string>)
      requires Agrees(pending)
      ensures forall n :: n in index && n !in pending && Parent(n).Some? ==> Parent(n).value in index
    {
      ParentsIndexed(index, Lists(), RootList(), pending);
    }

    lemma WithAncestors(pending: set<string>, d: string)
      requires Agrees(pending) && d in index && forall p :: p in pending ==> |p| > |d|
      ensures Chain(d) <= index.Keys
    {
      AncestorsIndexed(index, Lists(), RootList(), pending, d);
    }

    method IndexNode(name: string, e: Node, ghost pending: set<string>)
      requires rootEntry == null
      requires Agrees(pending) && name !in index
      requires e !in index.Values && e.entries == []
      requires forall n :: n in index && n !in pending ==> Parent(n) != Some(name)
      modifies this`index
      ensures Agrees(pending + {name}) && index == old(index)[name := e]
    {
      IndexPending(index, Lists(), rootEntries, pending, name, e);
      ghost var lists := Lists();
      index := index[name := e];
      assert Lists() == lists[name := []];
    }

    /** A pending node is entered in the list of its parent, which is indexed. */
    method Enter(name: string, e: Node, ghost pending: set<string>)
      requires rootEntry == null
      requires name in index && index[name] == e && name !in pending
      requires Agrees(pending + {name})
      requires Parent(name).Some? ==> Parent(name).value in index
      modifies this`rootEntries, index.Values
      ensures Agrees(pending)
    {
      EnterList(index, Lists(), rootEntries, pending, name);
      if Parent(name).None? {
        rootEntries := rootEntries + [e];
      } else {
        AddChild(Parent(name).value, e);
      }
    }

    method AddChild(dir: string, e: Node)
      requires dir in index && Injective(index) && rootEntry == null
      modifies index[dir]
      ensures Lists() == old(Lists())[dir := old(index[dir].entries) + [e]]
    {
      var parent := index[dir];
      parent.entries := parent.entries + [e];
    }
  }
}
