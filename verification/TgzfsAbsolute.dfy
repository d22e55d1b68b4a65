/** internal/tools/tgzfs/fs.go: what becomes of an entry with an absolute name. */
module TgzfsAbsolute {
  import opened Paths
  import opened Tgzfs

  // ---- absolute paths ----

  predicate Absolute(s: string)
  {
    s == "/" || (|s| > 1 && s[0] == '/' && Clean(s[1..]))
  }

  /** `path.Dir` of an absolute path: the root is its own directory. */
  function AbsoluteDir(s: string): (d: string)
    requires Absolute(s)
    ensures Absolute(d) && if s == "/" then d == s else |d| < |s|
  {
    if s == "/" then s
    else
      var p := Parent(s[1..]);
      if p.None? then "/"
      else
        ParentClean(s[1..]);
        assert ("/" + p.value)[1..] == p.value;
        "/" + p.value
  }

  /** An absolute path and all its ancestors up to the root. */
  function AbsoluteChain(s: string): (c: set<string>)
    requires Absolute(s)
    ensures s in c && "/" in c
    decreases |s|
  {
    if s == "/" then {s} else {s} + AbsoluteChain(AbsoluteDir(s))
  }

  /** The lists of relative paths, in which alone a walk from the archive's root finds anything. */
  ghost function RelativeLists(tfs: TarFs): map<string, seq<Node>>
    reads tfs, tfs.index.Values
  {
    map n | n in tfs.index && !Absolute(n) :: tfs.index[n].entries
  }

  /**
   * `append` for an absolute name. It terminates, since the root is indexed before its parent is looked for,
   * and that parent is the root itself, which becomes its own child. The list of the archive's root and those
   * of relative paths stay as they are, so a walk from there finds no absolute path.
   */
  method AppendAbsolute(tfs: TarFs, name: string, e: Node)
    requires Absolute(name) && Injective(tfs.index) && e !in tfs.index.Values
    requires Rooted(tfs.index, |name|)
    modifies tfs`index, tfs.index.Values, e
    ensures tfs.index.Keys == old(tfs.index.Keys) + AbsoluteChain(name) && Injective(tfs.index)
    ensures tfs.index[name] == e && forall n :: n in old(tfs.index) && n != name ==> tfs.index[n] == old(tfs.index[n])
    ensures name == "/" || "/" !in old(tfs.index) ==> tfs.index["/"] in tfs.index["/"].entries
    ensures RelativeLists(tfs) == old(RelativeLists(tfs))
    decreases |name|
  {
    hide Clean;
    hide Injective;
    hide Rooted;
    hide RelativeLists;
    hide Absolute;
    hide AbsoluteDir;
    hide AbsoluteChain;
    ChainStep(name);
    var dir := AbsoluteDir(name);
    IndexAbsolute(tfs, name, e);
    if dir in tfs.index {
      Adopt(tfs, dir, e);
      return;
    }
    var parent := new Node(Base(dir), true, "");
    AppendAbsolute(tfs, dir, parent);
    Adopt(tfs, dir, e);
  }

  /** The ancestors of shorter absolute paths are indexed. */
  ghost predicate Rooted(index: map<string, Node>, length: nat)
  {
    forall n :: n in index && Absolute(n) && |n| < length ==> AbsoluteChain(n) <= index.Keys
  }

  lemma ChainStep(name: string)
    requires Absolute(name)
    ensures AbsoluteChain(name) == {name} + AbsoluteChain(AbsoluteDir(name))
  {
  }

  lemma Indexed(index: map<string, Node>, name: string, e: Node)
    requires Absolute(name) && Injective(index) && e !in index.Values && Rooted(index, |name|)
    ensures Injective(index[name := e])
    ensures name != "/" ==> Rooted(index[name := e], |AbsoluteDir(name)|)
    ensures AbsoluteDir(name) in index[name := e] ==> (index[name := e]).Keys == index.Keys + AbsoluteChain(name)
  {
    hide Absolute;
    hide AbsoluteDir;
    hide AbsoluteChain;
    var dir, index' := AbsoluteDir(name), index[name := e];
    ChainStep(name);
    forall n | n in index ensures index[n] != e {
      assert index[n] in index.Values;
    }
    if name == "/" {
      ChainStep(dir);
      RootChain();
    }
  }

  lemma RootChain()
    ensures Absolute("/") && AbsoluteChain("/") == {"/"}
  {
  }

  method IndexAbsolute(tfs: TarFs, name: string, e: Node)
    requires Absolute(name) && Injective(tfs.index) && e !in tfs.index.Values && Rooted(tfs.index, |name|)
    modifies tfs`index
    ensures tfs.index == old(tfs.index)[name := e] && Injective(tfs.index)
    ensures name != "/" ==> Rooted(tfs.index, |AbsoluteDir(name)|)
    ensures AbsoluteDir(name) in tfs.index ==> tfs.index.Keys == old(tfs.index.Keys) + AbsoluteChain(name)
    ensures RelativeLists(tfs) == old(RelativeLists(tfs))
  {
    hide Absolute;
    hide AbsoluteDir;
    hide AbsoluteChain;
    hide Injective;
    hide Rooted;
    Indexed(tfs.index, name, e);
    tfs.index := tfs.index[name := e];
  }

  method Adopt(tfs: TarFs, dir: string, e: Node)
    requires dir in tfs.index && Absolute(dir) && Injective(tfs.index)
    modifies tfs.index[dir]
    ensures tfs.index[dir].entries == old(tfs.index[dir].entries) + [e]
    ensures RelativeLists(tfs) == old(RelativeLists(tfs))
  {
    var parent := tfs.index[dir];
    parent.entries := parent.entries + [e];
  }
}
