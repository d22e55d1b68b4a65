/** Slash-separated relative paths, as `path.Clean` leaves them. */
module Paths {
  import opened Wrappers

  predicate Clean(s: string)
  {
    && s != "" && s[0] != '/' && s[|s| - 1] != '/'
    && (forall i :: 0 < i < |s| ==> !(s[i - 1] == '/' && s[i] == '/'))
    && s != "." && !(|s| > 1 && s[0] == '.' && s[1] == '/')
  }

  /** The part before the last slash; `None` stands for the root, which `path.Dir` calls ".". */
  function Parent(s: string): (p: Option<string>)
    ensures p.Some? ==> |p.value| < |s| && p.value == s[..|p.value|] && s[|p.value|] == '/'
  {
    if s == "" then None
    else if s[|s| - 1] == '/' then Some(s[..|s| - 1])
    else Parent(s[..|s| - 1])
  }

  function Base(s: string): string
  {
    if s == "" || s[|s| - 1] == '/' then "" else Base(s[..|s| - 1]) + [s[|s| - 1]]
  }

  lemma ParentClean(s: string)
    requires Clean(s) && Parent(s).Some?
    ensures Clean(Parent(s).value)
  {
    var p := Parent(s).value;
    assert forall i :: 0 <= i < |p| ==> p[i] == s[i];
  }

  function Join(d: string, p: string): string
  {
    d + "/" + p
  }

  lemma {:induction false} ParentOfJoin(d: string, p: string)
    ensures Parent(Join(d, p)) == Some(if Parent(p).None? then d else Join(d, Parent(p).value))
    decreases |p|
  {
    var s := Join(d, p);
    if p == "" {
      assert s[..|s| - 1] == d;
    } else {
      assert s[..|s| - 1] == Join(d, p[..|p| - 1]);
      if p[|p| - 1] != '/' {
        ParentOfJoin(d, p[..|p| - 1]);
      }
    }
  }

  lemma JoinAssociates(a: string, b: string, p: string)
    ensures Join(Join(a, b), p) == Join(a, Join(b, p))
  {
    assert a + "/" + b + "/" + p == a + "/" + (b + "/" + p);
  }

  lemma JoinInjective(d: string, p: string, q: string)
    requires Join(d, p) == Join(d, q)
    ensures p == q
  {
    assert p == Join(d, p)[|d| + 1..] && q == Join(d, q)[|d| + 1..];
  }

  /** The path and all its strict ancestors. */
  function Chain(s: string): set<string>
    decreases |s|
  {
    {s} + if Parent(s).Some? then Chain(Parent(s).value) else {}
  }
}
