/** What one pass, and repeated passes, of defaulting do to a value. */
module DefaultsFacts {
  import opened Wrappers
  import opened Defaults

  // ---- one pass, path by path ----

  function Lookup(v: Value, path: seq<string>): Option<Value>
  {
    if path == [] then Some(v)
    else if v.Obj? && path[0] in v.fields then Lookup(v.fields[path[0]], path[1..])
    else None
  }

  /** Values already set stay: other than objects they are unchanged, and objects stay objects. */
  lemma {:induction false} PassPreserves(props: Properties, m: Fields, path: seq<string>)
    requires Lookup(Obj(m), path).Some?
    ensures var before, after := Lookup(Obj(m), path).value, Lookup(Obj(Merge(props, m)), path);
            after.Some? && if before.Obj? then after.value.Obj? else after.value == before
    decreases |path|
  {
    if path != [] {
      var k, rest := path[0], path[1..];
      MergeAt(props, m, k);
      if Declared(props, k) {
        var s := props[Index(props, k)].schema;
        if s.Nests() && m[k].Obj? {
          PassPreserves(s.properties, m[k].fields, rest);
        }
      }
    }
  }

  /** So do those of a pass that fails. */
  lemma {:induction false} PartPreserves(props: Properties, before: Fields, after: Fields, path: seq<string>)
    requires Part(props, before, after) && Lookup(Obj(before), path).Some?
    ensures var v, w := Lookup(Obj(before), path).value, Lookup(Obj(after), path);
            w.Some? && if v.Obj? then w.value.Obj? else w.value == v
    decreases |path|
  {
    if path != [] {
      var k, rest := path[0], path[1..];
      assert PartAt(props, before, after, k);
      if Declared(props, k) {
        var s := props[Index(props, k)].schema;
        assert PartField(s, At(before, k), At(after, k));
        if At(after, k) != At(before, k) {
          if At(after, k) == MergeField(s, At(before, k)) {
            PassPreserves(s.properties, before[k].fields, rest);
          } else {
            PartPreserves(s.properties, before[k].fields, after[k].fields, rest);
          }
        }
      }
    }
  }

  /**
   * What a path holds after one pass, read off the schema without building any merged object. A
   * path that was set, or lies inside a default or a value that is not descended into, holds exactly
   * that value; anything else holds nothing but the members the schema gives it.
   */
  function Resolve(props: Properties, m: Fields, path: seq<string>): Option<Value>
    requires path != []
    decreases |path|
  {
    var k, rest := path[0], path[1..];
    if !Declared(props, k) then
      if k in m then Lookup(m[k], rest) else None
    else
      var s := props[Index(props, k)].schema;
      var descend := s.Nests() && if k in m then m[k].Obj? else s.default.Absent?;
      if descend then
        if rest == [] then None else Resolve(s.properties, if k in m then m[k].fields else map[], rest)
      else if k in m then Lookup(m[k], rest)
      else if s.default.Parsed? then Lookup(Convert(s.default.value, s.kind), rest)
      else if s.default.Absent? && FillsItems(s) && s.items.default.Parsed? then
        Lookup(List(Repeat(Convert(s.items.default.value, s.items.kind), s.minItems.value)), rest)
      else None
  }

  /**
   * After a pass every path holds what `Resolve` says; where `Resolve` says nothing there is nothing,
   * or an object that was there before, or a synthesised object with at least one member.
   */
  lemma {:induction false} PassResolves(props: Properties, m: Fields, path: seq<string>)
    requires path != []
    ensures var after := Lookup(Obj(Merge(props, m)), path);
            match Resolve(props, m, path)
            case Some(v) => after == Some(v)
            case None => after.None? || (after.value.Obj?
                           && (after.value.fields != map[] || Lookup(Obj(m), path) == Some(Obj(map[]))))
    decreases |path|
  {
    var k, rest := path[0], path[1..];
    MergeAt(props, m, k);
    var merged := Merge(props, m);
    if Declared(props, k) {
      var s := props[Index(props, k)].schema;
      if s.Nests() && if k in m then m[k].Obj? else s.default.Absent? {
        var inner := if k in m then m[k].fields else map[];
        if rest == [] {
          if k in m && Merge(s.properties, inner) == map[] {
            EmptyMerge(s.properties, inner);
          }
        } else {
          PassResolves(s.properties, inner, rest);
        }
      }
    }
  }

  lemma EmptyMerge(props: Properties, m: Fields)
    requires Merge(props, m) == map[]
    ensures m == map[]
  {
    forall k ensures k !in m {
      MergeAt(props, m, k);
    }
  }

  // ---- repeated passes ----

  function Passes(props: Properties, m: Fields, n: nat): Fields
    decreases n
  {
    if n == 0 then m else Passes(props, Merge(props, m), n - 1)
  }

  function FieldPasses(s: Schema, x: Option<Value>, n: nat): Option<Value>
    decreases n
  {
    if n == 0 then x else FieldPasses(s, MergeField(s, x), n - 1)
  }

  /** How many levels of `properties` there are. */
  function Depth(props: Properties): nat
    decreases props
  {
    if props == [] then 0
    else Max(1 + if props[0].schema.Nests() then Depth(props[0].schema.properties) else 0, Depth(props[1..]))
  }

  function Max(a: nat, b: nat): nat
  {
    if a > b then a else b
  }

  lemma {:induction false} DepthOf(props: Properties, i: nat)
    requires i < |props|
    ensures Depth(props) >= 1 + if props[i].schema.Nests() then Depth(props[i].schema.properties) else 0
    decreases i
  {
    if i > 0 {
      DepthOf(props[1..], i - 1);
    }
  }

  /** Fields develop independently of each other. */
  lemma {:induction false} PassesAt(props: Properties, m: Fields, n: nat, k: string)
    ensures At(Passes(props, m, n), k)
         == if Declared(props, k) then FieldPasses(props[Index(props, k)].schema, At(m, k), n) else At(m, k)
    decreases n
  {
    if n > 0 {
      var m1 := Merge(props, m);
      assert At(m1, k) == MergedAt(props, m, k) by { MergeAt(props, m, k); }
      PassesAt(props, m1, n - 1, k);
      assert Passes(props, m, n) == Passes(props, m1, n - 1);
    }
  }

  lemma {:induction false} ObjectPasses(s: Schema, f: Fields, n: nat)
    requires s.Nests()
    ensures FieldPasses(s, Some(Obj(f)), n) == Some(Obj(Passes(s.properties, f, n)))
    decreases n
  {
    if n > 0 {
      ObjectPasses(s, Merge(s.properties, f), n - 1);
    }
  }

  lemma {:induction false} FixedFieldPasses(s: Schema, x: Option<Value>, n: nat)
    requires MergeField(s, x) == x
    ensures FieldPasses(s, x, n) == x
    decreases n
  {
    if n > 0 {
      FixedFieldPasses(s, x, n - 1);
    }
  }

  lemma {:induction false} ObjectSettles(s: Schema, f: Fields, n: nat)
    requires s.Nests() && n >= Depth(s.properties)
    ensures var x := FieldPasses(s, Some(Obj(f)), n); MergeField(s, x) == x
    decreases s, 1
  {
    ObjectPasses(s, f, n);
    PassesSettle(s.properties, f, n);
  }

  /** A field is settled after one pass to insert it and as many as its own properties need. */
  lemma {:induction false} FieldSettles(s: Schema, x: Option<Value>, n: nat)
    requires n >= 1 + if s.Nests() then Depth(s.properties) else 0
    ensures MergeField(s, FieldPasses(s, x, n)) == FieldPasses(s, x, n)
    decreases s, 2
  {
    var y := MergeField(s, x);
    assert FieldPasses(s, x, n) == FieldPasses(s, y, n - 1);
    if s.Nests() && y.Some? && y.value.Obj? {
      ObjectSettles(s, y.value.fields, n - 1);
    } else {
      ScalarSettles(s, x);
      FixedFieldPasses(s, y, n - 1);
    }
  }

  lemma ScalarSettles(s: Schema, x: Option<Value>)
    requires s.Nests() && MergeField(s, x).Some? ==> !MergeField(s, x).value.Obj?
    ensures MergeField(s, MergeField(s, x)) == MergeField(s, x)
  {
  }

  /** As many passes as there are levels reach a fixpoint. */
  lemma {:induction false} PassesSettle(props: Properties, m: Fields, n: nat)
    requires n >= Depth(props)
    ensures Merge(props, Passes(props, m, n)) == Passes(props, m, n)
    decreases props, 0
  {
    var r := Passes(props, m, n);
    forall k ensures At(r, k) == MergedAt(props, r, k) {
      PassesAt(props, m, n, k);
      if Declared(props, k) {
        var i := Index(props, k);
        DepthOf(props, i);
        FieldSettles(props[i].schema, At(m, k), n);
      }
    }
    MergeExt(props, r, r);
  }

  // ---- when one pass is enough ----

  /** Every object default is already complete under its own properties. */
  ghost predicate CompleteDefaults(props: Properties)
    decreases props
  {
    forall i :: 0 <= i < |props| && props[i].schema.Nests() ==>
      && CompleteDefault(props[i].schema)
      && CompleteDefaults(props[i].schema.properties)
  }

  ghost predicate CompleteDefault(s: Schema)
  {
    s.default.Parsed? && Convert(s.default.value, s.kind).Obj? ==>
      var f := Convert(s.default.value, s.kind).fields;
      Merge(s.properties, f) == f
  }

  ghost predicate OnePassSuffices(props: Properties)
  {
    forall m: Fields :: Merge(props, Merge(props, m)) == Merge(props, m)
  }

  lemma {:induction false} CompleteIsEnough(props: Properties, m: Fields)
    requires CompleteDefaults(props)
    ensures Merge(props, Merge(props, m)) == Merge(props, m)
    decreases props, 0
  {
    var r := Merge(props, m);
    forall k ensures At(r, k) == MergedAt(props, r, k) {
      MergeAt(props, m, k);
      if Declared(props, k) {
        CompleteFieldIsEnough(props, Index(props, k), At(m, k));
      }
    }
    MergeExt(props, r, r);
  }

  lemma {:induction false} CompleteFieldIsEnough(props: Properties, i: nat, x: Option<Value>)
    requires CompleteDefaults(props) && i < |props|
    ensures var s := props[i].schema; MergeField(s, MergeField(s, x)) == MergeField(s, x)
    decreases props[i], 0
  {
    var s := props[i].schema;
    if s.Nests() {
      if x.Some? && x.value.Obj? {
        CompleteIsEnough(s.properties, x.value.fields);
      } else if x.None? && s.default.Absent? {
        CompleteIsEnough(s.properties, map[]);
      }
    }
  }

  lemma {:induction false} EnoughIsComplete(props: Properties)
    requires Distinct(props) && OnePassSuffices(props)
    ensures CompleteDefaults(props)
    decreases props
  {
    forall i | 0 <= i < |props| && props[i].schema.Nests()
      ensures CompleteDefault(props[i].schema) && CompleteDefaults(props[i].schema.properties)
    {
      var s, k := props[i].schema, props[i].name;
      IndexOf(props, i);
      SecondPass(props, map[], k);
      forall f: Fields ensures Merge(s.properties, Merge(s.properties, f)) == Merge(s.properties, f) {
        SecondPass(props, map[k := Obj(f)], k);
      }
      EnoughIsComplete(s.properties);
    }
  }

  lemma SecondPass(props: Properties, m: Fields, k: string)
    requires OnePassSuffices(props) && Declared(props, k)
    ensures var s := props[Index(props, k)].schema;
            MergeField(s, MergeField(s, At(m, k))) == MergeField(s, At(m, k))
  {
    assert Merge(props, Merge(props, m)) == Merge(props, m);
    MergeAt(props, m, k);
    MergeAt(props, Merge(props, m), k);
  }

  /** One pass is idempotent on every value exactly when all object defaults are complete. */
  lemma OnePassIff(props: Properties)
    requires Distinct(props)
    ensures OnePassSuffices(props) <==> CompleteDefaults(props)
  {
    if OnePassSuffices(props) {
      EnoughIsComplete(props);
    }
    if CompleteDefaults(props) {
      forall m: Fields ensures Merge(props, Merge(props, m)) == Merge(props, m) {
        CompleteIsEnough(props, m);
      }
    }
  }

  // ---- errors over repeated passes ----

  predicate AllParse(props: Properties)
    decreases props
  {
    forall i :: 0 <= i < |props| ==>
      && !props[i].schema.default.Malformed?
      && !(props[i].schema.items.Items? && props[i].schema.items.default.Malformed?)
      && AllParse(props[i].schema.properties)
  }

  lemma {:induction false} ParsingNeverFails(props: Properties, m: Fields)
    requires AllParse(props)
    ensures !Broken(props, m)
    decreases props
  {
    forall i | 0 <= i < |props| ensures !BrokenField(props[i].schema, At(m, props[i].name)) {
      var s, x := props[i].schema, At(m, props[i].name);
      if x.Some? && x.value.Obj? {
        ParsingNeverFails(s.properties, x.value.fields);
      } else {
        ParsingNeverFails(s.properties, map[]);
      }
    }
  }

  /** When all defaults parse, no pass fails, and after as many passes as there are levels none changes anything. */
  lemma RepeatedDefaulting(props: Properties, m: Fields, n: nat)
    requires AllParse(props)
    ensures !Broken(props, Passes(props, m, n))
    ensures n >= Depth(props) ==> Merge(props, Passes(props, m, n)) == Passes(props, m, n)
  {
    ParsingNeverFails(props, Passes(props, m, n));
    if n >= Depth(props) {
      PassesSettle(props, m, n);
    }
  }
}
