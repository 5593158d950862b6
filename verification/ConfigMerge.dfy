/** Recursive merging of nested configuration mappings; the override wins, mapping by mapping. */
module ConfigMerge {
  import opened Common

  datatype Value = Leaf(text: string) | Node(entries: Config)

  type Config = map<string, Value>

  /** One key of a merge: a present value replaces, except that two mappings are merged. */
  function Merge(base: Config, override: Config): (merged: Config)
    ensures merged.Keys == base.Keys + override.Keys
    decreases Node(override)
  {
    map k | k in base.Keys + override.Keys ::
      if k !in override then base[k]
      else if k in base && base[k].Node? && override[k].Node? then
        assert Node(override[k].entries) == override[k];
        Node(Merge(base[k].entries, override[k].entries))
      else override[k]
  }

  /** The merge of the settings: a copy of the base, into which the override is filled key by key. */
  method DeepMerge(base: Config, override: Config) returns (merged: Config)
    ensures merged == Merge(base, override)
    decreases Node(override)
  {
    merged := base;
    var rest := override.Keys;
    while rest != {}
      invariant rest <= override.Keys
      invariant merged.Keys == base.Keys + (override.Keys - rest)
      invariant forall k :: k in merged ==> merged[k] == if k in rest then base[k] else Merge(base, override)[k]
      decreases rest
    {
      var key :| key in rest;
      var value := override[key];
      if value.Node? && key in merged && merged[key].Node? {
        assert Node(value.entries) == override[key];
        var inner := DeepMerge(merged[key].entries, value.entries);
        merged := merged[key := Node(inner)];
      } else {
        merged := merged[key := value];
      }
      rest := rest - {key};
    }
  }

  /** The merge of the canonical model builder reads the existing value first; the result is the same. */
  method DeepMergeCanonical(base: Config, override: Config) returns (merged: Config)
    ensures merged == Merge(base, override)
    decreases Node(override)
  {
    merged := base;
    var rest := override.Keys;
    while rest != {}
      invariant rest <= override.Keys
      invariant merged.Keys == base.Keys + (override.Keys - rest)
      invariant forall k :: k in merged ==> merged[k] == if k in rest then base[k] else Merge(base, override)[k]
      decreases rest
    {
      var key :| key in rest;
      var existing := if key in merged then Some(merged[key]) else None;
      if existing.Some? && existing.value.Node? && override[key].Node? {
        assert Node(override[key].entries) == override[key];
        var inner := DeepMergeCanonical(existing.value.entries, override[key].entries);
        merged := merged[key := Node(inner)];
      } else {
        merged := merged[key := override[key]];
      }
      rest := rest - {key};
    }
  }

  // --------------------------------------------------------------- lookups

  type Path = p: seq<string> | p != [] witness [""]

  /** The leaf at a path, if there is one. */
  function LeafAt(c: Config, p: Path): Option<string>
    decreases p
  {
    if p[0] !in c then None
    else if |p| == 1 then (if c[p[0]].Leaf? then Some(c[p[0]].text) else None)
    else if c[p[0]].Node? then LeafAt(c[p[0]].entries, p[1..])
    else None
  }

  /** The configuration decides the path without having a leaf there: a leaf on the way, or a mapping at the end. */
  predicate Covers(c: Config, p: Path)
    decreases p
  {
    p[0] in c && (if |p| == 1 then c[p[0]].Node? else c[p[0]].Leaf? || Covers(c[p[0]].entries, p[1..]))
  }

  /**
   What a merge holds, path by path: the override's leaf where it has one; nothing where the override decides the path
   otherwise; and the base's leaf everywhere else.
   */
  lemma {:induction false} LookupLaw(base: Config, override: Config, p: Path)
    ensures LeafAt(Merge(base, override), p)
            == if LeafAt(override, p).Some? then LeafAt(override, p)
               else if Covers(override, p) then None
               else LeafAt(base, p)
    decreases p
  {
    var k := p[0];
    if |p| > 1 && k in base && k in override && base[k].Node? && override[k].Node? {
      LookupLaw(base[k].entries, override[k].entries, p[1..]);
    }
  }

  // ------------------------------------------------------------------ laws

  lemma {:induction false} MergeSelf(a: Config)
    ensures Merge(a, a) == a
    decreases Node(a)
  {
    forall k | k in a ensures Merge(a, a)[k] == a[k] {
      if a[k].Node? {
        assert Node(a[k].entries) == a[k];
        MergeSelf(a[k].entries);
      }
    }
  }

  /** `a` adds nothing to `c`: every key of `a` is in `c`, mappings over mappings being compared key by key. */
  predicate AddsNothing(a: Config, c: Config)
    decreases Node(c)
  {
    forall k :: k in a ==>
      k in c
      && (a[k].Node? && c[k].Node? ==>
            assert Node(c[k].entries) == c[k];
            AddsNothing(a[k].entries, c[k].entries))
  }

  lemma {:induction false} AbsorbedExactly(a: Config, c: Config)
    ensures Merge(a, c) == c <==> AddsNothing(a, c)
    decreases Node(c)
  {
    var m := Merge(a, c);
    forall k | k in c
      ensures m[k] == c[k] <==> (k in a && a[k].Node? && c[k].Node? ==> AddsNothing(a[k].entries, c[k].entries))
    {
      if k in a && a[k].Node? && c[k].Node? {
        assert Node(c[k].entries) == c[k];
        AbsorbedExactly(a[k].entries, c[k].entries);
      }
    }
    assert m.Keys == c.Keys <==> a.Keys <= c.Keys;
    assert m == c <==> m.Keys == c.Keys && forall k :: k in c ==> m[k] == c[k];
  }

  /** An override that was merged in adds nothing more. */
  lemma {:induction false} MergeTwice(a: Config, b: Config)
    ensures Merge(Merge(a, b), b) == Merge(a, b)
    decreases Node(b)
  {
    var m := Merge(a, b);
    forall k | k in m ensures Merge(m, b)[k] == m[k] {
      if k in b && b[k].Node? {
        assert Node(b[k].entries) == b[k];
        if k in a && a[k].Node? {
          MergeTwice(a[k].entries, b[k].entries);
        } else {
          MergeSelf(b[k].entries);
        }
      }
    }
  }

  /**
   When grouping does not matter at a key: either no leaf of the middle stands between two mappings, or what it would
   hide of the first adds nothing to the third.
   */
  predicate Regroups(a: Config, b: Config, c: Config)
    decreases Node(c)
  {
    forall k :: k in a && k in b && k in c && a[k].Node? && c[k].Node? ==>
      assert Node(c[k].entries) == c[k];
      if b[k].Node? then Regroups(a[k].entries, b[k].entries, c[k].entries)
      else AddsNothing(a[k].entries, c[k].entries)
  }

  lemma GroupingAtKey(a: Config, b: Config, c: Config, k: string)
    requires k in a.Keys + b.Keys + c.Keys
    requires !(k in a && k in b && k in c && a[k].Node? && c[k].Node?)
    ensures Merge(Merge(a, b), c)[k] == Merge(a, Merge(b, c))[k]
  {
  }

  /** Merging is associative exactly on such triples. */
  lemma {:induction false} AssociativeExactly(a: Config, b: Config, c: Config)
    ensures Merge(Merge(a, b), c) == Merge(a, Merge(b, c)) <==> Regroups(a, b, c)
    decreases Node(c)
  {
    var left, right := Merge(Merge(a, b), c), Merge(a, Merge(b, c));
    assert left.Keys == right.Keys == a.Keys + b.Keys + c.Keys;
    forall k | k in left && !(k in a && k in b && k in c && a[k].Node? && c[k].Node?) ensures left[k] == right[k] {
      GroupingAtKey(a, b, c, k);
    }
    forall k | k in a && k in b && k in c && a[k].Node? && c[k].Node?
      ensures left[k] == right[k]
              <==> if b[k].Node? then Regroups(a[k].entries, b[k].entries, c[k].entries)
                   else AddsNothing(a[k].entries, c[k].entries)
    {
      assert Node(c[k].entries) == c[k];
      if b[k].Node? {
        AssociativeExactly(a[k].entries, b[k].entries, c[k].entries);
      } else {
        AbsorbedExactly(a[k].entries, c[k].entries);
      }
    }
    hide Merge;
    if Regroups(a, b, c) {
      assert forall k :: k in left ==> left[k] == right[k];
    } else {
      var k :| k in a && k in b && k in c && a[k].Node? && c[k].Node?
               && !(if b[k].Node? then Regroups(a[k].entries, b[k].entries, c[k].entries)
                    else AddsNothing(a[k].entries, c[k].entries));
      assert left[k] != right[k];
    }
  }

  /** No path is a mapping in one argument and a leaf in another. */
  predicate SameShape(a: Config, b: Config)
    decreases Node(b)
  {
    forall k :: k in a && k in b ==>
      (a[k].Node? <==> b[k].Node?)
      && (b[k].Node? ==> assert Node(b[k].entries) == b[k]; SameShape(a[k].entries, b[k].entries))
  }

  lemma {:induction false} SameShapeRegroups(a: Config, b: Config, c: Config)
    requires SameShape(a, b) && SameShape(b, c)
    ensures Regroups(a, b, c)
    decreases Node(c)
  {
    forall k | k in a && k in b && k in c && a[k].Node? && c[k].Node?
      ensures b[k].Node? && Regroups(a[k].entries, b[k].entries, c[k].entries)
    {
      assert Node(c[k].entries) == c[k];
      SameShapeRegroups(a[k].entries, b[k].entries, c[k].entries);
    }
  }

  /** Without such conflicts merging is associative. */
  lemma AssociativeWithoutConflicts(a: Config, b: Config, c: Config)
    requires SameShape(a, b) && SameShape(b, c)
    ensures Merge(Merge(a, b), c) == Merge(a, Merge(b, c))
  {
    SameShapeRegroups(a, b, c);
    AssociativeExactly(a, b, c);
  }

  /** A leaf between two mappings is enough to break it. */
  lemma NotAssociative()
    ensures var a, b, c := map["k" := Node(map["x" := Leaf("1")])], map["k" := Leaf("2")], map["k" := Node(map[])];
            Merge(Merge(a, b), c) != Merge(a, Merge(b, c))
  {
    var a, b, c := map["k" := Node(map["x" := Leaf("1")])], map["k" := Leaf("2")], map["k" := Node(map[])];
    assert "k" in a && "x" in a["k"].entries;
    assert !AddsNothing(a["k"].entries, c["k"].entries);
    assert !Regroups(a, b, c);
    AssociativeExactly(a, b, c);
  }

  // ----------------------------------------------- trailing-stop defaults

  /** Defaults for a trailing stop, completed by what the setup says; a setup that was not migrated gets its own mode. */
  function TrailingDefaults(defaults: Config, migrated: bool, trailing: Config): Config {
    Merge(if migrated then defaults else defaults["mode" := Leaf("AUTO_INTELLIGENT")], trailing)
  }

  /** Whatever leaf the setup itself has is kept; only what it leaves open comes from the defaults. */
  lemma OwnStopSettingsWin(defaults: Config, migrated: bool, trailing: Config, p: Path)
    ensures LeafAt(trailing, p).Some? ==> LeafAt(TrailingDefaults(defaults, migrated, trailing), p) == LeafAt(trailing, p)
    ensures LeafAt(trailing, p).None? && !Covers(trailing, p) && (migrated || p[0] != "mode") ==>
              LeafAt(TrailingDefaults(defaults, migrated, trailing), p) == LeafAt(defaults, p)
  {
    LookupLaw(if migrated then defaults else defaults["mode" := Leaf("AUTO_INTELLIGENT")], trailing, p);
  }
}
