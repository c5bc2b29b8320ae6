/** Facts about the documentation order of attributes: `AttrCompare` is a
    strict total order on attribute names, and the priority table puts the
    well-known names first, in a fixed order. */
module AttrOrdering {
  import opened PyStrings
  import opened Attr

  // Strcmp is a three-way comparison

  lemma StrcmpReflexive(s: string)
    ensures Strcmp(s, s) == 0
  {
  }

  lemma StrcmpAntisymmetric(s1: string, s2: string)
    ensures Strcmp(s1, s2) == -Strcmp(s2, s1)
    ensures Strcmp(s1, s2) in {-1, 0, 1}
  {
  }

  // AttrCompare is a strict total order on names

  /** Only the names of the descriptors decide their order; kind, default,
      mandatory flag and doc play no part. */
  lemma AttrCompareOnlyNames(a: AttrDescriptor, b: AttrDescriptor,
                             a': AttrDescriptor, b': AttrDescriptor)
    requires a.name == a'.name && b.name == b'.name
    ensures AttrCompare(a, b) == AttrCompare(a', b')
  {
  }

  lemma AttrCompareAntisymmetric(a: AttrDescriptor, b: AttrDescriptor)
    ensures AttrCompare(a, b) == -AttrCompare(b, a)
  {
    StrcmpAntisymmetric(a.name, b.name);
  }

  lemma AttrCompareTransitive(a: AttrDescriptor, b: AttrDescriptor, c: AttrDescriptor)
    requires AttrCompare(a, b) < 0 && AttrCompare(b, c) < 0
    ensures AttrCompare(a, c) < 0
  {
    if a.ComparePriority() == b.ComparePriority() == c.ComparePriority() {
      LexLessTransitive(a.name, b.name, c.name);
    }
  }

  /** Transitivity of "sorts no later than". */
  lemma AttrCompareTransitiveNonStrict(a: AttrDescriptor, b: AttrDescriptor, c: AttrDescriptor)
    requires AttrCompare(a, b) <= 0 && AttrCompare(b, c) <= 0
    ensures AttrCompare(a, c) <= 0
  {
    if AttrCompare(a, b) < 0 && AttrCompare(b, c) < 0 {
      AttrCompareTransitive(a, b, c);
    }
  }

  /** Two descriptors with different names are never tied. */
  lemma AttrCompareTotal(a: AttrDescriptor, b: AttrDescriptor)
    ensures a.name == b.name || AttrCompare(a, b) == -1 || AttrCompare(b, a) == -1
  {
    AttrCompareAntisymmetric(a, b);
  }

  // The priority table

  /** The well-known names in the order the table puts them. */
  const WellKnownOrder: seq<string> :=
    ["name", "deps", "src", "data", "resource", "resources", "out", "outs", "hdrs", "srcs"]

  /** Every listed name has its own weight, so the comparison of two listed
      names is settled by the table alone. */
  lemma ListedNamesOrderedByTable(a: AttrDescriptor, b: AttrDescriptor)
    requires a.name in AttrDescriptor.AttributeOrdering
    requires b.name in AttrDescriptor.AttributeOrdering
    requires a.name != b.name
    ensures a.ComparePriority() != b.ComparePriority()
    ensures AttrCompare(a, b) == (if a.ComparePriority() < b.ComparePriority() then -1 else 1)
  {
  }

  /** The table lists exactly the names of WellKnownOrder. */
  lemma WellKnownOrderIsTable()
    ensures forall n :: n in AttrDescriptor.AttributeOrdering <==> n in WellKnownOrder
  {
  }

  ghost predicate StrictlySorted(ds: seq<AttrDescriptor>)
    reads ds
  {
    forall i, j :: 0 <= i < j < |ds| ==> AttrCompare(ds[i], ds[j]) == -1
  }

  /** A sequence whose neighbours are in order is sorted throughout. */
  lemma {:induction false} NeighboursSorted(ds: seq<AttrDescriptor>)
    requires forall i :: 0 <= i < |ds| - 1 ==> AttrCompare(ds[i], ds[i + 1]) == -1
    ensures StrictlySorted(ds)
  {
    if |ds| > 1 {
      var rest := ds[1..];
      NeighboursSorted(rest);
      forall j | 1 < j < |ds|
        ensures AttrCompare(ds[0], ds[j]) == -1
      {
        assert rest[0] == ds[1] && rest[j - 1] == ds[j];
        AttrCompareTransitive(ds[0], ds[1], ds[j]);
      }
    }
  }

  /** The well-known names sort in the order name, deps, src, data,
      resource, resources, out, outs, hdrs, srcs, and all of them before any
      unlisted name. */
  lemma WellKnownNamesFirst(ds: seq<AttrDescriptor>)
    requires |ds| == |WellKnownOrder| + 1
    requires forall i :: 0 <= i < |WellKnownOrder| ==> ds[i].name == WellKnownOrder[i]
    requires ds[|WellKnownOrder|].name !in AttrDescriptor.AttributeOrdering
    ensures StrictlySorted(ds)
  {
    var weights := [-99, -98, -97, -95, -94, -93, -92, -91, -90, -86, 0];
    forall i | 0 <= i < |ds|
      ensures ds[i].ComparePriority() == weights[i]
    {
    }
    NeighboursSorted(ds);
  }

  /** Names outside the table sort by plain string order, so an unnamed
      descriptor comes first among them and `bar` comes before `foo`. */
  lemma UnlistedNamesLexicographic(a: AttrDescriptor, b: AttrDescriptor)
    requires a.name !in AttrDescriptor.AttributeOrdering
    requires b.name !in AttrDescriptor.AttributeOrdering
    ensures AttrCompare(a, b) == -1 <==> LexLess(a.name, b.name)
    ensures a.name == "" && b.name != "" ==> AttrCompare(a, b) == -1
    ensures a.name == "bar" && b.name == "foo" ==> AttrCompare(a, b) == -1
  {
  }

  /** The names of a sequence of descriptors, in order. */
  ghost function Names(ds: seq<AttrDescriptor>): (ns: seq<string>)
    reads ds
    ensures |ns| == |ds|
    ensures forall i :: 0 <= i < |ds| ==> ns[i] == ds[i].name
  {
    if ds == [] then [] else [ds[0].name] + Names(ds[1..])
  }

  lemma SortedTail(ds: seq<AttrDescriptor>)
    requires |ds| > 0 && StrictlySorted(ds)
    ensures StrictlySorted(ds[1..]) && Names(ds[1..]) == Names(ds)[1..]
  {
  }

  /** Two sorted arrangements of the same names start with the same name. */
  lemma SortedHeadsAgree(xs: seq<AttrDescriptor>, ys: seq<AttrDescriptor>)
    requires StrictlySorted(xs) && StrictlySorted(ys)
    requires multiset(Names(xs)) == multiset(Names(ys))
    requires |xs| > 0
    ensures |ys| > 0 && xs[0].name == ys[0].name
  {
    var nx, ny := Names(xs), Names(ys);
    assert nx[0] in multiset(ny);
    var k :| 0 <= k < |ny| && ny[k] == nx[0];
    assert ny[0] in multiset(nx);
    var m :| 0 <= m < |nx| && nx[m] == ny[0];
    if nx[0] != ny[0] {
      assert AttrCompare(ys[0], ys[k]) == -1;
      AttrCompareOnlyNames(ys[0], ys[k], xs[m], xs[0]);
      AttrCompareAntisymmetric(xs[0], xs[m]);
      assert false;
    }
  }

  /** Removing the same first element from two sequences with the same
      elements leaves two sequences with the same elements. */
  lemma SameElementsAfterHead(a: seq<string>, b: seq<string>)
    requires |a| > 0 && |b| > 0 && a[0] == b[0]
    requires multiset(a) == multiset(b)
    ensures multiset(a[1..]) == multiset(b[1..])
  {
    assert a == [a[0]] + a[1..] && b == [b[0]] + b[1..];
    assert multiset(a[1..]) == multiset(a) - multiset([a[0]]);
    assert multiset(b[1..]) == multiset(b) - multiset([b[0]]);
  }

  /** Sorting is deterministic: two sorted arrangements of the same names
      list those names in the same order, whatever algorithm produced them. */
  lemma {:induction false} SortedOrderIsUnique(xs: seq<AttrDescriptor>, ys: seq<AttrDescriptor>)
    requires StrictlySorted(xs) && StrictlySorted(ys)
    requires multiset(Names(xs)) == multiset(Names(ys))
    ensures Names(xs) == Names(ys)
  {
    var nx, ny := Names(xs), Names(ys);
    if |xs| == 0 {
      assert |multiset(ny)| == 0;
    } else {
      SortedHeadsAgree(xs, ys);
      SortedTail(xs);
      SortedTail(ys);
      SameElementsAfterHead(nx, ny);
      SortedOrderIsUnique(xs[1..], ys[1..]);
      assert nx == [nx[0]] + nx[1..] && ny == [ny[0]] + ny[1..];
    }
  }

  /** Among the names deps, name, srcs and foo, a descriptor that sorts
      before another has the smaller weight. */
  lemma ExampleWeights(a: AttrDescriptor, b: AttrDescriptor)
    requires a.name in {"deps", "name", "srcs", "foo"} && b.name in {"deps", "name", "srcs", "foo"}
    requires AttrCompare(a, b) == -1
    ensures a.ComparePriority() < b.ComparePriority()
  {
  }

  /** Among the names deps, name, srcs and foo, the weight gives the name. */
  lemma ExampleNameOfWeight(a: AttrDescriptor)
    requires a.name in {"deps", "name", "srcs", "foo"}
    ensures a.ComparePriority() in {-99, -98, -86, 0}
    ensures a.ComparePriority() == -99 ==> a.name == "name"
    ensures a.ComparePriority() == -98 ==> a.name == "deps"
    ensures a.ComparePriority() == -86 ==> a.name == "srcs"
    ensures a.ComparePriority() == 0 ==> a.name == "foo"
  {
  }

  lemma ExampleMembers(ns: seq<string>)
    requires multiset(ns) == multiset{"deps", "name", "srcs", "foo"}
    ensures |ns| == 4
    ensures forall i :: 0 <= i < |ns| ==> ns[i] in {"deps", "name", "srcs", "foo"}
  {
    assert |ns| == |multiset(ns)|;
    forall i | 0 <= i < |ns|
      ensures ns[i] in {"deps", "name", "srcs", "foo"}
    {
      assert ns[i] in multiset(ns);
    }
  }

  /** Sorted descriptors named deps, name, srcs and foo carry the weights
      -99, -98, -86 and 0 in that order. */
  lemma ExampleSortedWeights(output: seq<AttrDescriptor>)
    requires |output| == 4
    requires forall i :: 0 <= i < 4 ==> output[i].name in {"deps", "name", "srcs", "foo"}
    requires StrictlySorted(output)
    ensures output[0].ComparePriority() == -99 && output[1].ComparePriority() == -98
    ensures output[2].ComparePriority() == -86 && output[3].ComparePriority() == 0
  {
    ExampleWeights(output[0], output[1]);
    ExampleWeights(output[1], output[2]);
    ExampleWeights(output[2], output[3]);
    ExampleNameOfWeight(output[0]);
    ExampleNameOfWeight(output[1]);
    ExampleNameOfWeight(output[2]);
    ExampleNameOfWeight(output[3]);
  }

  /** Descriptors named name, deps, srcs, foo, in that order, are sorted. */
  lemma ExampleOrderIsSorted(ds: seq<AttrDescriptor>)
    requires |ds| == 4
    requires ds[0].name == "name" && ds[1].name == "deps"
    requires ds[2].name == "srcs" && ds[3].name == "foo"
    ensures StrictlySorted(ds)
  {
    NeighboursSorted(ds);
  }

  /** Sorting descriptors named deps, name, srcs, foo gives name, deps,
      srcs, foo: every sorted arrangement of those names is that one. */
  lemma SortedExample(output: seq<AttrDescriptor>)
    requires multiset(Names(output)) == multiset{"deps", "name", "srcs", "foo"}
    requires StrictlySorted(output)
    ensures Names(output) == ["name", "deps", "srcs", "foo"]
  {
    var ns := Names(output);
    ExampleMembers(ns);
    ExampleSortedWeights(output);
    ExampleNameOfWeight(output[0]);
    ExampleNameOfWeight(output[1]);
    ExampleNameOfWeight(output[2]);
    ExampleNameOfWeight(output[3]);
    assert ns[0] == "name" && ns[1] == "deps" && ns[2] == "srcs" && ns[3] == "foo";
  }
}
