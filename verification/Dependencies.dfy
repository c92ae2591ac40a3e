/** The packages a Dart application needs at run time: a walk over the dependency graph. */
module Dependencies {
  import opened Basics
  import opened Sorting

  type Name = Bytes

  datatype Package = Package(directDependencies: seq<Name>, dependencies: seq<Name>)

  // ---------------------------------------------------------------------
  // Reachability

  /** A chain of dependencies that starts at a direct dependency of the root and never comes back to it. */
  ghost predicate Chain(packages: map<Name, Package>, root: Name, chain: seq<Name>)
    requires root in packages
  {
    && chain != []
    && var last := chain[|chain| - 1];
    && last != root
    && if |chain| == 1 then last in packages[root].directDependencies
       else Needs(packages, chain[|chain| - 2], last) && Chain(packages, root, chain[..|chain| - 1])
  }

  predicate Needs(packages: map<Name, Package>, from: Name, to: Name) {
    from in packages && to in packages[from].dependencies
  }

  ghost predicate Reachable(packages: map<Name, Package>, root: Name, name: Name)
    requires root in packages
  {
    exists chain :: Chain(packages, root, chain) && chain[|chain| - 1] == name
  }

  lemma DirectAreReachable(packages: map<Name, Package>, root: Name)
    requires root in packages
    ensures forall name :: name in packages[root].directDependencies && name != root ==> Reachable(packages, root, name)
  {
    forall name | name in packages[root].directDependencies && name != root ensures Reachable(packages, root, name) {
      var chain := [name];
      assert Chain(packages, root, chain) && chain[|chain| - 1] == name;
    }
  }

  lemma StepIsReachable(packages: map<Name, Package>, root: Name, from: Name, name: Name)
    requires root in packages && Reachable(packages, root, from) && Needs(packages, from, name) && name != root
    ensures Reachable(packages, root, name)
  {
    var chain :| Chain(packages, root, chain) && chain[|chain| - 1] == from;
    var longer := chain + [name];
    assert longer[..|longer| - 1] == chain;
    assert Chain(packages, root, longer) && longer[|longer| - 1] == name;
  }

  /** `seen` together with what is queued contains everything one step away from `seen`. */
  ghost predicate ClosedUpTo(packages: map<Name, Package>, root: Name, seen: set<Name>, queue: seq<Name>)
    requires root in packages
  {
    && root in seen
    && (forall name :: name in packages[root].directDependencies ==> name in seen || name in queue)
    && (forall from, name :: from in seen && from != root && Needs(packages, from, name) ==>
          name in seen || name in queue)
  }

  lemma {:induction false} ClosedContainsChains(packages: map<Name, Package>, root: Name, seen: set<Name>,
                                                chain: seq<Name>)
    requires root in packages && ClosedUpTo(packages, root, seen, []) && Chain(packages, root, chain)
    ensures chain[|chain| - 1] in seen
    decreases |chain|
  {
    if |chain| > 1 {
      ClosedContainsChains(packages, root, seen, chain[..|chain| - 1]);
      assert chain[|chain| - 2] != root;
    }
  }

  // ---------------------------------------------------------------------
  // The order of names

  /** Byte-wise lexicographic order. */
  predicate NameLe(a: Name, b: Name) {
    a == [] || (b != [] && (a[0] < b[0] || (a[0] == b[0] && NameLe(a[1..], b[1..]))))
  }

  lemma {:induction false} NameLeTotal(a: Name, b: Name)
    ensures NameLe(a, b) || NameLe(b, a)
    ensures NameLe(a, b) && NameLe(b, a) ==> a == b
  {
    if a != [] && b != [] {
      NameLeTotal(a[1..], b[1..]);
      assert a == [a[0]] + a[1..] && b == [b[0]] + b[1..];
    }
  }

  lemma {:induction false} NameLeTransitive(a: Name, b: Name, c: Name)
    requires NameLe(a, b) && NameLe(b, c)
    ensures NameLe(a, c)
  {
    if a != [] && a[0] == b[0] == c[0] {
      NameLeTransitive(a[1..], b[1..], c[1..]);
    }
  }

  lemma NamesAreOrdered()
    ensures TotalOrder(NameLe)
  {
    forall a, b ensures (NameLe(a, b) || NameLe(b, a)) && (NameLe(a, b) && NameLe(b, a) ==> a == b) {
      NameLeTotal(a, b);
    }
    forall a, b, c | NameLe(a, b) && NameLe(b, c) ensures NameLe(a, c) {
      NameLeTransitive(a, b, c);
    }
  }

  // ---------------------------------------------------------------------
  // The walk

  /**
   Fails exactly when the root or something reachable is not in the graph; otherwise lists, sorted and
   without duplicates, exactly what is reachable.
   */
  method RuntimePackageNames(root: Name, packages: map<Name, Package>) returns (result: Option<seq<Name>>)
    ensures result.Some? <==> root in packages && forall name :: Reachable(packages, root, name) ==> name in packages
    ensures result.Some? ==>
              && Sorted(result.value, NameLe) && NoDuplicates(result.value)
              && forall name :: name in result.value <==> Reachable(packages, root, name)
  {
    if root !in packages {
      return None;
    }
    var seen: set<Name> := {root};
    var queue := packages[root].directDependencies;
    DirectAreReachable(packages, root);
    while |queue| > 0
      invariant ClosedUpTo(packages, root, seen, queue)
      invariant seen <= packages.Keys
      invariant forall name :: name in seen && name != root ==> Reachable(packages, root, name)
      invariant forall name :: name in queue && name != root ==> Reachable(packages, root, name)
      decreases packages.Keys - seen, |queue|
    {
      var name := queue[0];
      ghost var before := queue;
      queue := queue[1..];
      assert before == [name] + queue;
      if name in seen {
        continue;
      }
      if name !in packages {
        return None;
      }
      seen := seen + {name};
      FollowersAreReachable(packages, root, name);
      queue := queue + packages[name].dependencies;
    }
    assert queue == [];
    forall name | Reachable(packages, root, name) ensures name in seen && name != root {
      var chain :| Chain(packages, root, chain) && chain[|chain| - 1] == name;
      ClosedContainsChains(packages, root, seen, chain);
    }
    var names := SortedNames(seen - {root});
    return Some(names);
  }

  lemma FollowersAreReachable(packages: map<Name, Package>, root: Name, from: Name)
    requires root in packages && Reachable(packages, root, from) && from in packages
    ensures forall name :: name in packages[from].dependencies && name != root ==> Reachable(packages, root, name)
  {
    forall name | name in packages[from].dependencies && name != root ensures Reachable(packages, root, name) {
      StepIsReachable(packages, root, from, name);
    }
  }

  /** Collects the names in some order, then sorts them. */
  method SortedNames(names: set<Name>) returns (result: seq<Name>)
    ensures Sorted(result, NameLe) && NoDuplicates(result)
    ensures forall name :: name in result <==> name in names
  {
    result := [];
    var remaining := names;
    while remaining != {}
      invariant remaining <= names
      invariant NoDuplicates(result)
      invariant forall name :: name in result <==> name in names && name !in remaining
    {
      var name :| name in remaining;
      remaining := remaining - {name};
      result := result + [name];
    }
    NamesAreOrdered();
    SortSorts(result, NameLe);
    SortKeepsMembers(result, NameLe);
    result := Sort(result, NameLe);
  }
}
