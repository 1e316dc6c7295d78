/** Which energy domains may be metered together: no domain twice, none inside another, no CPU twice.
    CPU numbers are only ever compared, so their type is a parameter. */
module Topology {
  import opened Types

  /** The `k`-th ancestor of a domain, if the parent map leads that far. */
  function Up(parents: map<Id, Id>, d: Id, k: nat): Option<Id> {
    if k == 0 then Some(d)
    else
      match Up(parents, d, k - 1)
      case None => None
      case Some(a) => if a in parents then Some(parents[a]) else None
  }

  /** Some proper ancestor of `d` is selected. */
  ghost predicate Inside(parents: map<Id, Id>, d: Id, selected: seq<Id>) {
    exists k :: k >= 1 && Up(parents, d, k).Some? && Up(parents, d, k).value in selected
  }

  function CpusOf<C>(cpus: map<Id, set<C>>, d: Id): set<C> {
    if d in cpus then cpus[d] else {}
  }

  ghost predicate Distinct(selected: seq<Id>) {
    forall i, j :: 0 <= i < j < |selected| ==> selected[i] != selected[j]
  }

  ghost predicate Nested(selected: seq<Id>, parents: map<Id, Id>) {
    exists i :: 0 <= i < |selected| && Inside(parents, selected[i], selected)
  }

  ghost predicate Disjoint<C>(selected: seq<Id>, cpus: map<Id, set<C>>) {
    forall i, j :: 0 <= i < j < |selected| ==> CpusOf(cpus, selected[i]) !! CpusOf(cpus, selected[j])
  }

  /** The ancestors `1..n` of `d` are exactly `seen`. */
  ghost predicate Climbed(parents: map<Id, Id>, d: Id, n: nat, seen: set<Id>) {
    && (forall k :: 1 <= k <= n ==> Up(parents, d, k).Some? && Up(parents, d, k).value in seen)
    && (forall a :: a in seen ==> exists k :: 1 <= k <= n && Up(parents, d, k) == Some(a))
  }

  /** Once the climb meets an ancestor again, it never leaves the ones already seen. */
  lemma {:induction false} CycleCloses(parents: map<Id, Id>, d: Id, n: nat, seen: set<Id>, k: nat)
    requires Climbed(parents, d, n, seen) && k >= 1
    requires Up(parents, d, n + 1).Some? && Up(parents, d, n + 1).value in seen
    ensures Up(parents, d, k).Some? && Up(parents, d, k).value in seen
  {
    if k > n + 1 {
      CycleCloses(parents, d, n, seen, k - 1);
      var a := Up(parents, d, k - 1).value;
      var j :| 1 <= j <= n && Up(parents, d, j) == Some(a);
      assert Up(parents, d, j + 1) == Up(parents, d, k);
      if j + 1 <= n {
        assert Up(parents, d, j + 1).value in seen;
      }
    }
  }

  lemma {:induction false} NothingAbove(parents: map<Id, Id>, d: Id, n: nat, k: nat)
    requires Up(parents, d, n).None? && n <= k
    ensures Up(parents, d, k).None?
  {
    if n < k {
      NothingAbove(parents, d, n, k - 1);
    }
  }

  /** Climbs from one domain until a selected ancestor, the top, or an ancestor seen before; the climb ends
      on cyclic parent maps too, because it only ever visits each parent once. */
  method SelectedAbove(d: Id, selected: seq<Id>, parents: map<Id, Id>) returns (found: bool)
    ensures found <==> Inside(parents, d, selected)
  {
    var seen: set<Id> := {};
    var anc := if d in parents then Some(parents[d]) else None;
    ghost var n: nat := 0;
    assert Up(parents, d, 0) == Some(d);
    while anc.Some? && anc.value !in seen
      invariant anc == Up(parents, d, n + 1)
      invariant Climbed(parents, d, n, seen)
      invariant forall a :: a in seen ==> a !in selected
      invariant seen <= parents.Values
      invariant anc.Some? ==> anc.value in parents.Values
      decreases |parents.Values - seen|
    {
      if anc.value in selected {
        assert Inside(parents, d, selected);
        return true;
      }
      ClimbOn(parents, d, n, seen, anc.value);
      hide Climbed, Inside;
      ghost var before := parents.Values - seen;
      seen := seen + {anc.value};
      assert parents.Values - seen == before - {anc.value};
      n := n + 1;
      anc := if anc.value in parents then Some(parents[anc.value]) else None;
    }
    NeverInside(parents, d, n, seen, selected);
    found := false;
  }

  lemma NeverInside(parents: map<Id, Id>, d: Id, n: nat, seen: set<Id>, selected: seq<Id>)
    requires Climbed(parents, d, n, seen) && forall a :: a in seen ==> a !in selected
    requires var anc := Up(parents, d, n + 1); anc.None? || anc.value in seen
    ensures !Inside(parents, d, selected)
  {
    forall k | k >= 1 && Up(parents, d, k).Some? ensures Up(parents, d, k).value !in selected {
      if Up(parents, d, n + 1).Some? {
        CycleCloses(parents, d, n, seen, k);
      } else if k > n {
        NothingAbove(parents, d, n + 1, k);
      }
    }
  }

  lemma ClimbOn(parents: map<Id, Id>, d: Id, n: nat, seen: set<Id>, a: Id)
    requires Climbed(parents, d, n, seen) && Up(parents, d, n + 1) == Some(a)
    ensures Climbed(parents, d, n + 1, seen + {a})
  {
    forall b | b in seen + {a} ensures exists k :: 1 <= k <= n + 1 && Up(parents, d, k) == Some(b) {
      if b in seen {
        var k :| 1 <= k <= n && Up(parents, d, k) == Some(b);
      }
    }
  }

  /** `check_topology`: accepts exactly when the ids are distinct, no selected domain lies inside a selected
      one, and, where CPU sets are given, no CPU belongs to two of the domains. */
  method CheckTopology<C(==)>(selected: seq<Id>, parents: map<Id, Id>, cpus: Option<map<Id, set<C>>>) returns (ok: bool)
    ensures ok <==> Distinct(selected) && !Nested(selected, parents) && (cpus.Some? ==> Disjoint(selected, cpus.value))
  {
    var sel: set<Id> := {};
    for i := 0 to |selected|
      invariant sel == set k | 0 <= k < i :: selected[k]
      invariant Distinct(selected[..i])
    {
      if selected[i] in sel {
        return false;
      }
      sel := sel + {selected[i]};
    }
    assert selected[..|selected|] == selected;
    for i := 0 to |selected|
      invariant forall k :: 0 <= k < i ==> !Inside(parents, selected[k], selected)
    {
      var found := SelectedAbove(selected[i], selected, parents);
      if found {
        return false;
      }
    }
    if cpus == None {
      return true;
    }
    ok := CheckCpus(selected, cpus.value);
  }

  /** The CPUs of the first `i` domains. */
  ghost function Covered<C>(selected: seq<Id>, cpus: map<Id, set<C>>, i: nat): set<C>
    requires i <= |selected|
  {
    set k, c | 0 <= k < i && c in CpusOf(cpus, selected[k]) :: c
  }

  lemma CoveredGrows<C>(selected: seq<Id>, cpus: map<Id, set<C>>, i: nat)
    requires i < |selected|
    ensures Covered(selected, cpus, i + 1) == Covered(selected, cpus, i) + CpusOf(cpus, selected[i])
  {
    forall c ensures c in Covered(selected, cpus, i + 1)
                     <==> c in Covered(selected, cpus, i) || c in CpusOf(cpus, selected[i]) {
    }
  }

  /** The next domain keeps the sets disjoint exactly when none of its CPUs is covered yet. */
  lemma CoveredNext<C>(selected: seq<Id>, cpus: map<Id, set<C>>, i: nat)
    requires i < |selected|
    ensures Disjoint(selected[..i + 1], cpus)
            <==> Disjoint(selected[..i], cpus) && CpusOf(cpus, selected[i]) !! Covered(selected, cpus, i)
    ensures Disjoint(selected, cpus) ==> Disjoint(selected[..i + 1], cpus)
  {
    var mine := CpusOf(cpus, selected[i]);
    hide CpusOf;
    if Disjoint(selected[..i], cpus) && mine !! Covered(selected, cpus, i) {
      forall j | 0 <= j < i ensures CpusOf(cpus, selected[j]) !! mine {
        assert forall c :: c in CpusOf(cpus, selected[j]) ==> c in Covered(selected, cpus, i);
      }
    }
    if Disjoint(selected[..i + 1], cpus) {
      forall j | 0 <= j < i ensures CpusOf(cpus, selected[j]) !! mine {
        assert selected[..i + 1][j] == selected[j] && selected[..i + 1][i] == selected[i];
      }
      assert forall j :: 0 <= j < i ==> selected[..i][j] == selected[..i + 1][j];
    }
  }

  /** Adds CPUs one by one until one is already covered. */
  method CoverAll<C(==)>(mine: set<C>, before: set<C>) returns (ok: bool, covered: set<C>)
    ensures ok <==> mine !! before
    ensures ok ==> covered == before + mine
  {
    covered := before;
    var todo := mine;
    while todo != {}
      invariant todo <= mine && mine - todo !! before
      invariant covered == before + (mine - todo)
      decreases |todo|
    {
      var c :| c in todo;
      if c in covered {
        assert c in mine && c in before;
        return false, covered;
      }
      covered := covered + {c};
      todo := todo - {c};
    }
    ok := true;
  }

  method CheckCpus<C(==)>(selected: seq<Id>, cpus: map<Id, set<C>>) returns (ok: bool)
    ensures ok <==> Disjoint(selected, cpus)
  {
    var covered: set<C> := {};
    for i := 0 to |selected|
      invariant covered == Covered(selected, cpus, i)
      invariant Disjoint(selected[..i], cpus)
    {
      CoveredGrows(selected, cpus, i);
      CoveredNext(selected, cpus, i);
      hide Covered, Disjoint, CpusOf;
      ok, covered := CoverAll(CpusOf(cpus, selected[i]), covered);
      if !ok {
        return;
      }
    }
    assert selected[..|selected|] == selected;
    ok := true;
  }
}
