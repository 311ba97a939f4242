/** `SpinnerNode.maxwells_demon` over the whole tree: every particle of every lobe of this
    node is sorted against its lobe centre, and then every child is sorted in turn. */
module TreeDemon {
  import opened Geometry
  import opened Kinetics
  import opened Demon
  import opened SpinnerTree

  /** `maxwells_demon()` on the tree in state `s`. */
  function DemonTree(s: Spinner, polar: real -> Vec): Spinner
    decreases s
  {
    s.(lobes := seq(|s.lobes|, i requires 0 <= i < |s.lobes| =>
         Lobe(SortLobe(s.lobes[i].bodies, CenterOf(s, i, polar).x),
              seq(|s.lobes[i].children|, j requires 0 <= j < |s.lobes[i].children| =>
                  DemonTree(s.lobes[i].children[j], polar)))))
  }

  /** The demon run on each of a lobe's children in turn: every child ends sorted, with
      its particle count and its total energy kept. */
  function DemonAll(kids: seq<Spinner>, polar: real -> Vec): (r: seq<Spinner>)
    ensures |r| == |kids|
    ensures forall j | 0 <= j < |kids| :: r[j] == DemonTree(kids[j], polar)
    ensures forall j | 0 <= j < |kids| ::
              && Sorted(r[j], polar)
              && Count(r[j]) == Count(kids[j])
              && TotalEnergy(r[j]) == TotalEnergy(kids[j])
  {
    var r := seq(|kids|, j requires 0 <= j < |kids| => DemonTree(kids[j], polar));
    assert forall j | 0 <= j < |kids| ::
             && Sorted(r[j], polar)
             && Count(r[j]) == Count(kids[j])
             && TotalEnergy(r[j]) == TotalEnergy(kids[j]) by {
      forall j | 0 <= j < |kids|
        ensures Sorted(r[j], polar)
        ensures Count(r[j]) == Count(kids[j]) && TotalEnergy(r[j]) == TotalEnergy(kids[j])
      {
        DemonSorts(kids[j], polar);
        DemonKeeps(kids[j], 0, polar);
      }
    }
    r
  }

  /** What the demon leaves in each lobe of a node. */
  lemma DemonLobes(s: Spinner, polar: real -> Vec)
    ensures var r := DemonTree(s, polar);
            && r.(lobes := s.lobes) == s
            && |r.lobes| == |s.lobes|
            && (forall i | 0 <= i < |s.lobes| ::
                  r.lobes[i].bodies == SortLobe(s.lobes[i].bodies, CenterOf(s, i, polar).x)
                  && |r.lobes[i].children| == |s.lobes[i].children|)
            && (forall i, j | 0 <= i < |s.lobes| && 0 <= j < |s.lobes[i].children| ::
                  r.lobes[i].children[j] == DemonTree(s.lobes[i].children[j], polar))
  {
  }

  /** Every particle of the tree is on its side of its lobe centre. */
  ghost predicate Sorted(s: Spinner, polar: real -> Vec)
    decreases s
  {
    && (forall i | 0 <= i < |s.lobes| :: LobeSorted(s.lobes[i].bodies, CenterOf(s, i, polar).x))
    && (forall i, j | 0 <= i < |s.lobes| && 0 <= j < |s.lobes[i].children| ::
          Sorted(s.lobes[i].children[j], polar))
  }

  /** The same number of lobes, particles per lobe and children per lobe, all the way down. */
  ghost predicate Congruent(s: Spinner, t: Spinner)
    decreases s
  {
    && |t.lobes| == |s.lobes|
    && (forall i | 0 <= i < |s.lobes| ::
          |t.lobes[i].bodies| == |s.lobes[i].bodies|
          && |t.lobes[i].children| == |s.lobes[i].children|)
    && (forall i, j | 0 <= i < |s.lobes| && 0 <= j < |s.lobes[i].children| ::
          Congruent(s.lobes[i].children[j], t.lobes[i].children[j]))
  }

  /** `t` is `s` with at most the `x` of some particles changed, all the way down. */
  ghost predicate Resorted(s: Spinner, t: Spinner)
    decreases s
  {
    && t.(lobes := s.lobes) == s
    && |t.lobes| == |s.lobes|
    && (forall i | 0 <= i < |s.lobes| ::
          |t.lobes[i].bodies| == |s.lobes[i].bodies|
          && |t.lobes[i].children| == |s.lobes[i].children|)
    && (forall i, k | 0 <= i < |s.lobes| && 0 <= k < |s.lobes[i].bodies| ::
          t.lobes[i].bodies[k] == s.lobes[i].bodies[k].(x := t.lobes[i].bodies[k].x))
    && (forall i, j | 0 <= i < |s.lobes| && 0 <= j < |s.lobes[i].children| ::
          Resorted(s.lobes[i].children[j], t.lobes[i].children[j]))
  }

  // The demon sorts, and sorts only once.

  /** After the demon the whole tree is sorted; the demon leaves a tree alone exactly when
      it is already sorted. */
  lemma {:induction false} DemonSorts(s: Spinner, polar: real -> Vec)
    ensures Sorted(DemonTree(s, polar), polar)
    ensures DemonTree(s, polar) == s <==> Sorted(s, polar)
    decreases s
  {
    var r := DemonTree(s, polar);
    forall i | 0 <= i < |s.lobes|
      ensures LobeSorted(r.lobes[i].bodies, CenterOf(r, i, polar).x)
      ensures r.lobes[i].bodies == s.lobes[i].bodies
              <==> LobeSorted(s.lobes[i].bodies, CenterOf(s, i, polar).x)
    {
    }
    forall i, j | 0 <= i < |s.lobes| && 0 <= j < |s.lobes[i].children|
      ensures Sorted(r.lobes[i].children[j], polar)
      ensures r.lobes[i].children[j] == s.lobes[i].children[j]
              <==> Sorted(s.lobes[i].children[j], polar)
    {
      DemonSorts(s.lobes[i].children[j], polar);
    }
    if Sorted(s, polar) {
      forall i | 0 <= i < |s.lobes|
        ensures r.lobes[i] == s.lobes[i]
      {
        assert r.lobes[i].children == s.lobes[i].children;
      }
      assert r.lobes == s.lobes;
    }
    if r == s {
      forall i | 0 <= i < |s.lobes|
        ensures LobeSorted(s.lobes[i].bodies, CenterOf(s, i, polar).x)
      {
        assert r.lobes[i] == s.lobes[i];
      }
    }
  }

  /** Sorting twice, as the recursive sorts of `update` do, is sorting once. */
  lemma DemonIdempotent(s: Spinner, polar: real -> Vec)
    ensures DemonTree(DemonTree(s, polar), polar) == DemonTree(s, polar)
  {
    DemonSorts(s, polar);
    DemonSorts(DemonTree(s, polar), polar);
  }

  /** The demon changes nothing but the `x` of particles. */
  lemma {:induction false} DemonResorts(s: Spinner, polar: real -> Vec)
    ensures Resorted(s, DemonTree(s, polar))
    decreases s
  {
    var r := DemonTree(s, polar);
    forall i, j | 0 <= i < |s.lobes| && 0 <= j < |s.lobes[i].children|
      ensures Resorted(s.lobes[i].children[j], r.lobes[i].children[j])
    {
      DemonResorts(s.lobes[i].children[j], polar);
    }
  }

  /** The demon keeps every particle's distance from its lobe centre, so it keeps every
      particle inside its lobe. */
  lemma {:induction false} DemonKeepsInside(s: Spinner, polar: real -> Vec)
    requires InsideTree(s, polar)
    ensures InsideTree(DemonTree(s, polar), polar)
    decreases s
  {
    var r := DemonTree(s, polar);
    forall i, k | 0 <= i < |s.lobes| && 0 <= k < |s.lobes[i].bodies|
      ensures Inside(r.lobes[i].bodies[k], CenterOf(r, i, polar), r.lobeRadius)
    {
      SortKeepsInside(s.lobes[i].bodies[k], CenterOf(s, i, polar), s.lobeRadius);
    }
    forall i, j | 0 <= i < |s.lobes| && 0 <= j < |s.lobes[i].children|
      ensures InsideTree(r.lobes[i].children[j], polar)
    {
      DemonKeepsInside(s.lobes[i].children[j], polar);
    }
  }

  // What a change of particles' x alone keeps.

  lemma {:induction false} ResortedIsCongruent(s: Spinner, t: Spinner)
    requires Resorted(s, t)
    ensures Congruent(s, t)
    decreases s
  {
    forall i, j | 0 <= i < |s.lobes| && 0 <= j < |s.lobes[i].children|
      ensures Congruent(s.lobes[i].children[j], t.lobes[i].children[j])
    {
      ResortedIsCongruent(s.lobes[i].children[j], t.lobes[i].children[j]);
    }
  }

  /** Moving particles only along x keeps the tree's shape, populations, fit and anchors. */
  lemma {:induction false} ResortedKeeps(s: Spinner, t: Spinner, n: nat, polar: real -> Vec)
    requires Resorted(s, t)
    ensures Shaped(s) ==> Shaped(t)
    ensures Populated(s, n) ==> Populated(t, n)
    ensures Fits(s) ==> Fits(t)
    ensures Anchored(s, polar) ==> Anchored(t, polar)
    decreases s
  {
    forall i, j | 0 <= i < |s.lobes| && 0 <= j < |s.lobes[i].children|
      ensures Shaped(s.lobes[i].children[j]) ==> Shaped(t.lobes[i].children[j])
      ensures Populated(s.lobes[i].children[j], n) ==> Populated(t.lobes[i].children[j], n)
      ensures Fits(s.lobes[i].children[j]) ==> Fits(t.lobes[i].children[j])
      ensures Anchored(s.lobes[i].children[j], polar) ==> Anchored(t.lobes[i].children[j], polar)
      ensures t.lobes[i].children[j].(lobes := s.lobes[i].children[j].lobes)
              == s.lobes[i].children[j]
    {
      ResortedKeeps(s.lobes[i].children[j], t.lobes[i].children[j], n, polar);
    }
    if Fits(s) {
      forall i, k | 0 <= i < |t.lobes| && 0 <= k < |t.lobes[i].bodies|
        ensures t.lobes[i].bodies[k].radius < t.lobeRadius
      {
        assert t.lobes[i].bodies[k].radius == s.lobes[i].bodies[k].radius;
      }
    }
  }

  /** Own counts only look at the lengths of the lobes' particle lists. */
  lemma {:induction false} OwnCongruent(a: seq<Lobe>, b: seq<Lobe>, n: nat)
    requires n <= |a| == |b|
    requires forall i | 0 <= i < |a| :: |b[i].bodies| == |a[i].bodies|
    ensures Own(a, n) == Own(b, n)
  {
    if n > 0 {
      OwnCongruent(a, b, n - 1);
    }
  }

  /** `total_particles()` only depends on the tree's shape. */
  lemma {:induction false} CountCongruent(s: Spinner, t: Spinner)
    requires Congruent(s, t)
    ensures Count(s) == Count(t)
    decreases s, 1
  {
    OwnCongruent(s.lobes, t.lobes, |s.lobes|);
    FamilyCongruent(s, t, |s.lobes|);
  }

  lemma {:induction false} FamilyCongruent(s: Spinner, t: Spinner, n: nat)
    requires Congruent(s, t) && n <= |s.lobes|
    ensures Family(s.lobes, n) == Family(t.lobes, n)
    decreases s, 0, n
  {
    if n > 0 {
      FamilyCongruent(s, t, n - 1);
      RowCongruent(s, t, n - 1, |s.lobes[n - 1].children|);
    }
  }

  lemma {:induction false} RowCongruent(s: Spinner, t: Spinner, i: nat, m: nat)
    requires Congruent(s, t) && i < |s.lobes| && m <= |s.lobes[i].children|
    ensures Row(s.lobes[i], m) == Row(t.lobes[i], m)
    decreases s.lobes[i], m
  {
    if m > 0 {
      RowCongruent(s, t, i, m - 1);
      CountCongruent(s.lobes[i].children[m - 1], t.lobes[i].children[m - 1]);
    }
  }

  lemma {:induction false} BodiesEnergyResorted(a: seq<Body>, b: seq<Body>)
    requires |a| == |b|
    requires forall k | 0 <= k < |a| :: b[k] == a[k].(x := b[k].x)
    ensures BodiesEnergy(a) == BodiesEnergy(b)
  {
    if |a| > 0 {
      BodiesEnergyResorted(a[..|a| - 1], b[..|b| - 1]);
    }
  }

  lemma {:induction false} OwnEnergyResorted(s: Spinner, t: Spinner, n: nat)
    requires Resorted(s, t) && n <= |s.lobes|
    ensures OwnEnergy(s.lobes, n) == OwnEnergy(t.lobes, n)
  {
    if n > 0 {
      OwnEnergyResorted(s, t, n - 1);
      BodiesEnergyResorted(s.lobes[n - 1].bodies, t.lobes[n - 1].bodies);
    }
  }

  /** `total_energy()` does not depend on the particles' x. */
  lemma {:induction false} TotalEnergyResorted(s: Spinner, t: Spinner)
    requires Resorted(s, t)
    ensures TotalEnergy(s) == TotalEnergy(t)
    decreases s, 1
  {
    OwnEnergyResorted(s, t, |s.lobes|);
    FamilyEnergyResorted(s, t, |s.lobes|);
  }

  lemma {:induction false} FamilyEnergyResorted(s: Spinner, t: Spinner, n: nat)
    requires Resorted(s, t) && n <= |s.lobes|
    ensures FamilyEnergy(s.lobes, n) == FamilyEnergy(t.lobes, n)
    decreases s, 0, n
  {
    if n > 0 {
      FamilyEnergyResorted(s, t, n - 1);
      RowEnergyResorted(s, t, n - 1, |s.lobes[n - 1].children|);
    }
  }

  lemma {:induction false} RowEnergyResorted(s: Spinner, t: Spinner, i: nat, m: nat)
    requires Resorted(s, t) && i < |s.lobes| && m <= |s.lobes[i].children|
    ensures RowEnergy(s.lobes[i], m) == RowEnergy(t.lobes[i], m)
    decreases s.lobes[i], m
  {
    if m > 0 {
      RowEnergyResorted(s, t, i, m - 1);
      TotalEnergyResorted(s.lobes[i].children[m - 1], t.lobes[i].children[m - 1]);
    }
  }

  /** The demon keeps the particle count and the total energy, as well as the tree's shape,
      populations, fit and anchors. */
  lemma DemonKeeps(s: Spinner, n: nat, polar: real -> Vec)
    ensures Count(DemonTree(s, polar)) == Count(s)
    ensures TotalEnergy(DemonTree(s, polar)) == TotalEnergy(s)
    ensures Shaped(s) ==> Shaped(DemonTree(s, polar))
    ensures Populated(s, n) ==> Populated(DemonTree(s, polar), n)
    ensures Fits(s) ==> Fits(DemonTree(s, polar))
    ensures Anchored(s, polar) ==> Anchored(DemonTree(s, polar), polar)
  {
    var r := DemonTree(s, polar);
    DemonResorts(s, polar);
    ResortedIsCongruent(s, r);
    CountCongruent(s, r);
    TotalEnergyResorted(s, r);
    ResortedKeeps(s, r, n, polar);
  }
}
