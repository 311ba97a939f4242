/** Maxwell's demon of `SpinnerNode.maxwells_demon` in light.py and isolated.py, for one
    particle and for one lobe: a particle whose kinetic energy exceeds 0.05 is reflected to
    the right of the lobe centre, any other particle to the left. */
module Demon {
  import opened Geometry
  import opened Kinetics

  /** The energy above which a particle counts as hot. */
  const HOT_ENERGY: real := 0.05

  predicate IsHot(b: Body)
  {
    KineticEnergy(b) > HOT_ENERGY
  }

  /** The particle is on the side of the lobe centre `cx` that the demon assigns it. */
  predicate OnItsSide(b: Body, cx: real)
  {
    if IsHot(b) then b.x >= cx else b.x <= cx
  }

  /** The demon's rule for one particle: only `x` changes, and it keeps its distance from
      the lobe centre while moving to the particle's side. */
  function SortBody(b: Body, cx: real): (r: Body)
    ensures r == b.(x := r.x)
    ensures Abs(r.x - cx) == Abs(b.x - cx)
    ensures OnItsSide(r, cx)
  {
    if IsHot(b) then b.(x := cx + Abs(b.x - cx)) else b.(x := cx - Abs(b.x - cx))
  }

  /** A particle is left alone exactly when it is already on its side. */
  lemma SortFixes(b: Body, cx: real)
    ensures SortBody(b, cx) == b <==> OnItsSide(b, cx)
  {
    if OnItsSide(b, cx) {
      assert Abs(b.x - cx) == if IsHot(b) then b.x - cx else cx - b.x;
    }
  }

  /** Sorting a particle twice is sorting it once. */
  lemma SortIdempotent(b: Body, cx: real)
    ensures SortBody(SortBody(b, cx), cx) == SortBody(b, cx)
  {
    SortFixes(SortBody(b, cx), cx);
  }

  lemma SquareOfAbs(a: real)
    ensures Abs(a) * Abs(a) == a * a
  {
    if a < 0.0 {
      MulEq(Abs(a), -a, Abs(a));
      MulEq(Abs(a), -a, -a);
    }
  }

  /** The demon keeps the distance from the lobe centre, so a particle inside its lobe
      stays inside. */
  lemma SortKeepsInside(b: Body, c: Vec, lobeRadius: real)
    ensures SqDist(Position(SortBody(b, c.x)), c) == SqDist(Position(b), c)
    ensures Inside(b, c, lobeRadius) ==> Inside(SortBody(b, c.x), c, lobeRadius)
  {
    var r := SortBody(b, c.x);
    SquareOfAbs(r.x - c.x);
    SquareOfAbs(b.x - c.x);
  }

  /** The inner loop of `maxwells_demon`: every particle of one lobe sorted against the
      lobe centre's `x`. Afterwards every particle of the lobe is on its side, and a lobe
      is left unchanged exactly when it was already sorted. */
  function SortLobe(bodies: seq<Body>, cx: real): (r: seq<Body>)
    ensures |r| == |bodies|
    ensures forall k :: 0 <= k < |r| ==> r[k] == SortBody(bodies[k], cx)
    ensures LobeSorted(r, cx)
    ensures r == bodies <==> LobeSorted(bodies, cx)
  {
    var r := seq(|bodies|, k requires 0 <= k < |bodies| => SortBody(bodies[k], cx));
    assert forall k | 0 <= k < |bodies| :: r[k] == bodies[k] <==> OnItsSide(bodies[k], cx) by {
      forall k | 0 <= k < |bodies|
        ensures r[k] == bodies[k] <==> OnItsSide(bodies[k], cx)
      {
        SortFixes(bodies[k], cx);
      }
    }
    r
  }

  predicate LobeSorted(bodies: seq<Body>, cx: real)
  {
    forall k :: 0 <= k < |bodies| ==> OnItsSide(bodies[k], cx)
  }
}
