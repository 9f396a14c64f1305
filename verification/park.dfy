/** Placement of the park's trees and benches. Fifteen trees land at random
    points of a 40 x 40 square around the origin, except that a tree falling
    in the central 10 x 10 square, where the tank starts, is pushed outward;
    five benches land in a 30 x 30 square with a random heading. Only the
    placement is modelled: each element is its position (and heading). */
module Park {
  import opened Vectors
  import opened Randomness

  datatype Element = Tree(position: Vec3) | Bench(position: Vec3, rotationY: real)

  const TreeCount: nat := 15
  const BenchCount: nat := 5

  /** JavaScript's `Math.PI`, the double nearest to pi. */
  const Pi: real := 3.141592653589793

  function Abs(v: real): real
  {
    if v < 0.0 then -v else v
  }

  /** The open square |x| < 5, |z| < 5 kept clear for the tank. */
  predicate InCentre(p: Vec3)
  {
    Abs(p.x) < 5.0 && Abs(p.z) < 5.0
  }

  /** Moves one coordinate 5 further from zero, a zero coordinate to -5. */
  function PushOut(c: real): (r: real)
    ensures Abs(r) == Abs(c) + 5.0
    ensures c > 0.0 ==> r > 0.0
    ensures c <= 0.0 ==> r < 0.0
  {
    c + (if c > 0.0 then 5.0 else -5.0)
  }

  /** The centre-avoidance rule: a point in the central square has both
      coordinates pushed out; any other point stays where it is. */
  function AvoidCentre(p: Vec3): (r: Vec3)
    ensures !InCentre(r)
    ensures r.y == p.y
    ensures !InCentre(p) ==> r == p
    ensures InCentre(p) ==> 5.0 <= Abs(r.x) < 10.0 && 5.0 <= Abs(r.z) < 10.0
  {
    if InCentre(p) then p.(x := PushOut(p.x), z := PushOut(p.z)) else p
  }

  /** Where a tree lands before the avoidance rule, from two draws. */
  function RawTreePosition(rx: real, rz: real): (p: Vec3)
    ensures p.y == 0.0
    ensures 0.0 <= rx < 1.0 && 0.0 <= rz < 1.0 ==> -20.0 <= p.x < 20.0 && -20.0 <= p.z < 20.0
  {
    Vec3((rx - 0.5) * 40.0, 0.0, (rz - 0.5) * 40.0)
  }

  /** Where a tree ends up, from two draws: on the ground, never in the
      central square, and inside the park for draws in [0, 1). */
  function TreePosition(rx: real, rz: real): (p: Vec3)
    ensures p.y == 0.0 && !InCentre(p)
    ensures 0.0 <= rx < 1.0 && 0.0 <= rz < 1.0 ==>
              -20.0 <= p.x < 20.0 && -20.0 <= p.z < 20.0
  {
    AvoidCentre(RawTreePosition(rx, rz))
  }

  /** A bench from three draws: on the ground, inside the 30 x 30 square and
      turned by an angle in [0, 2 pi) for draws in [0, 1). */
  function BenchAt(rx: real, rz: real, rr: real): (b: Element)
    ensures b.Bench? && b.position.y == 0.0
    ensures 0.0 <= rx < 1.0 && 0.0 <= rz < 1.0 ==>
              -15.0 <= b.position.x < 15.0 && -15.0 <= b.position.z < 15.0
    ensures 0.0 <= rr < 1.0 ==> 0.0 <= b.rotationY < 2.0 * Pi
  {
    Bench(Vec3((rx - 0.5) * 30.0, 0.0, (rz - 0.5) * 30.0), rr * Pi * 2.0)
  }

  /** The trees createTrees adds: tree i takes draws 2i (x) and 2i+1 (z). */
  function Trees(rand: nat -> real): (ts: seq<Element>)
    ensures |ts| == TreeCount
    ensures forall i :: 0 <= i < |ts| ==> ts[i].Tree? && ts[i].position.y == 0.0 && !InCentre(ts[i].position)
  {
    var ts := seq(TreeCount, (i: nat) requires i < TreeCount => Tree(TreePosition(rand(2 * i), rand(2 * i + 1))));
    assert forall i :: 0 <= i < |ts| ==> ts[i] == Tree(TreePosition(rand(2 * i), rand(2 * i + 1)));
    ts
  }

  /** The benches createBenches adds: bench i takes draws 3i, 3i+1, 3i+2. */
  function Benches(rand: nat -> real): (bs: seq<Element>)
    ensures |bs| == BenchCount
    ensures forall i :: 0 <= i < |bs| ==> bs[i].Bench? && bs[i].position.y == 0.0
  {
    var bs := seq(BenchCount, (i: nat) requires i < BenchCount => BenchAt(rand(3 * i), rand(3 * i + 1), rand(3 * i + 2)));
    assert forall i :: 0 <= i < |bs| ==> bs[i] == BenchAt(rand(3 * i), rand(3 * i + 1), rand(3 * i + 2));
    bs
  }

  /** For draws in [0, 1), every tree lies inside the 40 x 40 park and every
      bench inside the 30 x 30 square, turned by less than a full circle. */
  lemma LayoutInBounds(rand: nat -> real)
    requires UnitDraws(rand)
    ensures forall t :: t in Trees(rand) ==> -20.0 <= t.position.x < 20.0 && -20.0 <= t.position.z < 20.0
    ensures forall b :: b in Benches(rand) ==>
              -15.0 <= b.position.x < 15.0 && -15.0 <= b.position.z < 15.0 && 0.0 <= b.rotationY < 2.0 * Pi
  {
    var ts, bs := Trees(rand), Benches(rand);
    forall t | t in ts
      ensures -20.0 <= t.position.x < 20.0 && -20.0 <= t.position.z < 20.0
    {
      var i :| 0 <= i < |ts| && ts[i] == t;
      assert 0.0 <= rand(2 * i) < 1.0 && 0.0 <= rand(2 * i + 1) < 1.0;
    }
    forall b | b in bs
      ensures -15.0 <= b.position.x < 15.0 && -15.0 <= b.position.z < 15.0 && 0.0 <= b.rotationY < 2.0 * Pi
    {
      var i :| 0 <= i < |bs| && bs[i] == b;
      assert 0.0 <= rand(3 * i) < 1.0 && 0.0 <= rand(3 * i + 1) < 1.0 && 0.0 <= rand(3 * i + 2) < 1.0;
    }
  }

  /** The group the constructor builds stays in bounds as well: every element
      is on the ground inside the 40 x 40 park, and every bench, placed from
      the draws the trees left over, is inside the 30 x 30 square with a
      heading below a full circle. */
  lemma GroupInBounds(rand: nat -> real)
    requires UnitDraws(rand)
    ensures var group := Trees(rand) + Benches(Shifted(rand, 2 * TreeCount));
      && |group| == TreeCount + BenchCount
      && (forall e :: e in group ==>
            e.position.y == 0.0 && -20.0 <= e.position.x < 20.0 && -20.0 <= e.position.z < 20.0)
      && (forall e :: e in group && e.Bench? ==>
            -15.0 <= e.position.x < 15.0 && -15.0 <= e.position.z < 15.0 && 0.0 <= e.rotationY < 2.0 * Pi)
  {
    var rest := Shifted(rand, 2 * TreeCount);
    LayoutInBounds(rand);
    ShiftedDraws(rand, 2 * TreeCount);
    LayoutInBounds(rest);
  }

  /** The group of park elements that the constructor fills. */
  class ParkElements {
    var elementsGroup: seq<Element>

    /** Trees first, from the start of the stream, then benches from the draws
        the trees left over. */
    constructor (rand: nat -> real)
      ensures elementsGroup == Trees(rand) + Benches(Shifted(rand, 2 * TreeCount))
    {
      elementsGroup := [];
      new;
      CreateTrees(rand);
      CreateBenches(Shifted(rand, 2 * TreeCount));
    }

    /** Adds fifteen trees, each moved out of the central square if it lands there. */
    method CreateTrees(rand: nat -> real)
      modifies this
      ensures elementsGroup == old(elementsGroup) + Trees(rand)
    {
      for i := 0 to TreeCount
        invariant elementsGroup == old(elementsGroup) + Trees(rand)[..i]
      {
        var position := Vec3((rand(2 * i) - 0.5) * 40.0, 0.0, (rand(2 * i + 1) - 0.5) * 40.0);
        // keep the centre, where the tank starts, clear
        if Abs(position.x) < 5.0 && Abs(position.z) < 5.0 {
          position := position.(x := position.x + (if position.x > 0.0 then 5.0 else -5.0));
          position := position.(z := position.z + (if position.z > 0.0 then 5.0 else -5.0));
        }
        assert Trees(rand)[..i + 1] == Trees(rand)[..i] + [Tree(position)];
        elementsGroup := elementsGroup + [Tree(position)];
      }
      assert Trees(rand)[..TreeCount] == Trees(rand);
    }

    /** Adds five benches at random places with random headings. */
    method CreateBenches(rand: nat -> real)
      modifies this
      ensures elementsGroup == old(elementsGroup) + Benches(rand)
    {
      for i := 0 to BenchCount
        invariant elementsGroup == old(elementsGroup) + Benches(rand)[..i]
      {
        var position := Vec3((rand(3 * i) - 0.5) * 30.0, 0.0, (rand(3 * i + 1) - 0.5) * 30.0);
        var rotationY := rand(3 * i + 2) * Pi * 2.0;
        assert Benches(rand)[..i + 1] == Benches(rand)[..i] + [Bench(position, rotationY)];
        elementsGroup := elementsGroup + [Bench(position, rotationY)];
      }
      assert Benches(rand)[..BenchCount] == Benches(rand);
    }
  }
}
