/** The dust particle pool of the tank demo: a fixed number of slots kept in
    parallel buffers (three position components, size, opacity and remaining
    lifespan per slot). A slot whose lifespan is at most zero is free; emission
    claims free slots from index 0 upward and each frame ages the live ones. */
module Particles {
  import opened Vectors
  import opened Randomness

  /** One slot of the pool, gathered from the parallel buffers. */
  datatype Particle = Particle(position: Vec3, size: real, opacity: real, lifespan: real)

  /** The contents the constructor gives every slot. */
  const Inactive: Particle := Particle(Zero, 0.1, 0.0, 0.0)

  /** The divisor that maps remaining lifespan to opacity: opacity is lifespan / 60. */
  const FadeTicks: real := 60.0

  predicate IsFree(p: Particle)
  {
    p.lifespan <= 0.0
  }

  /** Number of free slots in the pool. */
  function FreeCount(pool: seq<Particle>): (n: nat)
    ensures n <= |pool|
  {
    if pool == [] then 0
    else FreeCount(pool[..|pool| - 1]) + (if IsFree(pool[|pool| - 1]) then 1 else 0)
  }

  function ActiveCount(pool: seq<Particle>): nat
  {
    |pool| - FreeCount(pool)
  }

  /** Number of free slots below index i. */
  function FreeBefore(pool: seq<Particle>, i: nat): nat
    requires i <= |pool|
  {
    FreeCount(pool[..i])
  }

  /** Number of live slots below index i. */
  function ActiveBefore(pool: seq<Particle>, i: nat): nat
    requires i <= |pool|
  {
    ActiveCount(pool[..i])
  }

  /** How many slots a request for `count` particles can obtain when `free`
      slots are available: the loop stops at whichever runs out first. */
  function ClaimLimit(count: int, free: nat): nat
  {
    if count <= 0 then 0 else if count < free then count else free
  }

  /** Slot i is taken by an emission of `count` particles: it is free and fewer
      than `count` free slots lie below it. */
  predicate Claimed(pool: seq<Particle>, count: int, i: nat): (b: bool)
    requires i < |pool|
    ensures b ==> IsFree(pool[i]) && FreeBefore(pool, i) < ClaimLimit(count, FreeCount(pool))
  {
    FreeBeforeMonotone(pool, i, |pool|);
    FreeBeforeStep(pool, i);
    FreeBeforeAll(pool);
    IsFree(pool[i]) && FreeBefore(pool, i) < count
  }

  /** The particle that the k-th claimed slot of an emission at `origin` receives.
      It takes draws 7k .. 7k+6 of the stream, in the order the source calls
      `Math.random()`: x, y and z jitter, upward bias, size, opacity, lifespan. */
  function Spawn(origin: Vec3, rand: nat -> real, k: nat): (p: Particle)
    ensures 0.0 <= rand(7 * k + 6) < 1.0 ==> 30.0 <= p.lifespan < 60.0 && !IsFree(p)
    ensures 0.0 <= rand(7 * k + 4) < 1.0 ==> 0.2 <= p.size < 0.5
    ensures 0.0 <= rand(7 * k + 5) < 1.0 ==> 0.7 <= p.opacity < 1.0
    ensures 0.0 <= rand(7 * k) < 1.0 ==> origin.x - 0.05 <= p.position.x < origin.x + 0.05
    ensures 0.0 <= rand(7 * k + 1) < 1.0 && 0.0 <= rand(7 * k + 3) < 1.0 ==>
              origin.y - 0.05 <= p.position.y < origin.y + 0.1
    ensures 0.0 <= rand(7 * k + 2) < 1.0 ==> origin.z - 0.05 <= p.position.z < origin.z + 0.05
  {
    var d := 7 * k;
    Particle(Vec3(origin.x + (rand(d) - 0.5) * 0.1,
                  origin.y + ((rand(d + 1) - 0.5) * 0.1 + rand(d + 3) * 0.05),
                  origin.z + (rand(d + 2) - 0.5) * 0.1),
             rand(d + 4) * 0.3 + 0.2,
             0.7 + rand(d + 5) * 0.3,
             30.0 + rand(d + 6) * 30.0)
  }

  /** The pool after emitting `count` particles at `origin`. */
  function Emitted(pool: seq<Particle>, origin: Vec3, count: int, rand: nat -> real): (r: seq<Particle>)
    ensures |r| == |pool|
    ensures forall i :: 0 <= i < |pool| && !IsFree(pool[i]) ==> r[i] == pool[i]
  {
    seq(|pool|, i requires 0 <= i < |pool| =>
      if Claimed(pool, count, i) then Spawn(origin, rand, FreeBefore(pool, i)) else pool[i])
  }

  /** One frame of ageing for a live particle that is the k-th live slot of the
      pool: it takes draws 2k and 2k+1 for its horizontal drift. */
  function Tick(p: Particle, rand: nat -> real, k: nat): (q: Particle)
    ensures q.lifespan == p.lifespan - 1.0 && q.opacity == q.lifespan / FadeTicks
    ensures q.size == p.size && q.position.y == p.position.y + 0.01
    ensures 0.0 <= rand(2 * k) < 1.0 ==> p.position.x - 0.005 <= q.position.x < p.position.x + 0.005
    ensures 0.0 <= rand(2 * k + 1) < 1.0 ==> p.position.z - 0.005 <= q.position.z < p.position.z + 0.005
  {
    var life := p.lifespan - 1.0;
    Particle(Vec3(p.position.x + (rand(2 * k) - 0.5) * 0.01,
                  p.position.y + 0.01,
                  p.position.z + (rand(2 * k + 1) - 0.5) * 0.01),
             p.size, life / FadeTicks, life)
  }

  /** The pool after one call of update. */
  function Aged(pool: seq<Particle>, rand: nat -> real): (r: seq<Particle>)
    ensures |r| == |pool|
    ensures forall i :: 0 <= i < |pool| && IsFree(pool[i]) ==> r[i] == pool[i]
    ensures forall i :: 0 <= i < |pool| && !IsFree(pool[i]) ==>
              r[i].lifespan == pool[i].lifespan - 1.0 &&
              r[i].opacity == r[i].lifespan / FadeTicks &&
              r[i].size == pool[i].size
  {
    seq(|pool|, i requires 0 <= i < |pool| =>
      if IsFree(pool[i]) then pool[i] else Tick(pool[i], rand, ActiveBefore(pool, i)))
  }

  /** The pool after one update per stream in `rands`, in order. */
  function Updated(pool: seq<Particle>, rands: seq<nat -> real>): (r: seq<Particle>)
    ensures |r| == |pool|
    decreases |rands|
  {
    if rands == [] then pool else Updated(Aged(pool, rands[0]), rands[1..])
  }

  /** The bounds every slot keeps from construction on. */
  ghost predicate Bounded(pool: seq<Particle>)
  {
    forall i :: 0 <= i < |pool| ==>
      -1.0 < pool[i].lifespan < 60.0 && -1.0 / FadeTicks < pool[i].opacity < 1.0
  }

  // ---------------------------------------------------------------------------
  // Counting free slots

  lemma FreeBeforeStep(pool: seq<Particle>, i: nat)
    requires i < |pool|
    ensures FreeBefore(pool, i + 1) == FreeBefore(pool, i) + (if IsFree(pool[i]) then 1 else 0)
  {
    assert pool[..i + 1][..i] == pool[..i];
  }

  lemma FreeBeforeAll(pool: seq<Particle>)
    ensures FreeBefore(pool, |pool|) == FreeCount(pool)
  {
    assert pool[..|pool|] == pool;
  }

  /** Free slots below i never outnumber those below a later j, and a free slot
      at i itself makes the count below j strictly larger. */
  lemma {:induction false} FreeBeforeMonotone(pool: seq<Particle>, i: nat, j: nat)
    requires i <= j <= |pool|
    ensures FreeBefore(pool, i) <= FreeBefore(pool, j)
    ensures i < j && IsFree(pool[i]) ==> FreeBefore(pool, i) < FreeBefore(pool, j)
    decreases j - i
  {
    if i < j {
      FreeBeforeStep(pool, i);
      FreeBeforeMonotone(pool, i + 1, j);
    }
  }

  /** A pool whose slots are all free counts every slot as free. */
  lemma {:induction false} AllFree(pool: seq<Particle>)
    requires forall i :: 0 <= i < |pool| ==> IsFree(pool[i])
    ensures FreeCount(pool) == |pool| && ActiveCount(pool) == 0
  {
    if pool != [] {
      AllFree(pool[..|pool| - 1]);
    }
  }

  /** A pool with no free slot holds only live slots. */
  lemma NoFreeMeansAllActive(pool: seq<Particle>, i: nat)
    requires FreeCount(pool) == 0 && i < |pool|
    ensures !IsFree(pool[i])
  {
    FreeBeforeMonotone(pool, i + 1, |pool|);
    FreeBeforeStep(pool, i);
    FreeBeforeAll(pool);
  }

  // ---------------------------------------------------------------------------
  // Construction

  /** The freshly constructed pool of n slots: every slot free, none live. */
  lemma FreshPoolIsEmpty(n: nat)
    ensures var pool := seq(n, _ => Inactive);
      |pool| == n && FreeCount(pool) == n && ActiveCount(pool) == 0 && Bounded(pool)
  {
    AllFree(seq(n, _ => Inactive));
  }

  // ---------------------------------------------------------------------------
  // Emission

  /** Every draw-dependent field of a spawned particle lies in the range the
      source's formulas give for draws in [0, 1). */
  lemma SpawnRanges(origin: Vec3, rand: nat -> real, k: nat)
    requires UnitDraws(rand)
    ensures var p := Spawn(origin, rand, k);
      && 30.0 <= p.lifespan < 60.0
      && 0.2 <= p.size < 0.5
      && 0.7 <= p.opacity < 1.0
      && origin.x - 0.05 <= p.position.x < origin.x + 0.05
      && origin.y - 0.05 <= p.position.y < origin.y + 0.1
      && origin.z - 0.05 <= p.position.z < origin.z + 0.05
  {
    var d := 7 * k;
    assert 0.0 <= rand(d) < 1.0 && 0.0 <= rand(d + 1) < 1.0 && 0.0 <= rand(d + 2) < 1.0;
    assert 0.0 <= rand(d + 3) < 1.0 && 0.0 <= rand(d + 4) < 1.0;
    assert 0.0 <= rand(d + 5) < 1.0 && 0.0 <= rand(d + 6) < 1.0;
  }

  /** Prefix form of EmitActivates: among the first k slots, exactly
      ClaimLimit(count, free-below-k) free slots become live. */
  lemma {:induction false} EmitCountPrefix(pool: seq<Particle>, origin: Vec3, count: int, rand: nat -> real, k: nat)
    requires UnitDraws(rand)
    requires k <= |pool|
    ensures var after := Emitted(pool, origin, count, rand);
      FreeBefore(after, k) == FreeBefore(pool, k) - ClaimLimit(count, FreeBefore(pool, k))
  {
    var after := Emitted(pool, origin, count, rand);
    if k == 0 {
      assert after[..0] == [] && pool[..0] == [];
    } else {
      var i := k - 1;
      EmitCountPrefix(pool, origin, count, rand, i);
      FreeBeforeStep(pool, i);
      FreeBeforeStep(after, i);
      if Claimed(pool, count, i) {
        SpawnRanges(origin, rand, FreeBefore(pool, i));
        assert !IsFree(after[i]);
      }
    }
  }

  /** Emission makes exactly min(count, free slots) slots live, never more than
      `count`, and keeps every live slot live. */
  lemma EmitActivates(pool: seq<Particle>, origin: Vec3, count: int, rand: nat -> real)
    requires UnitDraws(rand)
    ensures var after := Emitted(pool, origin, count, rand);
      && ActiveCount(after) == ActiveCount(pool) + ClaimLimit(count, FreeCount(pool))
      && (count >= 0 ==> ActiveCount(after) <= ActiveCount(pool) + count)
  {
    EmitCountPrefix(pool, origin, count, rand, |pool|);
    FreeBeforeAll(pool);
    FreeBeforeAll(Emitted(pool, origin, count, rand));
  }

  /** Slots are claimed lowest index first: every free slot below a claimed slot
      is claimed too. */
  lemma EmitClaimsLowestFree(pool: seq<Particle>, count: int, i: nat, j: nat)
    requires i < j < |pool|
    requires Claimed(pool, count, j) && IsFree(pool[i])
    ensures Claimed(pool, count, i)
  {
    FreeBeforeMonotone(pool, i, j);
  }

  /** Claimed slots take the random draws in ascending slot order, and a
      claimed slot's position among the claims is below min(count, free). */
  lemma EmitClaimOrder(pool: seq<Particle>, count: int, i: nat, j: nat)
    requires i < |pool| && j < |pool|
    requires Claimed(pool, count, i)
    ensures FreeBefore(pool, i) < ClaimLimit(count, FreeCount(pool))
    ensures i < j && Claimed(pool, count, j) ==> FreeBefore(pool, i) < FreeBefore(pool, j)
  {
    FreeBeforeMonotone(pool, i, |pool|);
    FreeBeforeStep(pool, i);
    FreeBeforeMonotone(pool, i + 1, |pool|);
    FreeBeforeAll(pool);
    if i < j {
      FreeBeforeMonotone(pool, i, j);
    }
  }

  /** Once `count` free slots lie below i, no slot from i on is claimed. */
  lemma EmitStopsClaiming(pool: seq<Particle>, count: int, i: nat)
    requires i <= |pool| && FreeBefore(pool, i) >= count
    ensures forall k :: i <= k < |pool| ==> !Claimed(pool, count, k)
  {
    forall k | i <= k < |pool|
      ensures !Claimed(pool, count, k)
    {
      FreeBeforeMonotone(pool, i, k);
    }
  }

  /** A claimed slot holds a freshly spawned particle whose fields lie in the
      source's ranges; the direction hint of the call takes no part in it. */
  lemma EmittedSlot(pool: seq<Particle>, origin: Vec3, count: int, rand: nat -> real, i: nat)
    requires UnitDraws(rand)
    requires i < |pool| && Claimed(pool, count, i)
    ensures var p := Emitted(pool, origin, count, rand)[i];
      && p == Spawn(origin, rand, FreeBefore(pool, i))
      && 30.0 <= p.lifespan < 60.0 && 0.2 <= p.size < 0.5 && 0.7 <= p.opacity < 1.0
      && origin.x - 0.05 <= p.position.x < origin.x + 0.05
      && origin.y - 0.05 <= p.position.y < origin.y + 0.1
      && origin.z - 0.05 <= p.position.z < origin.z + 0.05
  {
    SpawnRanges(origin, rand, FreeBefore(pool, i));
  }

  /** One step of the emission scan: once slots below i hold their emitted
      value and the rest their old one, deciding slot i extends that to i + 1. */
  lemma EmitStep(before: seq<Particle>, origin: Vec3, count: int, rand: nat -> real,
                 pool: seq<Particle>, i: nat)
    requires i < |before| == |pool|
    requires forall k :: 0 <= k < i ==> pool[k] == Emitted(before, origin, count, rand)[k]
    requires forall k :: i <= k < |before| ==> pool[k] == before[k]
    ensures var next := if Claimed(before, count, i)
                        then pool[i := Spawn(origin, rand, FreeBefore(before, i))] else pool;
      && (forall k :: 0 <= k <= i ==> next[k] == Emitted(before, origin, count, rand)[k])
      && (forall k :: i < k < |before| ==> next[k] == before[k])
  {
  }

  /** One step of the update scan: once slots below i hold their aged value
      and the rest their old one, ageing slot i extends that to i + 1. */
  lemma AgeStep(before: seq<Particle>, rand: nat -> real, pool: seq<Particle>, i: nat)
    requires i < |before| == |pool|
    requires forall k :: 0 <= k < i ==> pool[k] == Aged(before, rand)[k]
    requires forall k :: i <= k < |before| ==> pool[k] == before[k]
    ensures var next := if IsFree(before[i]) then pool
                        else pool[i := Tick(before[i], rand, ActiveBefore(before, i))];
      && (forall k :: 0 <= k <= i ==> next[k] == Aged(before, rand)[k])
      && (forall k :: i < k < |before| ==> next[k] == before[k])
  {
  }

  /** With no free slot, or a request for no particles, emission leaves the
      pool as it was (and raises nothing). */
  lemma EmitNothing(pool: seq<Particle>, origin: Vec3, count: int, rand: nat -> real)
    requires FreeCount(pool) == 0 || count <= 0
    ensures Emitted(pool, origin, count, rand) == pool
  {
    forall i | 0 <= i < |pool|
      ensures !Claimed(pool, count, i)
    {
      if FreeCount(pool) == 0 {
        NoFreeMeansAllActive(pool, i);
      }
    }
  }

  lemma EmitKeepsBounded(pool: seq<Particle>, origin: Vec3, count: int, rand: nat -> real)
    requires UnitDraws(rand) && Bounded(pool)
    ensures Bounded(Emitted(pool, origin, count, rand))
  {
    var after := Emitted(pool, origin, count, rand);
    forall i | 0 <= i < |pool| && Claimed(pool, count, i)
      ensures -1.0 < after[i].lifespan < 60.0 && -1.0 / FadeTicks < after[i].opacity < 1.0
    {
      SpawnRanges(origin, rand, FreeBefore(pool, i));
    }
  }

  /** Four slots: two emissions of two fill the pool; a third emission of one
      claims nothing and changes nothing. */
  lemma FourSlotScenario(origin: Vec3, r1: nat -> real, r2: nat -> real, r3: nat -> real)
    requires UnitDraws(r1) && UnitDraws(r2)
    ensures var p0 := seq(4, _ => Inactive);
      var p1 := Emitted(p0, origin, 2, r1);
      var p2 := Emitted(p1, origin, 2, r2);
      ActiveCount(p1) == 2 && ActiveCount(p2) == 4 && Emitted(p2, origin, 1, r3) == p2
  {
    var p0 := seq(4, _ => Inactive);
    FreshPoolIsEmpty(4);
    var p1 := Emitted(p0, origin, 2, r1);
    EmitActivates(p0, origin, 2, r1);
    var p2 := Emitted(p1, origin, 2, r2);
    EmitActivates(p1, origin, 2, r2);
    EmitNothing(p2, origin, 1, r3);
  }

  // ---------------------------------------------------------------------------
  // Ageing

  /** Prefix form of AgingNeverActivates. */
  lemma {:induction false} AgedFreePrefix(pool: seq<Particle>, rand: nat -> real, k: nat)
    requires k <= |pool|
    ensures FreeBefore(pool, k) <= FreeBefore(Aged(pool, rand), k)
  {
    if k > 0 {
      AgedFreePrefix(pool, rand, k - 1);
      FreeBeforeStep(pool, k - 1);
      FreeBeforeStep(Aged(pool, rand), k - 1);
    }
  }

  /** An update never makes a slot live: the number of live slots can only fall. */
  lemma AgingNeverActivates(pool: seq<Particle>, rand: nat -> real)
    ensures ActiveCount(Aged(pool, rand)) <= ActiveCount(pool)
  {
    AgedFreePrefix(pool, rand, |pool|);
    FreeBeforeAll(pool);
    FreeBeforeAll(Aged(pool, rand));
  }

  lemma AgeKeepsBounded(pool: seq<Particle>, rand: nat -> real)
    requires Bounded(pool)
    ensures Bounded(Aged(pool, rand))
  {
  }

  /** Emission sets opacity from its own draw, not from the lifespan, so the
      first update can make a particle brighter: spawned with opacity 0.7 and
      lifespan 59.7, it has opacity 58.7 / 60 after one update. */
  lemma FirstUpdateCanBrighten()
    ensures var rand := (k: nat) => if k == 6 then 0.99 else 0.0;
      var spawned := Emitted([Inactive], Zero, 1, rand);
      var aged := Aged(spawned, rand);
      && spawned[0].opacity == 0.7 && spawned[0].lifespan == 59.7
      && aged[0].opacity == 58.7 / FadeTicks && aged[0].opacity > spawned[0].opacity
  {
    var rand := (k: nat) => if k == 6 then 0.99 else 0.0;
    var pool := [Inactive];
    assert FreeBefore(pool, 0) == 0 by { assert pool[..0] == []; }
    assert Claimed(pool, 1, 0);
    var spawned := Emitted(pool, Zero, 1, rand);
    assert spawned[0] == Spawn(Zero, rand, 0);
    assert spawned[..0] == [];
    assert Aged(spawned, rand)[0] == Tick(spawned[0], rand, 0);
  }

  /** Once a live slot's opacity tracks its lifespan, as every update leaves
      it, each further update lowers the opacity strictly and keeps it
      tracking. */
  lemma FadesWhileLive(pool: seq<Particle>, rand: nat -> real, i: nat)
    requires i < |pool| && !IsFree(pool[i])
    requires pool[i].opacity == pool[i].lifespan / FadeTicks
    ensures Aged(pool, rand)[i].opacity < pool[i].opacity
    ensures Aged(pool, rand)[i].opacity == Aged(pool, rand)[i].lifespan / FadeTicks
  {
  }

  /** After n updates a live slot has lost exactly n of lifespan, unless it
      ran out on the way, in which case it rests in (-1, 0]; a free slot is
      never aged. */
  lemma {:induction false} LifespanAfterUpdates(pool: seq<Particle>, rands: seq<nat -> real>, i: nat)
    requires i < |pool|
    ensures var l, l' := pool[i].lifespan, Updated(pool, rands)[i].lifespan;
      && (l <= 0.0 ==> l' == l)
      && (l > (|rands| - 1) as real ==> l' == l - |rands| as real)
      && (0.0 < l <= (|rands| - 1) as real ==> -1.0 < l' <= 0.0)
    decreases |rands|
  {
    if rands != [] {
      LifespanAfterUpdates(Aged(pool, rands[0]), rands[1..], i);
    }
  }

  /** A slot just claimed by an emission stays live through the next 29
      updates and is free again after at most 60. */
  lemma EmittedSlotLifetime(pool: seq<Particle>, origin: Vec3, count: int, rand: nat -> real,
                            i: nat, rands: seq<nat -> real>)
    requires UnitDraws(rand)
    requires i < |pool| && Claimed(pool, count, i)
    ensures var later := Updated(Emitted(pool, origin, count, rand), rands);
      && (|rands| < 30 ==> !IsFree(later[i]))
      && (|rands| >= 60 ==> IsFree(later[i]))
  {
    EmittedSlot(pool, origin, count, rand, i);
    LifespanAfterUpdates(Emitted(pool, origin, count, rand), rands, i);
  }

  // ---------------------------------------------------------------------------
  // The pool object

  class ParticleSystem {
    const particleCount: nat
    const particlePositions: array<real>
    const particleSizes: array<real>
    const particleOpacities: array<real>
    const particleLifespans: array<real>

    /** Buffer lengths match the slot count and the four buffers are distinct. */
    ghost predicate Valid()
      reads this
    {
      && particlePositions.Length == 3 * particleCount
      && particleSizes.Length == particleCount
      && particleOpacities.Length == particleCount
      && particleLifespans.Length == particleCount
      && particlePositions != particleSizes && particlePositions != particleOpacities
      && particlePositions != particleLifespans && particleSizes != particleOpacities
      && particleSizes != particleLifespans && particleOpacities != particleLifespans
    }

    ghost function Slot(i: nat): Particle
      reads this, particlePositions, particleSizes, particleOpacities, particleLifespans
      requires Valid() && i < particleCount
    {
      Particle(Vec3(particlePositions[3 * i], particlePositions[3 * i + 1], particlePositions[3 * i + 2]),
               particleSizes[i], particleOpacities[i], particleLifespans[i])
    }

    /** The abstract value of the buffers: one particle per slot. */
    ghost function Pool(): (pool: seq<Particle>)
      reads this, particlePositions, particleSizes, particleOpacities, particleLifespans
      requires Valid()
      ensures |pool| == particleCount
      ensures forall i :: 0 <= i < particleCount ==> pool[i] == Slot(i)
    {
      seq(particleCount, i requires 0 <= i < particleCount
                           reads this, particlePositions, particleSizes, particleOpacities, particleLifespans
                           => Slot(i))
    }

    constructor (count: nat)
      ensures Valid() && particleCount == count
      ensures fresh(particlePositions) && fresh(particleSizes)
      ensures fresh(particleOpacities) && fresh(particleLifespans)
      ensures Pool() == seq(count, _ => Inactive)
    {
      particleCount := count;
      particlePositions := new real[count * 3];
      particleSizes := new real[count];
      particleOpacities := new real[count];
      particleLifespans := new real[count];
      new;
      var i := 0;
      while i < count
        invariant 0 <= i <= count
        invariant forall k :: 0 <= k < 3 * i ==> particlePositions[k] == 0.0
        invariant forall k :: 0 <= k < i ==> particleSizes[k] == 0.1
        invariant forall k :: 0 <= k < i ==> particleOpacities[k] == 0.0 && particleLifespans[k] == 0.0
      {
        particlePositions[i * 3] := 0.0;
        particlePositions[i * 3 + 1] := 0.0;
        particlePositions[i * 3 + 2] := 0.0;
        particleSizes[i] := 0.1;
        particleOpacities[i] := 0.0;
        particleLifespans[i] := 0.0;
        i := i + 1;
      }
    }

    /** Writes one slot's fields into the buffers. */
    method Store(i: nat, p: Particle)
      requires Valid() && i < particleCount
      modifies particlePositions, particleSizes, particleOpacities, particleLifespans
      ensures Pool() == old(Pool())[i := p]
    {
      particlePositions[i * 3] := p.position.x;
      particlePositions[i * 3 + 1] := p.position.y;
      particlePositions[i * 3 + 2] := p.position.z;
      particleSizes[i] := p.size;
      particleOpacities[i] := p.opacity;
      particleLifespans[i] := p.lifespan;
    }

    /** Spawns the k-th particle of an emission at `position` into slot i:
        jitter of 0.1 on each axis plus an upward bias, then size, opacity and
        lifespan, each from its own draw. */
    method SpawnInto(i: nat, position: Vec3, rand: nat -> real, k: nat)
      requires Valid() && i < particleCount
      modifies particlePositions, particleSizes, particleOpacities, particleLifespans
      ensures Pool() == old(Pool())[i := Spawn(position, rand, k)]
    {
      var d := 7 * k;
      // random spread of 0.1 around the origin on each axis
      var randomX := (rand(d) - 0.5) * 0.1;
      var randomY := (rand(d + 1) - 0.5) * 0.1;
      var randomZ := (rand(d + 2) - 0.5) * 0.1;
      // dust drifts upward a little more than it spreads
      var upwardBias := rand(d + 3) * 0.05;
      Store(i, Particle(Vec3(position.x + randomX, position.y + (randomY + upwardBias), position.z + randomZ),
                        rand(d + 4) * 0.3 + 0.2,
                        0.7 + rand(d + 5) * 0.3,
                        30.0 + rand(d + 6) * 30.0));
    }

    /** Ages slot i as the k-th live slot of an update: one tick off its
        lifespan, opacity from the remaining lifespan, and a drift of up to
        0.005 sideways and 0.01 upward. */
    method AgeSlot(i: nat, rand: nat -> real, k: nat)
      requires Valid() && i < particleCount
      modifies particlePositions, particleOpacities, particleLifespans
      ensures Pool() == old(Pool())[i := Tick(old(Pool())[i], rand, k)]
    {
      assert Pool()[i] == Slot(i);
      var life := particleLifespans[i] - 1.0;
      // fade out, and let the dust rise and spread
      var moved := Vec3(particlePositions[i * 3] + (rand(2 * k) - 0.5) * 0.01,
                        particlePositions[i * 3 + 1] + 0.01,
                        particlePositions[i * 3 + 2] + (rand(2 * k + 1) - 0.5) * 0.01);
      StoreMotion(i, moved, life / FadeTicks, life);
    }

    /** Writes a slot's position, opacity and lifespan; its size stays. */
    method StoreMotion(i: nat, position: Vec3, opacity: real, lifespan: real)
      requires Valid() && i < particleCount
      modifies particlePositions, particleOpacities, particleLifespans
      ensures Pool() == old(Pool())[i := old(Pool())[i].(position := position, opacity := opacity, lifespan := lifespan)]
    {
      particlePositions[i * 3] := position.x;
      particlePositions[i * 3 + 1] := position.y;
      particlePositions[i * 3 + 2] := position.z;
      particleOpacities[i] := opacity;
      particleLifespans[i] := lifespan;
    }

    /** Claims up to `count` free slots, lowest index first, and spawns a dust
        particle at `position` in each. `direction` is accepted and ignored. */
    method EmitParticles(position: Vec3, direction: Vec3, count: int, rand: nat -> real)
      requires Valid()
      modifies particlePositions, particleSizes, particleOpacities, particleLifespans
      ensures Pool() == Emitted(old(Pool()), position, count, rand)
    {
      ghost var before := Pool();
      ghost var after := Emitted(before, position, count, rand);
      ghost var pool := before;
      var i, emitted := 0, 0;
      while i < particleCount && emitted < count
        invariant 0 <= i <= particleCount
        invariant emitted == FreeBefore(before, i)
        invariant Pool() == pool && |pool| == |after|
        invariant forall k :: 0 <= k < i ==> pool[k] == after[k]
        invariant forall k :: i <= k < particleCount ==> pool[k] == before[k]
      {
        FreeBeforeStep(before, i);
        EmitStep(before, position, count, rand, pool, i);
        assert particleLifespans[i] == before[i].lifespan;
        if particleLifespans[i] <= 0.0 {
          assert Claimed(before, count, i);
          SpawnInto(i, position, rand, emitted);
          pool := pool[i := Spawn(position, rand, emitted)];
          emitted := emitted + 1;
        } else {
          assert !Claimed(before, count, i);
        }
        i := i + 1;
      }
      if i < particleCount {
        EmitStopsClaiming(before, count, i);
      }
      assert forall k :: 0 <= k < particleCount ==> pool[k] == after[k];
    }

    /** Ages every live slot by one tick: lifespan down by one, opacity set to
        lifespan / 60, and a small drift upward and sideways. */
    method Update(rand: nat -> real)
      requires Valid()
      modifies particlePositions, particleOpacities, particleLifespans
      ensures Pool() == Aged(old(Pool()), rand)
    {
      ghost var before := Pool();
      ghost var after := Aged(before, rand);
      ghost var pool := before;
      var aged := 0;
      for i := 0 to particleCount
        invariant aged == ActiveBefore(before, i)
        invariant Pool() == pool && |pool| == |after|
        invariant forall k :: 0 <= k < i ==> pool[k] == after[k]
        invariant forall k :: i <= k < particleCount ==> pool[k] == before[k]
      {
        FreeBeforeStep(before, i);
        AgeStep(before, rand, pool, i);
        assert particleLifespans[i] == before[i].lifespan;
        if particleLifespans[i] > 0.0 {
          AgeSlot(i, rand, aged);
          pool := pool[i := Tick(before[i], rand, aged)];
          aged := aged + 1;
        }
      }
      assert forall k :: 0 <= k < particleCount ==> pool[k] == after[k];
    }
  }
}
