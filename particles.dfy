/**
 * A particle emitter's pool: a fixed number of slots, each alive or dead,
 * filled by burst and continuous emission, aged and integrated each frame,
 * sorted back to front and expanded into camera-facing quads in a flat
 * vertex buffer (6 vertices of 9 floats per alive particle).
 *
 * The pool's pseudo-random source is the shared xorshift state
 * `RandomState`, passed explicitly to the operations that draw from it.
 */
module Particles {
  import opened Geometry
  import opened Vectors

  datatype Rgb = Rgb(r: real, g: real, b: real)

  datatype ParticleConfig = ParticleConfig(
    maxParticles: nat,
    emissionRate: real,
    burstCount: int,
    lifetimeMin: real,
    lifetimeMax: real,
    velocityMin: Vec3,
    velocityMax: Vec3,
    gravityModifier: real,
    damping: real,
    startSizeMin: real,
    startSizeMax: real,
    endSize: real,
    startColor: Rgb,
    endColor: Rgb,
    startAlpha: real,
    endAlpha: real,
    additive: bool)

  datatype Particle = Particle(
    position: Vec3,
    velocity: Vec3,
    lifetime: real,
    maxLifetime: real,
    size: real,
    alive: bool)

  /** The content of a fresh or recycled-for-resize slot. */
  const DeadParticle: Particle := Particle(Zero, Zero, 0.0, 1.0, 0.0, false)

  const Gravity: Vec3 := Vec3(0.0, -9.81, 0.0)

  const FloatsPerVertex: nat := 9
  const VerticesPerParticle: nat := 6
  const FloatsPerParticle: nat := 54

  function Lerp(a: real, b: real, t: real): (r: real)
    ensures t == 0.0 ==> r == a
    ensures t == 1.0 ==> r == b
    ensures a <= b && 0.0 <= t <= 1.0 ==> a <= r <= b
    ensures b <= a && 0.0 <= t <= 1.0 ==> b <= r <= a
  {
    var r := a + (b - a) * t;
    assert a <= b && 0.0 <= t <= 1.0 ==> a <= r <= b by {
      if a <= b && 0.0 <= t <= 1.0 {
        ProductNonnegative(b - a, t);
        ProductNonnegative(b - a, 1.0 - t);
        assert (b - a) * t == (b - a) - (b - a) * (1.0 - t);
      }
    }
    assert b <= a && 0.0 <= t <= 1.0 ==> b <= r <= a by {
      if b <= a && 0.0 <= t <= 1.0 {
        ProductNonnegative(a - b, t);
        ProductNonnegative(a - b, 1.0 - t);
        assert (a - b) * t == (a - b) - (a - b) * (1.0 - t);
      }
    }
    r
  }

  /** `x` lies between `a` and `b`, in whichever order they come. */
  predicate Between(x: real, a: real, b: real)
  {
    (a <= b ==> a <= x <= b) && (b <= a ==> b <= x <= a)
  }

  lemma ProductNonnegative(x: real, y: real)
    requires x >= 0.0 && y >= 0.0
    ensures x * y >= 0.0
  {
    if x > 0.0 && y > 0.0 {
      assert x * y > 0.0;
    }
  }

  // ----- The pseudo-random source -----

  /** The emitter's global xorshift state; it starts at 12345. */
  class RandomState {
    var state: bv32

    constructor ()
      ensures state == 12345
    {
      state := 12345;
    }
  }

  /** One xorshift32 step (shifts 13, 17, 5): zero is its only fixed point at zero, so a nonzero state never gets stuck. */
  function XorShift(s: bv32): (r: bv32)
    ensures r == 0 <==> s == 0
  {
    var a := s ^ (s << 13);
    var b := a ^ (a >> 17);
    b ^ (b << 5)
  }

  /** The state as a fraction of u32::MAX. */
  function UnitOf(s: bv32): (u: real)
    ensures 0.0 <= u <= 1.0
  {
    (s as int) as real / 4294967295.0
  }

  /** Draw one number from [lo, hi]: step the state, then scale its fraction. */
  function Draw(s: bv32, lo: real, hi: real): (r: (real, bv32))
    ensures r.1 == XorShift(s)
    ensures lo <= hi ==> lo <= r.0 <= hi
  {
    var s' := XorShift(s);
    (Lerp(lo, hi, UnitOf(s')), s')
  }

  /** `rand_range`: one step of the shared state, scaled into [lo, hi]. */
  method RandRange(rng: RandomState, lo: real, hi: real) returns (v: real)
    modifies rng
    ensures (v, rng.state) == Draw(old(rng.state), lo, hi)
    ensures lo <= hi ==> lo <= v <= hi
  {
    rng.state := XorShift(rng.state);
    v := Lerp(lo, hi, UnitOf(rng.state));
  }

  /**
   * The particle an emission writes at `origin`, and the generator state
   * after it: five draws, in the order vx, vy, vz, lifetime, size.
   */
  function Spawn(origin: Vec3, cfg: ParticleConfig, s: bv32): (r: (Particle, bv32))
    ensures r.0.alive && r.0.position == origin && r.0.lifetime == r.0.maxLifetime
    ensures cfg.lifetimeMin <= cfg.lifetimeMax ==> cfg.lifetimeMin <= r.0.maxLifetime <= cfg.lifetimeMax
    ensures cfg.startSizeMin <= cfg.startSizeMax ==> cfg.startSizeMin <= r.0.size <= cfg.startSizeMax
  {
    var vx := Draw(s, cfg.velocityMin.x, cfg.velocityMax.x);
    var vy := Draw(vx.1, cfg.velocityMin.y, cfg.velocityMax.y);
    var vz := Draw(vy.1, cfg.velocityMin.z, cfg.velocityMax.z);
    var life := Draw(vz.1, cfg.lifetimeMin, cfg.lifetimeMax);
    var size := Draw(life.1, cfg.startSizeMin, cfg.startSizeMax);
    (Particle(origin, Vec3(vx.0, vy.0, vz.0), life.0, life.0, size.0, true), size.1)
  }

  // ----- Counting and selecting slots -----

  /** The alive particles, in slot order. */
  function AliveOf(ps: seq<Particle>): (r: seq<Particle>)
    ensures |r| <= |ps|
    ensures forall j :: 0 <= j < |r| ==> r[j].alive
  {
    if |ps| == 0 then []
    else AliveOf(ps[..|ps| - 1]) + (if ps[|ps| - 1].alive then [ps[|ps| - 1]] else [])
  }

  function CountAlive(ps: seq<Particle>): nat
  {
    |AliveOf(ps)|
  }

  lemma AliveOfSnoc(ps: seq<Particle>, i: nat)
    requires i < |ps|
    ensures AliveOf(ps[..i + 1]) == AliveOf(ps[..i]) + (if ps[i].alive then [ps[i]] else [])
  {
    assert ps[..i + 1][..i] == ps[..i];
  }

  /**
   * One step of the in-place partition: an alive slot `i` is swapped to
   * `write`, extending the front by exactly that particle; a dead one is
   * left in the dead middle. The untouched tail stays as it was.
   */
  lemma PartitionStep(ps: seq<Particle>, ps0: seq<Particle>, i: nat, write: nat)
    requires write <= i < |ps| == |ps0|
    requires ps[..write] == AliveOf(ps0[..i])
    requires forall j :: write <= j < i ==> !ps[j].alive
    requires forall j :: i <= j < |ps| ==> ps[j] == ps0[j]
    ensures var r := if ps[i].alive && i != write then Swap(ps, i, write) else ps;
      var w := if ps[i].alive then write + 1 else write;
      && multiset(r) == multiset(ps)
      && r[..w] == AliveOf(ps0[..i + 1])
      && (forall j :: w <= j < i + 1 ==> !r[j].alive)
      && (forall j :: i + 1 <= j < |r| ==> r[j] == ps0[j])
  {
    AliveOfSnoc(ps0, i);
    if ps[i].alive {
      var r := if i != write then Swap(ps, i, write) else ps;
      assert r[..write + 1] == ps[..write] + [ps0[i]];
    }
  }

  /** No alive particle is dropped: every slot is alive exactly when counted. */
  lemma {:induction false} CountAliveAll(ps: seq<Particle>)
    ensures CountAlive(ps) == |ps| <==> forall j :: 0 <= j < |ps| ==> ps[j].alive
  {
    if |ps| > 0 {
      var init := ps[..|ps| - 1];
      CountAliveAll(init);
      assert forall j :: 0 <= j < |init| ==> init[j] == ps[j];
    }
  }

  /** Replacing one slot changes the count by the difference in that slot's liveness. */
  lemma {:induction false} CountAliveUpdate(ps: seq<Particle>, k: nat, p: Particle)
    requires k < |ps|
    ensures CountAlive(ps[k := p]) + (if ps[k].alive then 1 else 0) == CountAlive(ps) + (if p.alive then 1 else 0)
  {
    var n := |ps| - 1;
    var qs := ps[k := p];
    assert qs[..n] == if k == n then ps[..n] else ps[..n][k := p];
    if k < n {
      CountAliveUpdate(ps[..n], k, p);
    }
  }

  /** Index of the first dead slot, or the pool size when every slot is alive. */
  function FirstDead(ps: seq<Particle>): (k: nat)
    ensures k <= |ps|
    ensures forall j :: 0 <= j < k ==> ps[j].alive
    ensures k < |ps| ==> !ps[k].alive
  {
    if |ps| == 0 then 0
    else if !ps[0].alive then 0
    else 1 + FirstDead(ps[1..])
  }

  /**
   * One emission on a pool and a generator state: the first dead slot
   * receives `Spawn`'s particle and the state moves on by its five draws.
   * A full pool and the state are left as they are.
   */
  function EmitOnce(ps: seq<Particle>, origin: Vec3, cfg: ParticleConfig, s: bv32): (r: (seq<Particle>, bv32))
    ensures |r.0| == |ps|
    ensures forall j :: 0 <= j < |ps| && ps[j].alive ==> r.0[j] == ps[j]
    ensures FirstDead(ps) == |ps| <==> r == (ps, s)
    ensures FirstDead(ps) < |ps| ==>
      && r.0[FirstDead(ps)] == Spawn(origin, cfg, s).0
      && CountAlive(r.0) == CountAlive(ps) + 1
  {
    var k := FirstDead(ps);
    if k == |ps| then (ps, s)
    else
      var spawn := Spawn(origin, cfg, s);
      CountAliveUpdate(ps, k, spawn.0);
      (ps[k := spawn.0], spawn.1)
  }

  /**
   * `n` emissions one after another, each on the pool and state the last
   * one left. Once the pool is full the rest change nothing, so exactly
   * min(n, dead slots) particles are added and no live one moves.
   */
  function EmitN(ps: seq<Particle>, n: nat, origin: Vec3, cfg: ParticleConfig, s: bv32): (r: (seq<Particle>, bv32))
    ensures |r.0| == |ps|
    ensures forall j :: 0 <= j < |ps| && ps[j].alive ==> r.0[j] == ps[j]
    ensures CountAlive(r.0) == CountAlive(ps) + Min(n, |ps| - CountAlive(ps))
  {
    if n == 0 then (ps, s)
    else
      var prev := EmitN(ps, n - 1, origin, cfg, s);
      CountAliveAll(prev.0);
      EmitOnce(prev.0, origin, cfg, prev.1)
  }

  /** One more emission on the result of `n` emissions is the result of `n + 1`; a dead slot remains for it exactly while `n` is below the original dead count. */
  lemma EmitNNext(ps: seq<Particle>, n: nat, origin: Vec3, cfg: ParticleConfig, s: bv32)
    ensures var r := EmitN(ps, n, origin, cfg, s);
      && EmitOnce(r.0, origin, cfg, r.1) == EmitN(ps, n + 1, origin, cfg, s)
      && (FirstDead(r.0) < |r.0| <==> n < |ps| - CountAlive(ps))
  {
    CountAliveAll(EmitN(ps, n, origin, cfg, s).0);
  }

  /** Every alive particle has not outlived its span. */
  predicate LiveWithinSpan(ps: seq<Particle>)
  {
    forall j :: 0 <= j < |ps| && ps[j].alive ==> ps[j].lifetime <= ps[j].maxLifetime
  }

  /** An emission keeps every alive particle within its span: a spawned one starts at its full span. */
  lemma EmitOnceWithinSpan(ps: seq<Particle>, origin: Vec3, cfg: ParticleConfig, s: bv32)
    requires LiveWithinSpan(ps)
    ensures LiveWithinSpan(EmitOnce(ps, origin, cfg, s).0)
  {
    var k := FirstDead(ps);
    if k < |ps| {
      var spawned := Spawn(origin, cfg, s).0;
      assert EmitOnce(ps, origin, cfg, s).0 == ps[k := spawned];
      assert spawned.lifetime <= spawned.maxLifetime;
    }
  }

  /** Any number of emissions keeps every alive particle within its span. */
  lemma {:induction false} EmitNWithinSpan(ps: seq<Particle>, n: nat, origin: Vec3, cfg: ParticleConfig, s: bv32)
    requires LiveWithinSpan(ps)
    ensures LiveWithinSpan(EmitN(ps, n, origin, cfg, s).0)
  {
    if n > 0 {
      EmitNWithinSpan(ps, n - 1, origin, cfg, s);
      var prev := EmitN(ps, n - 1, origin, cfg, s);
      EmitOnceWithinSpan(prev.0, origin, cfg, prev.1);
    }
  }

  /** How many particles a burst adds: the positive burst count, capped by the dead slots. */
  function BurstEmissions(ps: seq<Particle>, cfg: ParticleConfig): (n: nat)
    ensures cfg.burstCount <= 0 ==> n == 0
    ensures cfg.burstCount > 0 ==>
      && n <= cfg.burstCount && CountAlive(ps) + n <= |ps|
      && (n == cfg.burstCount || CountAlive(ps) + n == |ps|)
  {
    if cfg.burstCount > 0 then Min(cfg.burstCount, |ps| - CountAlive(ps)) else 0
  }

  // ----- Per-particle physics -----

  /**
   * One frame of one slot: a dead slot is untouched; an alive one loses `dt`
   * of lifetime and dies when that leaves it at or below 0, otherwise it is
   * accelerated by gravity, damped and moved.
   */
  function Integrate(p: Particle, dt: real, gravityModifier: real, damping: real): (r: Particle)
    ensures !p.alive ==> r == p
    ensures p.alive ==> r.lifetime == p.lifetime - dt
    ensures r.alive <==> p.alive && p.lifetime - dt > 0.0
    ensures r.maxLifetime == p.maxLifetime && r.size == p.size
    ensures p.alive && !r.alive ==> r == p.(lifetime := p.lifetime - dt, alive := false)
  {
    if !p.alive then p
    else
      var lifetime := p.lifetime - dt;
      if lifetime <= 0.0 then p.(lifetime := lifetime, alive := false)
      else
        var v := Add(p.velocity, MulScalar(MulScalar(Gravity, gravityModifier), dt));
        var v' := MulScalar(v, 1.0 - damping * dt);
        p.(lifetime := lifetime, velocity := v', position := Add(p.position, MulScalar(v', dt)))
  }

  // ----- Depth order -----

  /** Squared distance from the camera. */
  function Depth(p: Particle, cam: Vec3): real
  {
    LengthSquared(Sub(p.position, cam))
  }

  /** Every slot aged and moved by one frame, each independently of the others. */
  function IntegrateAll(ps: seq<Particle>, dt: real, gravityModifier: real, damping: real): (r: seq<Particle>)
    ensures |r| == |ps|
    ensures forall j :: 0 <= j < |ps| ==> r[j] == Integrate(ps[j], dt, gravityModifier, damping)
  {
    seq(|ps|, j requires 0 <= j < |ps| => Integrate(ps[j], dt, gravityModifier, damping))
  }

  /** Farthest first: each particle is at least as far as the next. */
  predicate BackToFront(ps: seq<Particle>, cam: Vec3)
  {
    forall j :: 0 <= j < |ps| - 1 ==> Depth(ps[j], cam) >= Depth(ps[j + 1], cam)
  }

  /** Insert `p` after every element at least as far as it (keeps equal depths in arrival order). */
  function InsertByDepth(p: Particle, ps: seq<Particle>, cam: Vec3): (r: seq<Particle>)
    requires BackToFront(ps, cam)
    ensures |r| == |ps| + 1
    ensures multiset(r) == multiset(ps) + multiset{p}
    ensures BackToFront(r, cam)
    ensures r[0] == p || (|ps| > 0 && r[0] == ps[0])
  {
    if |ps| == 0 then [p]
    else if Depth(ps[0], cam) >= Depth(p, cam) then
      assert ps == [ps[0]] + ps[1..];
      [ps[0]] + InsertByDepth(p, ps[1..], cam)
    else [p] + ps
  }

  /** A stable sort by non-increasing depth. */
  function SortByDepth(ps: seq<Particle>, cam: Vec3): (r: seq<Particle>)
    ensures |r| == |ps|
    ensures multiset(r) == multiset(ps)
    ensures BackToFront(r, cam)
  {
    if |ps| == 0 then []
    else
      assert ps == ps[..|ps| - 1] + [ps[|ps| - 1]];
      InsertByDepth(ps[|ps| - 1], SortByDepth(ps[..|ps| - 1], cam), cam)
  }

  /** Inserting a particle no farther than the last one appends it. */
  lemma {:induction false} InsertNearestAppends(p: Particle, ps: seq<Particle>, cam: Vec3)
    requires BackToFront(ps, cam)
    requires |ps| > 0 ==> Depth(ps[|ps| - 1], cam) >= Depth(p, cam)
    ensures InsertByDepth(p, ps, cam) == ps + [p]
  {
    if |ps| > 0 {
      var tail := ps[1..];
      BackToFrontPairwise(ps, cam, 0, |ps| - 1);
      assert Depth(ps[0], cam) >= Depth(p, cam);
      assert BackToFront(tail, cam) by {
        forall j | 0 <= j < |tail| - 1
          ensures Depth(tail[j], cam) >= Depth(tail[j + 1], cam)
        {
          assert tail[j] == ps[j + 1] && tail[j + 1] == ps[j + 2];
        }
      }
      if |tail| > 0 {
        assert tail[|tail| - 1] == ps[|ps| - 1];
      }
      InsertNearestAppends(p, tail, cam);
      assert InsertByDepth(p, ps, cam) == [ps[0]] + InsertByDepth(p, tail, cam);
      assert ps == [ps[0]] + tail;
    }
  }

  /**
   * Sorting a list that is already back to front changes nothing, so
   * particles of equal depth keep their slot order.
   */
  lemma {:induction false} SortByDepthKeepsSorted(ps: seq<Particle>, cam: Vec3)
    requires BackToFront(ps, cam)
    ensures SortByDepth(ps, cam) == ps
  {
    if |ps| > 0 {
      var init := ps[..|ps| - 1];
      assert BackToFront(init, cam);
      SortByDepthKeepsSorted(init, cam);
      if |init| > 0 {
        assert init[|init| - 1] == ps[|ps| - 2];
      }
      InsertNearestAppends(ps[|ps| - 1], init, cam);
      assert init + [ps[|ps| - 1]] == ps;
    }
  }

  /** Back-to-front order compares every pair, not just neighbours. */
  lemma {:induction false} BackToFrontPairwise(ps: seq<Particle>, cam: Vec3, i: nat, j: nat)
    requires BackToFront(ps, cam) && i <= j < |ps|
    ensures Depth(ps[i], cam) >= Depth(ps[j], cam)
    decreases j - i
  {
    if i < j {
      BackToFrontPairwise(ps, cam, i + 1, j);
    }
  }

  // ----- Billboard geometry -----

  function Clamp(x: real, lo: real, hi: real): (r: real)
    requires lo <= hi
    ensures lo <= r <= hi
    ensures lo <= x <= hi ==> r == x
  {
    if x < lo then lo else if x > hi then hi else x
  }

  /** How far through its life a particle is: 0 when new, 1 when expired. */
  function AgeFactor(p: Particle): (t: real)
    requires p.maxLifetime != 0.0
    ensures 0.0 <= t <= 1.0
    ensures p.lifetime == p.maxLifetime ==> t == 0.0
  {
    1.0 - Clamp(p.lifetime / p.maxLifetime, 0.0, 1.0)
  }

  /** One vertex: position, texture coordinates, colour and alpha. */
  datatype Corner = Corner(pos: Vec3, u: real, v: real)

  datatype Rgba = Rgba(r: real, g: real, b: real, a: real)

  /** The nine floats of a vertex: position, texture coordinates, then colour with alpha; the reader recovers both. */
  function VertexFloats(c: Corner, color: Rgba): (r: seq<real>)
    ensures |r| == FloatsPerVertex
    ensures ReadVertex(r) == (c, color)
  {
    [c.pos.x, c.pos.y, c.pos.z, c.u, c.v, color.r, color.g, color.b, color.a]
  }

  /** How the vertex layout is read back: floats 0-2 the position, 3-4 the texture coordinates, 5-8 the colour. */
  function ReadVertex(f: seq<real>): (Corner, Rgba)
    requires |f| == FloatsPerVertex
  {
    (Corner(Vec3(f[0], f[1], f[2]), f[3], f[4]), Rgba(f[5], f[6], f[7], f[8]))
  }

  /** The six corners of the quad: triangles BL, BR, TR and BL, TR, TL. */
  function Corners(p: Particle, cfg: ParticleConfig, camRight: Vec3, camUp: Vec3): (r: seq<Corner>)
    requires p.maxLifetime != 0.0
    ensures |r| == VerticesPerParticle
  {
    var t := AgeFactor(p);
    var half := Lerp(p.size, cfg.endSize, t) * 0.5;
    var right := MulScalar(camRight, half);
    var up := MulScalar(camUp, half);
    var bl := Sub(Sub(p.position, right), up);
    var br := Sub(Add(p.position, right), up);
    var tr := Add(Add(p.position, right), up);
    var tl := Add(Sub(p.position, right), up);
    [Corner(bl, 0.0, 0.0), Corner(br, 1.0, 0.0), Corner(tr, 1.0, 1.0),
     Corner(bl, 0.0, 0.0), Corner(tr, 1.0, 1.0), Corner(tl, 0.0, 1.0)]
  }

  /** The colour of a particle: start colour and alpha blended toward the end ones by age. */
  function Tint(p: Particle, cfg: ParticleConfig): (r: Rgba)
    requires p.maxLifetime != 0.0
    ensures Between(r.r, cfg.startColor.r, cfg.endColor.r) && Between(r.g, cfg.startColor.g, cfg.endColor.g)
    ensures Between(r.b, cfg.startColor.b, cfg.endColor.b) && Between(r.a, cfg.startAlpha, cfg.endAlpha)
  {
    var t := AgeFactor(p);
    Rgba(Lerp(cfg.startColor.r, cfg.endColor.r, t), Lerp(cfg.startColor.g, cfg.endColor.g, t),
         Lerp(cfg.startColor.b, cfg.endColor.b, t), Lerp(cfg.startAlpha, cfg.endAlpha, t))
  }

  /**
   * The tint fades with age: a new particle has the start tint, an expired
   * one the end tint, and the alpha stays between the two in between.
   */
  lemma TintFades(p: Particle, cfg: ParticleConfig)
    requires p.maxLifetime != 0.0
    ensures var c := Tint(p, cfg);
      && (p.lifetime == p.maxLifetime ==>
            c == Rgba(cfg.startColor.r, cfg.startColor.g, cfg.startColor.b, cfg.startAlpha))
      && (p.maxLifetime > 0.0 && p.lifetime <= 0.0 ==>
            c == Rgba(cfg.endColor.r, cfg.endColor.g, cfg.endColor.b, cfg.endAlpha))
      && (cfg.startAlpha <= cfg.endAlpha ==> cfg.startAlpha <= c.a <= cfg.endAlpha)
      && (cfg.endAlpha <= cfg.startAlpha ==> cfg.endAlpha <= c.a <= cfg.startAlpha)
  {
    var t := AgeFactor(p);
    if p.maxLifetime > 0.0 && p.lifetime <= 0.0 {
      assert p.lifetime / p.maxLifetime <= 0.0;
      assert t == 1.0;
    }
    if cfg.endAlpha <= cfg.startAlpha {
      assert Lerp(cfg.startAlpha, cfg.endAlpha, t) == Lerp(cfg.endAlpha, cfg.startAlpha, 1.0 - t);
    }
  }

  /** The floats of the first `n` corners of a list, vertex after vertex. */
  function CornerFloats(cs: seq<Corner>, color: Rgba): (r: seq<real>)
    ensures |r| == FloatsPerVertex * |cs|
  {
    if |cs| == 0 then [] else CornerFloats(cs[..|cs| - 1], color) + VertexFloats(cs[|cs| - 1], color)
  }

  /** One more corner appends its vertex to what is already written. */
  lemma CornerFloatsSnoc(data: seq<real>, cs: seq<Corner>, c: nat, color: Rgba)
    requires c < |cs|
    ensures data + CornerFloats(cs[..c + 1], color) == data + CornerFloats(cs[..c], color) + VertexFloats(cs[c], color)
  {
    assert cs[..c + 1][..c] == cs[..c];
  }

  /** Alive particles have a nonzero lifetime span (the age factor divides by it). */
  predicate SpansNonzero(ps: seq<Particle>)
  {
    forall j :: 0 <= j < |ps| && ps[j].alive ==> ps[j].maxLifetime != 0.0
  }

  /** The vertex data of all alive particles, in slot order, with no capacity limit. */
  function BillboardFloats(ps: seq<Particle>, cfg: ParticleConfig, camRight: Vec3, camUp: Vec3): (r: seq<real>)
    requires SpansNonzero(ps)
    ensures |r| == FloatsPerParticle * CountAlive(ps)
  {
    if |ps| == 0 then []
    else
      var p := ps[|ps| - 1];
      var init := BillboardFloats(ps[..|ps| - 1], cfg, camRight, camUp);
      if p.alive then init + CornerFloats(Corners(p, cfg, camRight, camUp), Tint(p, cfg)) else init
  }

  /** One more slot adds that slot's quad when it is alive, and nothing otherwise. */
  lemma BillboardFloatsSnoc(ps: seq<Particle>, i: nat, cfg: ParticleConfig, camRight: Vec3, camUp: Vec3)
    requires SpansNonzero(ps) && i < |ps|
    ensures SpansNonzero(ps[..i]) && SpansNonzero(ps[..i + 1])
    ensures BillboardFloats(ps[..i + 1], cfg, camRight, camUp)
         == BillboardFloats(ps[..i], cfg, camRight, camUp)
            + (if ps[i].alive then CornerFloats(Corners(ps[i], cfg, camRight, camUp), Tint(ps[i], cfg)) else [])
  {
    assert ps[..i + 1][..i] == ps[..i];
  }

  /** The floats of whole particles split into whole vertices. */
  lemma WholeVertices(k: nat)
    ensures (FloatsPerParticle * k) % FloatsPerVertex == 0
  {
    assert FloatsPerParticle * k == FloatsPerVertex * (VerticesPerParticle * k);
  }

  /** Whole vertices appended to whole vertices leave whole vertices. */
  lemma VertexAligned(d: nat, k: nat)
    requires d % FloatsPerVertex == 0
    ensures (d + FloatsPerVertex * k) % FloatsPerVertex == 0
  {
    assert d + FloatsPerVertex * k == FloatsPerVertex * (d / FloatsPerVertex + k);
  }

  /** `data` written over the start of `base`, as far as whole vertices fit; the rest of `base` kept. */
  function Overlay(base: seq<real>, data: seq<real>): (r: seq<real>)
    ensures |r| == |base|
    ensures var n := Min(|data|, FloatsPerVertex * (|base| / FloatsPerVertex));
      r[..n] == data[..n] && r[n..] == base[n..]
  {
    var n := Min(|data|, FloatsPerVertex * (|base| / FloatsPerVertex));
    data[..n] + base[n..]
  }

  /** With room for every alive particle, the buffer starts with all their quads and 6 vertices each are counted. */
  lemma OverlayFits(base: seq<real>, data: seq<real>, alive: nat)
    requires |data| == FloatsPerParticle * alive && |base| >= |data|
    ensures Overlay(base, data)[..|data|] == data
    ensures Min(|data| / FloatsPerVertex, |base| / FloatsPerVertex) == VerticesPerParticle * alive
  {
    var k := VerticesPerParticle * alive;
    assert |data| == FloatsPerVertex * k;
    assert |data| / FloatsPerVertex == k;
    var q := |base| / FloatsPerVertex;
    assert FloatsPerVertex * q + |base| % FloatsPerVertex == |base|;
    assert k <= q;
    assert Min(|data|, FloatsPerVertex * q) == |data|;
  }

  // ----- The pool -----

  /** The whole per-emitter state, updated in place every frame. */
  class ParticlePool {
    var particles: seq<Particle>
    var emitAccumulator: real
    var vertexData: seq<real>
    var vertexCount: nat
    var aliveCount: nat

    /**
     * The vertex buffer holds 54 floats per slot, and an alive particle has
     * not outlived its span (it starts at `lifetime == maxLifetime` and only
     * loses lifetime).
     */
    ghost predicate Valid()
      reads this`particles, this`vertexData
    {
      && |vertexData| == FloatsPerParticle * |particles|
      && LiveWithinSpan(particles)
    }

    constructor (maxParticles: nat)
      ensures particles == seq(maxParticles, _ => DeadParticle)
      ensures vertexData == seq(FloatsPerParticle * maxParticles, _ => 0.0)
      ensures emitAccumulator == 0.0 && vertexCount == 0 && aliveCount == 0
      ensures Valid()
    {
      var slots := [];
      for i := 0 to maxParticles
        invariant slots == seq(i, _ => DeadParticle)
      {
        slots := slots + [DeadParticle];
      }
      particles := slots;
      emitAccumulator := 0.0;
      vertexData := seq(FloatsPerParticle * maxParticles, _ => 0.0);
      vertexCount := 0;
      aliveCount := 0;
    }

    /** Match the configured capacity: new slots are dead, surviving slots keep their content. */
    method Resize(maxParticles: nat)
      requires Valid()
      modifies this`particles, this`vertexData
      ensures Valid()
      ensures particles == Vectors.Resize(old(particles), maxParticles, DeadParticle)
      ensures |old(particles)| == maxParticles ==> vertexData == old(vertexData)
      ensures vertexData == Vectors.Resize(old(vertexData), FloatsPerParticle * maxParticles, 0.0)
    {
      if |particles| != maxParticles {
        particles := Vectors.Resize(particles, maxParticles, DeadParticle);
        vertexData := Vectors.Resize(vertexData, maxParticles * 6 * 9, 0.0);
      }
    }

    /**
     * Revive the first dead slot with a freshly drawn particle at `origin`.
     * Returns false, drawing nothing and changing nothing, when all slots are alive.
     */
    method Emit(origin: Vec3, cfg: ParticleConfig, rng: RandomState) returns (emitted: bool)
      modifies this`particles, rng
      ensures emitted <==> FirstDead(old(particles)) < |old(particles)|
      ensures emitted ==>
        var spawn := Spawn(origin, cfg, old(rng.state));
        particles == old(particles)[FirstDead(old(particles)) := spawn.0] && rng.state == spawn.1
      ensures !emitted ==> particles == old(particles) && rng.state == old(rng.state)
      ensures (particles, rng.state) == EmitOnce(old(particles), origin, cfg, old(rng.state))
      ensures old(Valid()) ==> Valid()
    {
      var i := 0;
      while i < |particles|
        invariant 0 <= i <= |particles|
        invariant forall j :: 0 <= j < i ==> particles[j].alive
        invariant particles == old(particles) && rng.state == old(rng.state)
      {
        if !particles[i].alive {
          var vx := RandRange(rng, cfg.velocityMin.x, cfg.velocityMax.x);
          var vy := RandRange(rng, cfg.velocityMin.y, cfg.velocityMax.y);
          var vz := RandRange(rng, cfg.velocityMin.z, cfg.velocityMax.z);
          var maxLifetime := RandRange(rng, cfg.lifetimeMin, cfg.lifetimeMax);
          var size := RandRange(rng, cfg.startSizeMin, cfg.startSizeMax);
          particles := particles[i := Particle(origin, Vec3(vx, vy, vz), maxLifetime, maxLifetime, size, true)];
          return true;
        }
        i := i + 1;
      }
      return false;
    }

    /**
     * Burst emission (the first step of `update`): a positive burst count
     * asks for that many emissions, stopping at the first failure, and is
     * then acknowledged by resetting it to 0.
     */
    method EmitBurst(origin: Vec3, cfg: ParticleConfig, rng: RandomState) returns (cfg': ParticleConfig)
      requires Valid()
      modifies this`particles, rng
      ensures Valid()
      ensures cfg' == if cfg.burstCount > 0 then cfg.(burstCount := 0) else cfg
      ensures |particles| == |old(particles)|
      ensures forall j :: 0 <= j < |particles| && old(particles)[j].alive ==> particles[j] == old(particles)[j]
      ensures CountAlive(particles) == CountAlive(old(particles)) + BurstEmissions(old(particles), cfg)
      ensures (particles, rng.state) == EmitN(old(particles), BurstEmissions(old(particles), cfg), origin, cfg, old(rng.state))
    {
      cfg' := cfg;
      if cfg.burstCount > 0 {
        ghost var ps0, s0 := particles, rng.state;
        var count := EmitMany(origin, cfg, cfg.burstCount, rng);
        EmitNWithinSpan(ps0, count, origin, cfg, s0);
        cfg' := cfg'.(burstCount := 0);
      }
    }

    /** Up to `n` emissions, stopping at the first one that finds the pool full; returns how many succeeded. */
    method EmitMany(origin: Vec3, cfg: ParticleConfig, n: nat, rng: RandomState) returns (count: nat)
      modifies this`particles, rng
      ensures count == Min(n, |old(particles)| - CountAlive(old(particles)))
      ensures (particles, rng.state) == EmitN(old(particles), count, origin, cfg, old(rng.state))
    {
      ghost var ps0, s0 := particles, rng.state;
      ghost var dead := |ps0| - CountAlive(ps0);
      count := 0;
      while count < n
        invariant count <= n && count <= dead
        invariant (particles, rng.state) == EmitN(ps0, count, origin, cfg, s0)
      {
        EmitNNext(ps0, count, origin, cfg, s0);
        var ok := Emit(origin, cfg, rng);
        if !ok {
          break;
        }
        count := count + 1;
      }
    }

    /**
     * Continuous emission (the second step of `update`): the frame's gain,
     * `emissionRate * dt` (the caller computes it), is added to the
     * accumulator, and each whole unit in it buys one
     * emission, until it drops below 1 or the pool is full. Returns the
     * number of particles emitted.
     */
    method EmitContinuous(origin: Vec3, cfg: ParticleConfig, gain: real, rng: RandomState) returns (emitted: nat)
      requires Valid()
      modifies this`particles, this`emitAccumulator, rng
      ensures Valid()
      ensures |particles| == |old(particles)|
      ensures forall j :: 0 <= j < |particles| && old(particles)[j].alive ==> particles[j] == old(particles)[j]
      ensures CountAlive(particles) == CountAlive(old(particles)) + emitted
      ensures emitAccumulator == old(emitAccumulator) + gain - emitted as real
      ensures emitted > 0 ==> emitAccumulator >= 0.0
      ensures emitAccumulator >= 1.0 ==> CountAlive(particles) == |particles|
      ensures (particles, rng.state) == EmitN(old(particles), emitted, origin, cfg, old(rng.state))
    {
      emitAccumulator := emitAccumulator + gain;
      ghost var ps0, s0 := particles, rng.state;
      emitted := Drain(origin, cfg, rng);
      EmitNWithinSpan(ps0, emitted, origin, cfg, s0);
    }

    /**
     * Spend the accumulator one whole unit per emission, stopping when it
     * drops below 1 or when the pool is full.
     */
    method Drain(origin: Vec3, cfg: ParticleConfig, rng: RandomState) returns (emitted: nat)
      modifies this`particles, this`emitAccumulator, rng
      ensures emitted <= |old(particles)| - CountAlive(old(particles))
      ensures (particles, rng.state) == EmitN(old(particles), emitted, origin, cfg, old(rng.state))
      ensures emitAccumulator == old(emitAccumulator) - emitted as real
      ensures emitted > 0 ==> emitAccumulator >= 0.0
      ensures emitAccumulator >= 1.0 ==> emitted == |old(particles)| - CountAlive(old(particles))
    {
      ghost var ps0, s0 := particles, rng.state;
      ghost var dead := |ps0| - CountAlive(ps0);
      emitted := 0;
      var acc := emitAccumulator;
      ghost var acc0, spent := acc, 0.0;
      while acc >= 1.0
        invariant emitted <= dead
        invariant (particles, rng.state) == EmitN(ps0, emitted, origin, cfg, s0)
        invariant spent == emitted as real
        invariant acc == acc0 - spent
        invariant emitted > 0 ==> acc >= 0.0
        decreases dead - emitted
      {
        EmitNNext(ps0, emitted, origin, cfg, s0);
        var ok := Emit(origin, cfg, rng);
        if !ok {
          break;
        }
        acc := acc - 1.0;
        emitted, spent := emitted + 1, spent + 1.0;
      }
      emitAccumulator := acc;
    }

    /** Age and move every alive particle; `aliveCount` becomes the number still alive. */
    method Simulate(dt: real, gravityModifier: real, damping: real)
      modifies this`particles, this`aliveCount
      ensures |particles| == |old(particles)|
      ensures forall j :: 0 <= j < |particles| ==>
        particles[j] == Integrate(old(particles)[j], dt, gravityModifier, damping)
      ensures aliveCount == CountAlive(particles)
    {
      ghost var ps0 := particles;
      var alive := 0;
      for i := 0 to |particles|
        invariant |particles| == |ps0|
        invariant forall j :: 0 <= j < i ==> particles[j] == Integrate(ps0[j], dt, gravityModifier, damping)
        invariant forall j :: i <= j < |particles| ==> particles[j] == ps0[j]
        invariant alive == CountAlive(particles[..i])
      {
        AliveOfSnoc(particles, i);
        ghost var prev := particles;
        var p := particles[i];
        if !p.alive {
          continue;
        }
        p := p.(lifetime := p.lifetime - dt);
        if p.lifetime <= 0.0 {
          p := p.(alive := false);
          particles := particles[i := p];
          assert particles[..i + 1] == prev[..i] + [p];
          continue;
        }
        p := p.(velocity := Add(p.velocity, MulScalar(MulScalar(Gravity, gravityModifier), dt)));
        p := p.(velocity := MulScalar(p.velocity, 1.0 - damping * dt));
        p := p.(position := Add(p.position, MulScalar(p.velocity, dt)));
        particles := particles[i := p];
        assert particles[..i + 1] == prev[..i] + [p];
        alive := alive + 1;
      }
      assert particles[..|particles|] == particles;
      aliveCount := alive;
    }
  
    /**
     * The first half of `sort_back_to_front`: swap each alive slot down to
     * the write position. The alive particles end up in front, in their
     * original order; returns how many there are.
     */
    method PartitionAlive() returns (write: nat)
      modifies this`particles
      ensures |particles| == |old(particles)| && write <= |particles|
      ensures multiset(particles) == multiset(old(particles))
      ensures particles[..write] == AliveOf(old(particles))
      ensures forall j :: write <= j < |particles| ==> !particles[j].alive
    {
      ghost var ps0 := particles;
      var n := |particles|;
      write := 0;
      for i := 0 to n
        invariant |particles| == n
        invariant write <= i
        invariant multiset(particles) == multiset(ps0)
        invariant forall j :: write <= j < i ==> !particles[j].alive
        invariant forall j :: i <= j < n ==> particles[j] == ps0[j]
        invariant particles[..write] == AliveOf(ps0[..i])
      {
        PartitionStep(particles, ps0, i, write);
        if particles[i].alive {
          if i != write {
            particles := Swap(particles, i, write);
          }
          write := write + 1;
        }
      }
      assert ps0[..n] == ps0;
    }

    /**
     * Move the alive slots to the front, then sort them farthest first
     * (`sort_by` is stable). The dead slots end up after them, in some
     * order; nothing is lost or duplicated.
     */
    method SortBackToFront(camPos: Vec3)
      modifies this`particles
      ensures |particles| == |old(particles)|
      ensures multiset(particles) == multiset(old(particles))
      ensures var k := CountAlive(old(particles));
        && (forall j :: 0 <= j < k ==> particles[j].alive)
        && (forall j :: k <= j < |particles| ==> !particles[j].alive)
        && particles[..k] == SortByDepth(AliveOf(old(particles)), camPos)
        && BackToFront(particles[..k], camPos)
    {
      var write := PartitionAlive();
      ghost var partitioned := particles;
      assert partitioned == partitioned[..write] + partitioned[write..];
      var sorted := SortByDepth(particles[..write], camPos);
      PermutationKeepsAlive(particles[..write], sorted);
      particles := sorted + particles[write..];
      assert particles[..write] == sorted;
    }

    /**
     * Write one quad per alive particle, vertex by vertex, skipping every
     * vertex that would not fit whole in the buffer. The buffer keeps its
     * length; `vertexCount` is the number of vertices written.
     */
    method BuildBillboards(cfg: ParticleConfig, camRight: Vec3, camUp: Vec3)
      requires SpansNonzero(particles)
      modifies this`vertexData, this`vertexCount
      ensures var data := BillboardFloats(particles, cfg, camRight, camUp);
        && vertexData == Overlay(old(vertexData), data)
        && vertexCount == Min(|data| / FloatsPerVertex, |old(vertexData)| / FloatsPerVertex)
    {
      ghost var vd0 := vertexData;
      var offset := 0;
      var vertCount := 0;
      for i := 0 to |particles|
        invariant SpansNonzero(particles[..i])
        invariant |vertexData| == |vd0|
        invariant offset == FloatsPerVertex * vertCount
        invariant vertexData == Overlay(vd0, BillboardFloats(particles[..i], cfg, camRight, camUp))
        invariant vertCount == Min(|BillboardFloats(particles[..i], cfg, camRight, camUp)| / FloatsPerVertex, |vd0| / FloatsPerVertex)
      {
        offset, vertCount := WriteParticle(vd0, particles, i, cfg, camRight, camUp, offset, vertCount);
      }
      assert particles[..|particles|] == particles;
      vertexCount := vertCount;
    }

    /** One pass of the particle loop over `ps`: a dead slot is skipped, an alive one has its six corners written. */
    method WriteParticle(ghost vd0: seq<real>, ps: seq<Particle>, i: nat, cfg: ParticleConfig, camRight: Vec3, camUp: Vec3,
                         offset0: nat, count0: nat) returns (offset: nat, vertCount: nat)
      requires SpansNonzero(ps) && i < |ps|
      requires |vertexData| == |vd0| && offset0 == FloatsPerVertex * count0
      requires vertexData == Overlay(vd0, BillboardFloats(ps[..i], cfg, camRight, camUp))
      requires count0 == Min(|BillboardFloats(ps[..i], cfg, camRight, camUp)| / FloatsPerVertex, |vd0| / FloatsPerVertex)
      modifies this`vertexData
      ensures SpansNonzero(ps[..i + 1])
      ensures |vertexData| == |vd0| && offset == FloatsPerVertex * vertCount
      ensures vertexData == Overlay(vd0, BillboardFloats(ps[..i + 1], cfg, camRight, camUp))
      ensures vertCount == Min(|BillboardFloats(ps[..i + 1], cfg, camRight, camUp)| / FloatsPerVertex, |vd0| / FloatsPerVertex)
    {
      BillboardFloatsSnoc(ps, i, cfg, camRight, camUp);
      ghost var data, next := BillboardFloats(ps[..i], cfg, camRight, camUp), BillboardFloats(ps[..i + 1], cfg, camRight, camUp);
      offset, vertCount := offset0, count0;
      var p := ps[i];
      if p.alive {
        var corners, color := Corners(p, cfg, camRight, camUp), Tint(p, cfg);
        assert next == data + CornerFloats(corners, color);
        WholeVertices(CountAlive(ps[..i]));
        offset, vertCount := WriteCorners(vd0, data, corners, color, offset, vertCount);
      } else {
        assert next == data;
      }
    }

    /**
     * The corner loop of `build_billboards`: each vertex is written at
     * `offset` when all 9 of its floats fit, and counted.
     */
    method WriteCorners(ghost vd0: seq<real>, ghost data: seq<real>, corners: seq<Corner>, color: Rgba,
                        offset0: nat, count0: nat) returns (offset: nat, vertCount: nat)
      requires |data| % FloatsPerVertex == 0 && |vertexData| == |vd0|
      requires vertexData == Overlay(vd0, data)
      requires offset0 == FloatsPerVertex * count0
      requires count0 == Min(|data| / FloatsPerVertex, |vd0| / FloatsPerVertex)
      modifies this`vertexData
      ensures |vertexData| == |vd0|
      ensures vertexData == Overlay(vd0, data + CornerFloats(corners, color))
      ensures offset == FloatsPerVertex * vertCount
      ensures vertCount == Min(|data + CornerFloats(corners, color)| / FloatsPerVertex, |vd0| / FloatsPerVertex)
    {
      offset, vertCount := offset0, count0;
      ghost var written := data;
      for c := 0 to |corners|
        invariant |vertexData| == |vd0| && offset == FloatsPerVertex * vertCount
        invariant written == data + CornerFloats(corners[..c], color) && |written| % FloatsPerVertex == 0
        invariant vertexData == Overlay(vd0, written)
        invariant vertCount == Min(|written| / FloatsPerVertex, |vd0| / FloatsPerVertex)
      {
        var vertex := VertexFloats(corners[c], color);
        WriteVertexStep(vd0, written, vertex, vertexData, vertCount);
        CornerFloatsSnoc(data, corners, c, color);
        VertexAligned(|written|, 1);
        if offset + FloatsPerVertex <= |vertexData| {
          vertexData := vertexData[..offset] + vertex + vertexData[offset + FloatsPerVertex..];
          offset := offset + FloatsPerVertex;
          vertCount := vertCount + 1;
        }
        written := written + vertex;
      }
      assert corners[..|corners|] == corners;
    }

    /**
     * The first half of a frame: match the configured capacity, then emit the
     * burst and the continuous share, `gain` (`emissionRate * dt`). Live
     * particles stay where they are.
     * Returns the configuration with the burst acknowledged and the number
     * of continuous emissions.
     */
    method Replenish(origin: Vec3, cfg: ParticleConfig, gain: real, rng: RandomState) returns (cfg': ParticleConfig, emitted: nat)
      requires Valid()
      modifies this`particles, this`vertexData, this`emitAccumulator, rng
      ensures Valid()
      ensures cfg' == if cfg.burstCount > 0 then cfg.(burstCount := 0) else cfg
      ensures var resized := Vectors.Resize(old(particles), cfg.maxParticles, DeadParticle);
        && |particles| == cfg.maxParticles
        && (forall j :: 0 <= j < |particles| && resized[j].alive ==> particles[j] == resized[j])
        && CountAlive(particles) == CountAlive(resized) + BurstEmissions(resized, cfg) + emitted
      ensures emitAccumulator == old(emitAccumulator) + gain - emitted as real
      ensures emitAccumulator >= 1.0 ==> CountAlive(particles) == |particles|
      ensures var resized := Vectors.Resize(old(particles), cfg.maxParticles, DeadParticle);
        var afterBurst := EmitN(resized, BurstEmissions(resized, cfg), origin, cfg, old(rng.state));
        (particles, rng.state) == EmitN(afterBurst.0, emitted, origin, cfg', afterBurst.1)
    {
      Resize(cfg.maxParticles);
      ghost var resized := particles;
      assert resized == Vectors.Resize(old(particles), cfg.maxParticles, DeadParticle);
      cfg' := EmitBurst(origin, cfg, rng);
      ghost var burst, sBurst := particles, rng.state;
      assert (burst, sBurst) == EmitN(resized, BurstEmissions(resized, cfg), origin, cfg, old(rng.state));
      ghost var acc0 := emitAccumulator;
      assert acc0 == old(emitAccumulator);
      emitted := EmitContinuous(origin, cfg', gain, rng);
      assert emitAccumulator == acc0 + gain - emitted as real;
      assert (particles, rng.state) == EmitN(burst, emitted, origin, cfg', sBurst);
      assert CountAlive(particles) == CountAlive(burst) + emitted;
      forall j | 0 <= j < |particles| && resized[j].alive
        ensures particles[j] == resized[j]
      {
        assert burst[j] == resized[j];
      }
    }

    /**
     * The middle of a frame: age and move every slot, then sort the live
     * particles to the front, farthest first. A live particle keeps a
     * positive lifetime no longer than its span.
     */
    method AgeAndSort(dt: real, gravityModifier: real, damping: real, camPos: Vec3)
      requires dt >= 0.0
      requires LiveWithinSpan(particles)
      modifies this`particles, this`aliveCount
      ensures |particles| == |old(particles)|
      ensures aliveCount == CountAlive(particles) <= |particles|
      ensures var simulated := IntegrateAll(old(particles), dt, gravityModifier, damping);
        && multiset(particles) == multiset(simulated)
        && aliveCount == CountAlive(simulated)
        && particles[..aliveCount] == SortByDepth(AliveOf(simulated), camPos)
      ensures forall j :: 0 <= j < aliveCount ==> particles[j].alive
      ensures forall j :: aliveCount <= j < |particles| ==> !particles[j].alive
      ensures forall j :: 0 <= j < |particles| && particles[j].alive ==> 0.0 < particles[j].lifetime <= particles[j].maxLifetime
      ensures BackToFront(particles[..aliveCount], camPos)
    {
      Simulate(dt, gravityModifier, damping);
      ghost var simulated := particles;
      assert simulated == IntegrateAll(old(particles), dt, gravityModifier, damping);
      assert forall j :: 0 <= j < |particles| && particles[j].alive ==> 0.0 < particles[j].lifetime <= particles[j].maxLifetime;
      SortBackToFront(camPos);
      forall j | 0 <= j < |particles| && particles[j].alive
        ensures 0.0 < particles[j].lifetime <= particles[j].maxLifetime
      {
        assert particles[j] in multiset(simulated);
      }
      CountAlivePartitioned(particles, aliveCount);
    }

    /**
     * The second half of a frame: age and move every slot, sort the live
     * particles to the front, farthest first, and build their quads into
     * the vertex buffer.
     */
    method Refresh(dt: real, cfg: ParticleConfig, camPos: Vec3, camRight: Vec3, camUp: Vec3)
      requires Valid() && dt >= 0.0
      modifies this`particles, this`aliveCount, this`vertexData, this`vertexCount
      ensures Valid()
      ensures |particles| == |old(particles)|
      ensures aliveCount == CountAlive(particles) <= |particles|
      ensures var simulated := IntegrateAll(old(particles), dt, cfg.gravityModifier, cfg.damping);
        && multiset(particles) == multiset(simulated)
        && aliveCount == CountAlive(simulated)
        && particles[..aliveCount] == SortByDepth(AliveOf(simulated), camPos)
      ensures forall j :: 0 <= j < aliveCount ==> particles[j].alive
      ensures forall j :: aliveCount <= j < |particles| ==> !particles[j].alive
      ensures forall j :: 0 <= j < |particles| && particles[j].alive ==> 0.0 < particles[j].lifetime <= particles[j].maxLifetime
      ensures BackToFront(particles[..aliveCount], camPos)
      ensures SpansNonzero(particles)
      ensures vertexCount == VerticesPerParticle * aliveCount
      ensures vertexData[..FloatsPerParticle * aliveCount] == BillboardFloats(particles, cfg, camRight, camUp)
    {
      AgeAndSort(dt, cfg.gravityModifier, cfg.damping, camPos);
      assert SpansNonzero(particles);
      ghost var vdBefore := vertexData;
      assert |vdBefore| == FloatsPerParticle * |particles|;
      ghost var data := BillboardFloats(particles, cfg, camRight, camUp);
      BuildBillboards(cfg, camRight, camUp);
      OverlayFits(vdBefore, data, aliveCount);
    }

    /**
     * The whole frame: replenish, age and move, sort back to front, build
     * the quads. Returns the configuration with the burst acknowledged; the
     * ghost results name the pool after emission and the number of
     * continuous emissions, which the postconditions relate to the old pool.
     */
    method Update(dt: real, origin: Vec3, cfg: ParticleConfig, camPos: Vec3, camRight: Vec3, camUp: Vec3,
                  rng: RandomState) returns (cfg': ParticleConfig, ghost spawned: seq<Particle>, ghost emitted: nat)
      requires Valid() && dt >= 0.0
      modifies this, rng
      ensures Valid()
      ensures cfg' == if cfg.burstCount > 0 then cfg.(burstCount := 0) else cfg
      // the pool after resizing and both emission steps, before ageing
      ensures var resized := Vectors.Resize(old(particles), cfg.maxParticles, DeadParticle);
        var afterBurst := EmitN(resized, BurstEmissions(resized, cfg), origin, cfg, old(rng.state));
        (spawned, rng.state) == EmitN(afterBurst.0, emitted, origin, cfg', afterBurst.1)
      ensures var resized := Vectors.Resize(old(particles), cfg.maxParticles, DeadParticle);
        && |spawned| == cfg.maxParticles
        && (forall j :: 0 <= j < |spawned| && resized[j].alive ==> spawned[j] == resized[j])
        && CountAlive(spawned) == CountAlive(resized) + BurstEmissions(resized, cfg) + emitted
      ensures emitAccumulator == old(emitAccumulator) + cfg.emissionRate * dt - emitted as real
      ensures emitAccumulator >= 1.0 ==> CountAlive(spawned) == |spawned|
      // then every slot is aged, the pool is sorted and the quads are built
      ensures |particles| == cfg.maxParticles
      ensures aliveCount == CountAlive(particles) <= |particles|
      ensures var simulated := IntegrateAll(spawned, dt, cfg.gravityModifier, cfg.damping);
        && multiset(particles) == multiset(simulated)
        && aliveCount == CountAlive(simulated)
        && particles[..aliveCount] == SortByDepth(AliveOf(simulated), camPos)
      ensures forall j :: 0 <= j < aliveCount ==> particles[j].alive
      ensures forall j :: aliveCount <= j < |particles| ==> !particles[j].alive
      ensures forall j :: 0 <= j < |particles| && particles[j].alive ==> 0.0 < particles[j].lifetime <= particles[j].maxLifetime
      ensures BackToFront(particles[..aliveCount], camPos)
      ensures SpansNonzero(particles)
      ensures vertexCount == VerticesPerParticle * aliveCount
      ensures vertexData[..FloatsPerParticle * aliveCount] == BillboardFloats(particles, cfg, camRight, camUp)
    {
      var count;
      cfg', count := Replenish(origin, cfg, cfg.emissionRate * dt, rng);
      spawned, emitted := particles, count;
      Refresh(dt, cfg, camPos, camRight, camUp);
    }
  }

  /** Overlaying one more whole vertex either writes it right after the data so far or, when it does not fit, changes nothing. */
  lemma OverlayStep(base: seq<real>, data: seq<real>, more: seq<real>)
    requires |data| % FloatsPerVertex == 0 && |more| == FloatsPerVertex
    ensures var n := FloatsPerVertex * Min(|data| / FloatsPerVertex, |base| / FloatsPerVertex);
      var vd := Overlay(base, data);
      && n == Min(|data|, FloatsPerVertex * (|base| / FloatsPerVertex))
      && (n + FloatsPerVertex <= |base| ==>
            n == |data| && Overlay(base, data + more) == vd[..n] + more + vd[n + FloatsPerVertex..])
      && (n + FloatsPerVertex > |base| ==> Overlay(base, data + more) == vd)
  {
  }

  /**
   * One corner of the write loop: when the vertex fits after the `count`
   * written ones it is written there and counted, otherwise nothing changes;
   * either way the buffer is the overlay of the longer data.
   */
  lemma WriteVertexStep(base: seq<real>, data: seq<real>, vertex: seq<real>, vd: seq<real>, count: nat)
    requires |data| % FloatsPerVertex == 0 && |vertex| == FloatsPerVertex
    requires vd == Overlay(base, data) && count == Min(|data| / FloatsPerVertex, |base| / FloatsPerVertex)
    ensures var fits := FloatsPerVertex * count + FloatsPerVertex <= |vd|;
      var vd' := if fits then vd[..FloatsPerVertex * count] + vertex + vd[FloatsPerVertex * count + FloatsPerVertex..] else vd;
      var count' := if fits then count + 1 else count;
      && vd' == Overlay(base, data + vertex)
      && count' == Min(|data + vertex| / FloatsPerVertex, |base| / FloatsPerVertex)
  {
    OverlayStep(base, data, vertex);
    var q := |data| / FloatsPerVertex;
    assert |data| == FloatsPerVertex * q;
    assert |data + vertex| == FloatsPerVertex * (q + 1);
    assert |data + vertex| / FloatsPerVertex == q + 1;
  }

  /** A permutation of alive particles holds only alive particles. */
  lemma PermutationKeepsAlive(ps: seq<Particle>, qs: seq<Particle>)
    requires multiset(ps) == multiset(qs)
    requires forall j :: 0 <= j < |ps| ==> ps[j].alive
    ensures forall j :: 0 <= j < |qs| ==> qs[j].alive
  {
    forall j | 0 <= j < |qs|
      ensures qs[j].alive
    {
      assert qs[j] in multiset(ps);
    }
  }

  /** Slots alive exactly before `k` hold `k` alive particles. */
  lemma {:induction false} CountAlivePartitioned(ps: seq<Particle>, k: nat)
    requires k <= |ps|
    requires forall j :: 0 <= j < k ==> ps[j].alive
    requires forall j :: k <= j < |ps| ==> !ps[j].alive
    ensures CountAlive(ps) == k
  {
    if |ps| > 0 {
      var init := ps[..|ps| - 1];
      if k == |ps| {
        CountAlivePartitioned(init, k - 1);
      } else {
        CountAlivePartitioned(init, k);
      }
    }
  }
}
