/**
 * The block-break particle pool (src/effects/particles.ts): a list of live
 * particles, at most 400, each with a position, a velocity, a lifetime and
 * the time it has left. Spawning appends a burst of 18; every frame ages all
 * particles, drops the expired ones and moves the rest under reduced gravity.
 * `Math.random()` is the parameter `rnd`: `rnd(n)` is the n-th number drawn
 * during one call of `Spawn`.
 */
module Particles {
  import opened Wrappers
  import opened Geometry
  import Blocks
  import Config

  datatype Particle = Particle(pos: Vec3, vel: Vec3, life: real, ttl: real, color: string)

  /** `maxParticles` */
  const MaxParticles: nat := 400
  /** `spawnCount` */
  const SpawnCount: nat := 18
  /** The colour of a block without a tint. */
  const White: string := "#ffffff"
  /** The number of random draws one new particle takes. */
  const DrawsPerParticle: nat := 7

  /** The particle colour of a block: its catalog tint, block 1's entry standing in for an unknown id. */
  function ParticleColor(blockId: int): string
  {
    var block := if Blocks.BlockType(blockId).Some? then Blocks.BlockType(blockId).value
                 else Blocks.BlockType(Blocks.GrassId).value;
    block.tint.GetOr(White)
  }

  /** Blocks 1..7 give their tint, air (which has none) gives white, and unknown ids give grass's tint. */
  lemma ParticleColorFallbacks(blockId: int)
    ensures 1 <= blockId <= 7 ==> Some(ParticleColor(blockId)) == Blocks.BlockType(blockId).value.tint
    ensures blockId == Blocks.AirId ==> ParticleColor(blockId) == White
    ensures !(0 <= blockId <= 7) ==> ParticleColor(blockId) == ParticleColor(Blocks.GrassId) == "#6cb340"
  {
  }

  /** The k-th particle of a burst at `position`, drawn from `rnd(7k)` to `rnd(7k + 6)` in source order. */
  function NewParticle(position: Vec3, color: string, rnd: nat -> real, k: nat): Particle
  {
    var n := DrawsPerParticle * k;
    var dir := Vec3((rnd(n) - 0.5) * 3.0, rnd(n + 1) * 3.0, (rnd(n + 2) - 0.5) * 3.0);
    var life := 0.5 + rnd(n + 3) * 0.4;
    var offset := Scale(Vec3(rnd(n + 4) - 0.5, rnd(n + 5) - 0.2, rnd(n + 6) - 0.5), 0.6);
    Particle(Add(position, offset), dir, life, life, color)
  }

  /** The first `count` particles of a burst. */
  function Burst(position: Vec3, color: string, rnd: nat -> real, count: nat): (ps: seq<Particle>)
    ensures |ps| == count
    ensures forall k :: 0 <= k < count ==> ps[k] == NewParticle(position, color, rnd, k)
  {
    if count == 0 then [] else Burst(position, color, rnd, count - 1) + [NewParticle(position, color, rnd, count - 1)]
  }

  /** How many particles a burst adds to a pool of `n`: 18, or as many as still fit under the cap. */
  function SpawnedCount(n: nat): nat
  {
    if n >= MaxParticles then 0
    else if MaxParticles - n < SpawnCount then MaxParticles - n
    else SpawnCount
  }

  /** A particle that has time left and not more than its lifetime. */
  predicate Fresh(p: Particle)
  {
    0.0 < p.ttl <= p.life
  }

  /** One frame for one particle: its velocity loses `gravity * 0.4 * dt` upwards, then it moves by `vel * dt`. */
  function Advance(p: Particle, dt: real): (q: Particle)
  {
    var vel := p.vel.(y := p.vel.y - Config.Gravity * 0.4 * dt);
    Particle(Add(p.pos, Scale(vel, dt)), vel, p.life, p.ttl - dt, p.color)
  }

  /** The particles still alive after a frame of `dt`, each advanced, in their original order. */
  function Survivors(ps: seq<Particle>, dt: real): seq<Particle>
  {
    if ps == [] then []
    else (if ps[0].ttl - dt <= 0.0 then [] else [Advance(ps[0], dt)]) + Survivors(ps[1..], dt)
  }

  class ParticleSystem {
    var alive: seq<Particle>
    /** The count passed to `setDrawRange`. */
    var drawCount: nat

    constructor ()
      ensures alive == [] && drawCount == 0
    {
      alive := [];
      drawCount := 0;
    }

    /**
     * `spawnParticles(system, position, blockId)`: appends the burst, stopping
     * as soon as the pool holds `MaxParticles`.
     */
    method Spawn(position: Vec3, blockId: int, rnd: nat -> real)
      modifies this
      ensures alive == old(alive) + Burst(position, ParticleColor(blockId), rnd, SpawnedCount(|old(alive)|))
      ensures |alive| == MinInt(|old(alive)| + SpawnCount, MaxInt(|old(alive)|, MaxParticles))
      ensures drawCount == old(drawCount)
    {
      SpawnedCountBounds(|alive|);
      SpawnColored(position, ParticleColor(blockId), rnd);
    }

    /** The loop of `spawnParticles`, for the colour of the broken block. */
    method SpawnColored(position: Vec3, color: string, rnd: nat -> real)
      modifies this
      ensures alive == old(alive) + Burst(position, color, rnd, SpawnedCount(|old(alive)|))
      ensures drawCount == old(drawCount)
    {
      var i := 0;
      while i < SpawnCount
        invariant 0 <= i <= SpawnedCount(|old(alive)|)
        invariant |alive| == |old(alive)| + i
        invariant alive == old(alive) + Burst(position, color, rnd, i)
        invariant drawCount == old(drawCount)
      {
        if |alive| >= MaxParticles {
          break;
        }
        var born := NewParticle(position, color, rnd, i);
        BurstGrows(old(alive), position, color, rnd, i);
        alive := alive + [born];
        i := i + 1;
      }
      assert i == SpawnedCount(|old(alive)|);
    }

    /**
     * `updateParticles(system, dt)`: walks the list from the back, removing
     * every particle whose time runs out in this frame and advancing the
     * others; the draw count is the number of survivors, at most `MaxParticles`.
     */
    method Update(dt: real)
      modifies this
      ensures alive == Survivors(old(alive), dt)
      ensures drawCount == MinInt(|alive|, MaxParticles)
    {
      ghost var start := alive;
      var ptr := 0;
      var i := |alive|;
      while i > 0
        invariant 0 <= i <= |start|
        invariant alive == start[..i] + Survivors(start[i..], dt)
        invariant ptr == MinInt(|Survivors(start[i..], dt)|, MaxParticles)
      {
        SurvivorsStep(start, i - 1, dt);
        assert start[..i] == start[..i - 1] + [start[i - 1]];
        ghost var rest := Survivors(start[i..], dt);
        var p := alive[i - 1];
        assert alive == start[..i - 1] + [p] + rest;
        var ttl := p.ttl - dt;
        if ttl <= 0.0 {
          ReplaceAt(start[..i - 1], p, rest, []);
          alive := alive[..i - 1] + alive[i..];
        } else {
          var vel := p.vel.(y := p.vel.y - Config.Gravity * 0.4 * dt);
          var q := Particle(Add(p.pos, Scale(vel, dt)), vel, p.life, ttl, p.color);
          assert q == Advance(p, dt);
          ReplaceAt(start[..i - 1], p, rest, [q]);
          alive := alive[..i - 1] + [q] + alive[i..];
          if ptr < MaxParticles {
            ptr := ptr + 1;
          }
        }
        i := i - 1;
      }
      drawCount := ptr;
    }
  }

  /** Appending the next particle of a burst to a pool holding the first `i`. */
  lemma BurstGrows(pool: seq<Particle>, position: Vec3, color: string, rnd: nat -> real, i: nat)
    ensures pool + Burst(position, color, rnd, i + 1) ==
      pool + Burst(position, color, rnd, i) + [NewParticle(position, color, rnd, i)]
  {
  }

  /** Replacing the element after `pre` by `mid`. */
  lemma ReplaceAt(pre: seq<Particle>, x: Particle, rest: seq<Particle>, mid: seq<Particle>)
    ensures var a := pre + [x] + rest;
      a[..|pre|] + mid + a[|pre| + 1..] == pre + (mid + rest) &&
      a[..|pre|] + a[|pre| + 1..] == pre + ([] + rest)
  {
    var a := pre + [x] + rest;
    assert a[..|pre|] == pre;
    assert a[|pre| + 1..] == rest;
  }

  /** The frame step at index `i` in terms of the survivors after it. */
  lemma SurvivorsStep(ps: seq<Particle>, i: nat, dt: real)
    requires i < |ps|
    ensures Survivors(ps[i..], dt) ==
      (if ps[i].ttl - dt <= 0.0 then [] else [Advance(ps[i], dt)]) + Survivors(ps[i + 1..], dt)
  {
    assert ps[i..][1..] == ps[i + 1..];
  }

  /** A burst never takes the pool over the cap, and fills it up unless 18 fit. */
  lemma SpawnedCountBounds(n: nat)
    ensures n + SpawnedCount(n) == MinInt(n + SpawnCount, MaxInt(n, MaxParticles))
    ensures n <= MaxParticles ==> n + SpawnedCount(n) <= MaxParticles
    ensures SpawnedCount(n) <= SpawnCount
  {
  }

  /** A new particle starts with its whole lifetime, between 0.5 and 0.9 seconds, left. */
  lemma NewParticleLife(position: Vec3, color: string, rnd: nat -> real, k: nat)
    requires forall n :: 0.0 <= rnd(n) < 1.0
    ensures NewParticle(position, color, rnd, k).ttl == NewParticle(position, color, rnd, k).life
    ensures 0.5 <= NewParticle(position, color, rnd, k).life < 0.9
    ensures Fresh(NewParticle(position, color, rnd, k))
  {
    var n := DrawsPerParticle * k + 3;
    assert 0.0 <= rnd(n) < 1.0;
  }

  /** Survivors keep the order of the list: the frame step distributes over concatenation. */
  lemma {:induction false} SurvivorsOfConcat(a: seq<Particle>, b: seq<Particle>, dt: real)
    ensures Survivors(a + b, dt) == Survivors(a, dt) + Survivors(b, dt)
    decreases |a|
  {
    if a == [] {
      assert a + b == b;
    } else {
      assert (a + b)[1..] == a[1..] + b;
      SurvivorsOfConcat(a[1..], b, dt);
    }
  }

  /** The list never grows, and every survivor has time left. */
  lemma {:induction false} SurvivorsShrink(ps: seq<Particle>, dt: real)
    ensures |Survivors(ps, dt)| <= |ps|
    ensures forall q :: q in Survivors(ps, dt) ==> q.ttl > 0.0
  {
    if ps != [] {
      SurvivorsShrink(ps[1..], dt);
    }
  }

  /**
   * Exactly the particles whose time outlasts the frame survive: a particle
   * is in the new list iff it is the advanced form of one that had more than
   * `dt` left.
   */
  lemma {:induction false} SurvivorsExact(ps: seq<Particle>, dt: real, q: Particle)
    ensures q in Survivors(ps, dt) <==> exists p :: p in ps && p.ttl - dt > 0.0 && q == Advance(p, dt)
  {
    if ps != [] {
      SurvivorsExact(ps[1..], dt, q);
      assert forall p :: p in ps <==> p == ps[0] || p in ps[1..];
    }
  }

  /** When every particle runs out in this frame the pool empties. */
  lemma {:induction false} AllExpire(ps: seq<Particle>, dt: real)
    requires forall i :: 0 <= i < |ps| ==> ps[i].ttl <= dt
    ensures Survivors(ps, dt) == []
  {
    if ps != [] {
      AllExpire(ps[1..], dt);
    }
  }

  /** The frame step on one survivor: vertical speed drops by `gravity * 0.4 * dt`, the rest is unchanged. */
  lemma AdvanceMotion(p: Particle, dt: real)
    ensures Advance(p, dt).vel == Vec3(p.vel.x, p.vel.y - 9.6 * dt, p.vel.z)
    ensures Advance(p, dt).pos == Vec3(p.pos.x + p.vel.x * dt, p.pos.y + (p.vel.y - 9.6 * dt) * dt, p.pos.z + p.vel.z * dt)
    ensures Advance(p, dt).life == p.life && Advance(p, dt).ttl == p.ttl - dt && Advance(p, dt).color == p.color
  {
    var vy := p.vel.y - Config.Gravity * 0.4 * dt;
    assert Config.Gravity * 0.4 * dt == 9.6 * dt;
    assert Advance(p, dt).vel == Vec3(p.vel.x, vy, p.vel.z);
    assert Advance(p, dt).pos == Vec3(p.pos.x + p.vel.x * dt, p.pos.y + vy * dt, p.pos.z + p.vel.z * dt);
  }

  /**
   * With a non-negative frame time, survivors of a pool of fresh particles
   * are fresh, so the fade `ttl / life` of every drawn particle lies in (0, 1].
   */
  lemma {:induction false} SurvivorsStayFresh(ps: seq<Particle>, dt: real)
    requires dt >= 0.0
    requires forall i :: 0 <= i < |ps| ==> Fresh(ps[i])
    ensures forall i :: 0 <= i < |Survivors(ps, dt)| ==> Fresh(Survivors(ps, dt)[i])
    ensures forall i :: 0 <= i < |Survivors(ps, dt)| ==>
      Survivors(ps, dt)[i].life > 0.0 && 0.0 < Survivors(ps, dt)[i].ttl / Survivors(ps, dt)[i].life <= 1.0
  {
    if ps != [] {
      SurvivorsStayFresh(ps[1..], dt);
      var s := Survivors(ps, dt);
      forall i | 0 <= i < |s|
        ensures 0.0 < s[i].ttl / s[i].life <= 1.0
      {
        FadeInRange(s[i]);
      }
    }
  }

  lemma FadeInRange(p: Particle)
    requires Fresh(p)
    ensures 0.0 < p.ttl / p.life <= 1.0
  {
    assert p.ttl / p.life * p.life == p.ttl;
  }
}
