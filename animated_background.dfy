/** The reusable animated background (src/components/ui/AnimatedBackground.tsx):
    gradient orbs, an optional field of particles whose placement is
    computed from their index alone, and an optional dot grid. */
module AnimatedBackground {
  import opened Common
  import opened Keyframes

  /** One decorative particle: its id, its left and top offsets in percent,
      and its animation's duration and delay in seconds. */
  datatype Particle = Particle(id: nat, left: int, top: int, duration: int, delay: real)

  /** The particle with index i. */
  function ParticleAt(i: nat): (p: Particle)
    ensures p.id == i
    ensures 10 <= p.left <= 89 && 10 <= p.top <= 89
    ensures p.duration in {3, 4, 5}
    ensures p.delay == (i as real) * 0.3
  {
    Particle(i, 10 + (i * 37) % 80, 10 + (i * 53) % 80, 3 + i % 3, (i as real) * 0.3)
  }

  lemma ShiftByEighties(k: int, r: int)
    requires 0 <= r < 80
    ensures (80 * k + r) % 80 == r
  {
  }

  /** The placement repeats every 80 particles and the duration every 3. */
  lemma ParticlePeriods(i: nat)
    ensures ParticleAt(i + 80).left == ParticleAt(i).left
    ensures ParticleAt(i + 80).top == ParticleAt(i).top
    ensures ParticleAt(i + 3).duration == ParticleAt(i).duration
  {
    var qa, ra := (i * 37) / 80, (i * 37) % 80;
    assert (i + 80) * 37 == 80 * (qa + 37) + ra;
    ShiftByEighties(qa + 37, ra);
    var qb, rb := (i * 53) / 80, (i * 53) % 80;
    assert (i + 80) * 53 == 80 * (qb + 53) + rb;
    ShiftByEighties(qb + 53, rb);
    assert (i + 3) % 3 == i % 3;
  }

  /** Two numbers below 80 that differ by a multiple of 80 are equal. */
  lemma SameResidue80(ki: int, kj: int, i: int, j: int)
    requires 0 <= i < 80 && 0 <= j < 80 && 80 * ki + i == 80 * kj + j
    ensures i == j
  {
  }

  /** 37 and 53 are both invertible modulo 80 (37 * 13 and 53 * 77 leave
      remainder 1), so no two of the first 80 particles share a column or
      a row. */
  lemma DistinctPlacementBelow80(i: nat, j: nat)
    requires i < 80 && j < 80 && i != j
    ensures ParticleAt(i).left != ParticleAt(j).left
    ensures ParticleAt(i).top != ParticleAt(j).top
  {
    if (i * 37) % 80 == (j * 37) % 80 {
      var r, qi, qj := (i * 37) % 80, (i * 37) / 80, (j * 37) / 80;
      assert i * 37 == 80 * qi + r && j * 37 == 80 * qj + r;
      assert 13 * r == 80 * (6 * i - 13 * qi) + i;
      assert 13 * r == 80 * (6 * j - 13 * qj) + j;
      SameResidue80(6 * i - 13 * qi, 6 * j - 13 * qj, i, j);
    }
    if (i * 53) % 80 == (j * 53) % 80 {
      var r, qi, qj := (i * 53) % 80, (i * 53) / 80, (j * 53) / 80;
      assert i * 53 == 80 * qi + r && j * 53 == 80 * qj + r;
      assert 77 * r == 80 * (51 * i - 77 * qi) + i;
      assert 77 * r == 80 * (51 * j - 77 * qj) + j;
      SameResidue80(51 * i - 77 * qi, 51 * j - 77 * qj, i, j);
    }
  }

  /** A particle is placed where the particle with its index modulo 80 is. */
  lemma ReduceMod80(i: nat)
    ensures ParticleAt(i).left == ParticleAt(i % 80).left
    ensures ParticleAt(i).top == ParticleAt(i % 80).top
  {
    var q, r := i / 80, i % 80;
    assert i == 80 * q + r;
    assert i * 37 == 80 * (37 * q + (r * 37) / 80) + (r * 37) % 80;
    ShiftByEighties(37 * q + (r * 37) / 80, (r * 37) % 80);
    assert i * 53 == 80 * (53 * q + (r * 53) / 80) + (r * 53) % 80;
    ShiftByEighties(53 * q + (r * 53) / 80, (r * 53) % 80);
  }

  /** Particles whose indices differ modulo 80 share neither a column nor a
      row; in particular no two of any 80 consecutive particles do. */
  lemma DistinctPlacement(i: nat, j: nat)
    requires i % 80 != j % 80
    ensures ParticleAt(i).left != ParticleAt(j).left
    ensures ParticleAt(i).top != ParticleAt(j).top
  {
    ReduceMod80(i);
    ReduceMod80(j);
    DistinctPlacementBelow80(i % 80, j % 80);
  }

  /** `Array.from({ length: particleCount }, ...)`: a negative count gives
      no particles. */
  function Particles(particleCount: int): (r: seq<Particle>)
    ensures |r| == if particleCount < 0 then 0 else particleCount
  {
    var n := if particleCount < 0 then 0 else particleCount;
    seq(n, i requires 0 <= i < n => ParticleAt(i))
  }

  /** Particle i of the list is the particle with index i, so ids run from
      0 in order and every particle lies inside the box. */
  lemma ParticlesAreIndexed(particleCount: int)
    ensures forall i :: 0 <= i < |Particles(particleCount)| ==>
              Particles(particleCount)[i] == ParticleAt(i) && Particles(particleCount)[i].id == i
    ensures forall p :: p in Particles(particleCount) ==>
              10 <= p.left <= 89 && 10 <= p.top <= 89 && 3 <= p.duration <= 5
  {
  }

  /** Placement depends only on the index: a larger count keeps the
      existing particles where they are and adds new ones after them. */
  lemma ParticlesGrowByPrefix(m: int, n: int)
    requires m <= n
    ensures Particles(m) <= Particles(n)
  {
    var a, b := Particles(m), Particles(n);
    assert |a| <= |b|;
    assert forall i :: 0 <= i < |a| ==> a[i] == b[i];
  }

  /** The component's props, each of which may be omitted. */
  datatype Props = Props(
    orbs: Option<seq<OrbConfig>>,
    showParticles: Option<bool>,
    particleCount: Option<int>,
    showGrid: Option<bool>)

  datatype OrbConfig = OrbConfig(position: string, animation: OrbAnimation, duration: int)

  /** The props after their defaults are filled in. */
  datatype Settings = Settings(orbs: seq<OrbConfig>, showParticles: bool, particleCount: int, showGrid: bool)

  /** `defaultOrbs`. */
  const DefaultOrbs: seq<OrbConfig> := [
    OrbConfig("top-10 left-10",
      OrbAnimation(Some([0.0, 50.0, 0.0]), Some([0.0, -30.0, 0.0]), Some([1.0, 1.1, 1.0]), None), 20),
    OrbConfig("bottom-10 right-10",
      OrbAnimation(Some([0.0, -40.0, 0.0]), Some([0.0, 50.0, 0.0]), Some([1.0, 1.15, 1.0]), None), 18),
    OrbConfig("top-1/2 left-1/2 -translate-x-1/2 -translate-y-1/2",
      OrbAnimation(None, None, Some([1.0, 1.2, 1.0]), Some([0.3, 0.5, 0.3])), 15)
  ]

  function Resolve(props: Props): (r: Settings)
    ensures props.orbs.None? ==> r.orbs == DefaultOrbs
    ensures props.showParticles.None? ==> !r.showParticles
    ensures props.particleCount.None? ==> r.particleCount == 15
    ensures props.showGrid.None? ==> r.showGrid
    ensures props.orbs.Some? ==> r.orbs == props.orbs.value
    ensures props.showParticles.Some? ==> r.showParticles == props.showParticles.value
    ensures props.particleCount.Some? ==> r.particleCount == props.particleCount.value
    ensures props.showGrid.Some? ==> r.showGrid == props.showGrid.value
  {
    Settings(
      if props.orbs.Some? then props.orbs.value else DefaultOrbs,
      if props.showParticles.Some? then props.showParticles.value else false,
      if props.particleCount.Some? then props.particleCount.value else 15,
      if props.showGrid.Some? then props.showGrid.value else true)
  }

  /** The particles drawn: the whole list when particles are switched on,
      none otherwise. */
  function RenderedParticles(props: Props): (r: seq<Particle>)
    ensures !Resolve(props).showParticles ==> r == []
    ensures Resolve(props).showParticles ==> r == Particles(Resolve(props).particleCount)
  {
    var s := Resolve(props);
    if s.showParticles then Particles(s.particleCount) else []
  }

  /** With no props at all, no particle is drawn, the grid is, and the 15
      particles that would be drawn are computed all the same. */
  lemma DefaultBackground()
    ensures RenderedParticles(Props(None, None, None, None)) == []
    ensures Resolve(Props(None, None, None, None)).showGrid
    ensures |Particles(Resolve(Props(None, None, None, None)).particleCount)| == 15
    ensures |RenderedParticles(Props(None, Some(true), None, None))| == 15
  {
  }

  /** Every default orb loops without a jump. */
  lemma DefaultOrbsSeamless()
    ensures forall i :: 0 <= i < |DefaultOrbs| ==> Seamless(DefaultOrbs[i].animation)
  {
  }
}
