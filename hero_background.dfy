/** The hero section's background (src/components/sections/hero/HeroBackground.tsx):
    three looping gradient orbs and twenty rising particles whose column,
    duration and delay are computed from their index. */
module HeroBackground {
  import opened Common
  import opened Keyframes

  /** `PARTICLE_COUNT`. */
  const ParticleCount: nat := 20

  /** `randomX`: the particle's starting column, in viewport-width percent. */
  function RandomX(index: nat): (r: nat)
    ensures r <= 99
    ensures index * 37 < 100 ==> r == index * 37
  {
    (index * 37) % 100
  }

  /** `randomDuration`: seconds for one rise. */
  function RandomDuration(index: nat): (r: nat)
    ensures 15 <= r <= 24
    ensures index < 10 ==> r == 15 + index
  {
    15 + index % 10
  }

  /** The delay before the first rise: half a second per index. */
  function Delay(index: nat): (r: real)
    ensures r >= 0.0
    ensures r * 2.0 == index as real
  {
    (index as real) * 0.5
  }

  lemma ShiftByHundreds(k: int, r: int)
    requires 0 <= r < 100
    ensures (100 * k + r) % 100 == r
  {
  }

  /** Columns repeat every 100 indices and durations every 10. */
  lemma HeroParticlePeriods(index: nat)
    ensures RandomX(index + 100) == RandomX(index)
    ensures RandomDuration(index + 10) == RandomDuration(index)
  {
    var a := index * 37;
    var q, r := a / 100, a % 100;
    assert (index + 100) * 37 == 100 * (q + 37) + r;
    ShiftByHundreds(q + 37, r);
    assert (index + 10) % 10 == index % 10;
  }

  datatype Particle = Particle(index: nat, x: nat, duration: nat, delay: real)

  function ParticleOf(index: nat): (p: Particle)
    ensures p.index == index && p.x <= 99 && 15 <= p.duration <= 24
  {
    Particle(index, RandomX(index), RandomDuration(index), Delay(index))
  }

  /** `Array.from({ length: PARTICLE_COUNT }, (_, i) => <Particle index={i} />)`. */
  function Particles(): (r: seq<Particle>)
    ensures |r| == ParticleCount
  {
    seq(ParticleCount, i requires 0 <= i < ParticleCount => ParticleOf(i))
  }

  /** Exactly twenty particles, with indices 0 to 19 in order, each starting
      inside the viewport and rising for 15 to 24 seconds; the later a
      particle's index, the later it starts. */
  lemma ParticlesLayout()
    ensures |Particles()| == 20
    ensures forall i :: 0 <= i < 20 ==> Particles()[i].index == i
    ensures forall i :: 0 <= i < 20 ==> Particles()[i].x <= 99 && 15 <= Particles()[i].duration <= 24
    ensures forall i, j :: 0 <= i < j < 20 ==> Particles()[i].delay < Particles()[j].delay
  {
  }

  /** Two numbers below 100 that differ by a multiple of 100 are equal. */
  lemma SameResidue100(ki: int, kj: int, i: int, j: int)
    requires 0 <= i < 100 && 0 <= j < 100 && 100 * ki + i == 100 * kj + j
    ensures i == j
  {
  }

  /** 37 is invertible modulo 100 (37 * 73 leaves remainder 1), so no two
      of the twenty particles start in the same column. */
  lemma DistinctColumns(i: nat, j: nat)
    requires i < 100 && j < 100 && i != j
    ensures RandomX(i) != RandomX(j)
  {
    if (i * 37) % 100 == (j * 37) % 100 {
      var r, qi, qj := (i * 37) % 100, (i * 37) / 100, (j * 37) / 100;
      assert i * 37 == 100 * qi + r && j * 37 == 100 * qj + r;
      assert 73 * r == 100 * (27 * i - 73 * qi) + i;
      assert 73 * r == 100 * (27 * j - 73 * qj) + j;
      SameResidue100(27 * i - 73 * qi, 27 * j - 73 * qj, i, j);
    }
  }

  /** An orb: the keyframes of its scale and position, and the seconds one
      loop takes. */
  datatype Orb = Orb(scale: seq<real>, x: seq<real>, y: seq<real>, duration: nat)

  /** `ORBS_CONFIG`. */
  const OrbsConfig: seq<Orb> := [
    Orb([1.0, 1.2, 1.0], [0.0, 50.0, 0.0], [0.0, -30.0, 0.0], 20),
    Orb([1.0, 1.15, 1.0], [0.0, -40.0, 0.0], [0.0, 50.0, 0.0], 18),
    Orb([1.0, 1.1, 1.0], [0.0, 30.0, 0.0], [0.0, 40.0, 0.0], 15)
  ]

  function AnimationOf(orb: Orb): OrbAnimation
  {
    OrbAnimation(Some(orb.x), Some(orb.y), Some(orb.scale), None)
  }

  /** Every orb's scale, x and y keyframes end where they begin, so its
      repeated animation has no jump; each rests at its natural size and
      position at the seam. */
  lemma OrbsLoopSeamlessly()
    ensures forall i :: 0 <= i < |OrbsConfig| ==> Seamless(AnimationOf(OrbsConfig[i]))
    ensures forall i :: 0 <= i < |OrbsConfig| ==>
              OrbsConfig[i].scale[0] == 1.0 && OrbsConfig[i].x[0] == 0.0 && OrbsConfig[i].y[0] == 0.0
  {
  }
}
