/** `calculateMaxDamagePerWave`: the theoretical damage ceiling per wave for a
    tier and a wave number, computed over exact rationals. */
module DamageCeiling {

  const BaseEnemyHp: real := 1000.0
  const WaveGrowth: real := 1.13
  const HpFactor: real := 5.0
  const TierBase: real := 5.0
  const OverkillFactor: real := 1.5
  const MaxBosses: int := 10
  const WavesPerBoss: int := 10

  /** `base` to a natural power. */
  function Power(base: real, n: nat): (r: real)
    ensures base > 0.0 ==> r > 0.0
    ensures base >= 1.0 ==> r >= 1.0
  {
    if n == 0 then 1.0
    else
      var rest := Power(base, n - 1);
      PositiveProduct(base, rest);
      base * rest
  }

  lemma PositiveProduct(a: real, b: real)
    ensures a > 0.0 && b > 0.0 ==> a * b > 0.0
    ensures a >= 1.0 && b >= 1.0 ==> a * b >= 1.0
  {
    if a >= 1.0 && b >= 1.0 {
      assert a * b >= 1.0 * b;
    }
  }

  /** `Math.pow(base, e)` for an integer exponent of either sign. */
  function IntPower(base: real, e: int): (r: real)
    requires base > 0.0
    ensures r > 0.0
    ensures e >= 0 && base >= 1.0 ==> r >= 1.0
  {
    if e >= 0 then Power(base, e) else 1.0 / Power(base, -e)
  }

  /** `Math.pow(5, tier)`. */
  function TierMultiplier(tier: int): (m: real)
    ensures m > 0.0
    ensures tier >= 0 ==> m >= 1.0
  {
    IntPower(TierBase, tier)
  }

  /** `baseEnemyHP * Math.pow(1.13, wave) * 5`. */
  function EnemyHp(wave: int): (hp: real)
    ensures hp > 0.0
    ensures wave >= 0 ==> hp >= BaseEnemyHp * HpFactor
  {
    var scaling := IntPower(WaveGrowth, wave);
    assert BaseEnemyHp * (scaling * HpFactor) == (BaseEnemyHp * HpFactor) * scaling;
    BaseEnemyHp * (scaling * HpFactor)
  }

  /** `Math.min(Math.floor(wave / 10) + 1, 10)`: one boss per started block of
      ten waves, at most ten. */
  function BossCount(wave: int): (c: int)
    ensures wave >= 0 ==> 1 <= c <= MaxBosses
    ensures wave >= 0 ==> WavesPerBoss * (c - 1) <= wave
    ensures c < MaxBosses ==> wave < WavesPerBoss * c
    ensures c == MaxBosses <==> wave >= WavesPerBoss * (MaxBosses - 1)
  {
    var blocks := wave / WavesPerBoss + 1;
    if blocks < MaxBosses then blocks else MaxBosses
  }

  /** `(bossCount * enemyHP * tierMultiplier) * 1.5`. */
  function MaxDamagePerWave(tier: int, wave: int): real
  {
    (BossCount(wave) as real * EnemyHp(wave) * TierMultiplier(tier)) * OverkillFactor
  }

  /** The ceiling is positive from wave 0 on, and for non-negative tiers at
      least the overkill share of one wave-0 boss. */
  lemma CeilingBoundsHold(tier: int, wave: int)
    ensures wave >= 0 ==> MaxDamagePerWave(tier, wave) > 0.0
    ensures wave >= 0 && tier >= 0 ==> MaxDamagePerWave(tier, wave) >= BaseEnemyHp * HpFactor * OverkillFactor
  {
    CeilingBounds(BossCount(wave) as real, EnemyHp(wave), TierMultiplier(tier), wave >= 0, tier >= 0);
  }

  lemma CeilingBounds(bosses: real, hp: real, tierMul: real, waveNonNeg: bool, tierNonNeg: bool)
    requires hp > 0.0 && tierMul > 0.0
    requires waveNonNeg ==> bosses >= 1.0 && hp >= BaseEnemyHp * HpFactor
    requires tierNonNeg ==> tierMul >= 1.0
    ensures waveNonNeg ==> (bosses * hp * tierMul) * OverkillFactor > 0.0
    ensures waveNonNeg && tierNonNeg ==>
      (bosses * hp * tierMul) * OverkillFactor >= BaseEnemyHp * HpFactor * OverkillFactor
  {
    if waveNonNeg {
      assert bosses * hp >= hp by {
        assert bosses * hp - hp == (bosses - 1.0) * hp;
      }
      PositiveProduct(bosses * hp, tierMul);
      if tierNonNeg {
        assert bosses * hp * tierMul >= bosses * hp by {
          assert bosses * hp * tierMul - bosses * hp == (bosses * hp) * (tierMul - 1.0);
        }
      }
    }
  }

  /** The plausibility rule: the damage per wave is at most twice the ceiling. */
  predicate WithinCeiling(damage: int, waves: int, tier: int)
    requires waves > 0
  {
    damage as real / waves as real <= 2.0 * MaxDamagePerWave(tier, waves)
  }

  /** Dividing by a positive amount and comparing is comparing the product. */
  lemma DivideLeIff(a: real, w: real, c: real)
    requires w > 0.0
    ensures a / w <= c <==> a <= c * w
  {
    var q := a / w;
    assert q * w == a;
    if q <= c {
      assert q * w <= c * w;
    } else {
      assert q * w > c * w;
    }
  }

  /** The same rule without division: damage is at most twice the ceiling
      times the number of waves. */
  lemma WithinCeilingCrossMultiplied(damage: int, waves: int, tier: int)
    requires waves > 0
    ensures WithinCeiling(damage, waves, tier)
        <==> damage as real <= 2.0 * MaxDamagePerWave(tier, waves) * waves as real
  {
    DivideLeIff(damage as real, waves as real, 2.0 * MaxDamagePerWave(tier, waves));
  }
}
