/**
 * Entity kinds and tuning constants shared by the session controller, the
 * level generator and the simulation engine (types.ts and constants.ts),
 * plus the few definitions all three use: inventory counts, the kill goal
 * of a level and the scaling of a random draw to an index.
 */
module GameTypes {

  datatype Option<T> = None | Some(value: T)

  /** The seven power-up kinds ('RAPID_FIRE' ... 'REGEN'). */
  datatype PowerUpType = RapidFire | TripleShot | Vitality | HelperRange | HelperMelee | Shield | Regen

  /** The pickup table, in the order the source lists it when it draws a kind. */
  const ALL_POWERUPS: seq<PowerUpType> := [RapidFire, TripleShot, Vitality, HelperRange, HelperMelee, Shield, Regen]

  /** The nine enemy kinds; the four `boss_*` kinds are the bosses. */
  datatype EnemyType = Snowman | BadKid | Reindeer | BossBells | Abominable | BossElf | Narwhal | BossGum | BossSanta

  /** `type.startsWith('boss')` */
  predicate IsBoss(t: EnemyType)
  {
    t.BossBells? || t.BossElf? || t.BossGum? || t.BossSanta?
  }

  /** A level's enemy-composition mode ('mixed' | 'rush' | 'range' | 'chaos'). */
  datatype Composition = Mixed | Rush | Range | Chaos

  /** The two ally-drone kinds ('RANGE' | 'MELEE'). */
  datatype HelperKind = Ranged | Melee

  const CANVAS_WIDTH: real := 800.0
  const CANVAS_HEIGHT: real := 600.0

  const SHIELD_MAX_HP: int := 3
  const REGEN_INTERVAL: int := 5000
  const HIT_GRACE: int := 1000
  const SCORE_PER_KILL: int := 100
  const SCORE_BOSS_KILL: int := 5000
  const BASE_KILLS_NEEDED: int := 10
  const KILLS_INCREASE_PER_LEVEL: int := 5
  const SNOWBALL_COOLDOWN: int := 400
  const RAPID_FIRE_COOLDOWN: int := 250
  const BAD_KID_COOLDOWN: int := 2000
  const HELPER_HP: real := 3.0
  const PICKUP_LIFETIME: int := 10000
  const BASE_MAX_HP: int := 3

  const BOSS_HP_BASE: int := 30
  const BOSS_RADIUS: int := 40
  const BOSS_SPEED: real := 0.8
  const BOSS_COLOR: string := "#ef4444"
  const BOSS_ELF_HP: int := 120
  const BOSS_ELF_SPEED: real := 1.8
  const BOSS_ELF_COLOR: string := "#dc2626"
  const BOSS_GUM_HP: int := 80
  const BOSS_GUM_SPEED: real := 0.5
  const BOSS_GUM_COLOR: string := "#ec4899"
  const BOSS_SANTA_HP: int := 150
  const BOSS_SANTA_SPEED: real := 1.5
  const BOSS_SANTA_COLOR: string := "#991b1b"

  /** Number of occurrences of `x` in an inventory (`filter(p => p === x).length`). */
  function Count<T(==)>(s: seq<T>, x: T): nat
  {
    multiset(s)[x]
  }

  /** Kills needed to finish a non-boss level. */
  function KillsNeeded(level: int): (k: int)
    ensures level >= 1 ==> k >= BASE_KILLS_NEEDED
    ensures level == 1 ==> k == BASE_KILLS_NEEDED
  {
    BASE_KILLS_NEEDED + (level - 1) * KILLS_INCREASE_PER_LEVEL
  }

  /** Each level asks for exactly five kills more than the one before, so the goal never falls as levels rise. */
  lemma KillsGrowPerLevel(a: int, b: int)
    ensures KillsNeeded(a + 1) == KillsNeeded(a) + KILLS_INCREASE_PER_LEVEL
    ensures a <= b ==> KillsNeeded(a) <= KillsNeeded(b)
  {
  }

  /** `Math.floor(roll * n)` for a draw `roll` of `Math.random()`, which lies in [0, 1). */
  function RollIndex(roll: real, n: nat): (i: nat)
    requires 0.0 <= roll < 1.0 && n > 0
    ensures i < n
    ensures (i as real) <= roll * (n as real) < (i as real) + 1.0
  {
    assert roll * (n as real) < n as real by {
      assert (1.0 - roll) * (n as real) > 0.0;
    }
    (roll * (n as real)).Floor
  }

  lemma MulNonneg(a: real, b: real)
    requires a >= 0.0 && b >= 0.0
    ensures a * b >= 0.0
  {
  }

  lemma MulPos(a: real, b: real)
    requires a > 0.0 && b > 0.0
    ensures a * b > 0.0
  {
  }

  /** `Math.random() * (max - min) + min` */
  function Uniform(roll: real, lo: real, hi: real): (x: real)
    requires 0.0 <= roll < 1.0 && lo <= hi
    ensures lo <= x <= hi
    ensures lo < hi ==> x < hi
  {
    var d := hi - lo;
    assert 0.0 <= roll * d <= d by {
      MulNonneg(roll, d);
      MulNonneg(1.0 - roll, d);
      assert (1.0 - roll) * d == d - roll * d;
    }
    assert lo < hi ==> roll * d < d by {
      if lo < hi {
        MulPos(1.0 - roll, d);
        assert (1.0 - roll) * d == d - roll * d;
      }
    }
    roll * d + lo
  }
}
