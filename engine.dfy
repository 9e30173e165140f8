/**
 * The simulation engine's bookkeeping (components/GameCanvas.tsx): the
 * player's health and shield, the enemy, helper and pickup collections,
 * score and kill progress, and the rules that update them once per frame.
 *
 * Each operation is specified twice over: a pure step function on a
 * `State` value states what the operation promises, and a method of the
 * `SimulationState` class updates the fields in place and is proved to
 * produce exactly that step. Geometry (who touches what) and random draws
 * are parameters; the callbacks the engine raises towards the session
 * controller are returned as values.
 */
module Engine {
  import opened GameTypes
  import Session
  import LevelGen

  datatype Enemy = Enemy(
    kind: EnemyType, hp: int, maxHp: int, radius: int, speed: real, color: string,
    x: real, y: real, lastShotTime: int, attackRange: int)

  datatype Helper = Helper(kind: HelperKind, hp: real, maxHp: real, lastActionTime: int)

  datatype PowerUpItem = PowerUpItem(kind: PowerUpType, x: real, y: real, createdAt: int, persistent: bool)

  /** The bookkeeping half of `playerRef` (position, speed and facing are not modelled). */
  datatype Player = Player(
    hp: int, maxHp: int, shieldHp: int, maxShieldHp: int, lastHitTime: int, lastRegenTime: int, isFrozen: bool)

  /** The engine's refs, as one value. */
  datatype State = State(
    player: Player,
    enemies: seq<Enemy>, helpers: seq<Helper>, powerupItems: seq<PowerUpItem>,
    score: int, killsThisLevel: int, bossPresent: bool, lastShotTime: int, yetisSpawned: int)

  // ---------------------------------------------------------------------
  // The invariant
  // ---------------------------------------------------------------------

  /** The number of boss-type enemies on the field. */
  function BossCount(es: seq<Enemy>): nat
  {
    if es == [] then 0 else (if IsBoss(es[0].kind) then 1 else 0) + BossCount(es[1..])
  }

  lemma {:induction false} BossCountAppend(a: seq<Enemy>, b: seq<Enemy>)
    ensures BossCount(a + b) == BossCount(a) + BossCount(b)
  {
    if a == [] {
      assert a + b == b;
    } else {
      assert (a + b)[1..] == a[1..] + b;
      BossCountAppend(a[1..], b);
    }
  }

  /** `enemies.some(e => e.type.startsWith('boss'))` is the same as a positive boss count. */
  lemma {:induction false} BossCountZero(es: seq<Enemy>)
    ensures BossCount(es) == 0 <==> forall e :: e in es ==> !IsBoss(e.kind)
  {
    if es != [] {
      BossCountZero(es[1..]);
      assert forall e :: e in es ==> e == es[0] || e in es[1..];
    }
  }

  /** The shield is either off or charged from the constant `SHIELD_MAX_HP`, and never above its charge. */
  predicate ShieldValid(p: Player)
  {
    (p.maxShieldHp == 0 || p.maxShieldHp == SHIELD_MAX_HP) && p.shieldHp <= p.maxShieldHp
  }

  /**
   * The player's shield is valid, the boss reference is set exactly when
   * one boss-type enemy is on the field, and the counters are non-negative.
   */
  predicate ValidState(s: State)
  {
    ShieldValid(s.player)
    && BossCount(s.enemies) == (if s.bossPresent then 1 else 0)
    && s.killsThisLevel >= 0 && s.yetisSpawned >= 0
  }

  /** The initial `playerRef` and refs of a fresh component. */
  const INITIAL_STATE: State := State(Player(3, 3, 0, 0, 0, 0, false), [], [], [], 0, 0, false, 0, 0)

  // ---------------------------------------------------------------------
  // takeDamage (components/GameCanvas.tsx:344-369)
  // ---------------------------------------------------------------------

  /** The callbacks a hit raises: SHIELD revoked (count 1), a life lost, game over. */
  datatype Signals = Signals(removeShield: bool, lifeLost: bool, gameOver: bool)

  const NO_SIGNALS: Signals := Signals(false, false, false)

  datatype Hit = Hit(player: Player, signals: Signals)

  /** The effect of a hit on the player; everything else is left alone. */
  function Damaged(p: Player, amount: int, now: int, lives: int): (r: Hit)
    ensures now - p.lastHitTime < HIT_GRACE ==> r == Hit(p, NO_SIGNALS)
    ensures now - p.lastHitTime >= HIT_GRACE ==>
      r.player.lastHitTime == now
      && (p.shieldHp > 0 ==> r.player.shieldHp == p.shieldHp - amount && r.player.hp == p.hp)
      && (p.shieldHp <= 0 ==> r.player.hp == p.hp - amount && r.player.shieldHp == p.shieldHp)
    ensures r.signals.removeShield <==> now - p.lastHitTime >= HIT_GRACE && p.shieldHp > 0 && p.shieldHp - amount <= 0
    ensures r.signals.gameOver <==> now - p.lastHitTime >= HIT_GRACE && r.player.hp <= 0
    ensures r.signals.lifeLost <==> r.signals.gameOver && lives > 0
    ensures r.player == p.(hp := r.player.hp, shieldHp := r.player.shieldHp, lastHitTime := r.player.lastHitTime)
  {
    if now - p.lastHitTime < HIT_GRACE then Hit(p, NO_SIGNALS)
    else
      var q := if p.shieldHp > 0 then p.(shieldHp := p.shieldHp - amount) else p.(hp := p.hp - amount);
      var q := q.(lastHitTime := now);
      var gameOver := q.hp <= 0;
      Hit(q, Signals(p.shieldHp > 0 && q.shieldHp <= 0, gameOver && lives > 0, gameOver))
  }

  /** A second hit inside the grace window of an accepted hit changes nothing and signals nothing. */
  lemma HitThenGrace(p: Player, a: int, b: int, t1: int, t2: int, lives: int)
    requires t1 - p.lastHitTime >= HIT_GRACE && t1 <= t2 < t1 + HIT_GRACE
    ensures var first := Damaged(p, a, t1, lives).player;
      Damaged(first, b, t2, lives) == Hit(first, NO_SIGNALS)
  {
  }

  /**
   * The shield breaks once: the hit that signals the SHIELD revocation
   * leaves the shield at or below zero, so the next hit reaches hp and
   * signals no second revocation.
   */
  lemma ShieldBreaksOnce(p: Player, a: int, b: int, t1: int, t2: int, lives: int)
    requires Damaged(p, a, t1, lives).signals.removeShield
    ensures var first := Damaged(p, a, t1, lives).player;
      !Damaged(first, b, t2, lives).signals.removeShield
      && (t2 - t1 >= HIT_GRACE ==> Damaged(first, b, t2, lives).player.hp == first.hp - b)
  {
  }

  /** A non-negative hit keeps the shield valid and never raises hp or shield. */
  lemma DamagedKeepsValid(p: Player, amount: int, now: int, lives: int)
    requires ShieldValid(p) && amount >= 0
    ensures ShieldValid(Damaged(p, amount, now, lives).player)
    ensures Damaged(p, amount, now, lives).player.hp <= p.hp
    ensures Damaged(p, amount, now, lives).player.shieldHp <= p.shieldHp
  {
  }

  /** With a full shield and hits of 1, hp is untouched until the third accepted hit, which breaks the shield. */
  lemma ShieldAbsorbsThreeHits(p: Player, t1: int, t2: int, t3: int, lives: int)
    requires p.shieldHp == SHIELD_MAX_HP
    requires t1 - p.lastHitTime >= HIT_GRACE && t2 - t1 >= HIT_GRACE && t3 - t2 >= HIT_GRACE
    ensures var r1 := Damaged(p, 1, t1, lives);
      var r2 := Damaged(r1.player, 1, t2, lives);
      var r3 := Damaged(r2.player, 1, t3, lives);
      r3.player.hp == p.hp && r3.player.shieldHp == 0
      && !r1.signals.removeShield && !r2.signals.removeShield && r3.signals.removeShield
  {
  }

  // ---------------------------------------------------------------------
  // Shield and helper sync (components/GameCanvas.tsx:195-243)
  // ---------------------------------------------------------------------

  /** The shield half of the sync: a full shield granted once on acquisition, cleared on loss. */
  function SyncShield(held: bool, p: Player): (r: Player)
    ensures held && p.maxShieldHp == 0 ==> r.shieldHp == r.maxShieldHp == SHIELD_MAX_HP
    ensures held && p.maxShieldHp != 0 ==> r == p
    ensures !held ==> r.shieldHp == r.maxShieldHp == 0
    ensures r == p.(shieldHp := r.shieldHp, maxShieldHp := r.maxShieldHp)
  {
    if held then (if p.maxShieldHp == 0 then p.(shieldHp := SHIELD_MAX_HP, maxShieldHp := SHIELD_MAX_HP) else p)
    else p.(shieldHp := 0, maxShieldHp := 0)
  }

  /** Syncing twice against the same inventory is syncing once, and the shield invariant is kept. */
  lemma SyncShieldIdempotent(held: bool, p: Player)
    requires ShieldValid(p)
    ensures SyncShield(held, SyncShield(held, p)) == SyncShield(held, p)
    ensures ShieldValid(SyncShield(held, p))
  {
  }

  /** A helper of kind `k` as the sync creates it. */
  function NewHelper(k: HelperKind): Helper
  {
    Helper(k, HELPER_HP, HELPER_HP, 0)
  }

  /** `helpers.filter(h => h.type === k)` */
  function OfKind(hs: seq<Helper>, k: HelperKind): (r: seq<Helper>)
    ensures |r| <= |hs|
    ensures forall h :: h in r ==> h.kind == k && h in hs
  {
    if hs == [] then []
    else (if hs[0].kind == k then [hs[0]] else []) + OfKind(hs[1..], k)
  }

  /** The pop and push loops: cut to the first `n`, or pad with new helpers up to `n`. */
  function Fit(hs: seq<Helper>, n: nat, k: HelperKind): (r: seq<Helper>)
    ensures |r| == n
    ensures |hs| >= n ==> r == hs[..n]
    ensures |hs| < n ==> r[..|hs|] == hs && forall i :: |hs| <= i < n ==> r[i] == NewHelper(k)
  {
    if |hs| >= n then hs[..n] else hs + seq(n - |hs|, _ => NewHelper(k))
  }

  /** The helpers after the sync: the ranged ones first, then the melee ones. */
  function Reconciled(hs: seq<Helper>, inventory: seq<PowerUpType>): seq<Helper>
  {
    Fit(OfKind(hs, Ranged), Count(inventory, HelperRange), Ranged)
    + Fit(OfKind(hs, Melee), Count(inventory, HelperMelee), Melee)
  }

  lemma {:induction false} OfKindAppend(a: seq<Helper>, b: seq<Helper>, k: HelperKind)
    ensures OfKind(a + b, k) == OfKind(a, k) + OfKind(b, k)
  {
    if a == [] {
      assert a + b == b;
    } else {
      assert (a + b)[1..] == a[1..] + b;
      OfKindAppend(a[1..], b, k);
    }
  }

  lemma {:induction false} OfKindUniform(hs: seq<Helper>, k: HelperKind)
    requires forall h :: h in hs ==> h.kind == k
    ensures OfKind(hs, k) == hs
    ensures OfKind(hs, if k == Ranged then Melee else Ranged) == []
  {
    if hs != [] {
      OfKindUniform(hs[1..], k);
    }
  }

  lemma FitUniform(hs: seq<Helper>, n: nat, k: HelperKind)
    requires forall h :: h in hs ==> h.kind == k
    ensures forall h :: h in Fit(hs, n, k) ==> h.kind == k
  {
    var r := Fit(hs, n, k);
    forall h | h in r ensures h.kind == k {
      var i :| 0 <= i < |r| && r[i] == h;
      if i < |hs| {
        assert r[i] == hs[i];
      }
    }
  }

  /**
   * After the sync there are exactly as many ranged (melee) helpers as
   * HELPER_RANGE (HELPER_MELEE) entries in the inventory, and the
   * surviving helpers of each kind are the earliest ones, in their order.
   */
  lemma ReconciledMatchesInventory(hs: seq<Helper>, inventory: seq<PowerUpType>)
    ensures OfKind(Reconciled(hs, inventory), Ranged) == Fit(OfKind(hs, Ranged), Count(inventory, HelperRange), Ranged)
    ensures OfKind(Reconciled(hs, inventory), Melee) == Fit(OfKind(hs, Melee), Count(inventory, HelperMelee), Melee)
    ensures |OfKind(Reconciled(hs, inventory), Ranged)| == Count(inventory, HelperRange)
    ensures |OfKind(Reconciled(hs, inventory), Melee)| == Count(inventory, HelperMelee)
  {
    var a := Fit(OfKind(hs, Ranged), Count(inventory, HelperRange), Ranged);
    var b := Fit(OfKind(hs, Melee), Count(inventory, HelperMelee), Melee);
    FitUniform(OfKind(hs, Ranged), Count(inventory, HelperRange), Ranged);
    FitUniform(OfKind(hs, Melee), Count(inventory, HelperMelee), Melee);
    OfKindAppend(a, b, Ranged);
    OfKindAppend(a, b, Melee);
    OfKindUniform(a, Ranged);
    OfKindUniform(b, Melee);
  }

  /** Re-running the sync with an unchanged inventory changes nothing. */
  lemma ReconciledIdempotent(hs: seq<Helper>, inventory: seq<PowerUpType>)
    ensures Reconciled(Reconciled(hs, inventory), inventory) == Reconciled(hs, inventory)
  {
    ReconciledMatchesInventory(hs, inventory);
  }

  /** The whole sync effect. */
  function Synced(s: State, inventory: seq<PowerUpType>): (r: State)
    ensures r.player == SyncShield(Shield in inventory, s.player)
    ensures r.helpers == Reconciled(s.helpers, inventory)
    ensures r == s.(player := r.player, helpers := r.helpers)
    ensures ValidState(s) ==> ValidState(r)
  {
    s.(player := SyncShield(Shield in inventory, s.player), helpers := Reconciled(s.helpers, inventory))
  }

  // ---------------------------------------------------------------------
  // killEnemy (components/GameCanvas.tsx:374-385)
  // ---------------------------------------------------------------------

  function AfterKill(s: State, index: nat): (r: State)
    requires index < |s.enemies|
    ensures r.enemies == s.enemies[..index] + s.enemies[index + 1..]
    ensures IsBoss(s.enemies[index].kind) ==>
      r.score == s.score + SCORE_BOSS_KILL && !r.bossPresent && r.killsThisLevel == s.killsThisLevel
    ensures !IsBoss(s.enemies[index].kind) ==>
      r.score == s.score + SCORE_PER_KILL && r.bossPresent == s.bossPresent && r.killsThisLevel == s.killsThisLevel + 1
    ensures r == s.(enemies := r.enemies, score := r.score, bossPresent := r.bossPresent, killsThisLevel := r.killsThisLevel)
  {
    var t := s.(enemies := s.enemies[..index] + s.enemies[index + 1..]);
    if IsBoss(s.enemies[index].kind) then t.(score := s.score + SCORE_BOSS_KILL, bossPresent := false)
    else t.(score := s.score + SCORE_PER_KILL, killsThisLevel := s.killsThisLevel + 1)
  }

  /** A kill keeps the invariant: a boss kill takes the only boss and clears the reference together. */
  lemma AfterKillKeepsValid(s: State, index: nat)
    requires ValidState(s) && index < |s.enemies|
    ensures ValidState(AfterKill(s, index))
    ensures |AfterKill(s, index).enemies| == |s.enemies| - 1
  {
    var es := s.enemies;
    assert es == es[..index] + [es[index]] + es[index + 1..];
    BossCountAppend(es[..index] + [es[index]], es[index + 1..]);
    BossCountAppend(es[..index], [es[index]]);
    BossCountAppend(es[..index], es[index + 1..]);
  }

  // ---------------------------------------------------------------------
  // Passive regen (components/GameCanvas.tsx:387-395)
  // ---------------------------------------------------------------------

  /** One frame of passive regen for a player holding the given inventory. */
  function Regenerated(p: Player, inventory: seq<PowerUpType>, now: int): (r: Player)
    ensures !(Regen in inventory && now - p.lastRegenTime > REGEN_INTERVAL) ==> r == p
    ensures Regen in inventory && now - p.lastRegenTime > REGEN_INTERVAL ==> r.lastRegenTime == now
    ensures Regen in inventory && now - p.lastRegenTime > REGEN_INTERVAL && 0 < p.hp < p.maxHp ==> r.hp == p.hp + 1
    ensures Regen in inventory && now - p.lastRegenTime > REGEN_INTERVAL && !(0 < p.hp < p.maxHp) ==> r.hp == p.hp
    ensures p.hp <= r.hp <= p.hp + 1
    ensures r.hp > p.hp ==> 0 < p.hp && r.hp <= p.maxHp
    ensures r == p.(hp := r.hp, lastRegenTime := r.lastRegenTime)
    ensures ShieldValid(p) ==> ShieldValid(r)
  {
    if Regen in inventory && now - p.lastRegenTime > REGEN_INTERVAL then
      var q := if p.hp < p.maxHp && p.hp > 0 then p.(hp := p.hp + 1) else p;
      q.(lastRegenTime := now)
    else p
  }

  /** At most one point is regained per interval: a second tick within it changes nothing. */
  lemma RegenOncePerInterval(p: Player, inventory: seq<PowerUpType>, t1: int, t2: int)
    requires t1 <= t2 <= t1 + REGEN_INTERVAL
    requires Regenerated(p, inventory, t1).hp > p.hp
    ensures Regenerated(Regenerated(p, inventory, t1), inventory, t2) == Regenerated(p, inventory, t1)
  {
  }

  /** Regen never heals a player at zero hp and never lifts hp past the maximum it started under. */
  lemma {:induction false} RegenNeverOverheals(p: Player, inventory: seq<PowerUpType>, ticks: seq<int>)
    requires p.hp <= p.maxHp
    ensures var r := RegenRun(p, inventory, ticks); r.hp <= r.maxHp == p.maxHp && (p.hp <= 0 ==> r.hp == p.hp)
    decreases |ticks|
  {
    if ticks != [] {
      RegenNeverOverheals(Regenerated(p, inventory, ticks[0]), inventory, ticks[1..]);
    }
  }

  /** Regen over a run of frames with the given clock readings. */
  function RegenRun(p: Player, inventory: seq<PowerUpType>, ticks: seq<int>): Player
    decreases |ticks|
  {
    if ticks == [] then p else RegenRun(Regenerated(p, inventory, ticks[0]), inventory, ticks[1..])
  }

  // ---------------------------------------------------------------------
  // Boss spawn (components/GameCanvas.tsx:405-450)
  // ---------------------------------------------------------------------

  /** The boss of a level: the elf on 14, the gum boss on 21, Santa on 28, the bells boss otherwise. */
  function BossFor(level: int, now: int): (e: Enemy)
    ensures IsBoss(e.kind) && e.hp == e.maxHp > 0
    ensures e.kind == BossElf <==> level == 14
    ensures e.kind == BossGum <==> level == 21
    ensures e.kind == BossSanta <==> level == 28
    ensures e.x == CANVAS_WIDTH / 2.0 && e.y == -2.0 * (e.radius as real) && e.y < 0.0
    ensures e.lastShotTime == now && e.attackRange == 1000
  {
    if level == 14 then Enemy(BossElf, BOSS_ELF_HP, BOSS_ELF_HP, 30, BOSS_ELF_SPEED, BOSS_ELF_COLOR, CANVAS_WIDTH / 2.0, -60.0, now, 1000)
    else if level == 21 then Enemy(BossGum, BOSS_GUM_HP, BOSS_GUM_HP, 45, BOSS_GUM_SPEED, BOSS_GUM_COLOR, CANVAS_WIDTH / 2.0, -90.0, now, 1000)
    else if level == 28 then Enemy(BossSanta, BOSS_SANTA_HP, BOSS_SANTA_HP, 50, BOSS_SANTA_SPEED, BOSS_SANTA_COLOR, CANVAS_WIDTH / 2.0, -100.0, now, 1000)
    else Enemy(BossBells, BOSS_HP_BASE, BOSS_HP_BASE, BOSS_RADIUS, BOSS_SPEED, BOSS_COLOR, CANVAS_WIDTH / 2.0, -80.0, now, 1000)
  }

  /** The boss-spawn block of a frame. */
  function WithBoss(s: State, isBossLevel: bool, level: int, now: int): (r: State)
    ensures isBossLevel && !s.bossPresent && s.killsThisLevel == 0 ==>
      r == s.(enemies := s.enemies + [BossFor(level, now)], bossPresent := true)
    ensures !(isBossLevel && !s.bossPresent && s.killsThisLevel == 0) ==> r == s
  {
    if isBossLevel && !s.bossPresent && s.killsThisLevel == 0 then
      s.(enemies := s.enemies + [BossFor(level, now)], bossPresent := true)
    else s
  }

  /** The spawn is one-shot: it keeps the invariant, and a second frame spawns no second boss. */
  lemma WithBossOnce(s: State, isBossLevel: bool, level: int, t1: int, t2: int)
    requires ValidState(s)
    ensures ValidState(WithBoss(s, isBossLevel, level, t1))
    ensures WithBoss(WithBoss(s, isBossLevel, level, t1), isBossLevel, level, t2) == WithBoss(s, isBossLevel, level, t1)
    ensures BossCount(WithBoss(s, isBossLevel, level, t1).enemies) <= 1
  {
    if isBossLevel && !s.bossPresent && s.killsThisLevel == 0 {
      BossCountAppend(s.enemies, [BossFor(level, t1)]);
    }
  }

  // ---------------------------------------------------------------------
  // Pickup sweep (components/GameCanvas.tsx:544-553)
  // ---------------------------------------------------------------------

  predicate Expired(item: PowerUpItem, now: int)
  {
    !item.persistent && now - item.createdAt > PICKUP_LIFETIME
  }

  /** The pickups the sweep leaves on the field, in their order. */
  function Survivors(items: seq<PowerUpItem>, touches: PowerUpItem -> bool, now: int): seq<PowerUpItem>
  {
    if items == [] then []
    else (if !touches(items[0]) && !Expired(items[0], now) then [items[0]] else []) + Survivors(items[1..], touches, now)
  }

  /** The kinds granted, in the order the backward sweep grants them (last pickup first). */
  function Collected(items: seq<PowerUpItem>, touches: PowerUpItem -> bool): seq<PowerUpType>
  {
    if items == [] then []
    else Collected(items[1..], touches) + (if touches(items[0]) then [items[0].kind] else [])
  }

  /** The untouched pickups that time out. */
  function ExpiredCount(items: seq<PowerUpItem>, touches: PowerUpItem -> bool, now: int): nat
  {
    if items == [] then 0
    else (if !touches(items[0]) && Expired(items[0], now) then 1 else 0) + ExpiredCount(items[1..], touches, now)
  }

  /**
   * The sweep partitions the pickups: each is collected, expires or
   * survives; survivors are exactly the untouched, unexpired pickups, in
   * their original order. In particular a persistent pickup the player
   * does not touch is never removed.
   */
  lemma {:induction false} SweepPartitions(items: seq<PowerUpItem>, touches: PowerUpItem -> bool, now: int)
    ensures |Survivors(items, touches, now)| + |Collected(items, touches)| + ExpiredCount(items, touches, now) == |items|
    ensures forall x :: x in Survivors(items, touches, now) <==> x in items && !touches(x) && !Expired(x, now)
    ensures Session.IsSubsequence(Survivors(items, touches, now), items)
  {
    if items != [] {
      SweepPartitions(items[1..], touches, now);
      var rest := Survivors(items[1..], touches, now);
      assert forall x :: x in items <==> x == items[0] || x in items[1..];
      if !touches(items[0]) && !Expired(items[0], now) {
        assert Survivors(items, touches, now) == [items[0]] + rest;
        assert ([items[0]] + rest)[1..] == rest;
        assert Session.IsSubsequence(Survivors(items, touches, now), items);
      } else {
        assert Survivors(items, touches, now) == rest;
        Session.SubsequenceOfTail(rest, items);
      }
    }
  }

  datatype Sweep = Sweep(state: State, collected: seq<PowerUpType>)

  function Swept(s: State, touches: PowerUpItem -> bool, now: int): (r: Sweep)
    ensures r.state == s.(powerupItems := Survivors(s.powerupItems, touches, now))
    ensures r.collected == Collected(s.powerupItems, touches)
    ensures ValidState(s) ==> ValidState(r.state)
  {
    Sweep(s.(powerupItems := Survivors(s.powerupItems, touches, now)), Collected(s.powerupItems, touches))
  }

  // ---------------------------------------------------------------------
  // Auto-fire (components/GameCanvas.tsx:556-603)
  // ---------------------------------------------------------------------

  /** The throw interval: rapid fire shortens it, and nothing else changes it. */
  function FireCooldown(inventory: seq<PowerUpType>): (c: int)
    ensures 0 < c <= SNOWBALL_COOLDOWN
    ensures c < SNOWBALL_COOLDOWN <==> RapidFire in inventory
  {
    if RapidFire in inventory then RAPID_FIRE_COOLDOWN else SNOWBALL_COOLDOWN
  }

  /** Snowballs per volley: three with triple shot, otherwise one. */
  function ShotCount(inventory: seq<PowerUpType>): (n: nat)
    ensures n == 1 || n == 3
    ensures n == 3 <==> TripleShot in inventory
  {
    if TripleShot in inventory then 3 else 1
  }

  const SPREAD_ANGLE: real := 0.2

  /** The angle offsets of one volley around the aim at the target. */
  function Fan(n: nat): (offsets: seq<real>)
    ensures |offsets| == n
    ensures n == 3 ==> offsets == [-SPREAD_ANGLE, 0.0, SPREAD_ANGLE]
    ensures n != 3 ==> forall i :: 0 <= i < n ==> offsets[i] == 0.0
  {
    seq(n, i => if n == 3 then ((i - 1) as real) * SPREAD_ANGLE else 0.0)
  }

  /** Whether a volley goes out: not frozen, off cooldown, and a target (the boss or any enemy) exists. */
  predicate Fires(s: State, inventory: seq<PowerUpType>, now: int)
  {
    !s.player.isFrozen && now - s.lastShotTime > FireCooldown(inventory) && (s.bossPresent || |s.enemies| > 0)
  }

  datatype Volley = Volley(state: State, offsets: seq<real>)

  function Fired(s: State, inventory: seq<PowerUpType>, now: int): (r: Volley)
    ensures Fires(s, inventory, now) ==>
      r.state == s.(lastShotTime := now) && r.offsets == Fan(ShotCount(inventory))
    ensures !Fires(s, inventory, now) ==> r == Volley(s, [])
    ensures ValidState(s) ==> ValidState(r.state)
  {
    if Fires(s, inventory, now) then Volley(s.(lastShotTime := now), Fan(ShotCount(inventory)))
    else Volley(s, [])
  }

  /** Picking up rapid fire never holds back a volley that would have gone out, and it only shortens the wait. */
  lemma RapidFireNeverDelays(s: State, inventory: seq<PowerUpType>, now: int)
    ensures Fires(s, inventory, now) ==> Fires(s, inventory + [RapidFire], now)
    ensures FireCooldown(inventory + [RapidFire]) <= FireCooldown(inventory)
  {
    assert RapidFire in inventory + [RapidFire];
  }

  /** The volley a frame throws: three spread shots with triple shot, one straight shot without, none when it does not fire. */
  lemma VolleyShape(s: State, inventory: seq<PowerUpType>, now: int)
    ensures Fires(s, inventory, now) && TripleShot in inventory ==>
      Fired(s, inventory, now).offsets == [-SPREAD_ANGLE, 0.0, SPREAD_ANGLE]
    ensures Fires(s, inventory, now) && TripleShot !in inventory ==> Fired(s, inventory, now).offsets == [0.0]
    ensures !Fires(s, inventory, now) ==> Fired(s, inventory, now).offsets == [] && Fired(s, inventory, now).state == s
  {
    if Fires(s, inventory, now) && TripleShot !in inventory {
      var f := Fan(1);
      assert f[0] == 0.0;
    }
  }

  /** Under the invariant the boss is always one of the enemies, so a target exists iff any enemy does. */
  lemma TargetExists(s: State)
    requires ValidState(s)
    ensures s.bossPresent || |s.enemies| > 0 <==> |s.enemies| > 0
  {
  }

  /** The level-complete pruning never changes the fire rule: it keeps every kind that was held. */
  lemma FireRuleSurvivesPruning(inventory: seq<PowerUpType>)
    ensures FireCooldown(Session.Prune(inventory)) == FireCooldown(inventory)
    ensures ShotCount(Session.Prune(inventory)) == ShotCount(inventory)
  {
    Session.PruneSameKinds(inventory, RapidFire);
    Session.PruneSameKinds(inventory, TripleShot);
  }

  // ---------------------------------------------------------------------
  // Minion type (components/GameCanvas.tsx:713-731)
  // ---------------------------------------------------------------------

  function MinionType(comp: Composition, level: int, roll: real, yetisSpawned: int): (t: EnemyType)
    ensures !IsBoss(t)
    ensures comp == Rush ==> t == Snowman
    ensures comp == Range ==> (t == BadKid <==> roll > 0.3) && (t == BadKid || t == Snowman)
    ensures comp == Mixed ==> (t == BadKid <==> roll > 0.6) && (t == BadKid || t == Snowman)
    ensures t == Narwhal <==> comp == Chaos && roll > 0.9 && level > 10
    ensures t == Reindeer <==> comp == Chaos && roll > 0.85 && !(roll > 0.9 && level > 10)
    ensures t == Abominable <==> comp == Chaos && 0.7 < roll <= 0.85 && level > 7 && !(level == 8 && yetisSpawned >= 1)
    ensures comp == Chaos ==> (t == BadKid <==> 0.5 < roll <= 0.85 && !(roll > 0.7 && level > 7))
    ensures comp == Chaos ==> (t == Snowman <==> roll <= 0.5 || (0.7 < roll <= 0.85 && level == 8 && yetisSpawned >= 1))
  {
    match comp
    case Chaos =>
      if roll > 0.9 && level > 10 then Narwhal
      else if roll > 0.85 then Reindeer
      else if roll > 0.7 && level > 7 then (if level == 8 && yetisSpawned >= 1 then Snowman else Abominable)
      else if roll > 0.5 then BadKid
      else Snowman
    case Range => if roll > 0.3 then BadKid else Snowman
    case Mixed => if roll > 0.6 then BadKid else Snowman
    case Rush => Snowman
  }

  /** The types of a run of spawns, threading the yeti counter. */
  function SpawnRun(comp: Composition, level: int, rolls: seq<real>, yetisSpawned: int): (r: seq<EnemyType>)
    ensures |r| == |rolls|
  {
    if rolls == [] then []
    else
      var t := MinionType(comp, level, rolls[0], yetisSpawned);
      [t] + SpawnRun(comp, level, rolls[1..], yetisSpawned + (if t == Abominable then 1 else 0))
  }

  /** The yetis in a run of spawn types. */
  function Yetis(run: seq<EnemyType>): nat
  {
    if run == [] then 0 else (if run[0] == Abominable then 1 else 0) + Yetis(run[1..])
  }

  lemma {:induction false} YetisCount(run: seq<EnemyType>)
    ensures Yetis(run) == Count(run, Abominable)
  {
    if run != [] {
      YetisCount(run[1..]);
      assert run == [run[0]] + run[1..];
      assert multiset(run) == multiset([run[0]]) + multiset(run[1..]);
    }
  }

  lemma {:induction false} Level8YetiBound(comp: Composition, rolls: seq<real>, yetisSpawned: int)
    requires yetisSpawned >= 0
    ensures Yetis(SpawnRun(comp, 8, rolls, yetisSpawned)) <= if yetisSpawned >= 1 then 0 else 1
  {
    if rolls != [] {
      var t := MinionType(comp, 8, rolls[0], yetisSpawned);
      assert t == Abominable ==> yetisSpawned == 0;
      var y := yetisSpawned + (if t == Abominable then 1 else 0);
      Level8YetiBound(comp, rolls[1..], y);
      var run := SpawnRun(comp, 8, rolls, yetisSpawned);
      assert run[0] == t && run[1..] == SpawnRun(comp, 8, rolls[1..], y);
    }
  }

  /** On level 8 at most one yeti spawns, however many spawns there are. */
  lemma Level8AtMostOneYeti(comp: Composition, rolls: seq<real>, yetisSpawned: int)
    requires yetisSpawned >= 0
    ensures Count(SpawnRun(comp, 8, rolls, yetisSpawned), Abominable) <= if yetisSpawned >= 1 then 0 else 1
  {
    Level8YetiBound(comp, rolls, yetisSpawned);
    YetisCount(SpawnRun(comp, 8, rolls, yetisSpawned));
  }

  datatype Spawn = Spawn(state: State, kind: EnemyType)

  function MinionChosen(s: State, comp: Composition, level: int, roll: real): (r: Spawn)
    ensures r.kind == MinionType(comp, level, roll, s.yetisSpawned)
    ensures r.state == s.(yetisSpawned := s.yetisSpawned + if r.kind == Abominable then 1 else 0)
    ensures ValidState(s) ==> ValidState(r.state) && r.state.yetisSpawned <= s.yetisSpawned + 1
  {
    var t := MinionType(comp, level, roll, s.yetisSpawned);
    Spawn(s.(yetisSpawned := s.yetisSpawned + if t == Abominable then 1 else 0), t)
  }

  // ---------------------------------------------------------------------
  // bad_kid fire cooldown (components/GameCanvas.tsx:1280-1281)
  // ---------------------------------------------------------------------

  function BadKidCooldown(level: int): (c: int)
    ensures c >= 500
    ensures level >= 1 ==> c <= BAD_KID_COOLDOWN
    ensures level >= 16 ==> c == 500
  {
    var reduced := BAD_KID_COOLDOWN - (level - 1) * 100;
    if reduced > 500 then reduced else 500
  }

  /** The cooldown never grows with the level. */
  lemma BadKidCooldownMonotone(a: int, b: int)
    requires a <= b
    ensures BadKidCooldown(b) <= BadKidCooldown(a)
  {
  }

  // ---------------------------------------------------------------------
  // Level load (components/GameCanvas.tsx:286-321)
  // ---------------------------------------------------------------------

  /** Heal one point towards the new maximum, never past it, never down. */
  function RestoreHp(hp: int, maxHp: int): (r: int)
    ensures hp < maxHp ==> r == hp + 1
    ensures hp >= maxHp ==> r == hp
    ensures hp <= maxHp ==> r <= maxHp
  {
    if hp < maxHp then (if maxHp < hp + 1 then maxHp else hp + 1) else hp
  }

  /** The level's authored loot, as persistent pickups stamped with the load time. */
  function LoadedItems(initial: seq<LevelGen.Loot>, now: int): (r: seq<PowerUpItem>)
    ensures |r| == |initial|
    ensures forall i :: 0 <= i < |r| ==>
      r[i] == PowerUpItem(initial[i].kind, initial[i].x, initial[i].y, now, true)
  {
    seq(|initial|, i requires 0 <= i < |initial| => PowerUpItem(initial[i].kind, initial[i].x, initial[i].y, now, true))
  }

  function LevelLoaded(s: State, initial: seq<LevelGen.Loot>, inventory: seq<PowerUpType>, now: int): (r: State)
    ensures r.enemies == [] && !r.bossPresent && !r.player.isFrozen
    ensures r.powerupItems == LoadedItems(initial, now)
    ensures r.player.maxHp == BASE_MAX_HP + Count(inventory, Vitality)
    ensures r.player.hp == RestoreHp(s.player.hp, r.player.maxHp)
    ensures r.player.lastHitTime == 0 && r.killsThisLevel == 0 && r.yetisSpawned == 0
    ensures r.player == s.player.(hp := r.player.hp, maxHp := r.player.maxHp, lastHitTime := 0, isFrozen := false)
    ensures r == s.(player := r.player, enemies := r.enemies, powerupItems := r.powerupItems, bossPresent := false,
                    killsThisLevel := 0, yetisSpawned := 0)
    ensures ValidState(s) ==> ValidState(r)
  {
    var maxHp := BASE_MAX_HP + Count(inventory, Vitality);
    var p := s.player.(maxHp := maxHp, hp := RestoreHp(s.player.hp, maxHp), lastHitTime := 0, isFrozen := false);
    s.(player := p, enemies := [], powerupItems := LoadedItems(initial, now), bossPresent := false,
       killsThisLevel := 0, yetisSpawned := 0)
  }

  /** A level load keeps the invariant, and its maximum hp is the session's when that tracks VITALITY. */
  lemma LevelLoadedAgrees(s: State, initial: seq<LevelGen.Loot>, stock: Session.Stock, now: int)
    requires ValidState(s) && Session.MaxHpTracksVitality(stock)
    ensures ValidState(LevelLoaded(s, initial, stock.powerups, now))
    ensures LevelLoaded(s, initial, stock.powerups, now).player.maxHp == stock.maxHp
  {
  }

  /** A pickup authored by the level never times out: only touching it removes it. */
  lemma LoadedItemsPersist(initial: seq<LevelGen.Loot>, loadTime: int, touches: PowerUpItem -> bool, now: int)
    ensures forall x :: x in LoadedItems(initial, loadTime) && !touches(x) ==>
      x in Survivors(LoadedItems(initial, loadTime), touches, now)
  {
    SweepPartitions(LoadedItems(initial, loadTime), touches, now);
  }

  // ---------------------------------------------------------------------
  // Level completion (components/GameCanvas.tsx:1309-1319)
  // ---------------------------------------------------------------------

  function LevelDone(isBossLevel: bool, level: int, s: State): (done: bool)
    ensures !isBossLevel ==> (done <==> s.killsThisLevel >= KillsNeeded(level))
    ensures isBossLevel && done ==> s.enemies == [] && !s.bossPresent
  {
    if isBossLevel then
      var hasBoss := exists e :: e in s.enemies && IsBoss(e.kind);
      !hasBoss && !s.bossPresent && |s.enemies| == 0
    else s.killsThisLevel >= KillsNeeded(level)
  }

  /** Under the invariant a boss level is complete exactly when the field is empty. */
  lemma BossLevelDoneIffClear(level: int, s: State)
    requires ValidState(s)
    ensures LevelDone(true, level, s) <==> s.enemies == []
  {
    if s.enemies == [] {
      assert BossCount(s.enemies) == 0;
    }
  }

  /**
   * On a boss level, killing the boss when it is the last enemy on the
   * field completes the level, whatever boss it is and however much damage
   * it has taken; with the boss still standing the level is not complete.
   */
  lemma BossKillCompletesLevel(level: int, s: State)
    requires ValidState(s) && |s.enemies| == 1 && IsBoss(s.enemies[0].kind)
    ensures LevelDone(true, level, AfterKill(s, 0))
    ensures !LevelDone(true, level, s)
  {
    assert BossCount(s.enemies[1..]) == 0;
    assert AfterKill(s, 0).enemies == [];
  }

  // ---------------------------------------------------------------------
  // Helper death (components/GameCanvas.tsx:690-694)
  // ---------------------------------------------------------------------

  function HelperPowerup(k: HelperKind): PowerUpType
  {
    if k == Melee then HelperMelee else HelperRange
  }

  /** A dead helper is spliced out and the matching power-up is revoked once. */
  datatype Death = Death(state: State, revoked: PowerUpType)

  function HelperDied(s: State, index: nat): (r: Death)
    requires index < |s.helpers|
    ensures r.state == s.(helpers := s.helpers[..index] + s.helpers[index + 1..])
    ensures r.revoked == HelperPowerup(s.helpers[index].kind)
    ensures ValidState(s) ==> ValidState(r.state)
  {
    Death(s.(helpers := s.helpers[..index] + s.helpers[index + 1..]), HelperPowerup(s.helpers[index].kind))
  }

  /**
   * Revoking the power-up of a dead helper, then syncing, leaves the other
   * helpers alone: the sync finds exactly as many helpers of that kind as
   * the inventory now asks for.
   */
  lemma HelperDeathThenSync(hs: seq<Helper>, inventory: seq<PowerUpType>, index: nat)
    requires hs == Reconciled(hs, inventory) && index < |hs|
    ensures var rest := hs[..index] + hs[index + 1..];
      var revoked := HelperPowerup(hs[index].kind);
      Reconciled(rest, Session.RemoveTimes(inventory, revoked, 1)) == rest
  {
    var rest := hs[..index] + hs[index + 1..];
    var a := Fit(OfKind(hs, Ranged), Count(inventory, HelperRange), Ranged);
    var b := Fit(OfKind(hs, Melee), Count(inventory, HelperMelee), Melee);
    assert hs == a + b;
    FitUniform(OfKind(hs, Ranged), Count(inventory, HelperRange), Ranged);
    FitUniform(OfKind(hs, Melee), Count(inventory, HelperMelee), Melee);
    if index < |a| {
      assert hs[index] == a[index];
      assert hs[..index] == a[..index];
      assert hs[index + 1..] == a[index + 1..] + b;
      var a' := a[..index] + a[index + 1..];
      assert rest == a' + b;
      UniformRemove(a, index, Ranged);
      var inventory' := Session.RemoveTimes(inventory, HelperRange, 1);
      Session.RemoveTimesCount(inventory, HelperRange, 1);
      Session.RemoveTimesOtherCounts(inventory, HelperRange, 1, HelperMelee);
      ReconciledOfSplit(a', b, inventory');
    } else {
      var j := index - |a|;
      assert hs[index] == b[j];
      assert hs[..index] == a + b[..j];
      assert hs[index + 1..] == b[j + 1..];
      var b' := b[..j] + b[j + 1..];
      assert rest == a + b';
      UniformRemove(b, j, Melee);
      var inventory' := Session.RemoveTimes(inventory, HelperMelee, 1);
      Session.RemoveTimesCount(inventory, HelperMelee, 1);
      Session.RemoveTimesOtherCounts(inventory, HelperMelee, 1, HelperRange);
      ReconciledOfSplit(a, b', inventory');
    }
  }

  /** Ranged helpers followed by melee helpers, as many as the inventory asks for, are already reconciled. */
  lemma ReconciledOfSplit(a: seq<Helper>, b: seq<Helper>, inventory: seq<PowerUpType>)
    requires forall h :: h in a ==> h.kind == Ranged
    requires forall h :: h in b ==> h.kind == Melee
    requires |a| == Count(inventory, HelperRange) && |b| == Count(inventory, HelperMelee)
    ensures Reconciled(a + b, inventory) == a + b
  {
    OfKindAppend(a, b, Ranged);
    OfKindAppend(a, b, Melee);
    OfKindUniform(a, Ranged);
    OfKindUniform(b, Melee);
    assert OfKind(a + b, Ranged) == a by {
      assert a + [] == a;
    }
    assert OfKind(a + b, Melee) == b by {
      assert [] + b == b;
    }
    assert Fit(a, |a|, Ranged) == a by {
      assert a[..|a|] == a;
    }
    assert Fit(b, |b|, Melee) == b by {
      assert b[..|b|] == b;
    }
  }

  lemma UniformRemove(a: seq<Helper>, i: nat, k: HelperKind)
    requires i < |a| && forall h :: h in a ==> h.kind == k
    ensures forall h :: h in a[..i] + a[i + 1..] ==> h.kind == k
  {
    forall h | h in a[..i] + a[i + 1..] ensures h.kind == k {
      assert h in a[..i] || h in a[i + 1..];
    }
  }

  // ---------------------------------------------------------------------
  // initGame and the MENU reset (components/GameCanvas.tsx:246-278, 322-325)
  // ---------------------------------------------------------------------

  function NewGame(inventory: seq<PowerUpType>, now: int): (r: State)
    ensures ValidState(r)
    ensures r.player.hp == r.player.maxHp == BASE_MAX_HP + Count(inventory, Vitality)
    ensures r.player.shieldHp == r.player.maxShieldHp == 0 && !r.player.isFrozen
    ensures r.enemies == [] && r.helpers == [] && r.powerupItems == [] && !r.bossPresent
    ensures r.score == 0 && r.killsThisLevel == 0 && r.yetisSpawned == 0
    ensures r.player.lastHitTime == 0 && r.player.lastRegenTime == now && r.lastShotTime == now
  {
    var maxHp := BASE_MAX_HP + Count(inventory, Vitality);
    State(Player(maxHp, maxHp, 0, 0, 0, now, false), [], [], [], 0, 0, false, now, 0)
  }

  // ---------------------------------------------------------------------
  // The component's refs, updated in place
  // ---------------------------------------------------------------------

  class SimulationState {
    var player: Player
    var enemies: seq<Enemy>
    var helpers: seq<Helper>
    var powerupItems: seq<PowerUpItem>
    var score: int
    var killsThisLevel: int
    var bossPresent: bool
    var lastShotTime: int
    var yetisSpawned: int

    function Snapshot(): State
      reads this
    {
      State(player, enemies, helpers, powerupItems, score, killsThisLevel, bossPresent, lastShotTime, yetisSpawned)
    }

    predicate Valid()
      reads this
    {
      ValidState(Snapshot())
    }

    constructor ()
      ensures Snapshot() == INITIAL_STATE && Valid()
    {
      player := Player(3, 3, 0, 0, 0, 0, false);
      enemies, helpers, powerupItems := [], [], [];
      score, killsThisLevel, bossPresent, lastShotTime, yetisSpawned := 0, 0, false, 0, 0;
    }

    /** `initGame` followed by the score reset of the MENU branch. */
    method ResetGame(inventory: seq<PowerUpType>, now: int)
      modifies this
      ensures Snapshot() == NewGame(inventory, now) && Valid()
    {
      var bonusHp := Count(inventory, Vitality);
      player := Player(BASE_MAX_HP + bonusHp, BASE_MAX_HP + bonusHp, 0, 0, 0, now, false);
      enemies, helpers, powerupItems := [], [], [];
      bossPresent := false;
      lastShotTime := now;
      killsThisLevel, yetisSpawned := 0, 0;
      score := 0;
    }

    method TakeDamage(amount: int, now: int, lives: int) returns (signals: Signals)
      requires Valid()
      modifies this
      ensures Hit(player, signals) == Damaged(old(player), amount, now, lives)
      ensures Snapshot() == old(Snapshot()).(player := player)
      ensures amount >= 0 ==> Valid()
    {
      if amount >= 0 {
        DamagedKeepsValid(player, amount, now, lives);
      }
      if now - player.lastHitTime < HIT_GRACE {
        return NO_SIGNALS;
      }
      var removeShield := false;
      if player.shieldHp > 0 {
        player := player.(shieldHp := player.shieldHp - amount);
        if player.shieldHp <= 0 {
          removeShield := true;
        }
      } else {
        player := player.(hp := player.hp - amount);
      }
      player := player.(lastHitTime := now);
      var lifeLost, gameOver := false, false;
      if player.hp <= 0 {
        if lives > 0 {
          lifeLost := true;
        }
        gameOver := true;
      }
      signals := Signals(removeShield, lifeLost, gameOver);
    }

    method SyncPowerups(inventory: seq<PowerUpType>)
      requires Valid()
      modifies this
      ensures Snapshot() == Synced(old(Snapshot()), inventory) && Valid()
    {
      if Shield in inventory {
        if player.maxShieldHp == 0 {
          player := player.(maxShieldHp := SHIELD_MAX_HP, shieldHp := SHIELD_MAX_HP);
        }
      } else {
        player := player.(maxShieldHp := 0, shieldHp := 0);
      }
      var targetRange := Count(inventory, HelperRange);
      var targetMelee := Count(inventory, HelperMelee);
      var rangeHelpers := FitHelpers(OfKind(helpers, Ranged), targetRange, Ranged);
      var meleeHelpers := FitHelpers(OfKind(helpers, Melee), targetMelee, Melee);
      helpers := rangeHelpers + meleeHelpers;
    }

    /** The pop loop, then the push loop, for one helper kind. */
    static method FitHelpers(current: seq<Helper>, target: nat, k: HelperKind) returns (r: seq<Helper>)
      ensures r == Fit(current, target, k)
    {
      r := current;
      while |r| > target
        invariant |current| >= target ==> target <= |r| <= |current| && r == current[..|r|]
        invariant |current| < target ==> r == current
      {
        r := r[..|r| - 1];
      }
      while |r| < target
        invariant |r| <= target || r == current
        invariant |current| >= target ==> r == current[..target]
        invariant |current| < target ==> |current| <= |r| <= target && r == Fit(current, target, k)[..|r|]
      {
        r := r + [NewHelper(k)];
      }
    }

    method KillEnemy(index: nat)
      requires Valid() && index < |enemies|
      modifies this
      ensures Snapshot() == AfterKill(old(Snapshot()), index) && Valid()
    {
      AfterKillKeepsValid(Snapshot(), index);
      var e := enemies[index];
      enemies := enemies[..index] + enemies[index + 1..];
      if IsBoss(e.kind) {
        score := score + SCORE_BOSS_KILL;
        bossPresent := false;
      } else {
        score := score + SCORE_PER_KILL;
        killsThisLevel := killsThisLevel + 1;
      }
    }

    method Regenerate(inventory: seq<PowerUpType>, now: int)
      requires Valid()
      modifies this
      ensures player == Regenerated(old(player), inventory, now)
      ensures Snapshot() == old(Snapshot()).(player := player) && Valid()
    {
      if Regen in inventory {
        if now - player.lastRegenTime > REGEN_INTERVAL {
          if player.hp < player.maxHp && player.hp > 0 {
            player := player.(hp := player.hp + 1);
          }
          player := player.(lastRegenTime := now);
        }
      }
    }

    method SpawnBoss(isBossLevel: bool, level: int, now: int)
      requires Valid()
      modifies this
      ensures Snapshot() == WithBoss(old(Snapshot()), isBossLevel, level, now) && Valid()
    {
      WithBossOnce(Snapshot(), isBossLevel, level, now, now);
      if isBossLevel && !bossPresent && killsThisLevel == 0 {
        var boss := BossFor(level, now);
        enemies := enemies + [boss];
        bossPresent := true;
      }
    }

    /** The backward loop over the pickups: collect what the player touches, drop what timed out. */
    method SweepPickups(touches: PowerUpItem -> bool, now: int) returns (collected: seq<PowerUpType>)
      requires Valid()
      modifies this
      ensures Sweep(Snapshot(), collected) == Swept(old(Snapshot()), touches, now) && Valid()
    {
      var items := powerupItems;
      ghost var original := powerupItems;
      collected := [];
      var i := |items| - 1;
      while i >= 0
        invariant -1 <= i < |original|
        invariant items == original[..i + 1] + Survivors(original[i + 1..], touches, now)
        invariant collected == Collected(original[i + 1..], touches)
      {
        var item := items[i];
        assert item == original[i];
        assert original[i..] == [original[i]] + original[i + 1..];
        assert original[i..][1..] == original[i + 1..];
        assert original[..i + 1] == original[..i] + [original[i]];
        if touches(item) {
          collected := collected + [item.kind];
          items := items[..i] + items[i + 1..];
        } else if !item.persistent && now - item.createdAt > PICKUP_LIFETIME {
          items := items[..i] + items[i + 1..];
        }
        i := i - 1;
      }
      assert original[0..] == original;
      powerupItems := items;
    }

    /** The player's auto-throw: returns the angle offsets of the volley, empty when nothing is thrown. */
    method AutoFire(inventory: seq<PowerUpType>, now: int) returns (offsets: seq<real>)
      requires Valid()
      modifies this
      ensures Volley(Snapshot(), offsets) == Fired(old(Snapshot()), inventory, now) && Valid()
    {
      var cooldown := SNOWBALL_COOLDOWN;
      if RapidFire in inventory {
        cooldown := RAPID_FIRE_COOLDOWN;
      }
      offsets := [];
      if !player.isFrozen && now - lastShotTime > cooldown {
        var hasTarget := bossPresent || |enemies| > 0;
        if hasTarget {
          var shotCount := if TripleShot in inventory then 3 else 1;
          for i := 0 to shotCount
            invariant offsets == Fan(shotCount)[..i]
          {
            var offset := 0.0;
            if shotCount == 3 {
              offset := ((i - 1) as real) * SPREAD_ANGLE;
            }
            offsets := offsets + [offset];
          }
          lastShotTime := now;
        }
      }
    }

    method ChooseMinion(comp: Composition, level: int, roll: real) returns (kind: EnemyType)
      requires Valid()
      modifies this
      ensures Spawn(Snapshot(), kind) == MinionChosen(old(Snapshot()), comp, level, roll) && Valid()
    {
      kind := Snowman;
      if comp == Chaos {
        if roll > 0.9 && level > 10 {
          kind := Narwhal;
        } else if roll > 0.85 {
          kind := Reindeer;
        } else if roll > 0.7 && level > 7 {
          if level == 8 && yetisSpawned >= 1 {
            kind := Snowman;
          } else {
            kind := Abominable;
          }
        } else if roll > 0.5 {
          kind := BadKid;
        }
      } else if comp == Range {
        kind := if roll > 0.3 then BadKid else Snowman;
      } else if comp == Mixed {
        kind := if roll > 0.6 then BadKid else Snowman;
      }
      if kind == Abominable {
        yetisSpawned := yetisSpawned + 1;
      }
    }

    /** The LOADING_LEVEL branch of the status effect. */
    method LoadLevel(initial: seq<LevelGen.Loot>, inventory: seq<PowerUpType>, now: int)
      requires Valid()
      modifies this
      ensures Snapshot() == LevelLoaded(old(Snapshot()), initial, inventory, now) && Valid()
    {
      enemies := [];
      var items: seq<PowerUpItem> := [];
      for idx := 0 to |initial|
        invariant items == LoadedItems(initial, now)[..idx]
      {
        var p := initial[idx];
        items := items + [PowerUpItem(p.kind, p.x, p.y, now, true)];
      }
      powerupItems := items;
      bossPresent := false;
      player := player.(isFrozen := false);
      var bonusHp := Count(inventory, Vitality);
      player := player.(maxHp := BASE_MAX_HP + bonusHp);
      if player.hp < player.maxHp {
        player := player.(hp := if player.maxHp < player.hp + 1 then player.maxHp else player.hp + 1);
      }
      player := player.(lastHitTime := 0);
      killsThisLevel := 0;
      yetisSpawned := 0;
      assert items == LoadedItems(initial, now);
    }

    method HelperDies(index: nat) returns (revoked: PowerUpType)
      requires Valid() && index < |helpers|
      modifies this
      ensures Death(Snapshot(), revoked) == HelperDied(old(Snapshot()), index) && Valid()
    {
      revoked := if helpers[index].kind == Melee then HelperMelee else HelperRange;
      helpers := helpers[..index] + helpers[index + 1..];
    }

    predicate Completed(isBossLevel: bool, level: int)
      reads this
    {
      LevelDone(isBossLevel, level, Snapshot())
    }
  }
}
