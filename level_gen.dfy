/**
 * The procedural level generator (services/geminiService.ts,
 * `generateLevel`): level classification, the speed and spawn-rate
 * schedules, the composition mode, the boss line, the toy-factory grid and
 * the obstacle and ice-patch placement of an ordinary level.
 *
 * Every `Math.random()` draw is an input: a real in [0, 1).
 */
module LevelGen {
  import opened GameTypes

  /** A draw of `Math.random()`. */
  predicate IsRoll(x: real)
  {
    0.0 <= x < 1.0
  }

  function Sq(x: real): real
  {
    x * x
  }

  // ---------------------------------------------------------------------
  // Classification (services/geminiService.ts:49-50)
  // ---------------------------------------------------------------------

  predicate IsBossLevel(level: int)
  {
    level % 7 == 0
  }

  predicate IsFactoryLevel(level: int)
  {
    level % 5 == 0 && !IsBossLevel(level)
  }

  /** No level is both a boss level and a factory level. */
  lemma BossAndFactoryDisjoint(level: int)
    ensures !(IsBossLevel(level) && IsFactoryLevel(level))
  {
  }

  /** The factory levels are exactly the multiples of 5 that are not multiples of 35. */
  lemma FactoryLevels(level: int)
    ensures IsFactoryLevel(level) <==> level % 5 == 0 && level % 35 != 0
  {
    if level % 5 == 0 && level % 7 == 0 {
      MultipleOfBoth(level);
    }
    if level % 35 == 0 {
      var m := level / 35;
      assert level == 5 * (7 * m) && level == 7 * (5 * m);
    }
  }

  /** A multiple of both 5 and 7 is a multiple of 35. */
  lemma MultipleOfBoth(level: int)
    requires level % 5 == 0 && level % 7 == 0
    ensures level % 35 == 0
  {
    var a, b := level / 5, level / 7;
    assert level == 5 * a && level == 7 * b;
    assert level == 35 * (3 * a - 4 * b);
  }

  /** Boss levels recur every seven levels. */
  lemma BossLevelsRecur(level: int)
    ensures IsBossLevel(level) <==> IsBossLevel(level + 7)
  {
  }

  // ---------------------------------------------------------------------
  // Enemy speed multiplier (services/geminiService.ts:53-61)
  // ---------------------------------------------------------------------

  predicate IsActReset(level: int)
  {
    level == 8 || level == 9 || level == 15
  }

  const SPEED_CAP: real := 2.0

  function SpeedMultiplier(level: int): (m: real)
    ensures m <= SPEED_CAP
    ensures IsActReset(level) ==> m == 1.0
    ensures !IsActReset(level) && 0 <= level <= 20 ==> m == 1.0 + (level as real) * 0.05
    ensures !IsActReset(level) && level >= 20 ==> m == SPEED_CAP
    ensures level >= 0 ==> m >= 1.0
  {
    var linear := if IsActReset(level) then 1.0 else 1.0 + (level as real) * 0.05;
    if linear < SPEED_CAP then linear else SPEED_CAP
  }

  /** Outside the three reset levels, enemies never get slower as the level rises. */
  lemma SpeedMonotone(a: int, b: int)
    requires a <= b && !IsActReset(a) && !IsActReset(b)
    ensures SpeedMultiplier(a) <= SpeedMultiplier(b)
  {
  }

  // ---------------------------------------------------------------------
  // Enemy composition (services/geminiService.ts:192-196)
  // ---------------------------------------------------------------------

  /** `roll` is the draw the source makes once the level exceeds 5. */
  function ChooseComposition(level: int, roll: real): (c: Composition)
    ensures c != Range
    ensures c == Mixed <==> IsBossLevel(level) || level <= 5 || (level <= 8 && roll <= 0.7)
    ensures c == Chaos <==> !IsBossLevel(level) && level > 8
    ensures c == Rush <==> !IsBossLevel(level) && 5 < level <= 8 && roll > 0.7
  {
    var c := Mixed;
    var c := if level > 5 && roll > 0.7 then Rush else c;
    var c := if level > 8 then Chaos else c;
    if IsBossLevel(level) then Mixed else c
  }

  // ---------------------------------------------------------------------
  // Spawn interval (services/geminiService.ts:199-216)
  // ---------------------------------------------------------------------

  /** The level the base interval is computed from: each act restarts the schedule. */
  function AdjustedLevel(level: int): (a: int)
    ensures level <= 7 ==> a == level
    ensures 7 < level <= 14 ==> a == level - 4
    ensures level > 14 ==> a == level - 8
  {
    var a := level;
    var a := if level > 7 then level - 4 else a;
    if level > 14 then level - 8 else a
  }

  function MaxReal(a: real, b: real): (m: real)
    ensures m >= a && m >= b && (m == a || m == b)
  {
    if a >= b then a else b
  }

  /** `Math.max(400, 1800 - adjustedLevel * 120)` */
  function BaseInterval(level: int): (r: real)
    ensures r >= 400.0
    ensures AdjustedLevel(level) >= 0 ==> r <= 1800.0
  {
    MaxReal(400.0, (1800 - AdjustedLevel(level) * 120) as real)
  }

  /** The interval before the hoarding penalty: levels above 10 run at 60%, floored at 250. */
  function IntervalBeforePenalty(level: int): (r: real)
    ensures r >= 250.0
    ensures r <= BaseInterval(level)
    ensures level <= 10 ==> r == BaseInterval(level)
  {
    if level > 10 then MaxReal(250.0, BaseInterval(level) * 0.6) else BaseInterval(level)
  }

  function Pow(x: real, n: nat): real
  {
    if n == 0 then 1.0 else x * Pow(x, n - 1)
  }

  const PENALTY_BASE: real := 0.9
  const FREE_OFFENSIVE: int := 5

  /** `enemySpawnRate`: milliseconds between enemy spawns. */
  function SpawnInterval(level: int, offensiveCount: int): (r: real)
    ensures r >= 150.0
    ensures r <= IntervalBeforePenalty(level)
    ensures offensiveCount <= FREE_OFFENSIVE ==> r == IntervalBeforePenalty(level)
  {
    var extra := if offensiveCount - FREE_OFFENSIVE > 0 then offensiveCount - FREE_OFFENSIVE else 0;
    if extra > 0 then Penalised(IntervalBeforePenalty(level), extra) else IntervalBeforePenalty(level)
  }

  /** `Math.max(150, rate * Math.pow(0.9, extra))` */
  function Penalised(rate: real, extra: nat): (r: real)
    requires rate >= 150.0
    ensures 150.0 <= r <= rate
  {
    var p := Pow(PENALTY_BASE, extra);
    PowBounds(extra);
    MulMonotone(rate, p, 1.0);
    MaxReal(150.0, rate * p)
  }

  /** A larger excess is penalised at least as hard. */
  lemma PenalisedMonotone(rate: real, m: nat, n: nat)
    requires rate >= 150.0 && m <= n
    ensures Penalised(rate, n) <= Penalised(rate, m)
  {
    PowDecreasing(m, n);
    MulMonotone(rate, Pow(PENALTY_BASE, n), Pow(PENALTY_BASE, m));
  }

  lemma MulMonotone(a: real, p: real, q: real)
    requires a >= 0.0 && p <= q
    ensures a * p <= a * q
  {
    MulNonneg(a, q - p);
  }

  lemma {:induction false} PowBounds(n: nat)
    ensures 0.0 < Pow(PENALTY_BASE, n) <= 1.0
  {
    if n > 0 {
      PowBounds(n - 1);
    }
  }

  lemma {:induction false} PowDecreasing(m: nat, n: nat)
    requires m <= n
    ensures Pow(PENALTY_BASE, n) <= Pow(PENALTY_BASE, m)
  {
    if m < n {
      PowDecreasing(m, n - 1);
      PowBounds(n - 1);
    }
  }

  /** Holding more offensive power-ups never slows the spawns down. */
  lemma HoardingNeverHelps(level: int, fewer: int, more: int)
    requires fewer <= more
    ensures SpawnInterval(level, more) <= SpawnInterval(level, fewer)
  {
    if more > FREE_OFFENSIVE && fewer > FREE_OFFENSIVE {
      PenalisedMonotone(IntervalBeforePenalty(level), fewer - FREE_OFFENSIVE, more - FREE_OFFENSIVE);
    }
  }

  /** Within one act (levels 1-7, 8-14, 15 and up) the base interval never grows. */
  lemma BaseIntervalShrinksWithinAct(a: int, b: int)
    requires a <= b
    requires (a <= 7 && b <= 7) || (8 <= a && b <= 14) || 15 <= a
    ensures BaseInterval(b) <= BaseInterval(a)
  {
  }

  /** Each new act (levels 8 and 15) restarts from a longer base interval than the level before it. */
  lemma ActsRestartTheSchedule()
    ensures BaseInterval(8) > BaseInterval(7)
    ensures BaseInterval(15) > BaseInterval(14)
  {
    assert AdjustedLevel(7) == 7 && AdjustedLevel(8) == 4;
    assert AdjustedLevel(14) == 10 && AdjustedLevel(15) == 7;
  }

  // ---------------------------------------------------------------------
  // Boss line (services/geminiService.ts:170-189)
  // ---------------------------------------------------------------------

  function BossMessage(level: int): (msg: string)
    ensures msg == [] <==> !IsBossLevel(level)
    ensures level == 14 ==> msg == "Back to work!"
    ensures level == 21 ==> msg == "Chew on this!"
    ensures level == 28 ==> msg == "HO HO HO! NO SURVIVORS!"
    ensures IsBossLevel(level) && level != 14 && level != 21 && level != 28 ==> msg == "I will crush you!"
  {
    if !IsBossLevel(level) then ""
    else if level == 14 then "Back to work!"
    else if level == 21 then "Chew on this!"
    else if level == 28 then "HO HO HO! NO SURVIVORS!"
    else "I will crush you!"
  }

  // ---------------------------------------------------------------------
  // Map items
  // ---------------------------------------------------------------------

  /** `box-<row>-<col>` for a factory wall, `obs-<level>-<slot>` for an ordinary obstacle. */
  datatype ObstacleId = BoxId(row: nat, col: nat) | ObsId(level: int, slot: nat)

  datatype Obstacle = Obstacle(id: ObstacleId, x: real, y: real, radius: real, color: string)

  /** An entry of `initialPowerups`. */
  datatype Loot = Loot(x: real, y: real, kind: PowerUpType)

  /** `ice-<level>-<index>` */
  datatype IcePatch = IcePatch(level: int, index: nat, x: real, y: real, radiusX: real, radiusY: real, rotation: real)

  const BOX_COLOR: string := "#92400e"
  const TREE_COLOR: string := "#166534"
  const ROCK_COLOR: string := "#64748b"
  const SNOW_COLOR: string := "#f8fafc"

  // ---------------------------------------------------------------------
  // Toy-factory grid (services/geminiService.ts:71-108)
  // ---------------------------------------------------------------------

  const GRID_COLS: nat := 6
  const GRID_ROWS: nat := 5
  const GRID_CELLS: nat := 30
  const CELL_W: real := CANVAS_WIDTH / 6.0
  const CELL_H: real := CANVAS_HEIGHT / 5.0
  const BOX_RADIUS: real := (if CELL_W < CELL_H then CELL_W else CELL_H) * 0.35

  /** The three draws a cell may make: box or not, loot or not, and which loot. */
  datatype CellDraw = CellDraw(box: real, loot: real, kind: real)

  predicate ValidGridDraws(draws: seq<CellDraw>)
  {
    |draws| == GRID_CELLS && forall k :: 0 <= k < |draws| ==> IsRoll(draws[k].kind)
  }

  /** The four cells around the player's spawn point. */
  predicate IsSpawnCell(row: int, col: int)
  {
    (row == 2 || row == 3) && (col == 2 || col == 3)
  }

  function CellX(col: int): real
  {
    (col as real) * CELL_W + CELL_W / 2.0
  }

  function CellY(row: int): real
  {
    (row as real) * CELL_H + CELL_H / 2.0
  }

  /** The spawn block: the rectangle the four spawn cells cover. */
  predicate InSpawnBlock(x: real, y: real)
  {
    2.0 * CELL_W <= x < 4.0 * CELL_W && 2.0 * CELL_H <= y < 4.0 * CELL_H
  }

  datatype CellOutcome = Skipped | Box(obstacle: Obstacle) | Pickup(loot: Loot) | Vacant

  /** What the grid loop does with cell (`row`, `col`). */
  function Cell(row: nat, col: nat, d: CellDraw): CellOutcome
    requires IsRoll(d.kind)
  {
    if IsSpawnCell(row, col) then Skipped
    else if d.box > 0.4 then Box(Obstacle(BoxId(row, col), CellX(col), CellY(row), BOX_RADIUS, BOX_COLOR))
    else if d.loot < 0.4 then Pickup(Loot(CellX(col), CellY(row), ALL_POWERUPS[RollIndex(d.kind, |ALL_POWERUPS|)]))
    else Vacant
  }

  /** The outcome of the `k`-th cell in row-major order. */
  function CellAt(draws: seq<CellDraw>, k: nat): CellOutcome
    requires ValidGridDraws(draws) && k < GRID_CELLS
  {
    Cell(k / GRID_COLS, k % GRID_COLS, draws[k])
  }

  /** The walls built by the first `k` cells. */
  function GridBoxes(draws: seq<CellDraw>, k: nat): seq<Obstacle>
    requires ValidGridDraws(draws) && k <= GRID_CELLS
  {
    if k == 0 then []
    else GridBoxes(draws, k - 1) + (if CellAt(draws, k - 1).Box? then [CellAt(draws, k - 1).obstacle] else [])
  }

  /** The loot placed by the first `k` cells. */
  function GridLoot(draws: seq<CellDraw>, k: nat): seq<Loot>
    requires ValidGridDraws(draws) && k <= GRID_CELLS
  {
    if k == 0 then []
    else GridLoot(draws, k - 1) + (if CellAt(draws, k - 1).Pickup? then [CellAt(draws, k - 1).loot] else [])
  }

  lemma CellIndex(row: nat, col: nat)
    requires col < GRID_COLS
    ensures (row * GRID_COLS + col) / GRID_COLS == row
    ensures (row * GRID_COLS + col) % GRID_COLS == col
  {
  }

  /** The grid loop: rows, then columns, skipping the spawn cells. */
  method FactoryGrid(draws: seq<CellDraw>) returns (obstacles: seq<Obstacle>, loot: seq<Loot>)
    requires ValidGridDraws(draws)
    ensures obstacles == GridBoxes(draws, GRID_CELLS)
    ensures loot == GridLoot(draws, GRID_CELLS)
  {
    obstacles, loot := [], [];
    for row := 0 to GRID_ROWS
      invariant obstacles == GridBoxes(draws, row * GRID_COLS)
      invariant loot == GridLoot(draws, row * GRID_COLS)
    {
      for col := 0 to GRID_COLS
        invariant obstacles == GridBoxes(draws, row * GRID_COLS + col)
        invariant loot == GridLoot(draws, row * GRID_COLS + col)
      {
        var k := row * GRID_COLS + col;
        CellIndex(row, col);
        assert CellAt(draws, k) == Cell(row, col, draws[k]);
        if IsSpawnCell(row, col) {
          continue;
        }
        var cx := (col as real) * CELL_W + CELL_W / 2.0;
        var cy := (row as real) * CELL_H + CELL_H / 2.0;
        var radius := (if CELL_W < CELL_H then CELL_W else CELL_H) * 0.35;
        if draws[k].box > 0.4 {
          obstacles := obstacles + [Obstacle(BoxId(row, col), cx, cy, radius, BOX_COLOR)];
        } else if draws[k].loot < 0.4 {
          loot := loot + [Loot(cx, cy, ALL_POWERUPS[RollIndex(draws[k].kind, |ALL_POWERUPS|)])];
        }
      }
    }
  }

  /** A cell centre lies in the spawn block exactly when the cell is a spawn cell. */
  lemma CellCentreInSpawnBlock(row: nat, col: nat)
    ensures InSpawnBlock(CellX(col), CellY(row)) <==> IsSpawnCell(row, col)
  {
    if col <= 1 {
      assert (col as real) <= 1.0;
    } else if col >= 4 {
      assert (col as real) >= 4.0;
    }
    if row <= 1 {
      assert (row as real) <= 1.0;
    } else if row >= 4 {
      assert (row as real) >= 4.0;
    }
  }

  /** No wall and no loot of the factory grid has its centre in the spawn block. */
  lemma {:induction false} GridClearOfSpawn(draws: seq<CellDraw>, k: nat)
    requires ValidGridDraws(draws) && k <= GRID_CELLS
    ensures forall o :: o in GridBoxes(draws, k) ==> !InSpawnBlock(o.x, o.y)
    ensures forall l :: l in GridLoot(draws, k) ==> !InSpawnBlock(l.x, l.y)
  {
    if k > 0 {
      GridClearOfSpawn(draws, k - 1);
      CellCentreInSpawnBlock((k - 1) / GRID_COLS, (k - 1) % GRID_COLS);
    }
  }

  /** The row-major index of the cell a point lies in. */
  function CellKey(x: real, y: real): int
  {
    (y / CELL_H).Floor * GRID_COLS + (x / CELL_W).Floor
  }

  lemma CellKeyOfCentre(row: nat, col: nat)
    ensures CellKey(CellX(col), CellY(row)) == row * GRID_COLS + col
  {
    CentreOverWidth(col);
    CentreOverHeight(row);
    FloorOfHalf(col);
    FloorOfHalf(row);
  }

  lemma CentreOverWidth(col: nat)
    ensures CellX(col) / CELL_W == (col as real) + 0.5
  {
  }

  lemma CentreOverHeight(row: nat)
    ensures CellY(row) / CELL_H == (row as real) + 0.5
  {
  }

  lemma FloorOfHalf(n: nat)
    ensures ((n as real) + 0.5).Floor == n
  {
  }

  /** Every item of the first `k` cells lies in a cell before `k`. */
  lemma {:induction false} GridKeysBelow(draws: seq<CellDraw>, k: nat)
    requires ValidGridDraws(draws) && k <= GRID_CELLS
    ensures forall o :: o in GridBoxes(draws, k) ==> 0 <= CellKey(o.x, o.y) < k
    ensures forall l :: l in GridLoot(draws, k) ==> 0 <= CellKey(l.x, l.y) < k
  {
    if k > 0 {
      GridKeysBelow(draws, k - 1);
      CellIndex((k - 1) / GRID_COLS, (k - 1) % GRID_COLS);
      CellKeyOfCentre((k - 1) / GRID_COLS, (k - 1) % GRID_COLS);
    }
  }

  predicate BoxCellsIncrease(b: seq<Obstacle>)
  {
    forall i, j :: 0 <= i < j < |b| ==> CellKey(b[i].x, b[i].y) < CellKey(b[j].x, b[j].y)
  }

  predicate LootCellsIncrease(l: seq<Loot>)
  {
    forall i, j :: 0 <= i < j < |l| ==> CellKey(l[i].x, l[i].y) < CellKey(l[j].x, l[j].y)
  }

  /**
   * Each cell yields at most one item: walls and loot each lie in strictly
   * increasing cells, and no cell holds both a wall and loot.
   */
  lemma {:induction false} GridOnePerCell(draws: seq<CellDraw>, k: nat)
    requires ValidGridDraws(draws) && k <= GRID_CELLS
    ensures BoxCellsIncrease(GridBoxes(draws, k))
    ensures LootCellsIncrease(GridLoot(draws, k))
    ensures forall o, l :: o in GridBoxes(draws, k) && l in GridLoot(draws, k) ==> CellKey(o.x, o.y) != CellKey(l.x, l.y)
  {
    if k > 0 {
      GridOnePerCell(draws, k - 1);
      GridKeysBelow(draws, k - 1);
      CellIndex((k - 1) / GRID_COLS, (k - 1) % GRID_COLS);
      CellKeyOfCentre((k - 1) / GRID_COLS, (k - 1) % GRID_COLS);
      var b, b' := GridBoxes(draws, k - 1), GridBoxes(draws, k);
      assert forall i :: 0 <= i < |b| ==> b'[i] == b[i];
      forall i, j | 0 <= i < j < |b'| ensures CellKey(b'[i].x, b'[i].y) < CellKey(b'[j].x, b'[j].y) {
        if j == |b| {
          assert b'[i] in b;
          assert CellKey(b'[j].x, b'[j].y) == k - 1;
        } else {
          assert b'[i] == b[i] && b'[j] == b[j];
        }
      }
      var l, l' := GridLoot(draws, k - 1), GridLoot(draws, k);
      assert forall i :: 0 <= i < |l| ==> l'[i] == l[i];
      forall i, j | 0 <= i < j < |l'| ensures CellKey(l'[i].x, l'[i].y) < CellKey(l'[j].x, l'[j].y) {
        if j == |l| {
          assert l'[i] in l;
          assert CellKey(l'[j].x, l'[j].y) == k - 1;
        } else {
          assert l'[i] == l[i] && l'[j] == l[j];
        }
      }
    }
  }

  // ---------------------------------------------------------------------
  // Ordinary levels: obstacle placement (services/geminiService.ts:111-152)
  // ---------------------------------------------------------------------

  const MAX_ATTEMPTS: nat := 20
  const CENTRE_CLEARANCE: real := 150.0

  /** The four draws of one placement attempt: kind, radius, x and y. */
  datatype ObstacleDraw = ObstacleDraw(kind: real, radius: real, x: real, y: real)

  predicate ValidAttempts(tries: seq<ObstacleDraw>)
  {
    |tries| >= MAX_ATTEMPTS
    && forall t :: 0 <= t < |tries| ==> IsRoll(tries[t].radius) && IsRoll(tries[t].x) && IsRoll(tries[t].y)
  }

  function ObstacleColor(kindRoll: real): string
  {
    if kindRoll > 0.6 then TREE_COLOR else if kindRoll > 0.3 then ROCK_COLOR else SNOW_COLOR
  }

  /** The obstacle an attempt proposes: radius in [20, 60], centre kept a radius away from every edge. */
  function Candidate(level: int, slot: nat, d: ObstacleDraw): (o: Obstacle)
    requires IsRoll(d.radius) && IsRoll(d.x) && IsRoll(d.y)
    ensures 20.0 <= o.radius <= 60.0
    ensures o.radius <= o.x <= CANVAS_WIDTH - o.radius && o.radius <= o.y <= CANVAS_HEIGHT - o.radius
    ensures o.id == ObsId(level, slot)
  {
    var radius := Uniform(d.radius, 20.0, 60.0);
    Obstacle(ObsId(level, slot), Uniform(d.x, radius, CANVAS_WIDTH - radius), Uniform(d.y, radius, CANVAS_HEIGHT - radius), radius, ObstacleColor(d.kind))
  }

  /** `isTooCloseToCenter`, on squared distances (both sides are non-negative). */
  predicate TooCloseToCentre(x: real, y: real, r: real)
  {
    Sq(x - CANVAS_WIDTH / 2.0) + Sq(y - CANVAS_HEIGHT / 2.0) < Sq(CENTRE_CLEARANCE + r)
  }

  /** Two circles closer than the sum of their radii. */
  predicate Overlaps(a: Obstacle, b: Obstacle)
  {
    Sq(a.x - b.x) + Sq(a.y - b.y) < Sq(a.radius + b.radius)
  }

  predicate Acceptable(c: Obstacle, placed: seq<Obstacle>)
  {
    !TooCloseToCentre(c.x, c.y, c.radius) && forall o :: o in placed ==> !Overlaps(c, o)
  }

  /** The first attempt from `a` on, among the first twenty, whose candidate is acceptable. */
  function FirstAcceptable(level: int, slot: nat, tries: seq<ObstacleDraw>, placed: seq<Obstacle>, a: nat): (j: Option<nat>)
    requires ValidAttempts(tries)
    ensures j.Some? ==> a <= j.value < MAX_ATTEMPTS && Acceptable(Candidate(level, slot, tries[j.value]), placed)
    ensures j.Some? ==> forall t :: a <= t < j.value ==> !Acceptable(Candidate(level, slot, tries[t]), placed)
    ensures j.None? ==> forall t :: a <= t < MAX_ATTEMPTS ==> !Acceptable(Candidate(level, slot, tries[t]), placed)
    decreases MAX_ATTEMPTS - a
  {
    if a >= MAX_ATTEMPTS then None
    else if Acceptable(Candidate(level, slot, tries[a]), placed) then Some(a)
    else FirstAcceptable(level, slot, tries, placed, a + 1)
  }

  /** What slot `slot` adds to the obstacles `placed` before it: the first acceptable candidate, if any. */
  function SlotResult(level: int, slot: nat, tries: seq<ObstacleDraw>, placed: seq<Obstacle>): (r: Option<Obstacle>)
    requires ValidAttempts(tries)
    ensures r.Some? ==> Acceptable(r.value, placed) && r.value.id == ObsId(level, slot)
    ensures r.Some? ==>
      (20.0 <= r.value.radius <= 60.0
       && r.value.radius <= r.value.x <= CANVAS_WIDTH - r.value.radius
       && r.value.radius <= r.value.y <= CANVAS_HEIGHT - r.value.radius)
  {
    match FirstAcceptable(level, slot, tries, placed, 0)
    case None => None
    case Some(j) => Some(Candidate(level, slot, tries[j]))
  }

  /** The obstacles accepted in the first `k` slots. */
  function Placed(level: int, draws: seq<seq<ObstacleDraw>>, k: nat): seq<Obstacle>
    requires k <= |draws| && forall i :: 0 <= i < |draws| ==> ValidAttempts(draws[i])
  {
    if k == 0 then []
    else
      var before := Placed(level, draws, k - 1);
      Extend(before, SlotResult(level, k - 1, draws[k - 1], before))
  }

  /** The number of passes of `for (let i = 0; i < n; i++)`: the least natural number not below `n`. */
  function SlotCount(n: real): (k: nat)
    ensures (k as real) >= n
    ensures k == 0 || ((k - 1) as real) < n
  {
    if n <= 0.0 then 0
    else if (n.Floor as real) == n then n.Floor
    else n.Floor + 1
  }

  /** The placement loop: up to twenty attempts per slot, keeping the first acceptable candidate. */
  method PlaceObstacles(level: int, numObstacles: real, draws: seq<seq<ObstacleDraw>>) returns (obstacles: seq<Obstacle>)
    requires SlotCount(numObstacles) <= |draws|
    requires forall i :: 0 <= i < |draws| ==> ValidAttempts(draws[i])
    ensures obstacles == Placed(level, draws, SlotCount(numObstacles))
  {
    obstacles := [];
    var i: nat := 0;
    while (i as real) < numObstacles
      invariant i <= SlotCount(numObstacles)
      invariant obstacles == Placed(level, draws, i)
      decreases SlotCount(numObstacles) - i
    {
      var found := TrySlot(level, i, draws[i], obstacles);
      if found.Some? {
        obstacles := obstacles + [found.value];
      }
      i := i + 1;
    }
    assert i == SlotCount(numObstacles);
  }

  /** The retry loop of one slot: at most twenty attempts, stopping at the first acceptable candidate. */
  method TrySlot(level: int, slot: nat, tries: seq<ObstacleDraw>, placed: seq<Obstacle>) returns (found: Option<Obstacle>)
    requires ValidAttempts(tries)
    ensures found == SlotResult(level, slot, tries, placed)
  {
    var attempts: nat := 0;
    var valid := false;
    var obs := Obstacle(ObsId(level, slot), 0.0, 0.0, 0.0, ROCK_COLOR);
    while !valid && attempts < MAX_ATTEMPTS
      invariant attempts <= MAX_ATTEMPTS
      invariant !valid ==> FirstAcceptable(level, slot, tries, placed, attempts) == FirstAcceptable(level, slot, tries, placed, 0)
      invariant valid ==> 0 < attempts && FirstAcceptable(level, slot, tries, placed, 0) == Some(attempts - 1)
      invariant valid ==> obs == Candidate(level, slot, tries[attempts - 1])
      decreases MAX_ATTEMPTS - attempts, if valid then 0 else 1
    {
      var candidate := Candidate(level, slot, tries[attempts]);
      var ok := CheckCandidate(candidate, placed);
      if ok {
        obs := candidate;
        valid := true;
      }
      attempts := attempts + 1;
    }
    found := if valid then Some(obs) else None;
  }

  /** The two tests of one attempt: clear of the centre, then clear of every obstacle placed so far. */
  method CheckCandidate(candidate: Obstacle, placed: seq<Obstacle>) returns (ok: bool)
    ensures ok <==> Acceptable(candidate, placed)
  {
    ok := false;
    if !TooCloseToCentre(candidate.x, candidate.y, candidate.radius) {
      var overlap := OverlapsAny(candidate, placed);
      ok := !overlap;
    }
  }

  /** The scan over the obstacles placed so far. */
  method OverlapsAny(candidate: Obstacle, placed: seq<Obstacle>) returns (overlap: bool)
    ensures overlap <==> exists o :: o in placed && Overlaps(candidate, o)
  {
    overlap := false;
    for m := 0 to |placed|
      invariant overlap <==> exists p :: 0 <= p < m && Overlaps(candidate, placed[p])
    {
      if Overlaps(candidate, placed[m]) {
        overlap := true;
      }
    }
  }

  /** `placed`, with the slot's result appended when there is one. */
  function Extend(placed: seq<Obstacle>, r: Option<Obstacle>): seq<Obstacle>
  {
    if r.Some? then placed + [r.value] else placed
  }

  lemma OverlapsSymmetric(a: Obstacle, b: Obstacle)
    ensures Overlaps(a, b) <==> Overlaps(b, a)
  {
    assert Sq(a.x - b.x) == Sq(b.x - a.x);
    assert Sq(a.y - b.y) == Sq(b.y - a.y);
  }

  /** The properties a list of placed obstacles keeps as slots are added. */
  predicate WellPlaced(level: int, p: seq<Obstacle>, k: nat)
  {
    |p| <= k
    && (forall o :: o in p ==> !TooCloseToCentre(o.x, o.y, o.radius))
    && (forall a, b :: 0 <= a < b < |p| ==> !Overlaps(p[b], p[a]) && !Overlaps(p[a], p[b]))
    && (forall a :: 0 <= a < |p| ==> p[a].id.ObsId? && p[a].id.level == level && p[a].id.slot < k)
    && (forall a, b :: 0 <= a < b < |p| ==> p[a].id.slot < p[b].id.slot)
    && (forall o :: o in p ==>
          (20.0 <= o.radius <= 60.0
           && o.radius <= o.x <= CANVAS_WIDTH - o.radius && o.radius <= o.y <= CANVAS_HEIGHT - o.radius))
  }

  /** Appending the result of slot `k` keeps the list well placed. */
  lemma ExtendWellPlaced(level: int, p: seq<Obstacle>, k: nat, r: Option<Obstacle>)
    requires WellPlaced(level, p, k)
    requires r.Some? ==> Acceptable(r.value, p) && r.value.id == ObsId(level, k)
    requires r.Some? ==>
      (20.0 <= r.value.radius <= 60.0
       && r.value.radius <= r.value.x <= CANVAS_WIDTH - r.value.radius
       && r.value.radius <= r.value.y <= CANVAS_HEIGHT - r.value.radius)
    ensures WellPlaced(level, Extend(p, r), k + 1)
  {
    if r.Some? {
      var q := p + [r.value];
      forall o | o in q ensures !TooCloseToCentre(o.x, o.y, o.radius) {
        if o !in p {
          assert o == r.value;
        }
      }
      forall a, b | 0 <= a < b < |q| ensures !Overlaps(q[b], q[a]) && !Overlaps(q[a], q[b]) {
        if b == |p| {
          assert q[a] in p;
          OverlapsSymmetric(q[a], q[b]);
        } else {
          assert q[a] == p[a] && q[b] == p[b];
        }
      }
      forall a, b | 0 <= a < b < |q| ensures q[a].id.slot < q[b].id.slot {
        if b < |p| {
          assert q[a] == p[a] && q[b] == p[b];
        }
      }
      forall o | o in q
        ensures 20.0 <= o.radius <= 60.0
          && o.radius <= o.x <= CANVAS_WIDTH - o.radius && o.radius <= o.y <= CANVAS_HEIGHT - o.radius
      {
        if o !in p {
          assert o == r.value;
        }
      }
    }
  }

  /**
   * The accepted obstacles: at most one per slot, in slot order, each
   * clear of the spawn point at the canvas centre, inside the canvas with a
   * radius in [20, 60], and no two overlapping.
   */
  lemma {:induction false} PlacedWell(level: int, draws: seq<seq<ObstacleDraw>>, k: nat)
    requires k <= |draws| && forall i :: 0 <= i < |draws| ==> ValidAttempts(draws[i])
    ensures WellPlaced(level, Placed(level, draws, k), k)
  {
    if k > 0 {
      PlacedWell(level, draws, k - 1);
      var before := Placed(level, draws, k - 1);
      ExtendWellPlaced(level, before, k - 1, SlotResult(level, k - 1, draws[k - 1], before));
    }
  }

  /** A boss level draws between 2 and 5 slots, an ordinary level between 6 and 12. */
  lemma ObstacleSlots(level: int, roll: real)
    requires IsRoll(roll)
    ensures var n := if IsBossLevel(level) then Uniform(roll, 2.0, 5.0) else Uniform(roll, 6.0, 12.0);
      if IsBossLevel(level) then 2 <= SlotCount(n) <= 5 else 6 <= SlotCount(n) <= 12
  {
  }

  // ---------------------------------------------------------------------
  // Ordinary levels: ice patches (services/geminiService.ts:155-166)
  // ---------------------------------------------------------------------

  const PI: real := 3.141592653589793

  /** The five draws of one patch: both radii, x, y and rotation. */
  datatype IceDraw = IceDraw(radiusX: real, radiusY: real, x: real, y: real, rotation: real)

  predicate ValidIceDraw(d: IceDraw)
  {
    IsRoll(d.radiusX) && IsRoll(d.radiusY) && IsRoll(d.x) && IsRoll(d.y) && IsRoll(d.rotation)
  }

  /**
   * Patch `index` of a level from its draws: both radii in [30, 80], the
   * centre at least a radius from every edge, the rotation in [0, pi).
   */
  function IcePatchOf(level: int, index: nat, d: IceDraw): (p: IcePatch)
    requires ValidIceDraw(d)
    ensures p.level == level && p.index == index
    ensures 30.0 <= p.radiusX <= 80.0 && 30.0 <= p.radiusY <= 80.0
    ensures p.radiusX <= p.x <= CANVAS_WIDTH - p.radiusX && p.radiusY <= p.y <= CANVAS_HEIGHT - p.radiusY
    ensures 0.0 <= p.rotation < PI
  {
    var radiusX := Uniform(d.radiusX, 30.0, 80.0);
    var radiusY := Uniform(d.radiusY, 30.0, 80.0);
    IcePatch(level, index, Uniform(d.x, radiusX, CANVAS_WIDTH - radiusX), Uniform(d.y, radiusY, CANVAS_HEIGHT - radiusY),
      radiusX, radiusY, Uniform(d.rotation, 0.0, PI))
  }

  /** The patch loop: one patch per pass, the `i`-th built from the `i`-th draws. */
  method PlaceIcePatches(level: int, numIce: real, draws: seq<IceDraw>) returns (patches: seq<IcePatch>)
    requires SlotCount(numIce) <= |draws|
    requires forall i :: 0 <= i < |draws| ==> ValidIceDraw(draws[i])
    ensures |patches| == SlotCount(numIce)
    ensures forall i :: 0 <= i < |patches| ==> patches[i] == IcePatchOf(level, i, draws[i])
  {
    patches := [];
    var i: nat := 0;
    while (i as real) < numIce
      invariant i <= SlotCount(numIce) && |patches| == i
      invariant forall j :: 0 <= j < i ==> patches[j] == IcePatchOf(level, j, draws[j])
      decreases SlotCount(numIce) - i
    {
      var d := draws[i];
      var radiusX := Uniform(d.radiusX, 30.0, 80.0);
      var radiusY := Uniform(d.radiusY, 30.0, 80.0);
      var x := Uniform(d.x, radiusX, CANVAS_WIDTH - radiusX);
      var y := Uniform(d.y, radiusY, CANVAS_HEIGHT - radiusY);
      var rotation := Uniform(d.rotation, 0.0, PI);
      patches := patches + [IcePatch(level, i, x, y, radiusX, radiusY, rotation)];
      i := i + 1;
    }
  }

  // ---------------------------------------------------------------------
  // generateLevel (services/geminiService.ts:45-231)
  // ---------------------------------------------------------------------

  /** Every draw `generateLevel` may make, grouped by where it is made. */
  datatype LevelRolls = LevelRolls(
    grid: seq<CellDraw>,
    obstacleCount: real,
    iceCount: real,
    obstacles: seq<seq<ObstacleDraw>>,
    ice: seq<IceDraw>,
    composition: real)

  predicate ValidRolls(r: LevelRolls)
  {
    ValidGridDraws(r.grid) && IsRoll(r.obstacleCount) && IsRoll(r.iceCount)
    && |r.obstacles| >= 12 && (forall i :: 0 <= i < |r.obstacles| ==> ValidAttempts(r.obstacles[i]))
    && |r.ice| >= 4 && (forall i :: 0 <= i < |r.ice| ==> ValidIceDraw(r.ice[i]))
  }

  datatype LevelConfig = LevelConfig(
    levelNumber: int,
    obstacles: seq<Obstacle>,
    icePatches: seq<IcePatch>,
    initialPowerups: seq<Loot>,
    enemySpawnRate: real,
    enemySpeedMultiplier: real,
    bossMessage: string,
    enemyComposition: Composition,
    isBossLevel: bool)

  function ObstacleCount(level: int, roll: real): real
    requires IsRoll(roll)
  {
    if IsBossLevel(level) then Uniform(roll, 2.0, 5.0) else Uniform(roll, 6.0, 12.0)
  }

  method GenerateLevel(level: int, offensiveCount: int, rolls: LevelRolls) returns (cfg: LevelConfig)
    requires ValidRolls(rolls)
    ensures cfg.levelNumber == level && cfg.isBossLevel == IsBossLevel(level)
    ensures cfg.enemySpeedMultiplier == SpeedMultiplier(level)
    ensures cfg.enemySpawnRate == SpawnInterval(level, offensiveCount)
    ensures cfg.enemyComposition == ChooseComposition(level, rolls.composition)
    ensures cfg.bossMessage == BossMessage(level)
    ensures IsFactoryLevel(level) ==>
      cfg.obstacles == GridBoxes(rolls.grid, GRID_CELLS) && cfg.initialPowerups == GridLoot(rolls.grid, GRID_CELLS)
      && cfg.icePatches == []
    ensures !IsFactoryLevel(level) ==>
      cfg.obstacles == Placed(level, rolls.obstacles, SlotCount(ObstacleCount(level, rolls.obstacleCount)))
      && cfg.initialPowerups == [] && |cfg.icePatches| == SlotCount(Uniform(rolls.iceCount, 1.0, 4.0))
      && forall i :: 0 <= i < |cfg.icePatches| ==> cfg.icePatches[i] == IcePatchOf(level, i, rolls.ice[i])
  {
    var obstacles: seq<Obstacle> := [];
    var icePatches: seq<IcePatch> := [];
    var initialPowerups: seq<Loot> := [];
    if IsFactoryLevel(level) {
      obstacles, initialPowerups := FactoryGrid(rolls.grid);
    } else {
      var numObstacles := ObstacleCount(level, rolls.obstacleCount);
      var numIce := Uniform(rolls.iceCount, 1.0, 4.0);
      ObstacleSlots(level, rolls.obstacleCount);
      obstacles := PlaceObstacles(level, numObstacles, rolls.obstacles);
      icePatches := PlaceIcePatches(level, numIce, rolls.ice);
    }
    cfg := LevelConfig(level, obstacles, icePatches, initialPowerups, SpawnInterval(level, offensiveCount),
      SpeedMultiplier(level), BossMessage(level), ChooseComposition(level, rolls.composition), IsBossLevel(level));
  }
}
