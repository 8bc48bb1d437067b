/** The level generator of game.js (`isHappyLevel`, `buildLevel`): the row
    count, the happy-level cadence, the choice of layout style, the
    occupancy grid and the brick records built from it. The draws that
    `Math.random` makes, and the trigonometric layouts (arch, wave,
    diagonal), are supplied by a `LevelRandom` oracle. */
module Levels {
  import opened Util
  import opened Rewards
  import opened Entities

  const Cols := 11

  /** `clamp(6 + Math.floor((lv-1)*0.65), 6, 12)`; Dafny's integer division
      by a positive number rounds down, as `Math.floor` does. */
  function Rows(lv: int): (rows: int)
    ensures 6 <= rows <= 12
    ensures lv <= 1 ==> rows == 6
    ensures lv >= 11 ==> rows == 12
  {
    ClampInt(6 + (lv - 1) * 65 / 100, 6, 12)
  }

  /** The grid grows by at most one row from one level to the next. */
  lemma RowsGrowSlowly(lv: int)
    ensures Rows(lv) <= Rows(lv + 1) <= Rows(lv) + 1
  {
    var q := (lv - 1) * 65 / 100;
    var q2 := lv * 65 / 100;
    assert q * 100 <= (lv - 1) * 65 < q * 100 + 100;
    assert q2 * 100 <= lv * 65 < q2 * 100 + 100;
    assert q <= q2 <= q + 1;
  }

  // ---------------------------------------------------------------------
  // Happy levels
  // ---------------------------------------------------------------------

  /** The closed form of the happy-level cadence: every level up to 3,
      then 5, 8, 10, 13, 15, 18, ... (gaps of 2 and 3 in turn). */
  predicate HappyCadence(lv: int) {
    lv <= 3 || (lv - 3) % 5 == 0 || (lv - 3) % 5 == 2
  }

  /** `isHappyLevel(lv)`: walk from level 3 in steps of 2 and 3 in turn
      until reaching or passing `lv`. */
  method IsHappyLevel(lv: int) returns (happy: bool)
    ensures happy <==> HappyCadence(lv)
  {
    if lv <= 3 {
      return true;
    }
    var cur := 3;
    var step := 2;
    while cur < lv
      invariant cur >= 3
      invariant ((cur - 3) % 5 == 0 && step == 2) || ((cur - 3) % 5 == 2 && step == 3)
      invariant cur == 3 || cur - (5 - step) < lv
      decreases lv - cur
    {
      StepKeepsPhase(cur, step);
      cur := cur + step;
      step := if step == 2 then 3 else 2;
    }
    happy := cur == lv;
    if !happy {
      // lv lies strictly between two consecutive stops of the walk
      NotHappyBetweenStops(cur, step, lv);
    }
  }

  /** One step of the walk moves it to the next stop of the cadence. */
  lemma StepKeepsPhase(cur: int, step: int)
    requires ((cur - 3) % 5 == 0 && step == 2) || ((cur - 3) % 5 == 2 && step == 3)
    ensures step == 2 ==> (cur + step - 3) % 5 == 2
    ensures step == 3 ==> (cur + step - 3) % 5 == 0
  {
    var q := (cur - 3) / 5;
    assert cur - 3 == 5 * q + (cur - 3) % 5;
    if step == 2 {
      assert cur + step - 3 == 5 * q + 2;
    } else {
      assert cur + step - 3 == 5 * (q + 1);
    }
  }

  lemma NotHappyBetweenStops(cur: int, step: int, lv: int)
    requires cur > 3 && lv > 3
    requires ((cur - 3) % 5 == 0 && step == 2) || ((cur - 3) % 5 == 2 && step == 3)
    requires cur - (5 - step) < lv < cur
    ensures !HappyCadence(lv)
  {
    var q := (cur - 3) / 5;
    assert cur - 3 == 5 * q + (cur - 3) % 5;
    if step == 2 {
      assert lv - 3 == 5 * (q - 1) + (lv - cur + 5);
    } else {
      assert lv - 3 == 5 * q + 1;
    }
  }

  /** After level 3 the happy levels come every two or three levels, the
      gaps alternating: a happy level is followed by another exactly two or
      exactly three levels later, with none in between. */
  lemma HappyGaps(lv: int)
    requires lv >= 3 && HappyCadence(lv)
    ensures !HappyCadence(lv + 1)
    ensures HappyCadence(lv + 2) || (!HappyCadence(lv + 2) && HappyCadence(lv + 3))
    ensures HappyCadence(lv + 2) ==> !HappyCadence(lv + 4)
  {
    var q := (lv - 3) / 5;
    assert lv - 3 == 5 * q + (lv - 3) % 5;
    if (lv - 3) % 5 == 0 {
      assert lv + 1 - 3 == 5 * q + 1;
      assert lv + 2 - 3 == 5 * q + 2;
      assert lv + 4 - 3 == 5 * q + 4;
    } else {
      assert lv + 1 - 3 == 5 * q + 3;
      assert lv + 2 - 3 == 5 * q + 4;
      assert lv + 3 - 3 == 5 * (q + 1);
    }
  }

  // ---------------------------------------------------------------------
  // Styles
  // ---------------------------------------------------------------------

  datatype Style = Happy | Arch | Wave | Diag | Holes | Crown | Islands | Zigzag

  /** The cycle of non-happy layouts. */
  const Styles: seq<Style> := [Arch, Wave, Diag, Holes, Crown, Islands, Zigzag]

  /** The layout of level `lv`. */
  function StyleOf(lv: int): (s: Style)
    ensures s == Happy <==> HappyCadence(lv)
    ensures !HappyCadence(lv) ==> s == Styles[(lv - 1) % 7]
  {
    if HappyCadence(lv) then Happy else Styles[(lv - 1) % 7]
  }

  /** From level 4 on, the sequence of layouts repeats every 35 levels (the
      happy cadence has period 5 and the style cycle period 7). */
  lemma StylePeriod(lv: int)
    requires lv >= 4
    ensures StyleOf(lv + 35) == StyleOf(lv)
  {
    ModFiveShift(lv - 3);
    ModSevenShift(lv - 1);
  }

  /** 35 is a multiple of 5 ... */
  lemma ModFiveShift(a: int)
    ensures (a + 35) % 5 == a % 5
  {
    var q := a / 5;
    assert a == 5 * q + a % 5;
    assert a + 35 == 5 * (q + 7) + a % 5;
  }

  /** ... and of 7. */
  lemma ModSevenShift(a: int)
    ensures (a + 35) % 7 == a % 7
  {
    var q := a / 7;
    assert a == 7 * q + a % 7;
    assert a + 35 == 7 * (q + 5) + a % 7;
  }

  // ---------------------------------------------------------------------
  // Occupancy rules
  // ---------------------------------------------------------------------

  /** The happy layout (game.js 1152-1176): a dense top with holes and an
      open centre channel, side guides in the middle, and two protective
      pads on the second-to-last row. The centre column is 5, so
      `|c - mid| <= 1.2` is columns 4-6 and `|c - mid| > 2` is columns 0-2
      and 8-10; `floor(rows*0.46)` and `floor(rows*0.72)` are computed
      exactly in integers. */
  predicate HappyCell(rows: int, r: int, c: int) {
    var topDense := rows * 46 / 100;
    var midEnd := rows * 72 / 100;
    if r <= topDense then
      !(4 <= c <= 6 && r >= 2) && (r + c) % 5 != 0
    else if r <= midEnd then
      c == 0 || c == Cols - 1 || c == 1 || c == Cols - 2 || ((c <= 2 || c >= 8) && (r + c) % 3 == 0)
    else
      r == rows - 2 && (c <= 1 || c >= Cols - 2)
  }

  /** In a happy layout the centre columns 4-6 are empty from row 2 down
      and the last row is empty, so a ball served from the paddle rises
      through a clear channel; the top-left cell is always a brick. */
  lemma HappyChannel(rows: int, r: int, c: int)
    requires 6 <= rows <= 12
    ensures 2 <= r && 4 <= c <= 6 ==> !HappyCell(rows, r, c)
    ensures r == rows - 1 ==> !HappyCell(rows, r, c)
    ensures HappyCell(rows, 1, 0)
  {
    assert rows * 46 / 100 >= 2;
    assert rows * 72 / 100 < rows - 1;
  }

  /** The crown layout: notches at every third column of row 1 and every
      fourth of row 2. */
  predicate CrownCell(r: int, c: int) {
    !(r == 1 && c % 3 == 1) && !(r == 2 && c % 4 == 2)
  }

  /** The zigzag layout: bands of two rows out of three, checkered in the
      upper part of the grid and full below 55% of its height. */
  predicate ZigzagCell(lv: int, rows: int, r: int, c: int) {
    (r + lv / 2) % 3 != 0 && ((c + r) % 2 == 0 || r as real > rows as real * 0.55)
  }

  /** Number of island seeds on level `lv`. */
  function IslandSeeds(lv: int): (n: int)
    ensures lv >= 0 ==> 3 <= n <= 6
  {
    3 + MinInt(3, lv / 4)
  }

  /** Whether grid cell (r, c) lies within island `i`'s radius. */
  predicate IslandHit(lv: int, rows: int, i: int, r: int, c: int)
    requires rows >= 2
  {
    var sx := (i * 997 + lv * 131) % Cols;
    var sy := 1 + (i * 541 + lv * 73) % (rows - 1);
    var rad := 2.2 + (i % 3) as real * 0.9;
    var dx := c - sx;
    var dy := r - sy;
    (dx * dx + dy * dy) as real <= rad * rad
  }

  /** The islands layout: the cell is within some seed's radius. */
  predicate IslandsCell(lv: int, rows: int, r: int, c: int)
    requires rows >= 2
  {
    exists i :: 0 <= i < IslandSeeds(lv) && IslandHit(lv, rows, i, r, c)
  }

  /** The islands loop (game.js 1195-1205): try the seeds in order and stop
      at the first one that covers the cell. */
  method IslandsCellLoop(lv: int, rows: int, r: int, c: int) returns (hit: bool)
    requires rows >= 2
    ensures hit <==> IslandsCell(lv, rows, r, c)
  {
    var seeds := IslandSeeds(lv);
    hit := false;
    var i := 0;
    while i < seeds
      invariant !hit
      invariant forall j :: 0 <= j < i ==> !IslandHit(lv, rows, j, r, c)
    {
      if IslandHit(lv, rows, i, r, c) {
        hit := true;
        return;
      }
      i := i + 1;
    }
  }

  /** The draws `buildLevel` makes for each cell of the grid: the
      trigonometric or random base shape, the random hole, the top-row
      thinning, the brick-type roll, the mover's speed and direction, and
      the sample for the reward draw. */
  datatype LevelRandom = LevelRandom(
    shape: (int, int) -> bool,
    hole: (int, int) -> bool,
    sparse: (int, int) -> bool,
    typeRoll: (int, int) -> real,
    moverSpeed: (int, int) -> real,
    moverLeft: (int, int) -> bool,
    dropSample: (int, int) -> real)

  /** The base shape of a non-happy layout. */
  predicate ShapeCell(style: Style, lv: int, rows: int, r: int, c: int, rnd: LevelRandom)
    requires rows >= 2
  {
    match style
    case Crown => CrownCell(r, c)
    case Islands => IslandsCell(lv, rows, r, c)
    case Zigzag => ZigzagCell(lv, rows, r, c)
    case _ => rnd.shape(r, c)
  }

  /** Whether cell (r, c) holds a brick: the happy rule, or a non-happy
      shape with the random hole and, in rows 1-2, the random thinning
      applied. */
  predicate CellOn(style: Style, lv: int, rows: int, r: int, c: int, rnd: LevelRandom)
    requires rows >= 2
  {
    if style == Happy then HappyCell(rows, r, c)
    else ShapeCell(style, lv, rows, r, c, rnd) && !rnd.hole(r, c) && !(r <= 2 && rnd.sparse(r, c))
  }

  /** A non-happy cell is never on when its hole draw fires, nor in rows
      1-2 when its thinning draw fires; otherwise it follows its shape. */
  lemma HoleRemovesBrick(style: Style, lv: int, rows: int, r: int, c: int, rnd: LevelRandom)
    requires rows >= 2 && style != Happy
    ensures rnd.hole(r, c) ==> !CellOn(style, lv, rows, r, c, rnd)
    ensures r <= 2 && rnd.sparse(r, c) ==> !CellOn(style, lv, rows, r, c, rnd)
    ensures !rnd.hole(r, c) && (r > 2 || !rnd.sparse(r, c)) ==>
      (CellOn(style, lv, rows, r, c, rnd) <==> ShapeCell(style, lv, rows, r, c, rnd))
  {
  }

  /** The occupancy grid `occ` (game.js 1145-1219): `rows` rows of 11
      cells; row 0 is always empty and every other cell follows
      `CellOn`. */
  method BuildOccupancy(style: Style, lv: int, rows: int, rnd: LevelRandom) returns (occ: seq<seq<bool>>)
    requires rows >= 2
    ensures |occ| == rows
    ensures forall r :: 0 <= r < rows ==> |occ[r]| == Cols
    ensures forall c :: 0 <= c < Cols ==> !occ[0][c]
    ensures forall r, c :: 1 <= r < rows && 0 <= c < Cols ==> (occ[r][c] <==> CellOn(style, lv, rows, r, c, rnd))
  {
    occ := seq(rows, _ => seq(Cols, _ => false));
    for r := 1 to rows
      invariant |occ| == rows
      invariant forall i :: 0 <= i < rows ==> |occ[i]| == Cols
      invariant forall i, j :: 0 <= i < rows && 0 <= j < Cols ==>
        (occ[i][j] <==> 1 <= i < r && CellOn(style, lv, rows, i, j, rnd))
    {
      for c := 0 to Cols
        invariant |occ| == rows
        invariant forall i :: 0 <= i < rows ==> |occ[i]| == Cols
        invariant forall i, j :: 0 <= i < rows && 0 <= j < Cols ==>
          (occ[i][j] <==> (1 <= i < r || (i == r && j < c)) && CellOn(style, lv, rows, i, j, rnd))
      {
        var on := false;
        if style == Happy {
          on := HappyCell(rows, r, c);
        } else {
          if style == Islands {
            on := IslandsCellLoop(lv, rows, r, c);
          } else {
            on := ShapeCell(style, lv, rows, r, c, rnd);
          }
          var hole := rnd.hole(r, c);
          if on && hole {
            on := false;
          }
          var topSparse := r <= 2 && rnd.sparse(r, c);
          if topSparse {
            on := false;
          }
        }
        occ := occ[r := occ[r][c := on]];
      }
    }
  }

  // ---------------------------------------------------------------------
  // Brick records
  // ---------------------------------------------------------------------

  /** The brick type a roll in [0, 1) selects: mover below the mover
      weight, hard below the sum of both weights, normal otherwise. */
  function KindFor(roll: real, lv: int, happy: bool): (k: BrickKind)
    ensures lv >= 0 && roll >= 0.42 ==> k == Normal
    ensures lv >= 0 && happy && roll >= 0.26 ==> k == Normal
    ensures roll < 0.03 && lv >= 0 ==> k == Mover
  {
    var wMover := if happy then Min(0.10, 0.03 + lv as real * 0.006) else Min(0.14, 0.04 + lv as real * 0.007);
    var wHard := if happy then Min(0.16, 0.06 + lv as real * 0.008) else Min(0.28, 0.10 + lv as real * 0.010);
    if roll < wMover then Mover else if roll < wMover + wHard then Hard else Normal
  }

  /** Starting hit points by type. */
  function HpFor(kind: BrickKind, lv: int): (hp: int)
    ensures 1 <= hp <= 4
    ensures kind == Normal <==> hp == 1
    ensures kind == Mover ==> hp <= 3
    ensures lv < 6 ==> hp <= 2
  {
    match kind
    case Normal => 1
    case Hard => ClampInt(2 + lv / 6, 2, 4)
    case Mover => ClampInt(2 + lv / 10, 2, 3)
  }

  /** The occupancy grid of level `lv` as a value: `Rows(lv)` rows of 11
      cells, row 0 empty, every other cell set as the level's layout says. */
  function LevelGrid(lv: int, rnd: LevelRandom): (occ: seq<seq<bool>>)
    ensures |occ| == Rows(lv)
    ensures forall r :: 0 <= r < |occ| ==> |occ[r]| == Cols
    ensures forall c :: 0 <= c < Cols ==> !occ[0][c]
  {
    var rows := Rows(lv);
    seq(rows, r => seq(Cols, c => 1 <= r && CellOn(StyleOf(lv), lv, rows, r, c, rnd)))
  }
  /** The first half of `buildLevel`'s layout: the happy-level test, the
      style, and the occupancy loop, which fill in exactly the level's grid. */
  method LevelOccupancy(lv: int, rnd: LevelRandom) returns (happy: bool, occ: seq<seq<bool>>)
    requires lv >= 1
    ensures happy <==> HappyCadence(lv)
    ensures occ == LevelGrid(lv, rnd)
    ensures happy ==> occ[1][0]
  {
    var rows := Rows(lv);
    happy := IsHappyLevel(lv);
    var style := if happy then Happy else Styles[(lv - 1) % 7];
    occ := BuildOccupancy(style, lv, rows, rnd);
    ghost var grid := LevelGrid(lv, rnd);
    assert style == StyleOf(lv);
    forall r | 0 <= r < rows ensures occ[r] == grid[r] {
      assert forall c :: 0 <= c < Cols ==> occ[r][c] == grid[r][c];
    }
    if happy {
      HappyChannel(rows, 1, 0);
    }
  }


  /** Number of set cells in a row. */
  function RowCount(row: seq<bool>): (n: nat)
    ensures n <= |row|
  {
    if row == [] then 0 else RowCount(row[..|row| - 1]) + (if row[|row| - 1] then 1 else 0)
  }

  /** Number of set cells in rows 1 .. r-1 of the grid. */
  function GridCount(occ: seq<seq<bool>>, r: nat): (n: nat)
    requires 1 <= r <= |occ|
    requires forall i :: 0 <= i < |occ| ==> |occ[i]| == Cols
    ensures n <= (r - 1) * Cols
  {
    if r == 1 then 0 else GridCount(occ, r - 1) + RowCount(occ[r - 1])
  }

  /** The grid geometry. */
  const SideMargin := 16.0
  const Padding := 10.0
  const TopOffset := 18.0
  const BrickH := 22.0

  /** What holds of every brick a level starts with: alive with its full,
      type-determined hit points, still unless it is a mover, on one of rows
      1 .. rows-1, and carrying a drop from the pick list (or `NoDrop` when
      that list is empty). */
  predicate FreshBrick(b: Brick, lv: int, rows: int, pickList: seq<PowerId>) {
    && BrickOk(b) && b.alive && b.hp >= 1 && b.maxHp == b.hp
    && b.hp == HpFor(b.kind, lv)
    && (b.kind != Mover ==> b.vx == 0.0)
    && TopOffset + (BrickH + Padding) <= b.y <= TopOffset + (rows - 1) as real * (BrickH + Padding)
    && b.h == BrickH
    && (if pickList == [] then b.dropId == NoDrop else b.dropId in pickList)
  }

  /** A grid cell: row `r`, column `c`. */
  datatype Cell = Cell(r: int, c: int)

  /** Cell `a` comes before cell `b` in a row-by-row, left-to-right scan. */
  predicate Before(a: Cell, b: Cell) {
    a.r < b.r || (a.r == b.r && a.c < b.c)
  }

  /** The columns of the set cells of a row, left to right. */
  function RowCells(row: seq<bool>): (cs: seq<int>)
    ensures |cs| == RowCount(row)
    ensures forall k :: 0 <= k < |cs| ==> 0 <= cs[k] < |row| && row[cs[k]]
  {
    if row == [] then []
    else
      var n := |row| - 1;
      assert forall c :: 0 <= c < n ==> row[..n][c] == row[c];
      RowCells(row[..n]) + (if row[n] then [n] else [])
  }

  /** The columns come left to right, and every set cell is among them. */
  lemma {:induction false} RowCellsExact(row: seq<bool>)
    ensures forall k, m :: 0 <= k < m < |RowCells(row)| ==> RowCells(row)[k] < RowCells(row)[m]
    ensures forall c :: 0 <= c < |row| && row[c] ==> c in RowCells(row)
    decreases |row|
  {
    if row != [] {
      var n := |row| - 1;
      RowCellsExact(row[..n]);
      var init := RowCells(row[..n]);
      var cs := RowCells(row);
      assert cs == init + (if row[n] then [n] else []);
      forall c | 0 <= c < |row| && row[c] ensures c in cs {
        if c < n {
          assert row[..n][c];
        }
      }
    }
  }

  /** The cells of row `r` at the columns `cols`. */
  function RowOf(r: int, cols: seq<int>): (cs: seq<Cell>)
    ensures |cs| == |cols|
    ensures forall k :: 0 <= k < |cs| ==> cs[k] == Cell(r, cols[k])
  {
    seq(|cols|, k requires 0 <= k < |cols| => Cell(r, cols[k]))
  }

  /** The set cells of rows 1 .. r-1 in the order `buildLevel` scans them,
      row by row and left to right (`GridCellsOrdered`, `GridCellsCover`). */
  function GridCells(occ: seq<seq<bool>>, r: nat): (cs: seq<Cell>)
    requires 1 <= r <= |occ|
    requires forall i :: 0 <= i < |occ| ==> |occ[i]| == Cols
    ensures |cs| == GridCount(occ, r)
    ensures forall k :: 0 <= k < |cs| ==> 1 <= cs[k].r < r && 0 <= cs[k].c < Cols && occ[cs[k].r][cs[k].c]
  {
    if r == 1 then [] else GridCells(occ, r - 1) + RowOf(r - 1, RowCells(occ[r - 1]))
  }

  /** The scan lists the set cells of rows 1 .. r-1 in order: each cell
      before every later one. */
  lemma {:induction false} GridCellsOrdered(occ: seq<seq<bool>>, r: nat)
    requires 1 <= r <= |occ|
    requires forall i :: 0 <= i < |occ| ==> |occ[i]| == Cols
    ensures forall k, m :: 0 <= k < m < |GridCells(occ, r)| ==> Before(GridCells(occ, r)[k], GridCells(occ, r)[m])
    decreases r
  {
    if r > 1 {
      GridCellsOrdered(occ, r - 1);
      RowCellsExact(occ[r - 1]);
      var prev := GridCells(occ, r - 1);
      var row := RowOf(r - 1, RowCells(occ[r - 1]));
      var cs := GridCells(occ, r);
      assert cs == prev + row;
      forall k, m | 0 <= k < m < |cs| ensures Before(cs[k], cs[m]) {
        if m < |prev| {
          assert cs[k] == prev[k] && cs[m] == prev[m];
        } else if k >= |prev| {
          assert cs[k] == row[k - |prev|] && cs[m] == row[m - |prev|];
        } else {
          assert cs[k] == prev[k] && cs[m] == row[m - |prev|];
        }
      }
    }
  }

  /** Every set cell of rows 1 .. r-1 is in the scan. */
  lemma {:induction false} GridCellsCover(occ: seq<seq<bool>>, r: nat)
    requires 1 <= r <= |occ|
    requires forall i :: 0 <= i < |occ| ==> |occ[i]| == Cols
    ensures forall i, c :: 1 <= i < r && 0 <= c < Cols && occ[i][c] ==> Cell(i, c) in GridCells(occ, r)
    decreases r
  {
    if r > 1 {
      GridCellsCover(occ, r - 1);
      RowCellsExact(occ[r - 1]);
      var prev := GridCells(occ, r - 1);
      var cols := RowCells(occ[r - 1]);
      var cs := GridCells(occ, r);
      assert cs == prev + RowOf(r - 1, cols);
      forall i, c | 1 <= i < r && 0 <= c < Cols && occ[i][c] ensures Cell(i, c) in cs {
        if i < r - 1 {
          assert Cell(i, c) in prev;
        } else {
          var k :| 0 <= k < |cols| && cols[k] == c;
          assert cs[|prev| + k] == Cell(i, c);
        }
      }
    }
  }

  /** The width of a brick on a stage `fieldW` wide: eleven columns between
      the side margins, with the padding between them. */
  function BrickWidth(fieldW: real): real {
    (fieldW - SideMargin * 2.0 - Padding * (Cols - 1) as real) / Cols as real
  }

  /** The drop a brick carries: the weighted draw of `u` over the pick
      list, or `NoDrop` when nothing is drawn (an empty list). */
  function DropFor(pickList: seq<PowerId>, ch: Weights, u: real): (id: PowerId)
    ensures pickList == [] ==> id == NoDrop
    ensures TableSum(pickList, ch) > 0 ==> id in pickList
  {
    match Draw(pickList, ch, u)
    case Some(p) => p
    case None => NoDrop
  }

  /** The record `buildLevel` makes for `cell` (game.js 1227-1255): the type
      rolled for the cell and its hit points, alive at full strength, placed
      at the cell's column and row, a sideways speed only for movers, and
      the drop drawn for the cell. */
  predicate CellBrick(b: Brick, uid: int, cell: Cell, lv: int, happy: bool, pickList: seq<PowerId>,
                      ch: Weights, brickW: real, rnd: LevelRandom)
  {
    && b.uid == uid
    && b.kind == KindFor(rnd.typeRoll(cell.r, cell.c), lv, happy)
    && b.hp == HpFor(b.kind, lv) && b.maxHp == b.hp && b.alive
    && b.x == SideMargin + cell.c as real * (brickW + Padding)
    && b.y == TopOffset + cell.r as real * (BrickH + Padding)
    && b.w == brickW && b.h == BrickH
    && b.vx == (if b.kind == Mover then rnd.moverSpeed(cell.r, cell.c) * (if rnd.moverLeft(cell.r, cell.c) then -1.0 else 1.0)
                else 0.0)
    && b.dropId == DropFor(pickList, ch, rnd.dropSample(cell.r, cell.c))
  }

  /** The brick of a cell on rows 1 .. rows-1 is a fresh brick. */
  lemma CellBrickFresh(b: Brick, uid: int, cell: Cell, lv: int, happy: bool, rows: int, pickList: seq<PowerId>,
                       ch: Weights, brickW: real, rnd: LevelRandom)
    requires CellBrick(b, uid, cell, lv, happy, pickList, ch, brickW, rnd)
    requires 1 <= cell.r < rows
    requires pickList != [] ==> TableSum(pickList, ch) > 0
    ensures FreshBrick(b, lv, rows, pickList)
  {
    assert 1.0 <= cell.r as real <= (rows - 1) as real;
  }

  /** The brick of cell (`r`, `c`) (game.js 1227-1255): a type and hit
      points from the roll, a sideways speed only for movers, and a drop
      drawn from the pick list. */
  method MakeBrick(uid: int, r: int, c: int, lv: int, happy: bool, rows: int, pickList: seq<PowerId>,
                   ch: Weights, brickW: real, rnd: LevelRandom)
    returns (b: Brick)
    requires 1 <= r < rows
    requires pickList != [] ==> TableSum(pickList, ch) > 0
    ensures CellBrick(b, uid, Cell(r, c), lv, happy, pickList, ch, brickW, rnd)
    ensures FreshBrick(b, lv, rows, pickList)
  {
    var kind := KindFor(rnd.typeRoll(r, c), lv, happy);
    var hp := HpFor(kind, lv);
    var mv := 0.0;
    if kind == Mover {
      mv := rnd.moverSpeed(r, c) * (if rnd.moverLeft(r, c) then -1.0 else 1.0);
    }
    var dropId := NoDrop;
    if |pickList| > 0 {
      var picked := WeightedPick(pickList, ch, rnd.dropSample(r, c));
      dropId := if picked.Some? then picked.value else NoDrop;
    }
    var y := TopOffset + r as real * (BrickH + Padding);
    b := Brick(uid, dropId, kind, SideMargin + c as real * (brickW + Padding), y, brickW, BrickH, hp, hp, true, mv);
    CellBrickFresh(b, uid, Cell(r, c), lv, happy, rows, pickList, ch, brickW, rnd);
  }

  /** `bricks` are the records of `cells`, one for one, with the uids that
      follow `base`. */
  predicate BricksOfCells(bricks: seq<Brick>, base: int, cells: seq<Cell>, lv: int, happy: bool,
                          pickList: seq<PowerId>, ch: Weights, brickW: real, rnd: LevelRandom)
  {
    && |bricks| == |cells|
    && forall i :: 0 <= i < |bricks| ==> CellBrick(bricks[i], base + i + 1, cells[i], lv, happy, pickList, ch, brickW, rnd)
  }

  lemma BricksOfCellsAppend(a: seq<Brick>, b: seq<Brick>, base: int, ca: seq<Cell>, cb: seq<Cell>, lv: int, happy: bool,
                            pickList: seq<PowerId>, ch: Weights, brickW: real, rnd: LevelRandom)
    requires BricksOfCells(a, base, ca, lv, happy, pickList, ch, brickW, rnd)
    requires BricksOfCells(b, base + |a|, cb, lv, happy, pickList, ch, brickW, rnd)
    ensures BricksOfCells(a + b, base, ca + cb, lv, happy, pickList, ch, brickW, rnd)
  {
    forall i | 0 <= i < |a + b|
      ensures CellBrick((a + b)[i], base + i + 1, (ca + cb)[i], lv, happy, pickList, ch, brickW, rnd)
    {
      if i >= |a| {
        assert (a + b)[i] == b[i - |a|] && (ca + cb)[i] == cb[i - |a|];
      }
    }
  }

  /** The brick records of `buildLevel` (game.js 1221-1257): the i-th
      brick is the record of the i-th set cell in a row-by-row scan, with
      uid i+1, and every brick is fresh, its drop drawn once from the
      applied pick list (`NoDrop` when that list is empty). */
  method BuildBricks(lv: int, happy: bool, occ: seq<seq<bool>>, en: Flags, ch: Weights, fieldW: real, rnd: LevelRandom)
    returns (bricks: seq<Brick>)
    requires |occ| >= 1
    requires forall i :: 0 <= i < |occ| ==> |occ[i]| == Cols
    ensures BricksOfCells(bricks, 0, GridCells(occ, |occ|), lv, happy, PickList(PowerTypes, en, ch), ch, BrickWidth(fieldW), rnd)
    ensures |bricks| == GridCount(occ, |occ|)
    ensures |bricks| <= (|occ| - 1) * Cols
    ensures forall i :: 0 <= i < |bricks| ==> bricks[i].uid == i + 1
    ensures forall i :: 0 <= i < |bricks| ==>
      FreshBrick(bricks[i], lv, |occ|, PickList(PowerTypes, en, ch))
  {
    var rows := |occ|;
    var pickList := PickList(PowerTypes, en, ch);
    if pickList != [] {
      PositiveListSum(pickList, ch);
    }
    var brickW := BrickWidth(fieldW);
    bricks := [];
    for r := 1 to rows
      invariant BricksOfCells(bricks, 0, GridCells(occ, r), lv, happy, pickList, ch, brickW, rnd)
    {
      ghost var start := bricks;
      bricks := LayRow(bricks, r, occ[r], lv, happy, rows, pickList, ch, brickW, rnd);
      GridStep(occ, r, start, bricks, lv, happy, pickList, ch, brickW, rnd);
    }
    ghost var cells := GridCells(occ, rows);
    forall i | 0 <= i < |bricks| ensures bricks[i].uid == i + 1 && FreshBrick(bricks[i], lv, rows, pickList) {
      CellBrickFresh(bricks[i], i + 1, cells[i], lv, happy, rows, pickList, ch, brickW, rnd);
    }
  }

  /** One row laid by `BuildBricks`. */
  lemma GridStep(occ: seq<seq<bool>>, r: int, start: seq<Brick>, bricks: seq<Brick>, lv: int, happy: bool,
                 pickList: seq<PowerId>, ch: Weights, brickW: real, rnd: LevelRandom)
    requires 1 <= r < |occ| && forall i :: 0 <= i < |occ| ==> |occ[i]| == Cols
    requires BricksOfCells(start, 0, GridCells(occ, r), lv, happy, pickList, ch, brickW, rnd)
    requires |bricks| >= |start| && bricks[..|start|] == start
    requires BricksOfCells(bricks[|start|..], |start|, RowOf(r, RowCells(occ[r])), lv, happy, pickList, ch, brickW, rnd)
    ensures BricksOfCells(bricks, 0, GridCells(occ, r + 1), lv, happy, pickList, ch, brickW, rnd)
  {
    assert bricks == start + bricks[|start|..];
    BricksOfCellsAppend(start, bricks[|start|..], 0, GridCells(occ, r), RowOf(r, RowCells(occ[r])),
      lv, happy, pickList, ch, brickW, rnd);
    assert GridCells(occ, r + 1) == GridCells(occ, r) + RowOf(r, RowCells(occ[r]));
  }

  /** The inner loop of the scan: the records of the set cells of row `r`,
      left to right, appended with the next uids. */
  method LayRow(start: seq<Brick>, r: int, row: seq<bool>, lv: int, happy: bool, rows: int,
                pickList: seq<PowerId>, ch: Weights, brickW: real, rnd: LevelRandom)
    returns (bricks: seq<Brick>)
    requires 1 <= r < rows && |row| == Cols
    requires pickList != [] ==> TableSum(pickList, ch) > 0
    ensures |bricks| >= |start| && bricks[..|start|] == start
    ensures BricksOfCells(bricks[|start|..], |start|, RowOf(r, RowCells(row)), lv, happy, pickList, ch, brickW, rnd)
  {
    var added: seq<Brick> := [];
    for c := 0 to Cols
      invariant BricksOfCells(added, |start|, RowOf(r, RowCells(row[..c])), lv, happy, pickList, ch, brickW, rnd)
    {
      RowCellsStep(row, c);
      if !row[c] {
        continue;
      }
      var b := MakeBrick(|start| + |added| + 1, r, c, lv, happy, rows, pickList, ch, brickW, rnd);
      LayStep(added, b, |start|, r, row, c, lv, happy, pickList, ch, brickW, rnd);
      added := added + [b];
    }
    assert row[..Cols] == row;
    bricks := start + added;
    assert bricks[|start|..] == added;
  }

  /** The set cells of a row prefix one cell longer. */
  lemma RowCellsStep(row: seq<bool>, c: int)
    requires 0 <= c < |row|
    ensures RowCells(row[..c + 1]) == RowCells(row[..c]) + (if row[c] then [c] else [])
  {
    assert row[..c + 1][..c] == row[..c];
  }

  /** One set cell laid by `LayRow`. */
  lemma LayStep(added: seq<Brick>, b: Brick, base: int, r: int, row: seq<bool>, c: int, lv: int, happy: bool,
                pickList: seq<PowerId>, ch: Weights, brickW: real, rnd: LevelRandom)
    requires 0 <= c < |row| && row[c]
    requires RowCells(row[..c + 1]) == RowCells(row[..c]) + [c]
    requires BricksOfCells(added, base, RowOf(r, RowCells(row[..c])), lv, happy, pickList, ch, brickW, rnd)
    requires CellBrick(b, base + |added| + 1, Cell(r, c), lv, happy, pickList, ch, brickW, rnd)
    ensures BricksOfCells(added + [b], base, RowOf(r, RowCells(row[..c + 1])), lv, happy, pickList, ch, brickW, rnd)
  {
    assert RowOf(r, RowCells(row[..c + 1])) == RowOf(r, RowCells(row[..c])) + [Cell(r, c)];
    BricksOfCellsAppend(added, [b], base, RowOf(r, RowCells(row[..c])), [Cell(r, c)],
      lv, happy, pickList, ch, brickW, rnd);
  }

  /** Every set cell of the grid is a brick: a grid whose top-left playable
      cell is set yields at least one brick. */
  lemma {:induction false} GridCountPositive(occ: seq<seq<bool>>, r: nat)
    requires 2 <= r <= |occ|
    requires forall i :: 0 <= i < |occ| ==> |occ[i]| == Cols
    requires occ[1][0]
    ensures GridCount(occ, r) >= 1
    decreases r
  {
    if r == 2 {
      RowCountFirst(occ[1]);
    } else {
      GridCountPositive(occ, r - 1);
    }
  }

  lemma {:induction false} RowCountFirst(row: seq<bool>)
    requires |row| >= 1 && row[0]
    ensures RowCount(row) >= 1
    decreases |row|
  {
    if |row| > 1 {
      assert row[..|row| - 1][0] == row[0];
      RowCountFirst(row[..|row| - 1]);
    }
  }
}
