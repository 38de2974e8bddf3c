/**
 * The block schedules of the Herobrine builder in combined_bot.js.
 * `buildStrangeStructure`, `buildPyramid` and `buildTower` walk three nested
 * loops (layer `y`, then `x`, then `z`) and, for every cell the shape keeps,
 * arm a timeout that places one block at that offset from the bot's floored
 * position. Placing the block is a call into the game client; what is modelled
 * is the schedule itself: the cells, their order and their delays.
 */
module Structures {
  import opened Common

  datatype Shape = Strange | Pyramid | Tower

  /** One armed timeout: the block offset and the delay in milliseconds. */
  datatype Placement = Placement(x: int, y: int, z: int, delayMs: int)

  /** Number of layers: the outer loop runs `y` from 0 below this bound. */
  function Layers(s: Shape): nat {
    match s
    case Strange => 5
    case Pyramid => 4
    case Tower => 8
  }

  /** The inner loops run `x` and `z` from `-Reach` to `Reach` inclusive. */
  function Reach(s: Shape, y: nat): int {
    if s == Tower then 1 else y
  }

  /** The filter inside the innermost loop. */
  predicate Keeps(s: Shape, x: int, y: int, z: int) {
    match s
    case Strange => Abs(x) == y || Abs(z) == y
    case Pyramid => true
    case Tower => x == 0 || z == 0
  }

  /** The timeout armed for the cell. */
  function Delay(s: Shape, x: int, y: int, z: int): int {
    match s
    case Strange => (y * 10 + Abs(x) + Abs(z)) * 100
    case Pyramid => (y * 10 + Abs(x) + Abs(z)) * 50
    case Tower => (y * 5 + Abs(x) + Abs(z)) * 50
  }

  /** The block the timeout places. */
  function BlockName(s: Shape): string {
    match s
    case Strange => "netherrack"
    case Pyramid => "obsidian"
    case Tower => "cobblestone"
  }

  /** The innermost loop, from `z` up to `Reach`. */
  function ZRun(s: Shape, y: nat, x: int, z: int): seq<Placement>
    decreases Reach(s, y) - z
  {
    if z > Reach(s, y) then []
    else (if Keeps(s, x, y, z) then [Placement(x, y, z, Delay(s, x, y, z))] else []) + ZRun(s, y, x, z + 1)
  }

  /** The middle loop, from `x` up to `Reach`. */
  function XRun(s: Shape, y: nat, x: int): seq<Placement>
    decreases Reach(s, y) - x
  {
    if x > Reach(s, y) then [] else ZRun(s, y, x, -Reach(s, y)) + XRun(s, y, x + 1)
  }

  /** The outer loop, from layer `y` up to `Layers`. */
  function YRun(s: Shape, y: nat): seq<Placement>
    decreases Layers(s) - y
  {
    if y >= Layers(s) then [] else XRun(s, y, -Reach(s, y)) + YRun(s, y + 1)
  }

  /** Every timeout one call of the builder arms, in the order it arms them. */
  function Schedule(s: Shape): seq<Placement> {
    YRun(s, 0)
  }

  /** The cells of layer `y` a shape is meant to hold, each with its delay. */
  predicate InLayer(s: Shape, y: nat, p: Placement) {
    && p.y == y
    && -Reach(s, y) <= p.x <= Reach(s, y)
    && -Reach(s, y) <= p.z <= Reach(s, y)
    && Keeps(s, p.x, y, p.z)
    && p.delayMs == Delay(s, p.x, y, p.z)
  }

  /** The cells a shape is meant to hold, each with its delay. */
  predicate InShape(s: Shape, p: Placement) {
    0 <= p.y < Layers(s) && InLayer(s, p.y, p)
  }

  // ---------------------------------------------------------------- membership

  lemma {:induction false} ZRunMembers(s: Shape, y: nat, x: int, z: int, p: Placement)
    requires -Reach(s, y) <= x <= Reach(s, y) && -Reach(s, y) <= z
    ensures p in ZRun(s, y, x, z) <==> InLayer(s, y, p) && p.x == x && z <= p.z
    decreases Reach(s, y) - z
  {
    if z <= Reach(s, y) {
      ZRunMembers(s, y, x, z + 1, p);
      ZRunJoin(s, y, x, z, p);
    }
  }

  /** One step of the innermost loop: the cell at `z`, then the rest of the column. */
  lemma ZRunJoin(s: Shape, y: nat, x: int, z: int, p: Placement)
    requires -Reach(s, y) <= x <= Reach(s, y) && -Reach(s, y) <= z <= Reach(s, y)
    requires p in ZRun(s, y, x, z + 1) <==> InLayer(s, y, p) && p.x == x && z + 1 <= p.z
    ensures p in ZRun(s, y, x, z) <==> InLayer(s, y, p) && p.x == x && z <= p.z
  {
    var head := if Keeps(s, x, y, z) then [Placement(x, y, z, Delay(s, x, y, z))] else [];
    assert ZRun(s, y, x, z) == head + ZRun(s, y, x, z + 1);
    assert p in head <==> InLayer(s, y, p) && p.x == x && p.z == z;
  }

  lemma {:induction false} XRunMembers(s: Shape, y: nat, x: int, p: Placement)
    requires -Reach(s, y) <= x
    ensures p in XRun(s, y, x) <==> InLayer(s, y, p) && x <= p.x
    decreases Reach(s, y) - x
  {
    if x <= Reach(s, y) {
      XRunMembers(s, y, x + 1, p);
      XRunJoin(s, y, x, p);
    } else {
      XRunDone(s, y, x, p);
    }
  }

  lemma XRunDone(s: Shape, y: nat, x: int, p: Placement)
    requires Reach(s, y) < x
    ensures p !in XRun(s, y, x) && !(InLayer(s, y, p) && x <= p.x)
  {
  }

  /** One step of the middle loop: the column at `x`, then the columns after it. */
  lemma XRunJoin(s: Shape, y: nat, x: int, p: Placement)
    requires -Reach(s, y) <= x <= Reach(s, y)
    requires p in XRun(s, y, x + 1) <==> InLayer(s, y, p) && x + 1 <= p.x
    ensures p in XRun(s, y, x) <==> InLayer(s, y, p) && x <= p.x
  {
    ZRunMembers(s, y, x, -Reach(s, y), p);
  }

  lemma {:induction false} YRunMembers(s: Shape, y: nat, p: Placement)
    ensures p in YRun(s, y) <==> y <= p.y && InShape(s, p)
    decreases Layers(s) - y
  {
    if y < Layers(s) {
      YRunMembers(s, y + 1, p);
      YRunJoin(s, y, p);
    } else {
      YRunDone(s, y, p);
    }
  }

  lemma YRunDone(s: Shape, y: nat, p: Placement)
    requires Layers(s) <= y
    ensures p !in YRun(s, y) && !(y <= p.y && InShape(s, p))
  {
  }

  /** One step of the outer loop: layer `y`, then the layers above it. */
  lemma YRunJoin(s: Shape, y: nat, p: Placement)
    requires y < Layers(s)
    requires p in YRun(s, y + 1) <==> y + 1 <= p.y && InShape(s, p)
    ensures p in YRun(s, y) <==> y <= p.y && InShape(s, p)
  {
    XRunMembers(s, y, -Reach(s, y), p);
  }

  /** A builder arms a timeout for a cell exactly when the cell belongs to its shape, with that cell's delay. */
  lemma ScheduleMembers(s: Shape, p: Placement)
    ensures p in Schedule(s) <==> InShape(s, p)
  {
    YRunMembers(s, 0, p);
  }

  /** The figure each shape draws, layer by layer, stated without the loops' bounds. */
  predicate Figure(s: Shape, p: Placement) {
    match s
    case Strange => Max(Abs(p.x), Abs(p.z)) == p.y
    case Pyramid => Max(Abs(p.x), Abs(p.z)) <= p.y
    case Tower => Abs(p.x) + Abs(p.z) <= 1
  }

  lemma RingLayer(p: Placement)
    requires 0 <= p.y
    ensures InLayer(Strange, p.y, p) <==> Figure(Strange, p) && p.delayMs == Delay(Strange, p.x, p.y, p.z)
  {
  }

  lemma SquareLayer(p: Placement)
    requires 0 <= p.y
    ensures InLayer(Pyramid, p.y, p) <==> Figure(Pyramid, p) && p.delayMs == Delay(Pyramid, p.x, p.y, p.z)
  {
  }

  lemma PlusLayer(p: Placement)
    requires 0 <= p.y
    ensures InLayer(Tower, p.y, p) <==> Figure(Tower, p) && p.delayMs == Delay(Tower, p.x, p.y, p.z)
  {
  }

  /**
   * The three figures: layer `y` of the strange structure is the square ring
   * max(|x|, |z|) = y, layer `y` of the pyramid the full square of half-width
   * `y`, and every tower layer the plus of the centre and its four neighbours.
   */
  lemma ScheduleGeometry(s: Shape, p: Placement)
    ensures p in Schedule(s) <==>
      0 <= p.y < Layers(s) && Figure(s, p) && p.delayMs == Delay(s, p.x, p.y, p.z)
  {
    ScheduleMembers(s, p);
    ShapeGeometry(s, p);
  }

  lemma ShapeGeometry(s: Shape, p: Placement)
    ensures InShape(s, p) <==>
      0 <= p.y < Layers(s) && Figure(s, p) && p.delayMs == Delay(s, p.x, p.y, p.z)
  {
    if 0 <= p.y {
      match s
      case Strange => RingLayer(p);
      case Pyramid => SquareLayer(p);
      case Tower => PlusLayer(p);
    }
  }

  // ---------------------------------------------------------------- order

  /** The loop order: layer, then `x`, then `z`. */
  predicate Before(a: Placement, b: Placement) {
    a.y < b.y || (a.y == b.y && (a.x < b.x || (a.x == b.x && a.z < b.z)))
  }

  /** Each timeout comes before the next one in the loop order. */
  predicate Ascending(q: seq<Placement>)
    decreases |q|
  {
    |q| <= 1 || (Before(q[0], q[1]) && Ascending(q[1..]))
  }

  /** Ascending runs join into one when the last of the first comes before the first of the second. */
  lemma {:induction false} AscendingConcat(a: seq<Placement>, b: seq<Placement>)
    requires Ascending(a) && Ascending(b)
    requires a != [] && b != [] ==> Before(a[|a| - 1], b[0])
    ensures Ascending(a + b)
    decreases |a|
  {
    if a != [] {
      if |a| >= 2 {
        assert a[1..][|a| - 2] == a[|a| - 1];
      }
      AscendingConcat(a[1..], b);
      assert (a + b)[1..] == a[1..] + b;
      if |a| >= 2 {
        assert (a + b)[1] == a[1] && Before(a[0], a[1]);
      } else if b != [] {
        assert (a + b)[1] == b[0];
      }
    } else {
      assert a + b == b;
    }
  }

  /** In an ascending run every timeout comes before every later one. */
  lemma {:induction false} AscendingPairwise(q: seq<Placement>)
    requires Ascending(q)
    ensures forall i, j :: 0 <= i < j < |q| ==> Before(q[i], q[j])
    decreases |q|
  {
    if |q| >= 2 {
      AscendingPairwise(q[1..]);
      forall i, j | 0 <= i < j < |q|
        ensures Before(q[i], q[j])
      {
        assert q[j] == q[1..][j - 1];
        if i > 0 {
          assert q[i] == q[1..][i - 1];
        } else if j > 1 {
          assert q[1] == q[1..][0];
        }
      }
    }
  }

  lemma {:induction false} ZRunBounds(s: Shape, y: nat, x: int, z: int, p: Placement)
    requires p in ZRun(s, y, x, z)
    ensures p.y == y && p.x == x && p.z >= z
    decreases Reach(s, y) - z
  {
    var head := if Keeps(s, x, y, z) then [Placement(x, y, z, Delay(s, x, y, z))] else [];
    assert ZRun(s, y, x, z) == head + ZRun(s, y, x, z + 1);
    if p !in head {
      ZRunBounds(s, y, x, z + 1, p);
    }
  }

  lemma {:induction false} XRunBounds(s: Shape, y: nat, x: int, p: Placement)
    requires p in XRun(s, y, x)
    ensures p.y == y && p.x >= x
    decreases Reach(s, y) - x
  {
    if p in ZRun(s, y, x, -Reach(s, y)) {
      ZRunBounds(s, y, x, -Reach(s, y), p);
    } else {
      XRunBounds(s, y, x + 1, p);
    }
  }

  lemma {:induction false} YRunBounds(s: Shape, y: nat, p: Placement)
    requires p in YRun(s, y)
    ensures p.y >= y
    decreases Layers(s) - y
  {
    if p in XRun(s, y, -Reach(s, y)) {
      XRunBounds(s, y, -Reach(s, y), p);
    } else {
      YRunBounds(s, y + 1, p);
    }
  }

  lemma {:induction false} ZRunAscending(s: Shape, y: nat, x: int, z: int)
    ensures Ascending(ZRun(s, y, x, z))
    decreases Reach(s, y) - z
  {
    if z <= Reach(s, y) {
      ZRunAscending(s, y, x, z + 1);
      CellJoin(s, y, x, z);
    }
  }

  /** The cell at `z` comes before the rest of its column. */
  lemma CellJoin(s: Shape, y: nat, x: int, z: int)
    requires z <= Reach(s, y)
    requires Ascending(ZRun(s, y, x, z + 1))
    ensures Ascending(ZRun(s, y, x, z))
  {
    var head := if Keeps(s, x, y, z) then [Placement(x, y, z, Delay(s, x, y, z))] else [];
    var tail := ZRun(s, y, x, z + 1);
    if tail != [] {
      ZRunBounds(s, y, x, z + 1, tail[0]);
    }
    AscendingConcat(head, tail);
  }

  lemma {:induction false} XRunAscending(s: Shape, y: nat, x: int)
    ensures Ascending(XRun(s, y, x))
    decreases Reach(s, y) - x
  {
    if x <= Reach(s, y) {
      XRunAscending(s, y, x + 1);
      ColumnJoin(s, y, x);
    }
  }

  /** The column at `x` comes before the columns after it. */
  lemma ColumnJoin(s: Shape, y: nat, x: int)
    requires x <= Reach(s, y)
    requires Ascending(XRun(s, y, x + 1))
    ensures Ascending(XRun(s, y, x))
  {
    ZRunAscending(s, y, x, -Reach(s, y));
    LastInColumn(s, y, x);
    FirstFrom(s, y, x + 1);
    JoinColumn(s, y, x);
  }

  lemma LastInColumn(s: Shape, y: nat, x: int)
    ensures ZRun(s, y, x, -Reach(s, y)) != [] ==>
      ZRun(s, y, x, -Reach(s, y))[|ZRun(s, y, x, -Reach(s, y))| - 1].y == y &&
      ZRun(s, y, x, -Reach(s, y))[|ZRun(s, y, x, -Reach(s, y))| - 1].x == x
  {
    var column := ZRun(s, y, x, -Reach(s, y));
    if column != [] {
      ZRunBounds(s, y, x, -Reach(s, y), column[|column| - 1]);
    }
  }

  lemma FirstFrom(s: Shape, y: nat, x: int)
    ensures XRun(s, y, x) != [] ==> XRun(s, y, x)[0].y == y && XRun(s, y, x)[0].x >= x
  {
    if XRun(s, y, x) != [] {
      XRunBounds(s, y, x, XRun(s, y, x)[0]);
    }
  }

  lemma JoinColumn(s: Shape, y: nat, x: int)
    requires x <= Reach(s, y)
    requires Ascending(ZRun(s, y, x, -Reach(s, y))) && Ascending(XRun(s, y, x + 1))
    requires ZRun(s, y, x, -Reach(s, y)) != [] ==>
      ZRun(s, y, x, -Reach(s, y))[|ZRun(s, y, x, -Reach(s, y))| - 1].y == y &&
      ZRun(s, y, x, -Reach(s, y))[|ZRun(s, y, x, -Reach(s, y))| - 1].x == x
    requires XRun(s, y, x + 1) != [] ==> XRun(s, y, x + 1)[0].y == y && XRun(s, y, x + 1)[0].x >= x + 1
    ensures Ascending(XRun(s, y, x))
  {
    AscendingConcat(ZRun(s, y, x, -Reach(s, y)), XRun(s, y, x + 1));
  }

  lemma {:induction false} YRunAscending(s: Shape, y: nat)
    ensures Ascending(YRun(s, y))
    decreases Layers(s) - y
  {
    if y < Layers(s) {
      YRunAscending(s, y + 1);
      LayerJoin(s, y);
    }
  }

  /** Layer `y` comes before the layers above it. */
  lemma LayerJoin(s: Shape, y: nat)
    requires y < Layers(s)
    requires Ascending(YRun(s, y + 1))
    ensures Ascending(YRun(s, y))
  {
    forall p | p in XRun(s, y, -Reach(s, y))
      ensures p.y == y
    {
      XRunBounds(s, y, -Reach(s, y), p);
    }
    forall r | r in YRun(s, y + 1)
      ensures r.y >= y + 1
    {
      YRunBounds(s, y + 1, r);
    }
    JoinLayer(s, y);
  }

  /** Layer `y` followed by the layers above it is ascending when the layers above are. */
  lemma JoinLayer(s: Shape, y: nat)
    requires y < Layers(s)
    requires Ascending(YRun(s, y + 1))
    requires forall p :: p in XRun(s, y, -Reach(s, y)) ==> p.y == y
    requires forall r :: r in YRun(s, y + 1) ==> r.y >= y + 1
    ensures Ascending(YRun(s, y))
  {
    XRunAscending(s, y, -Reach(s, y));
    AscendingLayers(XRun(s, y, -Reach(s, y)), YRun(s, y + 1), y);
  }

  /** A run on layer `y` followed by a run above it. */
  lemma AscendingLayers(a: seq<Placement>, b: seq<Placement>, y: int)
    requires Ascending(a) && Ascending(b)
    requires forall p :: p in a ==> p.y == y
    requires forall r :: r in b ==> r.y >= y + 1
    ensures Ascending(a + b)
  {
    if a != [] && b != [] {
      assert a[|a| - 1] in a && b[0] in b;
    }
    AscendingConcat(a, b);
  }

  /**
   * The timeouts follow the loop order (layer, then `x`, then `z`), so no
   * cell is scheduled twice: each block offset appears at most once.
   */
  lemma ScheduleOrdered(s: Shape)
    ensures forall i, j :: 0 <= i < j < |Schedule(s)| ==> Before(Schedule(s)[i], Schedule(s)[j])
    ensures forall i, j :: 0 <= i < j < |Schedule(s)| ==>
      (Schedule(s)[i].x, Schedule(s)[i].y, Schedule(s)[i].z) != (Schedule(s)[j].x, Schedule(s)[j].y, Schedule(s)[j].z)
  {
    YRunAscending(s, 0);
    AscendingPairwise(Schedule(s));
  }

  // ---------------------------------------------------------------- counts

  /** Strange structure, one `x` column of layer `y`, `z` from `z0`. */
  lemma {:induction false} StrangeZCount(y: nat, x: int, z0: int)
    requires Abs(x) <= y && -(y as int) <= z0 <= y + 1
    ensures |ZRun(Strange, y, x, z0)| ==
      if Abs(x) == y then y + 1 - z0
      else (if z0 <= -(y as int) then 1 else 0) + (if z0 <= y then 1 else 0)
    decreases y - z0
  {
    if z0 <= y {
      StrangeZCount(y, x, z0 + 1);
    }
  }

  /** Strange structure, layer `y >= 1`, columns from `x0`: rings cost 2y+1 on the two edges and 2 elsewhere. */
  lemma {:induction false} StrangeXCount(y: nat, x0: int)
    requires 1 <= y && -(y as int) <= x0 <= y + 1
    ensures |XRun(Strange, y, x0)| ==
      2 * (y + 1 - x0) + ((if x0 <= -(y as int) then 1 else 0) + (if x0 <= y then 1 else 0)) * (2 * y - 1)
    decreases y - x0
  {
    if x0 <= y {
      StrangeZCount(y, x0, -(y as int));
      StrangeXCount(y, x0 + 1);
    }
  }

  /** Layer `y` of the strange structure holds one block at `y = 0` and the 8y cells of a ring above. */
  lemma StrangeLayerCount(y: nat)
    ensures |XRun(Strange, y, -(y as int))| == if y == 0 then 1 else 8 * y
  {
    if y == 0 {
      assert XRun(Strange, 0, 1) == [];
      assert ZRun(Strange, 0, 0, 1) == [];
    } else {
      StrangeXCount(y, -(y as int));
    }
  }

  /** One step of the middle loop. */
  lemma XRunStep(s: Shape, y: nat, x: int)
    requires x <= Reach(s, y)
    ensures |XRun(s, y, x)| == |ZRun(s, y, x, -Reach(s, y))| + |XRun(s, y, x + 1)|
  {
  }

  /** One step of the outer loop. */
  lemma YRunStep(s: Shape, y: nat)
    requires y < Layers(s)
    ensures |YRun(s, y)| == |XRun(s, y, -Reach(s, y))| + |YRun(s, y + 1)|
  {
  }

  /** The innermost pyramid loop from `z0` covers every remaining cell of the row. */
  lemma {:induction false} PyramidZCount(y: nat, x: int, z0: int)
    requires -(y as int) <= z0 <= y + 1
    ensures |ZRun(Pyramid, y, x, z0)| == y + 1 - z0
    decreases y - z0
  {
    if z0 <= y {
      PyramidZCount(y, x, z0 + 1);
    }
  }

  /** The pyramid rows from `x0` on each hold `2y + 1` cells. */
  lemma {:induction false} PyramidXCount(y: nat, x0: int)
    requires -(y as int) <= x0 <= y + 1
    ensures |XRun(Pyramid, y, x0)| == (y + 1 - x0) * (2 * y + 1)
    decreases y - x0
  {
    if x0 <= y {
      PyramidZCount(y, x0, -(y as int));
      PyramidXCount(y, x0 + 1);
      assert (y + 1 - x0) * (2 * y + 1) == (2 * y + 1) + (y - x0) * (2 * y + 1);
    }
  }

  /** Layer `y` of the pyramid fills the whole (2y+1) x (2y+1) square. */
  lemma PyramidLayerCount(y: nat)
    ensures |XRun(Pyramid, y, -(y as int))| == (2 * y + 1) * (2 * y + 1)
  {
    PyramidXCount(y, -(y as int));
  }

  /** The innermost tower loop keeps the whole column at `x == 0` and only `z == 0` elsewhere. */
  lemma {:induction false} TowerZCount(y: nat, x: int, z0: int)
    requires -1 <= z0 <= 2
    ensures |ZRun(Tower, y, x, z0)| == if x == 0 then 2 - z0 else (if z0 <= 0 then 1 else 0)
    decreases 1 - z0
  {
    if z0 <= 1 {
      TowerZCount(y, x, z0 + 1);
    }
  }

  /** Each tower layer is the 5-cell plus. */
  lemma TowerLayerCount(y: nat)
    ensures |XRun(Tower, y, -1)| == 5
  {
    TowerZCount(y, -1, -1);
    TowerZCount(y, 0, -1);
    TowerZCount(y, 1, -1);
    XRunStep(Tower, y, -1);
    XRunStep(Tower, y, 0);
    XRunStep(Tower, y, 1);
  }

  /** The number of cells layer `y` of a shape holds. */
  function LayerSize(s: Shape, y: nat): nat {
    match s
    case Strange => if y == 0 then 1 else 8 * y
    case Pyramid => (2 * y + 1) * (2 * y + 1)
    case Tower => 5
  }

  /** The number of cells from layer `y` to the top. */
  function Volume(s: Shape, y: nat): nat
    decreases Layers(s) - y
  {
    if y >= Layers(s) then 0 else LayerSize(s, y) + Volume(s, y + 1)
  }

  lemma LayerCount(s: Shape, y: nat)
    ensures |XRun(s, y, -Reach(s, y))| == LayerSize(s, y)
  {
    match s
    case Strange => StrangeLayerCount(y);
    case Pyramid => PyramidLayerCount(y);
    case Tower => TowerLayerCount(y);
  }

  /** The outer loop arms one timeout per cell of the layers it has left. */
  lemma {:induction false} YRunCount(s: Shape, y: nat)
    ensures |YRun(s, y)| == Volume(s, y)
    decreases Layers(s) - y
  {
    if y < Layers(s) {
      LayerCount(s, y);
      YRunStep(s, y);
      YRunCount(s, y + 1);
    }
  }

  lemma VolumeTotals(s: Shape)
    ensures Volume(s, 0) == match s
      case Strange => 81
      case Pyramid => 84
      case Tower => 40
  {
    match s
    case Strange => assert Volume(Strange, 0) == 81;
    case Pyramid => assert Volume(Pyramid, 0) == 84;
    case Tower => assert Volume(Tower, 0) == 40;
  }

  /**
   * How many timeouts one call arms: 1 + 8 + 16 + 24 + 32 = 81 for the strange
   * structure, 1 + 9 + 25 + 49 = 84 for the pyramid and 8 layers of 5 = 40 for the tower.
   */
  lemma ScheduleCount(s: Shape)
    ensures |Schedule(s)| == match s
      case Strange => 81
      case Pyramid => 84
      case Tower => 40
  {
    YRunCount(s, 0);
    VolumeTotals(s);
  }
}
