/** Grid cells, directions and the geometry of the playing field of the snake game. */
module Grid {

  /** Half-extent of the field: the walls stand one cell beyond +-GRID_SIZE. */
  const GRID_SIZE: int := 3

  /** A cell of the grid. The game stores `i32` coordinates; they stay within
      a few cells of the origin, so the model uses unbounded integers. */
  datatype GridPosition = GridPosition(x: int, y: int)

  datatype Direction = Up | Down | Left | Right

  function Abs(n: int): nat { if n < 0 then -n else n }

  /** The direction that would turn the snake back onto its own neck. */
  function Opposite(d: Direction): (r: Direction)
    ensures r != d
    ensures (r == Up || r == Down) <==> (d == Up || d == Down)
  {
    match d
    case Up => Down
    case Down => Up
    case Left => Right
    case Right => Left
  }

  lemma OppositeInvolutive(d: Direction)
    ensures Opposite(Opposite(d)) == d
  {
  }

  /** Two cells that share an edge. */
  predicate Adjacent(p: GridPosition, q: GridPosition) {
    Abs(p.x - q.x) + Abs(p.y - q.y) == 1
  }

  /** The cell one step from `p` in direction `d`: Up is y + 1, Down y - 1,
      Left x - 1, Right x + 1. */
  function NextCell(p: GridPosition, d: Direction): (r: GridPosition)
    ensures Adjacent(p, r)
    ensures (d == Up || d == Down) ==> r.x == p.x
    ensures (d == Left || d == Right) ==> r.y == p.y
  {
    match d
    case Up => GridPosition(p.x, p.y + 1)
    case Down => GridPosition(p.x, p.y - 1)
    case Left => GridPosition(p.x - 1, p.y)
    case Right => GridPosition(p.x + 1, p.y)
  }

  /** Stepping back the opposite way returns to the start, and different
      directions lead to different cells. */
  lemma NextCellInverse(p: GridPosition, d: Direction, e: Direction)
    ensures NextCell(NextCell(p, d), Opposite(d)) == p
    ensures NextCell(p, d) == NextCell(p, e) ==> d == e
  {
  }

  /** The wall check: a cell beyond +-GRID_SIZE on either axis. Cells with a
      coordinate equal to +-GRID_SIZE are still inside. */
  predicate OutOfBounds(p: GridPosition) {
    p.x > GRID_SIZE || p.x < -GRID_SIZE || p.y > GRID_SIZE || p.y < -GRID_SIZE
  }

  /** The half-open rectangle of cells x0 <= x < x1, y0 <= y < y1. */
  function Rect(x0: int, x1: int, y0: int, y1: int): set<GridPosition> {
    set x, y | x0 <= x < x1 && y0 <= y < y1 :: GridPosition(x, y)
  }

  lemma RectMember(x0: int, x1: int, y0: int, y1: int, p: GridPosition)
    ensures p in Rect(x0, x1, y0, y1) <==> x0 <= p.x < x1 && y0 <= p.y < y1
  {
    if x0 <= p.x < x1 && y0 <= p.y < y1 {
      assert p == GridPosition(p.x, p.y);
    }
  }

  /** Adding the cell (x, y1) to a column segment extends it by one row. */
  lemma RectExtendColumn(x: int, y0: int, y1: int)
    requires y0 <= y1
    ensures Rect(x, x + 1, y0, y1) + {GridPosition(x, y1)} == Rect(x, x + 1, y0, y1 + 1)
  {
    var x', y1' := x + 1, y1 + 1;
    forall p ensures p in Rect(x, x', y0, y1) + {GridPosition(x, y1)} <==> p in Rect(x, x', y0, y1') {
      RectMember(x, x', y0, y1, p);
      RectMember(x, x', y0, y1', p);
    }
  }

  /** Adding the full column x1 to a rectangle extends it by one column. */
  lemma RectExtendRow(x0: int, x1: int, y0: int, y1: int)
    requires x0 <= x1
    ensures Rect(x0, x1, y0, y1) + Rect(x1, x1 + 1, y0, y1) == Rect(x0, x1 + 1, y0, y1)
  {
    var x1' := x1 + 1;
    forall p ensures p in Rect(x0, x1, y0, y1) + Rect(x1, x1', y0, y1) <==> p in Rect(x0, x1', y0, y1) {
      RectMember(x0, x1, y0, y1, p);
      RectMember(x1, x1', y0, y1, p);
      RectMember(x0, x1', y0, y1, p);
    }
  }

  lemma {:induction false} ColumnSize(x: int, y0: int, y1: int)
    requires y0 <= y1
    ensures |Rect(x, x + 1, y0, y1)| == y1 - y0
    decreases y1 - y0
  {
    var x' := x + 1;
    if y1 == y0 {
      forall p ensures p !in Rect(x, x', y0, y1) {
        RectMember(x, x', y0, y1, p);
      }
      assert Rect(x, x', y0, y1) == {};
    } else {
      ColumnSize(x, y0, y1 - 1);
      RectExtendColumn(x, y0, y1 - 1);
      RectMember(x, x + 1, y0, y1 - 1, GridPosition(x, y1 - 1));
    }
  }

  lemma MulStep(w: int, h: int)
    ensures w * h == (w - 1) * h + h
  {
  }

  /** A w-by-h rectangle holds exactly w * h cells. */
  lemma {:induction false} RectSize(x0: int, x1: int, y0: int, y1: int)
    requires x0 <= x1 && y0 <= y1
    ensures |Rect(x0, x1, y0, y1)| == (x1 - x0) * (y1 - y0)
    decreases x1 - x0
  {
    if x1 == x0 {
      forall p ensures p !in Rect(x0, x1, y0, y1) {
        RectMember(x0, x1, y0, y1, p);
      }
      assert Rect(x0, x1, y0, y1) == {};
    } else {
      var xm := x1 - 1;
      RectSize(x0, xm, y0, y1);
      ColumnSize(xm, y0, y1);
      RectExtendRow(x0, xm, y0, y1);
      assert Rect(x0, xm, y0, y1) !! Rect(xm, x1, y0, y1) by {
        forall p | p in Rect(xm, x1, y0, y1) ensures p !in Rect(x0, xm, y0, y1) {
          RectMember(xm, x1, y0, y1, p);
          RectMember(x0, xm, y0, y1, p);
        }
      }
      assert |Rect(x0, x1, y0, y1)| == |Rect(x0, xm, y0, y1)| + |Rect(xm, x1, y0, y1)|;
      MulStep(x1 - x0, y1 - y0);
    }
  }

  /** The cells `init_free_locations` puts in the free set:
      -GRID_SIZE <= x < GRID_SIZE and -GRID_SIZE <= y < GRID_SIZE. */
  function InitialFreeSet(): set<GridPosition> {
    Rect(-GRID_SIZE, GRID_SIZE, -GRID_SIZE, GRID_SIZE)
  }

  /** The initial free set holds exactly 36 cells, every one inside the walls. */
  lemma InitialFreeSetShape()
    ensures |InitialFreeSet()| == 36
    ensures forall p :: p in InitialFreeSet() <==> -3 <= p.x < 3 && -3 <= p.y < 3
    ensures forall p :: p in InitialFreeSet() ==> !OutOfBounds(p)
  {
    RectSize(-GRID_SIZE, GRID_SIZE, -GRID_SIZE, GRID_SIZE);
    forall p ensures p in InitialFreeSet() <==> -3 <= p.x < 3 && -3 <= p.y < 3 {
      RectMember(-GRID_SIZE, GRID_SIZE, -GRID_SIZE, GRID_SIZE, p);
    }
  }

  /** The free set and the wall check disagree: the column x == GRID_SIZE and
      the row y == GRID_SIZE are inside the walls yet never initially free. */
  lemma WallAsymmetry(p: GridPosition)
    ensures !OutOfBounds(p) && p !in InitialFreeSet() <==>
            -3 <= p.x <= 3 && -3 <= p.y <= 3 && (p.x == 3 || p.y == 3)
  {
    RectMember(-GRID_SIZE, GRID_SIZE, -GRID_SIZE, GRID_SIZE, p);
  }
}
