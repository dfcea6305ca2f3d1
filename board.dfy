/** The snake's segment entities, the food and the free-cell set, as one
    value, together with the two ways a movement tick rewrites them. */
module SnakeBoard {
  import opened Grid

  /** Entity identifiers of the segment arena. */
  type Id = nat

  /** The marker component a segment carries. */
  datatype Role = Head | Body | Tail

  /** A segment entity: its cell and its marker. */
  datatype Segment = Segment(pos: GridPosition, role: Role)

  /** `segments` is the arena of segment entities, `body` the snake's list of
      their ids, head first; `food` is the food's cell and `free` the
      FreeLocations resource. */
  datatype Board = Board(segments: map<Id, Segment>, body: seq<Id>, food: GridPosition, free: set<GridPosition>)

  /** No element occurs twice. */
  predicate Distinct<T(==)>(s: seq<T>) {
    forall i, j :: 0 <= i < j < |s| ==> s[i] != s[j]
  }

  lemma DistinctCons<T>(x: T, s: seq<T>)
    requires Distinct(s) && x !in s
    ensures Distinct([x] + s)
  {
    var t := [x] + s;
    forall i, j | 0 <= i < j < |t| ensures t[i] != t[j] {
      assert t[j] == s[j - 1];
      if i > 0 { assert t[i] == s[i - 1]; }
    }
  }

  /** Moving the last element to the front keeps a sequence free of repeats. */
  lemma DistinctRotate<T>(s: seq<T>)
    requires Distinct(s) && |s| > 0
    ensures Distinct([s[|s| - 1]] + s[..|s| - 1])
  {
    var n := |s|;
    var pre := s[..n - 1];
    forall i | 0 <= i < n - 1 ensures pre[i] != s[n - 1] {
      assert pre[i] == s[i];
    }
    DistinctTake(s, n - 1);
    DistinctCons(s[n - 1], pre);
  }

  lemma DistinctTake<T>(s: seq<T>, n: nat)
    requires Distinct(s) && n <= |s|
    ensures Distinct(s[..n])
  {
    var pre := s[..n];
    forall i, j | 0 <= i < j < n ensures pre[i] != pre[j] {
      assert pre[i] == s[i] && pre[j] == s[j];
    }
  }

  /** Every id of the body names a live segment entity. */
  ghost predicate Live(b: Board) {
    forall i :: 0 <= i < |b.body| ==> b.body[i] in b.segments
  }

  /** The cells of the segments, head first. */
  function Cells(b: Board): (cs: seq<GridPosition>)
    requires Live(b)
    ensures |cs| == |b.body|
    ensures forall i :: 0 <= i < |b.body| ==> cs[i] == b.segments[b.body[i]].pos
  {
    seq(|b.body|, i requires 0 <= i < |b.body| => b.segments[b.body[i]].pos)
  }

  function HeadCell(b: Board): GridPosition
    requires Live(b) && |b.body| > 0
  {
    b.segments[b.body[0]].pos
  }

  /** The cells the self-collision check looks at: those of every entity
      that carries the Body marker. */
  function BodyTaggedCells(b: Board): set<GridPosition> {
    set id | id in b.segments && b.segments[id].role == Body :: b.segments[id].pos
  }

  /** The role the segment at index i of an n-segment snake must carry. */
  function ExpectedRole(i: nat, n: nat): Role {
    if i == 0 then Head else if i == n - 1 then Tail else Body
  }

  /** The arena holds as many entities as the body has segments; with the
      other conjuncts of WellFormed, no entity besides the segments. */
  ghost predicate ArenaIsBody(b: Board) {
    |b.segments.Keys| == |b.body|
  }

  ghost predicate RolesInOrder(b: Board)
    requires Live(b)
  {
    forall i :: 0 <= i < |b.body| ==> b.segments[b.body[i]].role == ExpectedRole(i, |b.body|)
  }

  /** Snake cells, the food cell and the free set do not overlap. */
  ghost predicate Disjoint(b: Board)
    requires Live(b)
  {
    && b.food !in b.free
    && b.food !in Cells(b)
    && forall p :: p in Cells(b) ==> p !in b.free
  }

  /** The invariant a live game keeps: at least three segments, one entity
      per segment, roles Head, Body ..., Tail along the body, and no two of
      segments, food and free cells sharing a cell. */
  ghost predicate WellFormed(b: Board) {
    && |b.body| >= 3
    && Live(b)
    && Distinct(b.body)
    && ArenaIsBody(b)
    && RolesInOrder(b)
    && Distinct(Cells(b))
    && Disjoint(b)
  }

  function IdSet(s: seq<Id>): set<Id> {
    set id | id in s
  }

  lemma {:induction false} DistinctIdSetSize(s: seq<Id>)
    requires Distinct(s)
    ensures |IdSet(s)| == |s|
    decreases |s|
  {
    if s != [] {
      var rest := s[1..];
      assert Distinct(rest) by {
        forall i, j | 0 <= i < j < |rest| ensures rest[i] != rest[j] {
          assert rest[i] == s[i + 1] && rest[j] == s[j + 1];
        }
      }
      DistinctIdSetSize(rest);
      assert s == [s[0]] + rest;
      assert IdSet(s) == {s[0]} + IdSet(rest);
      forall i | 0 <= i < |rest| ensures rest[i] != s[0] {
        assert rest[i] == s[i + 1];
      }
    }
  }

  /** In a well-formed board the arena is exactly the set of body ids. */
  lemma ArenaMembers(b: Board)
    requires Live(b) && Distinct(b.body) && ArenaIsBody(b)
    ensures b.segments.Keys == IdSet(b.body)
  {
    DistinctIdSetSize(b.body);
    var ids := IdSet(b.body);
    assert ids <= b.segments.Keys;
    assert |b.segments.Keys - ids| == |b.segments.Keys| - |ids|;
    assert b.segments.Keys - ids == {};
  }

  /** On a well-formed board the Body-tagged cells are exactly the cells of
      the segments strictly between head and tail. */
  lemma BodyTaggedCellsAreMiddle(b: Board, p: GridPosition)
    requires WellFormed(b)
    ensures p in BodyTaggedCells(b) <==> p in Cells(b)[1..|b.body| - 1]
  {
    ArenaMembers(b);
    if p in BodyTaggedCells(b) {
      BodyTaggedIsMiddle(b, p);
    }
    if p in Cells(b)[1..|b.body| - 1] {
      MiddleIsBodyTagged(b, p);
    }
  }

  lemma BodyTaggedIsMiddle(b: Board, p: GridPosition)
    requires Live(b) && RolesInOrder(b) && |b.body| >= 2 && b.segments.Keys == IdSet(b.body)
    requires p in BodyTaggedCells(b)
    ensures p in Cells(b)[1..|b.body| - 1]
  {
    var n := |b.body|;
    var id :| id in b.segments && b.segments[id].role == Body && b.segments[id].pos == p;
    assert id in IdSet(b.body);
    var i :| 0 <= i < n && b.body[i] == id;
    assert ExpectedRole(i, n) == Body;
    assert Cells(b)[1..n - 1][i - 1] == p;
  }

  lemma MiddleIsBodyTagged(b: Board, p: GridPosition)
    requires Live(b) && RolesInOrder(b) && |b.body| >= 2
    requires p in Cells(b)[1..|b.body| - 1]
    ensures p in BodyTaggedCells(b)
  {
    var n := |b.body|;
    var k :| 0 <= k < n - 2 && Cells(b)[1..n - 1][k] == p;
    assert Cells(b)[k + 1] == p;
    assert b.segments[b.body[k + 1]].role == ExpectedRole(k + 1, n);
  }

  /** The Body-tagged cells are neither the head's nor the tail's cell, so a
      move onto the cell the tail is leaving is never a self-collision. */
  lemma EndsNotBodyTagged(b: Board)
    requires WellFormed(b)
    ensures HeadCell(b) !in BodyTaggedCells(b)
    ensures Cells(b)[|b.body| - 1] !in BodyTaggedCells(b)
  {
    var n, cs := |b.body|, Cells(b);
    BodyTaggedCellsAreMiddle(b, cs[0]);
    BodyTaggedCellsAreMiddle(b, cs[n - 1]);
    var middle := cs[1..n - 1];
    forall k | 0 <= k < |middle| ensures middle[k] != cs[0] && middle[k] != cs[n - 1] {
      assert middle[k] == cs[k + 1];
    }
  }

  /** The front segment is the only Head entity and the last the only Tail. */
  lemma MarkersUnique(b: Board, id: Id)
    requires WellFormed(b) && id in b.segments
    ensures b.segments[id].role == Head <==> id == b.body[0]
    ensures b.segments[id].role == Tail <==> id == b.body[|b.body| - 1]
  {
    ArenaMembers(b);
    assert id in IdSet(b.body);
    var i :| 0 <= i < |b.body| && b.body[i] == id;
    assert b.segments[id].role == ExpectedRole(i, |b.body|);
  }

  /** A normal move: the tail entity jumps to `next` and becomes the head,
      the old head becomes Body, the body list is rotated (pop the back,
      push it to the front), and the segment that is now last becomes the
      Tail if it carried the Body marker before the move. The tail's old
      cell is freed and `next` is taken from the free set. */
  function Slide(b: Board, next: GridPosition): Board
    requires Live(b) && |b.body| >= 2
  {
    var n := |b.body|;
    var headId, tailId, newTailId := b.body[0], b.body[n - 1], b.body[n - 2];
    var tailPos := b.segments[tailId].pos;
    var jumped := b.segments[tailId := Segment(next, Head)];
    var moved := jumped[headId := jumped[headId].(role := Body)];
    var retagged := if b.segments[newTailId].role == Body
                    then moved[newTailId := moved[newTailId].(role := Tail)]
                    else moved;
    Board(retagged, [tailId] + b.body[..n - 1], b.food, (b.free + {tailPos}) - {next})
  }

  /** Growing onto the food: the old head becomes Body, a new Head entity
      `id` is pushed to the front on the old food cell, and the food moves
      to `newFood`, which leaves the free set. */
  function Grow(b: Board, id: Id, newFood: GridPosition): Board
    requires Live(b) && |b.body| >= 1
  {
    var headId := b.body[0];
    var segments := b.segments[headId := b.segments[headId].(role := Body)][id := Segment(b.food, Head)];
    Board(segments, [id] + b.body, newFood, b.free - {newFood})
  }

  /** Where every entity of a slid board comes from: the old tail entity is
      the Head on `next`, every other segment keeps its cell and takes the
      role of the index it moved to. */
  lemma SlideSegments(b: Board, next: GridPosition)
    requires |b.body| >= 3 && Live(b) && Distinct(b.body) && RolesInOrder(b)
    ensures Slide(b, next).segments.Keys == b.segments.Keys
    ensures Slide(b, next).segments[b.body[|b.body| - 1]] == Segment(next, Head)
    ensures forall j :: 0 <= j < |b.body| - 1 ==>
              Slide(b, next).segments[b.body[j]] == Segment(b.segments[b.body[j]].pos, ExpectedRole(j + 1, |b.body|))
  {
    var n := |b.body|;
    var headId, tailId, newTailId := b.body[0], b.body[n - 1], b.body[n - 2];
    assert b.segments[newTailId].role == ExpectedRole(n - 2, n);
    var s := Slide(b, next);
    forall j | 0 <= j < n - 1
      ensures s.segments[b.body[j]] == Segment(b.segments[b.body[j]].pos, ExpectedRole(j + 1, n))
    {
      var id := b.body[j];
      assert id != tailId;
      if j == 0 {
      } else if j == n - 2 {
        assert id != headId;
      } else {
        assert id != headId && id != newTailId;
        assert b.segments[id].role == ExpectedRole(j, n);
      }
    }
  }

  lemma SlideCells(b: Board, next: GridPosition)
    requires |b.body| >= 3 && Live(b) && Distinct(b.body) && RolesInOrder(b)
    ensures Live(Slide(b, next))
    ensures Cells(Slide(b, next)) == [next] + Cells(b)[..|b.body| - 1]
    ensures RolesInOrder(Slide(b, next))
  {
    var n := |b.body|;
    var s := Slide(b, next);
    SlideSegments(b, next);
    assert Live(s) by {
      forall k | 0 <= k < n ensures s.body[k] in s.segments {
        if k > 0 { assert s.body[k] == b.body[k - 1]; }
      }
    }
    forall k | 0 <= k < n ensures Cells(s)[k] == ([next] + Cells(b)[..n - 1])[k] {
      if k > 0 { assert s.body[k] == b.body[k - 1]; }
    }
    forall k | 0 <= k < n ensures s.segments[s.body[k]].role == ExpectedRole(k, n) {
      if k > 0 { assert s.body[k] == b.body[k - 1]; }
    }
  }

  /** A normal move into a cell that is neither a Body-tagged segment, the
      head nor the food keeps the board well formed; the cells shift by one
      with `next` in front and the old tail cell dropped, the length stays,
      the roles are Head, Body ..., Tail again, and the free set gains the
      old tail cell and loses `next`. */
  lemma SlideWellFormed(b: Board, next: GridPosition)
    requires WellFormed(b)
    requires next !in BodyTaggedCells(b) && next != HeadCell(b) && next != b.food
    ensures WellFormed(Slide(b, next))
    ensures Slide(b, next).body == [b.body[|b.body| - 1]] + b.body[..|b.body| - 1]
    ensures Cells(Slide(b, next)) == [next] + Cells(b)[..|b.body| - 1]
    ensures Slide(b, next).free == (b.free + {Cells(b)[|b.body| - 1]}) - {next}
    ensures Slide(b, next).food == b.food
    ensures Slide(b, next).segments.Keys == b.segments.Keys
  {
    var n := |b.body|;
    var s := Slide(b, next);
    var cs := Cells(b);
    SlideCells(b, next);
    SlideSegments(b, next);
    DistinctRotate(b.body);
    SlideTargetOutsideFront(b, next);
    DistinctTake(cs, n - 1);
    DistinctCons(next, cs[..n - 1]);
    SlideKeepsApart(cs, next, b.food, b.free, Cells(s), s.free);
    assert ArenaIsBody(s);
  }

  /** A cell that is neither the head nor Body-tagged is not among the
      cells that stay occupied after a slide. */
  lemma SlideTargetOutsideFront(b: Board, next: GridPosition)
    requires WellFormed(b)
    requires next !in BodyTaggedCells(b) && next != HeadCell(b)
    ensures next !in Cells(b)[..|b.body| - 1]
  {
    var n := |b.body|;
    var cs := Cells(b);
    BodyTaggedCellsAreMiddle(b, next);
    assert cs[..n - 1] == [cs[0]] + cs[1..n - 1];
  }

  /** The separation of snake, food and free cells survives a slide: the
      cell that is given up joins the free set, the cell that is taken
      leaves it. */
  lemma SlideKeepsApart(cs: seq<GridPosition>, next: GridPosition, food: GridPosition, free: set<GridPosition>,
                        cs': seq<GridPosition>, free': set<GridPosition>)
    requires |cs| >= 1 && Distinct(cs)
    requires food !in free && food !in cs && forall p :: p in cs ==> p !in free
    requires next != food
    requires cs' == [next] + cs[..|cs| - 1] && free' == (free + {cs[|cs| - 1]}) - {next}
    ensures food !in free' && food !in cs'
    ensures forall p :: p in cs' ==> p !in free'
  {
    var n := |cs|;
    var pre := cs[..n - 1];
    forall p | p in cs' ensures p !in free' {
      if p != next {
        var i :| 0 <= i < n - 1 && pre[i] == p;
        assert cs[i] == p;
      }
    }
  }

  /** Where every entity of a grown board comes from. */
  lemma GrowCells(b: Board, id: Id, newFood: GridPosition)
    requires |b.body| >= 3 && Live(b) && Distinct(b.body) && RolesInOrder(b) && id !in b.segments
    ensures Live(Grow(b, id, newFood))
    ensures Grow(b, id, newFood).segments.Keys == b.segments.Keys + {id}
    ensures Cells(Grow(b, id, newFood)) == [b.food] + Cells(b)
    ensures RolesInOrder(Grow(b, id, newFood))
    ensures Grow(b, id, newFood).segments[b.body[|b.body| - 1]] == b.segments[b.body[|b.body| - 1]]
  {
    var n := |b.body|;
    var g := Grow(b, id, newFood);
    forall j | 0 <= j < n
      ensures g.segments[b.body[j]] == Segment(b.segments[b.body[j]].pos, ExpectedRole(j + 1, n + 1))
    {
      assert b.body[j] in b.segments;
      if j > 0 {
        assert b.body[j] != b.body[0];
        assert b.segments[b.body[j]].role == ExpectedRole(j, n);
      }
    }
    assert Live(g) by {
      forall k | 0 <= k < n + 1 ensures g.body[k] in g.segments {
        if k > 0 { assert g.body[k] == b.body[k - 1]; }
      }
    }
    forall k | 0 <= k < n + 1 ensures Cells(g)[k] == ([b.food] + Cells(b))[k] {
      if k > 0 { assert g.body[k] == b.body[k - 1]; }
    }
    forall k | 0 <= k < n + 1 ensures g.segments[g.body[k]].role == ExpectedRole(k, n + 1) {
      if k > 0 { assert g.body[k] == b.body[k - 1]; }
    }
    assert b.segments[b.body[n - 1]].role == ExpectedRole(n - 1, n);
  }

  /** Growing onto the food with a fresh id and a new food cell drawn from
      the free set keeps the board well formed; the length grows by one,
      the new head sits on the old food cell in front of the old cells, the
      tail entity is unchanged, and the old food cell is not freed. */
  lemma GrowWellFormed(b: Board, id: Id, newFood: GridPosition)
    requires WellFormed(b) && id !in b.segments && newFood in b.free
    ensures WellFormed(Grow(b, id, newFood))
    ensures Grow(b, id, newFood).body == [id] + b.body
    ensures Cells(Grow(b, id, newFood)) == [b.food] + Cells(b)
    ensures Grow(b, id, newFood).segments[b.body[|b.body| - 1]] == b.segments[b.body[|b.body| - 1]]
    ensures Grow(b, id, newFood).free == b.free - {newFood}
    ensures b.food !in Grow(b, id, newFood).free
  {
    var g := Grow(b, id, newFood);
    GrowCells(b, id, newFood);
    forall i | 0 <= i < |b.body| ensures b.body[i] != id {
      assert b.body[i] in b.segments;
    }
    DistinctCons(id, b.body);
    DistinctCons(b.food, Cells(b));
    assert newFood !in Cells(b);
    assert ArenaIsBody(g);
  }

  const SPAWN_TAIL := GridPosition(0, 0)
  const SPAWN_BODY := GridPosition(0, 1)
  const SPAWN_HEAD := GridPosition(0, 2)
  const SPAWN_FOOD := GridPosition(-3, 2)

  /** `spawn_game_entities` on board `b`: the entities `tail`, `tail + 1`
      and `tail + 2` join the arena as tail, body and head, the new body list
      is head first, the food is placed, and the free set is rebuilt and
      then loses the four occupied cells. */
  function Spawn(b: Board, tail: Id): Board {
    var mid, head := tail + 1, tail + 2;
    Board(b.segments[tail := Segment(SPAWN_TAIL, Tail)][mid := Segment(SPAWN_BODY, Body)][head := Segment(SPAWN_HEAD, Head)],
          [head, mid, tail],
          SPAWN_FOOD,
          InitialFreeSet() - {SPAWN_TAIL} - {SPAWN_BODY} - {SPAWN_HEAD} - {SPAWN_FOOD})
  }

  /** Spawning into an empty arena gives a well-formed board: head at
      (0,2), body at (0,1), tail at (0,0), food at (-3,2), and a free set of
      exactly the initial cells those four do not occupy. */
  lemma SpawnWellFormed(b: Board, tail: Id)
    requires b.segments == map[]
    ensures WellFormed(Spawn(b, tail))
    ensures Spawn(b, tail).body == [tail + 2, tail + 1, tail]
    ensures Cells(Spawn(b, tail)) == [GridPosition(0, 2), GridPosition(0, 1), GridPosition(0, 0)]
    ensures Spawn(b, tail).food == GridPosition(-3, 2)
    ensures !OutOfBounds(HeadCell(Spawn(b, tail)))
    ensures forall p :: p in Spawn(b, tail).free <==> p in InitialFreeSet() && p !in Cells(Spawn(b, tail)) && p != Spawn(b, tail).food
  {
    var s := Spawn(b, tail);
    var mid, head := tail + 1, tail + 2;
    assert Cells(s) == [SPAWN_HEAD, SPAWN_BODY, SPAWN_TAIL];
    assert ArenaIsBody(s) by {
      assert s.segments.Keys == {head, mid, tail};
    }
    assert RolesInOrder(s);
  }

  /** The first move of a new game, heading Up: the tail entity steps to
      (0,3) as the new head, the snake covers (0,3), (0,2), (0,1), and
      (0,0) is free again. */
  lemma FirstMoveUp(b: Board, tail: Id)
    requires b.segments == map[]
    ensures WellFormed(Slide(Spawn(b, tail), GridPosition(0, 3)))
    ensures Cells(Slide(Spawn(b, tail), GridPosition(0, 3))) == [GridPosition(0, 3), GridPosition(0, 2), GridPosition(0, 1)]
    ensures Slide(Spawn(b, tail), GridPosition(0, 3)).body == [tail, tail + 2, tail + 1]
    ensures GridPosition(0, 0) in Slide(Spawn(b, tail), GridPosition(0, 3)).free
  {
    SpawnWellFormed(b, tail);
    SlideUpFromSpawnCells(Spawn(b, tail));
  }

  lemma SlideUpFromSpawnCells(s: Board)
    requires WellFormed(s) && Cells(s) == [SPAWN_HEAD, SPAWN_BODY, SPAWN_TAIL] && s.food == SPAWN_FOOD
    ensures WellFormed(Slide(s, GridPosition(0, 3)))
    ensures Cells(Slide(s, GridPosition(0, 3))) == [GridPosition(0, 3), SPAWN_HEAD, SPAWN_BODY]
    ensures Slide(s, GridPosition(0, 3)).body == [s.body[2], s.body[0], s.body[1]]
    ensures SPAWN_TAIL in Slide(s, GridPosition(0, 3)).free
  {
    var next, cs := GridPosition(0, 3), Cells(s);
    assert cs[1..2] == [SPAWN_BODY] && cs[..2] == [SPAWN_HEAD, SPAWN_BODY];
    BodyTaggedCellsAreMiddle(s, next);
    assert HeadCell(s) == cs[0];
    SlideWellFormed(s, next);
  }

  /** The spawned game starts with 32 free cells. */
  lemma SpawnFreeCount(b: Board, tail: Id)
    ensures |Spawn(b, tail).free| == 32
  {
    var lo, hi := -GRID_SIZE, GRID_SIZE;
    RectSize(lo, hi, lo, hi);
    RectMember(lo, hi, lo, hi, SPAWN_TAIL);
    RectMember(lo, hi, lo, hi, SPAWN_BODY);
    RectMember(lo, hi, lo, hi, SPAWN_HEAD);
    RectMember(lo, hi, lo, hi, SPAWN_FOOD);
    var removed := {SPAWN_TAIL, SPAWN_BODY, SPAWN_HEAD, SPAWN_FOOD};
    assert Spawn(b, tail).free == InitialFreeSet() - removed;
    assert removed <= InitialFreeSet();
    assert |removed| == 4;
  }
}
