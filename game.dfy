/** The game of `main.rs`: its resources and the snake entity as the fields
    of one world, and each Bevy system as a method that changes them. */
module SnakeGame {
  import opened Grid
  import opened Timers
  import opened SnakeBoard

  datatype GameStateStage = PreGame | Running | PostGame

  /** The stage the enum machine moves to next. */
  function Succ(s: GameStateStage): GameStateStage {
    match s
    case PreGame => Running
    case Running => PostGame
    case PostGame => PreGame
  }

  /** Moving at most one stage along PreGame -> Running -> PostGame -> PreGame. */
  predicate StageStep(s: GameStateStage, t: GameStateStage) {
    t == s || t == Succ(s)
  }

  /** Seconds between two moves, and the lengths of the two pause stages. */
  const MOVEMENT_PERIOD: real := 0.3
  const POST_GAME_PERIOD: real := 4.0
  const PRE_GAME_PERIOD: real := 3.0

  datatype Option<T> = None | Some(value: T)

  /** `get_random_location`: some member of the free set. The game draws it
      uniformly at random; on an empty set the draw panics, which is `None`
      here. */
  method GetRandomLocation(locations: set<GridPosition>) returns (r: Option<GridPosition>)
    ensures r.Some? <==> locations != {}
    ensures r.Some? ==> r.value in locations
  {
    if locations == {} {
      r := None;
    } else {
      var p :| p in locations;
      r := Some(p);
    }
  }

  // ---------------------------------------------------------------------
  // Input

  /** The order in which `player_input_system` looks at the key bindings. */
  const KEY_ORDER: seq<Direction> := [Up, Down, Left, Right]

  /** The direction after looking at `keys` in order: a just-pressed key is
      taken unless it is the opposite of the direction of the last move, and
      the first such rejected key ends the scan. */
  function InputScan(d: Direction, last: Direction, pressed: set<Direction>, keys: seq<Direction>): Direction
    decreases |keys|
  {
    if keys == [] then d
    else if keys[0] in pressed then
      if keys[0] == Opposite(last) then d else InputScan(keys[0], last, pressed, keys[1..])
    else InputScan(d, last, pressed, keys[1..])
  }

  function InputDirection(d: Direction, last: Direction, pressed: set<Direction>): Direction {
    InputScan(d, last, pressed, KEY_ORDER)
  }

  /** Input never points the snake back the way it came from, and the
      result is either the old direction or one of the pressed keys. */
  lemma {:induction false} InputNeverReverses(d: Direction, last: Direction, pressed: set<Direction>, keys: seq<Direction>)
    requires d != Opposite(last)
    ensures InputScan(d, last, pressed, keys) != Opposite(last)
    ensures InputScan(d, last, pressed, keys) == d || InputScan(d, last, pressed, keys) in pressed
    decreases |keys|
  {
    if keys != [] {
      if keys[0] in pressed && keys[0] != Opposite(last) {
        InputNeverReverses(keys[0], last, pressed, keys[1..]);
      } else if keys[0] !in pressed {
        InputNeverReverses(d, last, pressed, keys[1..]);
      }
    }
  }

  /** A rejected key ends the scan: keys after it are ignored that frame. */
  lemma {:induction false} InputStopsAtRejected(d: Direction, last: Direction, pressed: set<Direction>,
                                                pre: seq<Direction>, post: seq<Direction>)
    requires Opposite(last) in pressed
    ensures InputScan(d, last, pressed, pre + [Opposite(last)] + post) == InputScan(d, last, pressed, pre)
    decreases |pre|
  {
    var keys := pre + [Opposite(last)] + post;
    if pre == [] {
      assert keys[0] == Opposite(last);
    } else {
      assert keys[0] == pre[0];
      assert keys[1..] == pre[1..] + [Opposite(last)] + post;
      if pre[0] in pressed && pre[0] != Opposite(last) {
        InputStopsAtRejected(pre[0], last, pressed, pre[1..], post);
      } else if pre[0] !in pressed {
        InputStopsAtRejected(d, last, pressed, pre[1..], post);
      }
    }
  }

  /** Keys not pressed leave the direction alone. */
  lemma {:induction false} InputIgnoresUnpressed(d: Direction, last: Direction, pressed: set<Direction>, keys: seq<Direction>)
    requires forall j :: 0 <= j < |keys| ==> keys[j] !in pressed
    ensures InputScan(d, last, pressed, keys) == d
    decreases |keys|
  {
    if keys != [] {
      InputIgnoresUnpressed(d, last, pressed, keys[1..]);
    }
  }

  /** Without a rejected key, the last pressed key in the order wins. */
  lemma {:induction false} InputLastPressedWins(d: Direction, last: Direction, pressed: set<Direction>,
                                                pre: seq<Direction>, k: Direction, post: seq<Direction>)
    requires Opposite(last) !in pressed && k in pressed
    requires forall j :: 0 <= j < |post| ==> post[j] !in pressed
    ensures InputScan(d, last, pressed, pre + [k] + post) == k
    decreases |pre|
  {
    var keys := pre + [k] + post;
    if pre == [] {
      assert keys[0] == k && keys[1..] == post;
      InputIgnoresUnpressed(k, last, pressed, post);
    } else {
      assert keys[0] == pre[0];
      assert keys[1..] == pre[1..] + [k] + post;
      if pre[0] in pressed {
        InputLastPressedWins(pre[0], last, pressed, pre[1..], k, post);
      } else {
        InputLastPressedWins(d, last, pressed, pre[1..], k, post);
      }
    }
  }

  /** Two frames of the binding order: pressing Down while moving Up is
      ignored, and so is a Left pressed in the same frame after it; Left and
      Right together end on Right. */
  lemma InputExamples()
    ensures InputDirection(Up, Up, {Down}) == Up
    ensures InputDirection(Up, Up, {Down, Left}) == Up
    ensures InputDirection(Up, Up, {Left, Right}) == Right
  {
    assert KEY_ORDER == [Up] + [Down] + [Left, Right];
    InputStopsAtRejected(Up, Up, {Down}, [Up], [Left, Right]);
    InputStopsAtRejected(Up, Up, {Down, Left}, [Up], [Left, Right]);
    assert KEY_ORDER == [Up, Down, Left] + [Right] + [];
    InputLastPressedWins(Up, Up, {Left, Right}, [Up, Down, Left], Right, []);
  }

  // ---------------------------------------------------------------------
  // The neck

  /** The head sits one step in `last` from the segment behind it. */
  ghost predicate NeckBehind(b: Board, last: Direction)
    requires Live(b) && |b.body| >= 2
  {
    Cells(b)[0] == NextCell(Cells(b)[1], last)
  }

  /** With the input rule in force the next cell is never the neck. */
  lemma NeverIntoNeck(b: Board, last: Direction, d: Direction)
    requires Live(b) && |b.body| >= 2 && NeckBehind(b, last)
    requires d != Opposite(last)
    ensures NextCell(HeadCell(b), d) != Cells(b)[1]
  {
    NextCellInverse(Cells(b)[1], last, last);
    NextCellInverse(HeadCell(b), d, Opposite(last));
  }

  /** The wall check of `snake_collision_system`: some Head-tagged entity
      stands beyond the walls. */
  ghost predicate HeadOutOfBounds(b: Board) {
    exists id :: id in b.segments && b.segments[id].role == Head && OutOfBounds(b.segments[id].pos)
  }

  /** On a well-formed board the wall check looks at exactly the head. */
  lemma WallCheckIsHeadCell(b: Board)
    requires WellFormed(b)
    ensures HeadOutOfBounds(b) <==> OutOfBounds(HeadCell(b))
  {
    if HeadOutOfBounds(b) {
      var id :| id in b.segments && b.segments[id].role == Head && OutOfBounds(b.segments[id].pos);
      MarkersUnique(b, id);
    }
    MarkersUnique(b, b.body[0]);
  }

  // ---------------------------------------------------------------------
  // The game state as a value

  /** Every resource and entity the systems of `main.rs` touch: the stage,
      the three timers, the board (segment arena, body list, food cell,
      FreeLocations), whether the food entity exists, the snake's two
      direction fields, and `nextId`, which stands for the entity allocator.
      The food's cell is only meaningful while `hasFood` holds. */
  datatype WorldState = WorldState(
    stage: GameStateStage,
    movementTimer: Timer,
    postTimer: Timer,
    preTimer: Timer,
    board: Board,
    hasFood: bool,
    direction: Direction,
    lastDirection: Direction,
    nextId: Id)

  /** The snake entity exists. */
  predicate Spawned(s: WorldState) {
    s.board.body != []
  }

  ghost predicate TimersOk(s: WorldState) {
    && TimerValid(s.movementTimer) && s.movementTimer.duration == MOVEMENT_PERIOD
    && TimerValid(s.postTimer) && s.postTimer.duration == POST_GAME_PERIOD
    && TimerValid(s.preTimer) && s.preTimer.duration == PRE_GAME_PERIOD
  }

  /** A spawned snake is well formed and, until the run ends, its head is
      one step in the last direction from its neck; the next direction is not a reversal; no
      snake means no segment entities; every id was handed out already. */
  ghost predicate SnakeOk(s: WorldState) {
    && s.direction != Opposite(s.lastDirection)
    && (Spawned(s) ==> WellFormed(s.board))
    && (Spawned(s) && s.stage != PostGame ==> NeckBehind(s.board, s.lastDirection))
    && (!Spawned(s) ==> s.board.segments == map[])
    && (s.hasFood <==> Spawned(s))
    && forall id :: id in s.board.segments ==> id < s.nextId
  }

  /** Running and PostGame have a snake and a cleared pre-game timer;
      outside PostGame the post-game timer is cleared; in PreGame the snake
      exists exactly when the pre-game timer has started, and then sits on
      its spawn cells. */
  ghost predicate StageOk(s: WorldState) {
    && (s.stage != PreGame ==> Spawned(s) && s.preTimer.elapsed == 0.0)
    && (s.stage != PostGame ==> s.postTimer.elapsed == 0.0)
    && (s.stage == PreGame ==> (Spawned(s) <==> s.preTimer.elapsed != 0.0))
    && (s.stage == PreGame && Spawned(s) && Live(s.board) ==>
          Cells(s.board) == [SPAWN_HEAD, SPAWN_BODY, SPAWN_TAIL])
  }

  /** The invariant every system keeps. */
  ghost predicate Consistent(s: WorldState) {
    TimersOk(s) && SnakeOk(s) && StageOk(s)
  }

  /** A running snake is inside the walls. */
  ghost predicate RunningInBounds(s: WorldState) {
    s.stage == Running && Spawned(s) && Live(s.board) ==> !OutOfBounds(HeadCell(s.board))
  }

  /** The state between two frames. */
  ghost predicate Settled(s: WorldState) {
    Consistent(s) && RunningInBounds(s)
  }

  /** The resources `main` installs: PreGame, three fresh timers, an empty
      free set and no entities. */
  function Initial(): WorldState {
    WorldState(PreGame, FromSeconds(MOVEMENT_PERIOD), FromSeconds(POST_GAME_PERIOD), FromSeconds(PRE_GAME_PERIOD),
               Board(map[], [], SPAWN_FOOD, {}), false, Up, Up, 0)
  }

  lemma InitialSettled()
    ensures Settled(Initial())
  {
  }

  // ---------------------------------------------------------------------
  // The systems as state transformers

  /** `spawn_game_entities`, with fresh ids from the allocator and a snake
      heading Up. */
  function SpawnStep(s: WorldState): WorldState {
    s.(board := Spawn(s.board, s.nextId), hasFood := true, direction := Up, lastDirection := Up, nextId := s.nextId + 3)
  }

  /** `despawn_game_entities`: the body's entities leave the arena, the
      food entity goes, and the snake entity goes with its list. */
  function DespawnStep(s: WorldState): WorldState {
    s.(board := s.board.(segments := s.board.segments - IdSet(s.board.body), body := []), hasFood := false)
  }

  /** `pre_game_system` of `main.rs`. */
  function PreGameStep(s: WorldState, delta: real): WorldState
    requires TimerValid(s.preTimer) && TimerValid(s.movementTimer) && delta >= 0.0
  {
    if s.stage != PreGame || delta == 0.0 then s
    else
      var s1 := if s.preTimer.elapsed == 0.0 then SpawnStep(s) else s;
      var t := Tick(s1.preTimer, delta);
      if t.finished then s1.(movementTimer := Reset(s1.movementTimer), stage := Running, preTimer := Reset(t))
      else s1.(preTimer := t)
  }

  /** `post_game_system` of `main.rs`. */
  function PostGameStep(s: WorldState, delta: real): WorldState
    requires TimerValid(s.postTimer) && delta >= 0.0
  {
    if s.stage != PostGame then s
    else
      var t := Tick(s.postTimer, delta);
      if t.finished then DespawnStep(s).(stage := PreGame, postTimer := Reset(t))
      else s.(postTimer := t)
  }

  /** `player_input_system`: only a spawned snake reads the keys. */
  function InputStep(s: WorldState, pressed: set<Direction>): WorldState {
    if Spawned(s) then s.(direction := InputDirection(s.direction, s.lastDirection, pressed)) else s
  }

  /** `snake_collision_system`: a Head-tagged entity beyond the walls ends
      the run, whatever the stage. */
  ghost function CollisionStep(s: WorldState): WorldState {
    if HeadOutOfBounds(s.board) then s.(stage := PostGame) else s
  }

  /** What a draw from a set may return: a member, or the panic on an empty
      set. */
  predicate PickFrom(locations: set<GridPosition>, pick: Option<GridPosition>) {
    (pick.Some? <==> locations != {}) && (pick.Some? ==> pick.value in locations)
  }

  /** Some value a draw from `locations` may give. */
  ghost function SomePick(locations: set<GridPosition>): (pick: Option<GridPosition>)
    ensures PickFrom(locations, pick)
  {
    if locations == {} then None else Some(var p :| p in locations; p)
  }

  datatype MoveOutcome = MoveOutcome(state: WorldState, panicked: bool)

  /** `snake_movement_system`, given the value the random draw would give. */
  function MovementStep(s: WorldState, delta: real, pick: Option<GridPosition>): MoveOutcome
    requires TimerValid(s.movementTimer) && delta >= 0.0
    requires s.stage == Running ==> Live(s.board) && |s.board.body| >= 2
  {
    if s.stage != Running then MoveOutcome(s, false)
    else
      var t := Tick(s.movementTimer, delta);
      if !t.finished then MoveOutcome(s.(movementTimer := t), false)
      else SnakeStep(s.(movementTimer := Reset(t), lastDirection := s.direction), pick)
  }

  /** The move itself, once the movement timer has fired: check the cell
      ahead for a Body, then eat or slide. */
  function SnakeStep(s: WorldState, pick: Option<GridPosition>): MoveOutcome
    requires Live(s.board) && |s.board.body| >= 2
  {
    var next := NextCell(HeadCell(s.board), s.direction);
    if next in BodyTaggedCells(s.board) then MoveOutcome(s.(stage := PostGame), false)
    else if next == s.board.food then
      if pick.None? then MoveOutcome(s, true)
      else MoveOutcome(s.(board := Grow(s.board, s.nextId, pick.value), nextId := s.nextId + 1), false)
    else MoveOutcome(s.(board := Slide(s.board, next)), false)
  }

  /** Movement, input and the wall check, in the order `main` adds them. A
      move that panics ends the frame there. */
  ghost function SnakeFrameStep(s: WorldState, delta: real, pressed: set<Direction>, pick: Option<GridPosition>): (r: MoveOutcome)
    requires Consistent(s) && delta >= 0.0
    ensures r.state.preTimer == s.preTimer && r.state.postTimer == s.postTimer
    ensures TimerValid(r.state.movementTimer)
  {
    var m := MovementStep(s, delta, pick);
    if m.panicked then m else MoveOutcome(CollisionStep(InputStep(m.state, pressed)), false)
  }

  /** The pre-game system and then the post-game system. */
  function PhasesStep(s: WorldState, delta: real): WorldState
    requires TimerValid(s.preTimer) && TimerValid(s.movementTimer) && TimerValid(s.postTimer) && delta >= 0.0
  {
    PostGameStep(PreGameStep(s, delta), delta)
  }

  /** A whole frame: the snake systems, then, unless the move panicked, the
      two stage systems. */
  ghost function FrameStep(s: WorldState, delta: real, pressed: set<Direction>, pick: Option<GridPosition>): MoveOutcome
    requires Consistent(s) && delta >= 0.0
  {
    var m := SnakeFrameStep(s, delta, pressed, pick);
    if m.panicked then m else MoveOutcome(PhasesStep(m.state, delta), false)
  }

  // ---------------------------------------------------------------------
  // What the systems keep and do

  /** The pre-game system keeps the invariant and moves at most one stage. */
  lemma PreGameKeepsSettled(s: WorldState, delta: real)
    requires Settled(s) && delta >= 0.0
    ensures Settled(PreGameStep(s, delta))
    ensures StageStep(s.stage, PreGameStep(s, delta).stage)
  {
    if s.stage == PreGame && delta != 0.0 {
      if s.preTimer.elapsed == 0.0 {
        SpawnKeepsSettled(s, delta);
      } else {
        StartedPreGameKeepsSettled(s, delta);
      }
    }
  }

  lemma StartedPreGameKeepsSettled(s: WorldState, delta: real)
    requires Settled(s) && delta > 0.0 && s.stage == PreGame && s.preTimer.elapsed != 0.0
    ensures Settled(PreGameStep(s, delta))
  {
    var t, r := Tick(s.preTimer, delta), PreGameStep(s, delta);
    if t.finished {
      assert r == s.(movementTimer := Reset(s.movementTimer), stage := Running, preTimer := Reset(t));
      assert TimersOk(r) && SnakeOk(r);
    } else {
      assert r == s.(preTimer := t);
      assert TimersOk(r) && SnakeOk(r);
    }
  }

  lemma SpawnKeepsSettled(s: WorldState, delta: real)
    requires Settled(s) && delta > 0.0 && s.stage == PreGame && s.preTimer.elapsed == 0.0
    ensures Settled(PreGameStep(s, delta))
  {
    var b, r := Spawn(s.board, s.nextId), PreGameStep(s, delta);
    SpawnWellFormed(s.board, s.nextId);
    assert r.board == b && r.direction == Up && r.lastDirection == Up && r.nextId == s.nextId + 3;
    assert b.segments.Keys == {s.nextId, s.nextId + 1, s.nextId + 2};
    assert TimersOk(r);
    assert NeckBehind(b, Up);
    assert SnakeOk(r);
    assert StageOk(r);
  }

  /** What the pre-game system does: nothing on a zero delta or outside
      PreGame; otherwise it spawns exactly when the pre-game timer has not
      started, and when the timer runs out both it and the movement timer
      are cleared and the game runs. */
  lemma PreGameEffects(s: WorldState, delta: real)
    requires Consistent(s) && delta >= 0.0
    ensures s.stage != PreGame || delta == 0.0 ==> PreGameStep(s, delta) == s
    ensures PreGameStep(s, delta).postTimer == s.postTimer
    ensures s.stage == PreGame && delta > 0.0 && Spawned(s) && s.preTimer.elapsed + delta < PRE_GAME_PERIOD ==>
              PreGameStep(s, delta) == s.(preTimer := Tick(s.preTimer, delta))
    ensures s.stage == PreGame && delta > 0.0 ==>
              var r := PreGameStep(s, delta);
              && (s.preTimer.elapsed == 0.0 <==> !Spawned(s))
              && Spawned(r)
              && (!Spawned(s) ==> Cells(r.board) == [GridPosition(0, 2), GridPosition(0, 1), GridPosition(0, 0)]
                                  && r.hasFood && r.board.food == GridPosition(-3, 2) && r.direction == Up && r.lastDirection == Up
                                  && r.nextId == s.nextId + 3)
              && (Spawned(s) ==> r.board == s.board && r.direction == s.direction && r.lastDirection == s.lastDirection)
              && (s.preTimer.elapsed + delta >= PRE_GAME_PERIOD ==>
                    r.stage == Running && r.preTimer.elapsed == 0.0 && r.movementTimer.elapsed == 0.0)
              && (s.preTimer.elapsed + delta < PRE_GAME_PERIOD ==>
                    r.stage == PreGame && r.preTimer.elapsed == s.preTimer.elapsed + delta
                    && r.movementTimer == s.movementTimer)
  {
    if s.stage == PreGame && delta > 0.0 && !Spawned(s) {
      SpawnWellFormed(s.board, s.nextId);
    }
  }

  /** The post-game system keeps the invariant and moves at most one stage. */
  lemma PostGameKeepsSettled(s: WorldState, delta: real)
    requires Settled(s) && delta >= 0.0
    ensures Settled(PostGameStep(s, delta))
    ensures StageStep(s.stage, PostGameStep(s, delta).stage)
  {
    if s.stage == PostGame && Tick(s.postTimer, delta).finished {
      ArenaMembers(s.board);
      assert PostGameStep(s, delta).board.segments == map[];
    }
  }

  /** What the post-game system does: once its timer runs out it removes
      every snake and food entity and goes back to PreGame; before that only
      the timer moves. */
  lemma PostGameEffects(s: WorldState, delta: real)
    requires Consistent(s) && delta >= 0.0 && s.stage == PostGame
    ensures var r := PostGameStep(s, delta);
            && (s.postTimer.elapsed + delta >= POST_GAME_PERIOD ==>
                  r.stage == PreGame && !Spawned(r) && r.board.segments == map[] && !r.hasFood && r.postTimer.elapsed == 0.0
                  && r.preTimer == s.preTimer && r.movementTimer == s.movementTimer)
            && (s.postTimer.elapsed + delta < POST_GAME_PERIOD ==>
                  r == s.(postTimer := Tick(s.postTimer, delta)) && r.postTimer.elapsed == s.postTimer.elapsed + delta)
  {
    if s.postTimer.elapsed + delta >= POST_GAME_PERIOD {
      ArenaMembers(s.board);
      assert PostGameStep(s, delta).board.segments == map[];
    }
  }

  /** The input system keeps the invariant: it never sets a reversal. */
  lemma InputKeepsConsistent(s: WorldState, pressed: set<Direction>)
    requires Consistent(s)
    ensures Consistent(InputStep(s, pressed))
    ensures InputStep(s, pressed).stage == s.stage && InputStep(s, pressed).board == s.board
  {
    InputNeverReverses(s.direction, s.lastDirection, pressed, KEY_ORDER);
  }

  /** The wall check ends the run exactly when the head is beyond the
      walls, leaves a run inside the walls only if it is one, and never
      fires during PreGame. */
  lemma CollisionSettles(s: WorldState)
    requires Consistent(s)
    ensures Settled(CollisionStep(s))
    ensures StageStep(s.stage, CollisionStep(s).stage)
    ensures CollisionStep(s).board == s.board
    ensures CollisionStep(s).stage == PostGame <==>
              s.stage == PostGame || (Spawned(s) && OutOfBounds(HeadCell(s.board)))
  {
    if Spawned(s) {
      WallCheckIsHeadCell(s.board);
    } else {
      assert !HeadOutOfBounds(s.board);
    }
  }

  /** Outside a due move only the movement timer changes. */
  lemma MovementIdle(s: WorldState, delta: real, pick: Option<GridPosition>)
    requires Consistent(s) && delta >= 0.0
    requires s.stage != Running || !Tick(s.movementTimer, delta).finished
    ensures var r := MovementStep(s, delta, pick);
            && !r.panicked && r.state.stage == s.stage && r.state.board == s.board && r.state.hasFood == s.hasFood
            && r.state.direction == s.direction && r.state.lastDirection == s.lastDirection
            && r.state.nextId == s.nextId && r.state.preTimer == s.preTimer && r.state.postTimer == s.postTimer
            && (s.stage != Running ==> r.state == s)
            && (s.stage == Running ==> r.state.movementTimer.elapsed == s.movementTimer.elapsed + delta)
  {
  }

  /** A due move first clears the movement timer, commits the direction,
      and aims at the cell one step ahead, which is never the neck. */
  lemma MovementAim(s: WorldState, delta: real)
    requires Consistent(s) && delta >= 0.0
    requires s.stage == Running && Tick(s.movementTimer, delta).finished
    ensures NextCell(HeadCell(s.board), s.direction) != Cells(s.board)[1]
    ensures forall pick :: MovementStep(s, delta, pick).state.movementTimer.elapsed == 0.0
    ensures forall pick :: MovementStep(s, delta, pick).state.lastDirection == s.direction
  {
    NeverIntoNeck(s.board, s.lastDirection, s.direction);
  }

  /** Stepping onto a Body-tagged cell ends the run and changes nothing
      else; the tail's cell is not checked and the neck cannot be hit. */
  lemma MovementHitsBody(s: WorldState, delta: real, pick: Option<GridPosition>)
    requires Consistent(s) && delta >= 0.0
    requires s.stage == Running && Tick(s.movementTimer, delta).finished
    requires NextCell(HeadCell(s.board), s.direction) in BodyTaggedCells(s.board)
    ensures var r := MovementStep(s, delta, pick);
            && !r.panicked && r.state.stage == PostGame && r.state.board == s.board
            && r.state.direction == s.direction && r.state.nextId == s.nextId
            && Consistent(r.state)
  {
  }

  /** Stepping onto the food grows the snake by one: the new head is on the
      old food cell in front of the old cells, the tail stays, the food
      moves to the drawn free cell, which leaves the free set, and the old
      food cell is not freed. With no free cell the draw panics. */
  lemma MovementEats(s: WorldState, delta: real, pick: Option<GridPosition>)
    requires Consistent(s) && delta >= 0.0 && PickFrom(s.board.free, pick)
    requires s.stage == Running && Tick(s.movementTimer, delta).finished
    requires NextCell(HeadCell(s.board), s.direction) !in BodyTaggedCells(s.board)
    requires NextCell(HeadCell(s.board), s.direction) == s.board.food
    ensures MovementStep(s, delta, pick).panicked <==> s.board.free == {}
    ensures !MovementStep(s, delta, pick).panicked ==>
              var b, b' := s.board, MovementStep(s, delta, pick).state.board;
              var n := |b.body|;
              && Consistent(MovementStep(s, delta, pick).state)
              && MovementStep(s, delta, pick).state.stage == Running
              && |b'.body| == n + 1 && b'.body == [s.nextId] + b.body
              && b'.segments[b.body[0]].role == Body
              && Cells(b') == [b.food] + Cells(b)
              && b'.body[n] == b.body[n - 1] && b'.segments[b.body[n - 1]] == b.segments[b.body[n - 1]]
              && b'.food in b.free && b'.free == b.free - {b'.food}
              && b.food !in b'.free
  {
    if pick.Some? {
      GrowWellFormed(s.board, s.nextId, pick.value);
    }
  }

  /** Any other step slides the snake: the length stays, the cells shift by
      one with the target in front, the old tail cell is freed, the target
      leaves the free set, and the roles are Head, Body ..., Tail again. */
  lemma MovementSlides(s: WorldState, delta: real, pick: Option<GridPosition>)
    requires Consistent(s) && delta >= 0.0
    requires s.stage == Running && Tick(s.movementTimer, delta).finished
    requires NextCell(HeadCell(s.board), s.direction) !in BodyTaggedCells(s.board)
    requires NextCell(HeadCell(s.board), s.direction) != s.board.food
    ensures var next := NextCell(HeadCell(s.board), s.direction);
            var b, b' := s.board, MovementStep(s, delta, pick).state.board;
            var n := |b.body|;
            && !MovementStep(s, delta, pick).panicked
            && Consistent(MovementStep(s, delta, pick).state)
            && MovementStep(s, delta, pick).state.stage == Running
            && |b'.body| == n
            && b'.body == [b.body[n - 1]] + b.body[..n - 1]
            && Cells(b') == [next] + Cells(b)[..n - 1]
            && b'.free == (b.free + {Cells(b)[n - 1]}) - {next}
            && b'.food == b.food
            && RolesInOrder(b')
  {
    SlideWellFormed(s.board, NextCell(HeadCell(s.board), s.direction));
  }

  /** Every move that does not abort keeps the invariant. */
  lemma MovementKeepsConsistent(s: WorldState, delta: real, pick: Option<GridPosition>)
    requires Consistent(s) && delta >= 0.0 && PickFrom(s.board.free, pick)
    ensures !MovementStep(s, delta, pick).panicked ==> Consistent(MovementStep(s, delta, pick).state)
    ensures StageStep(s.stage, MovementStep(s, delta, pick).state.stage)
  {
    if s.stage == Running && Tick(s.movementTimer, delta).finished {
      var next := NextCell(HeadCell(s.board), s.direction);
      if next in BodyTaggedCells(s.board) {
        MovementHitsBody(s, delta, pick);
      } else if next == s.board.food {
        MovementEats(s, delta, pick);
      } else {
        MovementSlides(s, delta, pick);
      }
    }
  }

  // ---------------------------------------------------------------------
  // The world

  /** The resources and entities of the running program. Each system of
      `main.rs` is a method that changes them as its step function says. */
  class World {
    var stage: GameStateStage
    var movementTimer: Timer
    var postTimer: Timer
    var preTimer: Timer
    var segments: map<Id, Segment>
    var body: seq<Id>
    var food: GridPosition
    var free: set<GridPosition>
    var hasFood: bool
    var direction: Direction
    var lastDirection: Direction
    var nextId: Id

    function Snapshot(): Board
      reads this
    {
      Board(segments, body, food, free)
    }

    function State(): WorldState
      reads this
    {
      WorldState(stage, movementTimer, postTimer, preTimer, Snapshot(), hasFood, direction, lastDirection, nextId)
    }

    constructor()
      ensures State() == Initial()
    {
      stage := PreGame;
      movementTimer := FromSeconds(MOVEMENT_PERIOD);
      postTimer := FromSeconds(POST_GAME_PERIOD);
      preTimer := FromSeconds(PRE_GAME_PERIOD);
      segments := map[];
      body := [];
      food := SPAWN_FOOD;
      free := {};
      hasFood := false;
      direction := Up;
      lastDirection := Up;
      nextId := 0;
    }

    /** `init_free_locations`: clear the set, then insert every cell with
        -GRID_SIZE <= x < GRID_SIZE and -GRID_SIZE <= y < GRID_SIZE. */
    method InitFreeLocations()
      modifies this`free
      ensures free == InitialFreeSet()
    {
      var lo, hi := -GRID_SIZE, GRID_SIZE;
      free := {};
      forall p ensures p !in Rect(lo, lo, lo, hi) {
        RectMember(lo, lo, lo, hi, p);
      }
      for x := lo to hi
        invariant free == Rect(lo, x, lo, hi)
      {
        var x' := x + 1;
        forall p ensures p !in Rect(x, x', lo, lo) {
          RectMember(x, x', lo, lo, p);
        }
        for y := lo to hi
          invariant free == Rect(lo, x, lo, hi) + Rect(x, x', lo, y)
        {
          RectExtendColumn(x, lo, y);
          free := free + {GridPosition(x, y)};
        }
        RectExtendRow(lo, x, lo, hi);
      }
    }

    /** `spawn_game_entities`: tail, body and head entities pushed to the
        front of a new body list in that order, a snake heading Up, the
        food, and the free set rebuilt without those four cells. */
    method SpawnGameEntities()
      modifies this`segments, this`body, this`food, this`hasFood, this`free, this`direction, this`lastDirection, this`nextId
      ensures State() == SpawnStep(old(State()))
    {
      ghost var s0 := State();
      var tailId, bodyId, headId := nextId, nextId + 1, nextId + 2;
      var arena := segments;
      var list: seq<Id> := [];
      arena := arena[tailId := Segment(SPAWN_TAIL, Tail)];
      list := [tailId] + list;
      arena := arena[bodyId := Segment(SPAWN_BODY, Body)];
      list := [bodyId] + list;
      arena := arena[headId := Segment(SPAWN_HEAD, Head)];
      list := [headId] + list;
      assert list == [headId, bodyId, tailId];
      segments, body, nextId := arena, list, nextId + 3;
      direction, lastDirection := Up, Up;
      food, hasFood := SPAWN_FOOD, true;
      InitFreeLocations();
      var cells := free;
      cells := cells - {SPAWN_TAIL};
      cells := cells - {SPAWN_BODY};
      cells := cells - {SPAWN_HEAD};
      cells := cells - {SPAWN_FOOD};
      free := cells;
      assert Snapshot() == Spawn(s0.board, s0.nextId);
    }

    /** `despawn_game_entities`: every entity on the body list goes, then
        the food entity, and with the snake entity the list itself. */
    method DespawnGameEntities()
      modifies this`segments, this`body, this`hasFood
      ensures State() == DespawnStep(old(State()))
    {
      for i := 0 to |body|
        invariant body == old(body)
        invariant segments == old(segments) - IdSet(body[..i])
      {
        assert body[..i + 1] == body[..i] + [body[i]];
        assert IdSet(body[..i + 1]) == IdSet(body[..i]) + {body[i]};
        segments := segments - {body[i]};
      }
      assert body[..|body|] == body;
      hasFood := false;
      body := [];
    }

    /** `pre_game_system` of `main.rs`. */
    method PreGameSystem(delta: real)
      requires TimerValid(preTimer) && TimerValid(movementTimer) && delta >= 0.0
      modifies this
      ensures State() == PreGameStep(old(State()), delta)
    {
      if stage != PreGame {
        return;
      }
      if delta == 0.0 {
        return;
      }
      if preTimer.elapsed == 0.0 {
        SpawnGameEntities();
      }
      preTimer := Tick(preTimer, delta);
      if preTimer.finished {
        movementTimer := Reset(movementTimer);
        stage := Running;
        preTimer := Reset(preTimer);
      }
    }

    /** `post_game_system` of `main.rs`. */
    method PostGameSystem(delta: real)
      requires TimerValid(postTimer) && delta >= 0.0
      modifies this
      ensures State() == PostGameStep(old(State()), delta)
    {
      if stage != PostGame {
        return;
      }
      postTimer := Tick(postTimer, delta);
      if postTimer.finished {
        DespawnGameEntities();
        stage := PreGame;
        postTimer := Reset(postTimer);
      }
    }

    /** The self-collision scan of the movement system over the entities
        carrying the Body marker. */
    method HitsBody(next: GridPosition) returns (hit: bool)
      ensures hit <==> next in BodyTaggedCells(Snapshot())
    {
      var ids := segments.Keys;
      while ids != {}
        invariant ids <= segments.Keys
        invariant forall id :: id in segments && id !in ids ==> !(segments[id].role == Body && segments[id].pos == next)
        decreases |ids|
      {
        var id :| id in ids;
        if segments[id].role == Body && segments[id].pos == next {
          return true;
        }
        ids := ids - {id};
      }
      return false;
    }

    /** The food branch of the movement system: the old head is retagged
        Body, the food moves to `newFood`, which leaves the free set, and a
        new Head entity on the old food cell is pushed to the front. */
    method GrowOntoFood(newFood: GridPosition)
      requires Live(Snapshot()) && |body| >= 1
      modifies this`segments, this`body, this`food, this`free, this`nextId
      ensures Snapshot() == Grow(old(Snapshot()), old(nextId), newFood)
      ensures nextId == old(nextId) + 1
    {
      var headId := body[0];
      segments := segments[headId := segments[headId].(role := Body)];
      var headPos := food;
      food := newFood;
      free := free - {food};
      var id := nextId;
      nextId := nextId + 1;
      segments := segments[id := Segment(headPos, Head)];
      body := [id] + body;
    }

    /** The other branch: the old tail cell is freed, the tail entity moves
        to `next` (taken from the free set) and becomes the Head, the old
        head becomes Body, the back of the list is popped and pushed to the
        front, and the entity now last becomes the Tail if it carried the
        Body marker when the frame began. */
    method Advance(next: GridPosition)
      requires Live(Snapshot()) && |body| >= 2
      modifies this`segments, this`body, this`free
      ensures Snapshot() == Slide(old(Snapshot()), next)
    {
      ghost var b := Snapshot();
      var n := |body|;
      var headId, tailId := body[0], body[n - 1];
      var newTailWasBody := segments[body[n - 2]].role == Body;
      free := free + {segments[tailId].pos};
      segments := segments[tailId := segments[tailId].(pos := next)];
      free := free - {next};
      segments := segments[tailId := segments[tailId].(role := Head)];
      assert segments == b.segments[tailId := Segment(next, Head)];
      segments := segments[headId := segments[headId].(role := Body)];
      var e := body[n - 1];
      body := body[..n - 1];
      body := [e] + body;
      var newTailId := body[n - 1];
      assert newTailId == b.body[n - 2];
      if newTailWasBody {
        segments := segments[newTailId := segments[newTailId].(role := Tail)];
      }
    }

    /** `snake_movement_system`; `panicked` is the panic of a draw from an
        empty free set. */
    method SnakeMovementSystem(delta: real) returns (panicked: bool)
      requires TimerValid(movementTimer) && delta >= 0.0
      requires stage == Running ==> Live(Snapshot()) && |body| >= 2
      modifies this`stage, this`movementTimer, this`lastDirection, this`segments, this`body, this`food, this`free, this`nextId
      ensures exists pick :: PickFrom(old(free), pick) && MovementStep(old(State()), delta, pick) == MoveOutcome(State(), panicked)
    {
      ghost var s0 := State();
      ghost var pick := SomePick(free);
      panicked := false;
      if stage == Running {
        movementTimer := Tick(movementTimer, delta);
        if movementTimer.finished {
          movementTimer := Reset(movementTimer);
          lastDirection := direction;
          ghost var s1 := State();
          panicked := MoveSnake();
          pick :| PickFrom(s1.board.free, pick) && SnakeStep(s1, pick) == MoveOutcome(State(), panicked);
        }
      }
      assert PickFrom(s0.board.free, pick) && MovementStep(s0, delta, pick) == MoveOutcome(State(), panicked);
    }

    /** The body of the movement system's loops over snake, head and tail. */
    method MoveSnake() returns (panicked: bool)
      requires Live(Snapshot()) && |body| >= 2
      modifies this`stage, this`segments, this`body, this`food, this`free, this`nextId
      ensures exists pick :: PickFrom(old(free), pick) && SnakeStep(old(State()), pick) == MoveOutcome(State(), panicked)
    {
      ghost var s0 := State();
      ghost var pick := SomePick(free);
      panicked := false;
      var next := NextCell(segments[body[0]].pos, direction);
      var hit := HitsBody(next);
      if hit {
        stage := PostGame;
      } else if next == food {
        var location := GetRandomLocation(free);
        pick := location;
        if location.None? {
          panicked := true;
        } else {
          GrowOntoFood(location.value);
        }
      } else {
        Advance(next);
      }
      assert PickFrom(s0.board.free, pick) && SnakeStep(s0, pick) == MoveOutcome(State(), panicked);
    }

    /** `player_input_system`. */
    method PlayerInputSystem(pressed: set<Direction>)
      modifies this`direction
      ensures State() == InputStep(old(State()), pressed)
    {
      if body == [] {
        return;
      }
      if Up in pressed {
        if lastDirection == Down {
          return;
        }
        direction := Up;
      }
      if Down in pressed {
        if lastDirection == Up {
          return;
        }
        direction := Down;
      }
      if Left in pressed {
        if lastDirection == Right {
          return;
        }
        direction := Left;
      }
      if Right in pressed {
        if lastDirection == Left {
          return;
        }
        direction := Right;
      }
    }

    /** `snake_collision_system`: the scan over the Head-tagged entities. */
    method SnakeCollisionSystem()
      modifies this`stage
      ensures State() == CollisionStep(old(State()))
    {
      var ids := segments.Keys;
      while ids != {}
        invariant ids <= segments.Keys
        invariant (exists id :: id in segments && id !in ids && segments[id].role == Head && OutOfBounds(segments[id].pos))
                  ==> stage == PostGame
        invariant !(exists id :: id in segments && id !in ids && segments[id].role == Head && OutOfBounds(segments[id].pos))
                  ==> stage == old(stage)
        decreases |ids|
      {
        var id :| id in ids;
        if segments[id].role == Head && OutOfBounds(segments[id].pos) {
          stage := PostGame;
        }
        ids := ids - {id};
      }
    }

    /** The first three systems of a frame, in the order `main` adds them:
        movement, input and the wall check. Unless the move panics they end
        settled, the stage having moved at most one step. */
    method UpdateSnake(delta: real, pressed: set<Direction>) returns (panicked: bool)
      requires Consistent(State()) && delta >= 0.0
      modifies this
      ensures exists pick :: PickFrom(old(free), pick) && SnakeFrameStep(old(State()), delta, pressed, pick) == MoveOutcome(State(), panicked)
      ensures !panicked ==> Settled(State()) && StageStep(old(stage), stage)
    {
      ghost var s0 := State();
      panicked := SnakeMovementSystem(delta);
      ghost var pick :| PickFrom(s0.board.free, pick) && MovementStep(s0, delta, pick) == MoveOutcome(State(), panicked);
      MovementKeepsConsistent(s0, delta, pick);
      if panicked {
        return;
      }
      ghost var s1 := State();
      PlayerInputSystem(pressed);
      InputKeepsConsistent(s1, pressed);
      ghost var s2 := State();
      SnakeCollisionSystem();
      CollisionSettles(s2);
      assert SnakeFrameStep(s0, delta, pressed, pick) == MoveOutcome(State(), panicked);
    }

    /** The two stage systems that close a frame, pre-game first; together
        they move the stage at most one step. */
    method UpdatePhases(delta: real)
      requires Settled(State()) && delta >= 0.0
      modifies this
      ensures State() == PhasesStep(old(State()), delta)
      ensures Settled(State()) && StageStep(old(stage), stage)
    {
      ghost var s3 := State();
      PreGameSystem(delta);
      PreGameKeepsSettled(s3, delta);
      ghost var s4 := State();
      PostGameSystem(delta);
      PostGameKeepsSettled(s4, delta);
    }

    /** One frame, in the order `main` adds the systems. A frame that does
        not panic ends settled, and the stage moves at most two steps along
        the cycle. */
    method Frame(delta: real, pressed: set<Direction>) returns (panicked: bool)
      requires Settled(State()) && delta >= 0.0
      modifies this
      ensures exists pick :: PickFrom(old(free), pick) && FrameStep(old(State()), delta, pressed, pick) == MoveOutcome(State(), panicked)
      ensures !panicked ==> Settled(State())
      ensures !panicked ==> stage == old(stage) || stage == Succ(old(stage)) || stage == Succ(Succ(old(stage)))
    {
      ghost var s0 := State();
      panicked := UpdateSnake(delta, pressed);
      ghost var pick :| PickFrom(s0.board.free, pick) && SnakeFrameStep(s0, delta, pressed, pick) == MoveOutcome(State(), panicked);
      if !panicked {
        UpdatePhases(delta);
      }
      assert FrameStep(s0, delta, pressed, pick) == MoveOutcome(State(), panicked);
    }
  }
}
