# bevy_snake in Dafny

A model of the game logic of bevy_snake, a snake game on a 7-by-7 grid
written against the Bevy engine. It covers two parts.

The first is the game of `src/main.rs`:

- a snake of segment entities, each with a grid cell and a Head, Body or
  Tail marker;
- a food entity with its cell, and the `FreeLocations` set;
- the systems that spawn the snake, move it one cell per 0.3 s, grow it
  onto the food, read the arrow keys and check the walls;
- the three-stage cycle PreGame → Running → PostGame → PreGame, driven by
  the pre-game (3 s) and post-game (4 s) timers.

The second is the game-state plugin under `src/plugins/game_state`. Nothing
in `main.rs` uses it yet. It has:

- three phase records, each with an `active` flag;
- two timed phase systems that send Start and End events;
- three transition listeners, each reading End events through its own
  cursor.

Files and modules:

| file | module | contents |
|---|---|---|
| `grid.dfy` | `Grid` | cells, directions, the step function, the wall test, the rectangle of cells the free set starts from |
| `timer.dfy` | `Timers` | the one-shot timer both parts rely on (`tick`, `reset`, `finished`) |
| `board.dfy` | `SnakeBoard` | the board as a value; a move onto a free cell (`Slide`), growing onto the food (`Grow`) and spawning (`Spawn`), with the invariant `WellFormed` they keep |
| `game.dfy` | `SnakeGame` | a step function per system of `main.rs`, the invariant `Settled`, and class `World`, whose methods are the systems working on its fields |
| `events.dfy` | `GameStateEvents` | the six event kinds, channels as sequences, readers as cursors |
| `res.dfy` | `GameStateRes` | the phase and listener-state records and their constructors |
| `sys.dfy` | `GameStateSys` | the phase-tick function and class `PhaseMachine` with the five systems |

### How the game is modelled

- **Entities.** Snake segments are an arena `map<Id, Segment>`. The snake's
  `LinkedList<Entity>` is a head-first `seq<Id>`.
- **Food.** Whether the food entity exists is the flag `hasFood`. It is
  set at spawn and cleared at despawn. The food's cell is kept after a
  despawn, unused until the next spawn overwrites it.
- **The board invariant (`WellFormed`).** It says:
  - the body has at least three segments;
  - the arena holds exactly the body's entities;
  - the markers read Head, Body …, Tail along the body;
  - no two segments share a cell;
  - the snake cells, the food cell and the free set do not overlap.
- **The game invariant (`Settled`).** It adds:
  - the timers keep their durations;
  - the next direction is never a reversal;
  - while the game is not over, the head is one step from its neck in the
    last direction;
  - the food entity exists exactly when the snake does;
  - in PreGame the snake exists exactly when the pre-game timer has
    started.
- **Systems.** Each system of `main.rs` is a method of `World` with the
  branches of the source. A loop over a query that can see several
  entities stays a loop: the Body scan (`HitsBody`), the Head scan
  (`SnakeCollisionSystem`), the despawn loop over the body list and the
  nested loops of `init_free_locations`. A query that sees at most one
  entity becomes a direct read. These are the snake, Head, Tail and food
  queries. `Settled` is what guarantees one entity: `SnakeBoard.MarkersUnique`
  gives a single Head and a single Tail, and the food exists exactly when
  the snake does. Each method's `ensures` ties the new state to a step
  function. The methods that run several systems (`UpdateSnake`,
  `UpdatePhases`, `Frame`) tie it to the composition of those step
  functions in `main`'s order (`SnakeFrameStep`, `PhasesStep`,
  `FrameStep`). The lemmas about the step functions state what each
  system does and that it keeps `Settled`.
- **Where each system is defined.** Each step function sits under the
  source lines of the lemmas about it:
  - `SnakeBoard.Spawn` and `SnakeGame.SpawnStep`: `spawn_game_entities`,
    src/main.rs:124-216;
  - `SnakeGame.DespawnStep`: `despawn_game_entities`, src/main.rs:218-229;
  - `SnakeBoard.BodyTaggedCells`: the cells the Body query sees,
    src/main.rs:294-299;
  - `SnakeGame.HeadOutOfBounds`: the wall test on the Head query,
    src/main.rs:415-421;
  - `SnakeBoard.Slide`: the slide branch, src/main.rs:339-373;
  - `SnakeBoard.Grow`: the eat branch, src/main.rs:301-338;
  - `SnakeGame.MovementStep`: the timer gate, src/main.rs:253-262;
  - `SnakeGame.SnakeStep`: the move itself, src/main.rs:263-378;
  - `SnakeGame.InputScan` and `InputStep`: src/main.rs:381-411;
  - `SnakeGame.CollisionStep`: src/main.rs:413-422;
  - `SnakeGame.PostGameStep`: src/main.rs:424-448;
  - `SnakeGame.PreGameStep`: src/main.rs:450-480;
  - `SnakeGame.SnakeFrameStep`, `PhasesStep` and `FrameStep`: the
    system order, src/main.rs:19-23;
  - `GameStateSys.TickPhase` and `RunPhase`: the phase systems of
    src/plugins/game_state/sys.rs.
- **Random draws.** `get_random_location` picks some member of the free
  set. How the movement method picks is hidden, so its contract says the
  outcome is the step function's for *some* legal draw.

### How the plugin is modelled

- **Channels.** Each event channel is an append-only sequence.
- **Readers.** Each listener-state record holds a reader: the count of
  events it has seen. Unread events are those past that count.
- **Systems.** Each system is a method of `PhaseMachine` that changes only
  the fields it names.
- **Ownership.** `Owners()` counts an active phase and any End event its
  successor has not read yet. All five systems keep it at one. After a
  whole `Update`, with every End event read, one owner means exactly one
  active phase.

## Model

| member | source | states |
|---|---|---|
| Grid.Opposite | src/main.rs:386-409 | the key each binding rejects is a different direction on the same axis |
| Grid.OppositeInvolutive | src/main.rs:386-409 | reversing a reversal gives the original direction |
| Grid.NextCell | src/main.rs:273-290 | Up is y+1, Down y-1, Left x-1, Right x+1; the next cell shares an edge with the head |
| Grid.NextCellInverse | src/main.rs:273-290 | stepping back the opposite way returns to the start, and different directions lead to different cells |
| Grid.RectMember | src/main.rs:233-235 | a cell is in the rectangle the nested loops fill iff x0 <= x < x1 and y0 <= y < y1 |
| Grid.RectSize | src/main.rs:233-235 | a w-by-h rectangle holds exactly w*h cells |
| Grid.InitialFreeSetShape | src/main.rs:231-238 | the rebuilt free set has 36 cells, exactly those with -3 <= x < 3 and -3 <= y < 3, all inside the walls |
| Grid.WallAsymmetry | src/main.rs:233-234 | the cells inside the walls (line 418) but never initially free are exactly those of column x = 3 and row y = 3 |
| Timers.FromSeconds | src/main.rs:11-13 | a fresh non-repeating timer has the given duration, elapsed 0 and is not finished |
| Timers.Tick | src/main.rs:257-261 | a tick finishes the timer iff elapsed + delta reaches the duration; until then elapsed grows by delta; a positive delta makes elapsed positive |
| Timers.Reset | src/main.rs:261 | reset keeps the duration and clears elapsed and finished |
| Timers.TickAllElapsed | src/main.rs:473-475 | over many frames a timer finishes exactly when the deltas add up to the time that was left |
| SnakeBoard.BodyTaggedCellsAreMiddle | src/main.rs:294-299 | on a well-formed board the cells the self-collision scan looks at are exactly those strictly between head and tail |
| SnakeBoard.EndsNotBodyTagged | src/main.rs:294-299 | neither the head's cell nor the tail's cell is ever checked for self-collision |
| SnakeBoard.MarkersUnique | src/main.rs:263-265 | the front entity is the only Head and the last the only Tail, so the head and tail queries each see one entity |
| SnakeBoard.SlideWellFormed | src/main.rs:339-373 | a move onto a cell that is not Body-tagged, the head or the food keeps the board well formed; the list is rotated (pop_back then push_front); the cells shift by one with the target in front; the old tail cell is freed and the target leaves the free set; food and arena ids are unchanged |
| SnakeBoard.SlideKeepsApart | src/main.rs:340-350 | freeing the old tail cell and taking the target keeps snake, food and free cells pairwise apart |
| SnakeBoard.GrowWellFormed | src/main.rs:301-338 | growing onto the food with a fresh id and a new food cell from the free set keeps the board well formed; the length grows by one; the new head is on the old food cell in front; the tail entity is unchanged; the new food cell leaves the free set and the old one is not freed |
| SnakeBoard.SpawnWellFormed | src/main.rs:124-216 | spawning into an empty arena gives a well-formed board with list [head, body, tail] on (0,2), (0,1), (0,0), food at (-3,2), the head inside the walls, and a free set of exactly the initial cells not taken by those four |
| SnakeBoard.SpawnFreeCount | src/main.rs:211-215 | after spawning, 32 cells are free |
| SnakeBoard.FirstMoveUp | src/main.rs:339-373 | the first move of a new game moves the tail entity to (0,3) as head; the snake covers (0,3), (0,2), (0,1) and (0,0) is free |
| SnakeGame.GetRandomLocation | src/main.rs:488-491 | the draw returns a member of a non-empty set, and on an empty set it is the panic |
| SnakeGame.InputNeverReverses | src/main.rs:385-410 | the key scan never sets the opposite of the last move, and ends on the old direction or a pressed key |
| SnakeGame.InputStopsAtRejected | src/main.rs:386-389 | a pressed key that would reverse ends the scan, so later keys are ignored that frame |
| SnakeGame.InputIgnoresUnpressed | src/main.rs:385-410 | keys not just pressed leave the direction alone |
| SnakeGame.InputLastPressedWins | src/main.rs:385-410 | with no reversing key pressed, the last pressed key in the order Up, Down, Left, Right wins |
| SnakeGame.InputExamples | src/main.rs:385-410 | Down while moving Up is ignored, and so is a Left pressed with it; Left and Right together give Right |
| SnakeGame.NeverIntoNeck | src/main.rs:273-292 | with the input rule in force the next cell is never the neck |
| SnakeGame.WallCheckIsHeadCell | src/main.rs:417-421 | on a well-formed board the wall scan finds a Head beyond the walls iff the head cell has x > 3, x < -3, y > 3 or y < -3 |
| SnakeGame.InitialSettled | src/main.rs:11-17 | the resources installed at start satisfy the invariant |
| SnakeGame.PreGameKeepsSettled | src/main.rs:450-480 | the pre-game system keeps the invariant and moves the stage at most one step |
| SnakeGame.SpawnKeepsSettled | src/main.rs:469-473 | spawning on the first pre-game frame keeps the invariant |
| SnakeGame.StartedPreGameKeepsSettled | src/main.rs:473-479 | a later pre-game frame, expiring or not, keeps the invariant |
| SnakeGame.PreGameEffects | src/main.rs:459-479 | nothing happens outside PreGame or on a zero delta; it spawns iff the timer has not started, then with the spawn cells, a food entity at (-3,2), Up/Up and three fresh ids; an expiring timer clears itself and the movement timer and starts the run; otherwise only elapsed grows: a spawned state that does not expire changes in its pre-game timer alone, and the post-game timer never changes |
| SnakeGame.PostGameKeepsSettled | src/main.rs:424-448 | the post-game system keeps the invariant and moves the stage at most one step |
| SnakeGame.PostGameEffects | src/main.rs:437-447 | when the post-game timer runs out every segment entity, the food entity and the snake go, the stage is PreGame and the timer is cleared; before that only the timer moves |
| SnakeGame.InputKeepsConsistent | src/main.rs:381-411 | the input system keeps the invariant and touches neither stage nor board |
| SnakeGame.CollisionSettles | src/main.rs:413-422 | the wall check ends the run iff the head is beyond the walls (or it was over already), leaves the board alone and keeps the invariant |
| SnakeGame.MovementIdle | src/main.rs:253-260 | outside Running nothing changes; before the movement timer finishes only its elapsed time grows by delta, while stage, board, food, directions, ids and the other two timers stay |
| SnakeGame.MovementAim | src/main.rs:261-292 | a due move clears the movement timer, commits the direction as the last direction, and aims at a cell that is not the neck |
| SnakeGame.MovementHitsBody | src/main.rs:294-299 | a target on a Body-tagged cell ends the run with board, direction and ids unchanged |
| SnakeGame.MovementEats | src/main.rs:301-338 | a target on the food grows the snake as GrowWellFormed says: the fresh id goes in front of the body list, the old head entity is retagged Body, the cells gain the old food cell in front, the tail entity stays, takes the food's new cell from the free set, and panics exactly when the free set is empty |
| SnakeGame.MovementSlides | src/main.rs:339-373 | any other target slides the snake as SlideWellFormed says, keeping the invariant and the run |
| SnakeGame.MovementKeepsConsistent | src/main.rs:240-379 | every move that does not panic keeps the invariant and moves the stage at most one step |
| SnakeGame.World.constructor | src/main.rs:11-17 | the world starts as the initial state: PreGame, fresh timers, no entities, an empty free set |
| SnakeGame.World.InitFreeLocations | src/main.rs:231-238 | the nested loops leave exactly the initial free set |
| SnakeGame.World.SpawnGameEntities | src/main.rs:124-216 | the new state is the spawn step of the old one |
| SnakeGame.World.DespawnGameEntities | src/main.rs:218-229 | every entity on the list leaves the arena, the food entity goes, and the list goes |
| SnakeGame.World.PreGameSystem | src/main.rs:450-480 | the new state is the pre-game step of the old one |
| SnakeGame.World.PostGameSystem | src/main.rs:424-448 | the new state is the post-game step of the old one |
| SnakeGame.World.HitsBody | src/main.rs:294-299 | the scan finds a hit iff the target is a Body-tagged cell |
| SnakeGame.World.GrowOntoFood | src/main.rs:303-338 | the board becomes the grown board with the next fresh id |
| SnakeGame.World.Advance | src/main.rs:340-373 | the board becomes the slid board |
| SnakeGame.World.SnakeMovementSystem | src/main.rs:240-379 | the new state and the panic flag are the movement step's for some legal draw from the old free set |
| SnakeGame.World.MoveSnake | src/main.rs:263-378 | once the timer has fired, the new state and the panic flag are those of the snake step (hit, eat or slide) for some legal draw from the old free set |
| SnakeGame.World.PlayerInputSystem | src/main.rs:381-411 | the new state is the input step of the old one |
| SnakeGame.World.SnakeCollisionSystem | src/main.rs:413-422 | the new state is the wall-check step of the old one |
| SnakeGame.SnakeFrameStep | src/main.rs:19-21 | the snake systems never touch the pre-game and post-game timers and keep the movement timer valid |
| SnakeGame.World.UpdateSnake | src/main.rs:19-21 | the new state is the movement step, then the input step, then the collision step, for some legal draw; a panicking move stops there; unless it panics the state is settled and the stage moves at most one step |
| SnakeGame.World.UpdatePhases | src/main.rs:22-23 | the new state is the pre-game step followed by the post-game step; it is settled and the stage moves at most one step |
| SnakeGame.World.Frame | src/main.rs:19-23 | the new state is the whole frame's composition in `main`'s order for some legal draw; a frame that does not panic ends settled, the stage at most two steps along the cycle |
| GameStateEvents.Unread | src/plugins/game_state/sys.rs:42 | the unread count is the events past the cursor, and zero exactly at the end of the channel |
| GameStateEvents.Drained | src/plugins/game_state/sys.rs:42 | a reader run through `iter` has nothing left to read |
| GameStateEvents.SendAddsOne | src/plugins/game_state/sys.rs:23 | sending makes every reader see exactly one more event |
| GameStateRes.NewPreGamePhase | src/plugins/game_state/res.rs:11-17 | the given flag and a fresh non-repeating timer of 3 s |
| GameStateRes.NewRunningGamePhase | src/plugins/game_state/res.rs:33-38 | the given flag and no timer |
| GameStateRes.NewPostGamePhase | src/plugins/game_state/res.rs:55-61 | the given flag and a fresh non-repeating timer of 4 s |
| GameStateRes.DefaultListenerState | src/plugins/game_state/res.rs:20-28 | a default listener's reader starts at the beginning of any channel and sees every event |
| GameStateRes.FreshPhaseTimers | src/plugins/game_state/res.rs:4-5 | a fresh pre-game timer finishes once 3 s have passed, a fresh post-game timer once 4 s have |
| GameStateSys.TickPhase | src/plugins/game_state/sys.rs:16-32 | an inactive phase is left alone; Start is sent iff the phase is active, elapsed is 0 and delta is not; End is sent iff the tick reaches the duration, and then the timer is cleared and the phase switched off |
| GameStateSys.InactivePhaseIsSilent | src/plugins/game_state/sys.rs:16-18 | over any frames, zero deltas included, an inactive phase stays as it is and sends nothing |
| GameStateSys.StartedPhaseEndsOnce | src/plugins/game_state/sys.rs:22-32 | over any frames, zero deltas included, a started phase sends no Start, and one End iff the time left passes, staying active until then |
| GameStateSys.FreshPhaseStartsAndEndsOnce | src/plugins/game_state/sys.rs:20-32 | over any frames, a fresh active phase sends one Start iff some time passes (zero-delta frames send none), and one End iff its duration passes, staying active until then |
| GameStateSys.PhaseMachine.constructor | src/plugins/game_state/mod.rs:17-25 | PreGame active, Running and PostGame inactive, empty channels, default listeners; a single owner |
| GameStateSys.PhaseMachine.PreGameSystem | src/plugins/game_state/sys.rs:10-33 | phase and channels change as the phase tick says; a single owner stays single |
| GameStateSys.PhaseMachine.PostGameSystem | src/plugins/game_state/sys.rs:66-89 | phase and channels change as the phase tick says; a single owner stays single |
| GameStateSys.PhaseMachine.PreToRunTransitionSystem | src/plugins/game_state/sys.rs:36-46 | with k unread PreGameEnd events, Running is on iff it was or k > 0, exactly k RunningGameStart events are sent, and its cursor is at the end while no other listener's cursor moves; with no unread event nothing changes |
| GameStateSys.PhaseMachine.RunToPostTransitionSystem | src/plugins/game_state/sys.rs:48-58 | an unread RunningGameEnd switches Running off and PostGame on without touching its timer; with none nothing changes; only its own cursor moves, to the end |
| GameStateSys.PhaseMachine.PostToPreTransitionSystem | src/plugins/game_state/sys.rs:91-99 | an unread PostGameEnd switches PreGame on without touching its timer; with none nothing changes; only its own cursor moves, to the end |
| GameStateSys.PhaseMachine.SendRunningGameEnd | src/plugins/game_state/events.rs:10-13 | the event is appended; sent while Running is on, the single owner is kept |
| GameStateSys.PhaseMachine.Update | src/plugins/game_state/mod.rs:26-30 | the five systems in registration order keep a single owner, and then exactly one phase is active |

## Left out

- Rendering is not modelled: the camera, walls, sprites, materials,
  `Translation` and the `f32` pixel arithmetic are presentation only. So
  are `println!` and `debug_food_sprite_system`.
- The app wiring in `main` is reduced to the initial resources
  (`World.constructor`) and the system order (`World.Frame`). The
  plugin's registration is reduced to its initial flags
  (`PhaseMachine.constructor`) and its system order
  (`PhaseMachine.Update`).
- `src/comp/snake.rs` is not part of this model. It only repeats type
  declarations of `main.rs`.
- `src/plugins/game_state/events.rs` holds unit marker types only. Here
  they are the datatype `EventKind`.
- The engine's I/O is left out:
  - the clock becomes a `delta` parameter, with `delta >= 0` required;
  - the keyboard becomes the set of directions just pressed;
  - `KeyBinds` is fixed to the arrow keys.
- The Bevy `Timer` and `Events` types are not part of this model; their
  behaviour is modelled as follows.
  - Time is `real` in place of `f32`, so rounding is not modelled.
  - Tick saturates at the duration. `finished` latches and `reset` clears it.
  - The double buffering that drops events after two frames is not
    modelled.
- Coordinates are `i32` in the source and unbounded integers here. They
  stay within a few cells of the origin, so no wrap-around can happen.
- Randomness and `HashSet` order are not modelled. `get_random_location`
  picks some member of the free set. All scans over entities visit them in
  an order the model does not fix.
- Deferred `Commands` are applied at once. The new tail's retag checks the
  marker it had when the frame began, as the body query in the source
  sees it. The wall check then sees the new head in the same frame.
  Because the marker changes wait for the end of the stage in the engine,
  the source notices a move beyond the walls one frame later.
- The `gen_range(0, 0)` panic on an empty free set is the `panicked`
  result. The frame stops there.
- Only one snake is modelled. `SpawnStep` replaces the body list, while
  the source would add a second snake entity. The invariant shows this
  cannot happen: in PreGame the snake exists exactly when the pre-game
  timer has started, and spawning needs an unstarted timer.
- The loops over single-entity queries are read directly, not looped:
  - the snake, Head, Tail and food loops of the movement system
    (src/main.rs:263-265, 301);
  - the retag loop over the body query (src/main.rs:364-373), which is
    `if newTailWasBody` in `World.Advance`;
  - the food × snake loops of `post_game_system` (src/main.rs:440-441);
  - the snake loop of `player_input_system` (src/main.rs:385), which is a
    check that the body list is not empty.
  On a `Settled` state each of these queries sees exactly one entity, or
  none with no snake (`SnakeBoard.MarkersUnique` and the food/snake clause
  of `Settled`), so one read agrees with the loop. States with several
  snakes or several foods are not modelled.
- The three Start listener-state records exist but no system reads them.
  `PhaseMachine` holds them untouched.
- The plugin itself never sends `RunningGameEnd` (events.rs:10-13). It is
  the input method `PhaseMachine.SendRunningGameEnd`. `Owners()` counts as
  single only when that event is sent while Running is on.
- `init_free_locations` (src/main.rs:233-234) leaves out the column
  x = 3 and the row y = 3, which the wall check (src/main.rs:418) still
  treats as inside. So the free set, the snake and the food do not cover
  the grid: `WellFormed` claims only that they are disjoint, and
  `Grid.WallAsymmetry` states the gap.
- `World.Frame` runs the systems in the order `main` adds them
  (src/main.rs:19-23): movement, input, wall check, pre-game, post-game.
