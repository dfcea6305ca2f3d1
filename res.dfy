/** The resources of the game-state plugin: the three phase records and the
    listener-state records that hold each transition's event reader. */
module GameStateRes {
  import opened Timers
  import opened GameStateEvents

  /** Seconds the pre-game and post-game phases last. */
  const PRE_GAME_DURATION: real := 3.0
  const POST_GAME_DURATION: real := 4.0

  datatype PreGamePhase = PreGamePhase(active: bool, timer: Timer)

  /** A running phase has no timer: it ends only through an event. */
  datatype RunningGamePhase = RunningGamePhase(active: bool)

  datatype PostGamePhase = PostGamePhase(active: bool, timer: Timer)

  /** The state of one listener: its own reader into one channel. */
  datatype ListenerState = ListenerState(eventReader: EventReader)

  /** `PreGamePhase::new`: the given flag and a fresh, non-repeating timer
      of PRE_GAME_DURATION seconds. */
  function NewPreGamePhase(active: bool): (p: PreGamePhase)
    ensures p.active == active
    ensures TimerValid(p.timer) && p.timer.duration == PRE_GAME_DURATION
    ensures p.timer.elapsed == 0.0 && !p.timer.finished
  {
    PreGamePhase(active, FromSeconds(PRE_GAME_DURATION))
  }

  /** `RunningGamePhase::new`: just the flag. */
  function NewRunningGamePhase(active: bool): (p: RunningGamePhase)
    ensures p.active == active
  {
    RunningGamePhase(active)
  }

  /** `PostGamePhase::new`: the given flag and a fresh, non-repeating timer
      of POST_GAME_DURATION seconds. */
  function NewPostGamePhase(active: bool): (p: PostGamePhase)
    ensures p.active == active
    ensures TimerValid(p.timer) && p.timer.duration == POST_GAME_DURATION
    ensures p.timer.elapsed == 0.0 && !p.timer.finished
  {
    PostGamePhase(active, FromSeconds(POST_GAME_DURATION))
  }

  /** The derived `Default` of every listener-state record: a reader at the
      start of its channel, so it will see every event sent. */
  function DefaultListenerState(): (l: ListenerState)
    ensures forall channel :: ReaderIn(l.eventReader, channel) && Unread(l.eventReader, channel) == |channel|
  {
    ListenerState(EventReader(0))
  }

  /** A fresh phase timer finishes exactly once the frame deltas add up to
      its duration: after the pre-game phase's 3 seconds, the post-game
      phase's 4. */
  lemma FreshPhaseTimers(deltas: seq<real>)
    requires NonNegative(deltas)
    ensures TickAll(NewPreGamePhase(true).timer, deltas).finished <==> Sum(deltas) >= PRE_GAME_DURATION
    ensures TickAll(NewPostGamePhase(true).timer, deltas).finished <==> Sum(deltas) >= POST_GAME_DURATION
  {
    TickAllElapsed(NewPreGamePhase(true).timer, deltas);
    TickAllElapsed(NewPostGamePhase(true).timer, deltas);
  }
}
