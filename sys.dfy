/** The systems of the game-state plugin: two phase systems that tick a
    timer and send Start and End events, and three transition listeners
    that read End events through their own cursor and switch phases on. */
module GameStateSys {
  import opened Timers
  import opened GameStateEvents
  import opened GameStateRes

  /** What one run of a timed phase system leaves behind: the phase's new
      flag and timer, and whether it sent its Start and its End event. */
  datatype PhaseTick = PhaseTick(active: bool, timer: Timer, startSent: bool, endSent: bool)

  /** The common body of the plugin's `pre_game_system` and
      `post_game_system` on one phase. */
  function TickPhase(active: bool, timer: Timer, delta: real): (r: PhaseTick)
    requires TimerValid(timer) && delta >= 0.0
    ensures TimerValid(r.timer) && r.timer.duration == timer.duration
    ensures !active ==> r == PhaseTick(active, timer, false, false)
    ensures r.startSent <==> active && timer.elapsed == 0.0 && delta != 0.0
    ensures r.endSent <==> active && timer.elapsed + delta >= timer.duration
    ensures r.endSent ==> !r.active && r.timer.elapsed == 0.0 && !r.timer.finished
    ensures active && !r.endSent ==> r.active && r.timer.elapsed == timer.elapsed + delta
  {
    if !active then PhaseTick(active, timer, false, false)
    else
      var start := timer.elapsed == 0.0 && delta != 0.0;
      var t := Tick(timer, delta);
      if t.finished then PhaseTick(false, Reset(t), start, true)
      else PhaseTick(true, t, start, false)
  }

  /** A phase, its timer and the events it sent over a run of frames. */
  datatype PhaseRun = PhaseRun(active: bool, timer: Timer, starts: nat, ends: nat)

  function RunPhase(active: bool, timer: Timer, deltas: seq<real>): PhaseRun
    requires TimerValid(timer) && NonNegative(deltas)
    decreases |deltas|
  {
    if deltas == [] then PhaseRun(active, timer, 0, 0)
    else
      NonNegativeTail(deltas);
      var r := TickPhase(active, timer, deltas[0]);
      var rest := RunPhase(r.active, r.timer, deltas[1..]);
      PhaseRun(rest.active, rest.timer,
               rest.starts + (if r.startSent then 1 else 0),
               rest.ends + (if r.endSent then 1 else 0))
  }

  lemma NonNegativeTail(deltas: seq<real>)
    requires NonNegative(deltas) && deltas != []
    ensures NonNegative(deltas[1..]) && deltas[0] >= 0.0
  {
    forall i | 0 <= i < |deltas| - 1 ensures deltas[1..][i] >= 0.0 {
      assert deltas[1..][i] == deltas[i + 1];
    }
  }

  /** An inactive phase stays as it is and sends nothing. */
  lemma {:induction false} InactivePhaseIsSilent(timer: Timer, deltas: seq<real>)
    requires TimerValid(timer) && NonNegative(deltas)
    ensures RunPhase(false, timer, deltas) == PhaseRun(false, timer, 0, 0)
    decreases |deltas|
  {
    if deltas != [] {
      NonNegativeTail(deltas);
      InactivePhaseIsSilent(timer, deltas[1..]);
    }
  }

  /** A phase whose timer has started sends no more Start events, and sends
      its one End event exactly when the time left has passed. */
  lemma {:induction false} StartedPhaseEndsOnce(timer: Timer, deltas: seq<real>)
    requires TimerValid(timer) && NonNegative(deltas)
    requires 0.0 < timer.elapsed < timer.duration
    ensures RunPhase(true, timer, deltas).starts == 0
    ensures RunPhase(true, timer, deltas).ends == if timer.elapsed + Sum(deltas) >= timer.duration then 1 else 0
    ensures RunPhase(true, timer, deltas).active <==> timer.elapsed + Sum(deltas) < timer.duration
    decreases |deltas|
  {
    if deltas != [] {
      NonNegativeTail(deltas);
      SumNonNegative(deltas[1..]);
      var r := TickPhase(true, timer, deltas[0]);
      if r.endSent {
        InactivePhaseIsSilent(r.timer, deltas[1..]);
      } else {
        StartedPhaseEndsOnce(r.timer, deltas[1..]);
      }
    }
  }

  /** Over any run of frames, a freshly activated phase sends exactly one
      Start event once time has passed at all (frames with a zero delta
      send nothing), and exactly one End event once its duration has
      passed; until then it stays active. */
  lemma {:induction false} FreshPhaseStartsAndEndsOnce(timer: Timer, deltas: seq<real>)
    requires TimerValid(timer) && timer.elapsed == 0.0 && NonNegative(deltas)
    ensures RunPhase(true, timer, deltas).starts == if Sum(deltas) > 0.0 then 1 else 0
    ensures RunPhase(true, timer, deltas).ends == if Sum(deltas) >= timer.duration then 1 else 0
    ensures RunPhase(true, timer, deltas).active <==> Sum(deltas) < timer.duration
    decreases |deltas|
  {
    if deltas != [] {
      NonNegativeTail(deltas);
      SumNonNegative(deltas[1..]);
      var r := TickPhase(true, timer, deltas[0]);
      if deltas[0] == 0.0 {
        FreshPhaseStartsAndEndsOnce(r.timer, deltas[1..]);
      } else if r.endSent {
        InactivePhaseIsSilent(r.timer, deltas[1..]);
      } else {
        StartedPhaseEndsOnce(r.timer, deltas[1..]);
      }
    }
  }

  /** The plugin's resources: the three phases, the six event channels and
      the six listener states. */
  class PhaseMachine {
    var pre: PreGamePhase
    var running: RunningGamePhase
    var post: PostGamePhase
    var preGameStartEvents: seq<EventKind>
    var preGameEndEvents: seq<EventKind>
    var runningGameStartEvents: seq<EventKind>
    var runningGameEndEvents: seq<EventKind>
    var postGameStartEvents: seq<EventKind>
    var postGameEndEvents: seq<EventKind>
    var preGameStartListener: ListenerState
    var preGameEndListener: ListenerState
    var runningGameStartListener: ListenerState
    var runningGameEndListener: ListenerState
    var postGameStartListener: ListenerState
    var postGameEndListener: ListenerState

    /** Timers keep their durations and are cleared while their phase is
        off; every channel holds only its own kind; every reader is within
        its channel. */
    ghost predicate Valid()
      reads this
    {
      && TimerValid(pre.timer) && pre.timer.duration == PRE_GAME_DURATION
      && TimerValid(post.timer) && post.timer.duration == POST_GAME_DURATION
      && (!pre.active ==> pre.timer.elapsed == 0.0)
      && (!post.active ==> post.timer.elapsed == 0.0)
      && OfKind(preGameStartEvents, PreGameStart) && OfKind(preGameEndEvents, PreGameEnd)
      && OfKind(runningGameStartEvents, RunningGameStart) && OfKind(runningGameEndEvents, RunningGameEnd)
      && OfKind(postGameStartEvents, PostGameStart) && OfKind(postGameEndEvents, PostGameEnd)
      && ReaderIn(preGameStartListener.eventReader, preGameStartEvents)
      && ReaderIn(preGameEndListener.eventReader, preGameEndEvents)
      && ReaderIn(runningGameStartListener.eventReader, runningGameStartEvents)
      && ReaderIn(runningGameEndListener.eventReader, runningGameEndEvents)
      && ReaderIn(postGameStartListener.eventReader, postGameStartEvents)
      && ReaderIn(postGameEndListener.eventReader, postGameEndEvents)
    }

    /** Who holds the game: an active phase, or an End event its successor
        has not read yet. Running and its unread End events count once. */
    ghost function Owners(): nat
      reads this
      requires Valid()
    {
      (if pre.active then 1 else 0)
      + Unread(preGameEndListener.eventReader, preGameEndEvents)
      + (if running.active || Unread(runningGameEndListener.eventReader, runningGameEndEvents) > 0 then 1 else 0)
      + (if post.active then 1 else 0)
      + Unread(postGameEndListener.eventReader, postGameEndEvents)
    }

    ghost predicate AtMostOneActive()
      reads this
    {
      (if pre.active then 1 else 0) + (if running.active then 1 else 0) + (if post.active then 1 else 0) <= 1
    }

    ghost predicate ExactlyOneActive()
      reads this
    {
      (if pre.active then 1 else 0) + (if running.active then 1 else 0) + (if post.active then 1 else 0) == 1
    }

    /** The resources the plugin installs: PreGame active, Running and
        PostGame not, empty channels and readers at their start. */
    constructor()
      ensures Valid() && Owners() == 1 && AtMostOneActive()
      ensures pre == NewPreGamePhase(true) && running == NewRunningGamePhase(false) && post == NewPostGamePhase(false)
      ensures preGameStartEvents == [] && preGameEndEvents == [] && runningGameStartEvents == []
      ensures runningGameEndEvents == [] && postGameStartEvents == [] && postGameEndEvents == []
      ensures preGameStartListener == DefaultListenerState() && preGameEndListener == DefaultListenerState()
      ensures runningGameStartListener == DefaultListenerState() && runningGameEndListener == DefaultListenerState()
      ensures postGameStartListener == DefaultListenerState() && postGameEndListener == DefaultListenerState()
    {
      preGameStartEvents, preGameEndEvents := [], [];
      runningGameStartEvents, runningGameEndEvents := [], [];
      postGameStartEvents, postGameEndEvents := [], [];
      preGameStartListener, preGameEndListener := DefaultListenerState(), DefaultListenerState();
      runningGameStartListener, runningGameEndListener := DefaultListenerState(), DefaultListenerState();
      postGameStartListener, postGameEndListener := DefaultListenerState(), DefaultListenerState();
      pre := NewPreGamePhase(true);
      running := NewRunningGamePhase(false);
      post := NewPostGamePhase(false);
    }

    /** `pre_game_system` of the plugin. */
    method PreGameSystem(delta: real)
      requires Valid() && delta >= 0.0
      modifies this`pre, this`preGameStartEvents, this`preGameEndEvents
      ensures Valid()
      ensures var r := TickPhase(old(pre.active), old(pre.timer), delta);
              && pre == PreGamePhase(r.active, r.timer)
              && preGameStartEvents == old(preGameStartEvents) + (if r.startSent then [PreGameStart] else [])
              && preGameEndEvents == old(preGameEndEvents) + (if r.endSent then [PreGameEnd] else [])
      ensures old(Owners()) == 1 ==> Owners() == 1
    {
      if !pre.active {
        return;
      }
      if pre.timer.elapsed == 0.0 && delta != 0.0 {
        preGameStartEvents := preGameStartEvents + [PreGameStart];
      }
      var timer := Tick(pre.timer, delta);
      if timer.finished {
        pre := PreGamePhase(false, Reset(timer));
        preGameEndEvents := preGameEndEvents + [PreGameEnd];
      } else {
        pre := pre.(timer := timer);
      }
    }

    /** `post_game_system` of the plugin. */
    method PostGameSystem(delta: real)
      requires Valid() && delta >= 0.0
      modifies this`post, this`postGameStartEvents, this`postGameEndEvents
      ensures Valid()
      ensures var r := TickPhase(old(post.active), old(post.timer), delta);
              && post == PostGamePhase(r.active, r.timer)
              && postGameStartEvents == old(postGameStartEvents) + (if r.startSent then [PostGameStart] else [])
              && postGameEndEvents == old(postGameEndEvents) + (if r.endSent then [PostGameEnd] else [])
      ensures old(Owners()) == 1 ==> Owners() == 1
    {
      if !post.active {
        return;
      }
      if post.timer.elapsed == 0.0 && delta != 0.0 {
        postGameStartEvents := postGameStartEvents + [PostGameStart];
      }
      var timer := Tick(post.timer, delta);
      if timer.finished {
        post := PostGamePhase(false, Reset(timer));
        postGameEndEvents := postGameEndEvents + [PostGameEnd];
      } else {
        post := post.(timer := timer);
      }
    }

    /** `pre_to_run_transition_system`: for each PreGameEnd event not read
        yet, Running is switched on and one RunningGameStart is sent. */
    method PreToRunTransitionSystem()
      requires Valid()
      modifies this`preGameEndListener, this`running, this`runningGameStartEvents
      ensures Valid()
      ensures var k := old(Unread(preGameEndListener.eventReader, preGameEndEvents));
              && running.active == (old(running.active) || k > 0)
              && runningGameStartEvents == old(runningGameStartEvents) + Repeat(RunningGameStart, k)
      ensures preGameEndListener.eventReader == Drained(preGameEndEvents)
      ensures old(Owners()) == 1 ==> Owners() == 1
    {
      var from, count := preGameEndListener.eventReader.lastEventCount, |preGameEndEvents|;
      for i := from to count
        invariant running.active == (old(running.active) || i > from)
        invariant runningGameStartEvents == old(runningGameStartEvents) + Repeat(RunningGameStart, i - from)
      {
        running := running.(active := true);
        RepeatSnoc(RunningGameStart, i - from);
        runningGameStartEvents := runningGameStartEvents + [RunningGameStart];
      }
      // Reading through `iter` leaves the cursor at the channel's end.
      preGameEndListener := preGameEndListener.(eventReader := EventReader(count));
    }

    /** `run_to_post_transition_system`: for each RunningGameEnd event not
        read yet, Running is switched off and PostGame on. */
    method RunToPostTransitionSystem()
      requires Valid()
      modifies this`runningGameEndListener, this`running, this`post
      ensures Valid()
      ensures var k := old(Unread(runningGameEndListener.eventReader, runningGameEndEvents));
              && (k > 0 ==> !running.active && post.active)
              && (k == 0 ==> running == old(running) && post == old(post))
      ensures post.timer == old(post.timer)
      ensures runningGameEndListener.eventReader == Drained(runningGameEndEvents)
      ensures old(Owners()) == 1 ==> Owners() == 1
    {
      var from, count := runningGameEndListener.eventReader.lastEventCount, |runningGameEndEvents|;
      for i := from to count
        invariant i == from ==> running == old(running) && post == old(post)
        invariant i > from ==> !running.active && post.active
        invariant post.timer == old(post.timer)
      {
        running := running.(active := false);
        post := post.(active := true);
      }
      // Reading through `iter` leaves the cursor at the channel's end.
      runningGameEndListener := runningGameEndListener.(eventReader := EventReader(count));
    }

    /** `post_to_pre_transition_system`: for each PostGameEnd event not read
        yet, PreGame is switched on; its timer is left as it is. */
    method PostToPreTransitionSystem()
      requires Valid()
      modifies this`postGameEndListener, this`pre
      ensures Valid()
      ensures var k := old(Unread(postGameEndListener.eventReader, postGameEndEvents));
              && (k > 0 ==> pre.active)
              && (k == 0 ==> pre == old(pre))
      ensures pre.timer == old(pre.timer)
      ensures postGameEndListener.eventReader == Drained(postGameEndEvents)
      ensures old(Owners()) == 1 ==> Owners() == 1
    {
      var from, count := postGameEndListener.eventReader.lastEventCount, |postGameEndEvents|;
      for i := from to count
        invariant i == from ==> pre == old(pre)
        invariant i > from ==> pre.active
        invariant pre.timer == old(pre.timer)
      {
        pre := pre.(active := true);
      }
      // Reading through `iter` leaves the cursor at the channel's end.
      postGameEndListener := postGameEndListener.(eventReader := EventReader(count));
    }

    /** The game logic ending a run. Nothing in the plugin sends this event;
        it is an input of the model. Sent while Running is on, it keeps the
        single owner. */
    method SendRunningGameEnd()
      requires Valid()
      modifies this`runningGameEndEvents
      ensures Valid()
      ensures runningGameEndEvents == old(runningGameEndEvents) + [RunningGameEnd]
      ensures old(running.active) && old(Owners()) == 1 ==> Owners() == 1
    {
      SendAddsOne(runningGameEndListener.eventReader, runningGameEndEvents, RunningGameEnd);
      runningGameEndEvents := runningGameEndEvents + [RunningGameEnd];
    }

    /** One frame of the plugin's systems in the order it adds them. With a
        single owner before, there is one after, and since every End event
        has been read, exactly one phase is active. */
    method Update(delta: real)
      requires Valid() && delta >= 0.0
      modifies this
      ensures Valid()
      ensures old(Owners()) == 1 ==> Owners() == 1 && ExactlyOneActive()
    {
      PreGameSystem(delta);
      PostGameSystem(delta);
      PreToRunTransitionSystem();
      RunToPostTransitionSystem();
      PostToPreTransitionSystem();
    }
  }
}
