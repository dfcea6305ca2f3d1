/** The six game-state event kinds and the engine's event channel with
    per-listener read cursors, as the game-state plugin uses them. */
module GameStateEvents {

  /** One marker type per lifecycle moment of the three phases. */
  datatype EventKind =
    | PreGameStart | PreGameEnd
    | RunningGameStart | RunningGameEnd
    | PostGameStart | PostGameEnd

  /** A listener's position in a channel: the number of events it has seen. */
  datatype EventReader = EventReader(lastEventCount: nat)

  /** A channel of one kind holds only events of that kind. */
  predicate OfKind(channel: seq<EventKind>, kind: EventKind) {
    forall i :: 0 <= i < |channel| ==> channel[i] == kind
  }

  /** The reader has not run past the end of the channel. */
  predicate ReaderIn(r: EventReader, channel: seq<EventKind>) {
    r.lastEventCount <= |channel|
  }

  /** How many events of the channel the reader has not seen yet. */
  function Unread(r: EventReader, channel: seq<EventKind>): (k: nat)
    requires ReaderIn(r, channel)
    ensures k == 0 <==> r.lastEventCount == |channel|
    ensures r.lastEventCount + k == |channel|
  {
    |channel| - r.lastEventCount
  }

  /** `n` copies of one event. */
  function Repeat(kind: EventKind, n: nat): (s: seq<EventKind>)
    ensures |s| == n && OfKind(s, kind)
  {
    seq(n, _ => kind)
  }

  /** Receiving on a channel leaves the reader at its end. */
  function Drained(channel: seq<EventKind>): (r: EventReader)
    ensures ReaderIn(r, channel) && Unread(r, channel) == 0
  {
    EventReader(|channel|)
  }

  /** Sending appends one event, so every reader sees exactly one more. */
  lemma SendAddsOne(r: EventReader, channel: seq<EventKind>, e: EventKind)
    requires ReaderIn(r, channel)
    ensures ReaderIn(r, channel + [e]) && Unread(r, channel + [e]) == Unread(r, channel) + 1
  {
  }

  /** One more repetition is one more event at the end. */
  lemma RepeatSnoc(kind: EventKind, n: nat)
    ensures Repeat(kind, n + 1) == Repeat(kind, n) + [kind]
  {
    assert Repeat(kind, n + 1)[..n] == Repeat(kind, n);
  }
}
