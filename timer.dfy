/** The one-shot timer the game's systems tick every frame. The engine's
    timer type is a library; this is the behaviour the game relies on:
    `elapsed` counts up by the frame delta and saturates at `duration`,
    `finished` latches once the duration is reached and `reset` clears both. */
module Timers {

  datatype Timer = Timer(elapsed: real, duration: real, finished: bool)

  /** The shape every timer keeps between calls. */
  predicate TimerValid(t: Timer) {
    0.0 < t.duration && 0.0 <= t.elapsed <= t.duration && (t.finished <==> t.elapsed == t.duration)
  }

  /** A fresh non-repeating timer of `seconds`. */
  function FromSeconds(seconds: real): (t: Timer)
    requires seconds > 0.0
    ensures TimerValid(t) && t.duration == seconds
    ensures t.elapsed == 0.0 && !t.finished
  {
    Timer(0.0, seconds, false)
  }

  /** Advance by a frame delta. */
  function Tick(t: Timer, delta: real): (r: Timer)
    requires TimerValid(t) && delta >= 0.0
    ensures TimerValid(r) && r.duration == t.duration
    ensures r.finished <==> t.elapsed + delta >= t.duration
    ensures r.finished ==> r.elapsed == t.duration
    ensures !r.finished ==> r.elapsed == t.elapsed + delta
    ensures delta > 0.0 ==> r.elapsed > 0.0
  {
    var e := if t.elapsed + delta < t.duration then t.elapsed + delta else t.duration;
    Timer(e, t.duration, t.finished || e >= t.duration)
  }

  /** Back to zero, not finished; the duration is kept. */
  function Reset(t: Timer): (r: Timer)
    requires TimerValid(t)
    ensures TimerValid(r) && r.duration == t.duration
    ensures r.elapsed == 0.0 && !r.finished
  {
    Timer(0.0, t.duration, false)
  }

  function Sum(deltas: seq<real>): real {
    if deltas == [] then 0.0 else deltas[0] + Sum(deltas[1..])
  }

  predicate NonNegative(deltas: seq<real>) {
    forall i :: 0 <= i < |deltas| ==> deltas[i] >= 0.0
  }

  /** The timer after one tick per frame delta. */
  function TickAll(t: Timer, deltas: seq<real>): Timer
    requires TimerValid(t) && NonNegative(deltas)
    decreases |deltas|
  {
    if deltas == [] then t else TickAll(Tick(t, deltas[0]), deltas[1..])
  }

  /** A run of frames finishes the timer exactly when the deltas add up to
      the time that was left; until then `elapsed` is the running total. */
  lemma {:induction false} TickAllElapsed(t: Timer, deltas: seq<real>)
    requires TimerValid(t) && NonNegative(deltas)
    ensures TimerValid(TickAll(t, deltas)) && TickAll(t, deltas).duration == t.duration
    ensures TickAll(t, deltas).finished <==> t.elapsed + Sum(deltas) >= t.duration
    ensures !TickAll(t, deltas).finished ==> TickAll(t, deltas).elapsed == t.elapsed + Sum(deltas)
    decreases |deltas|
  {
    if deltas != [] {
      var rest := deltas[1..];
      assert NonNegative(rest) by {
        forall i | 0 <= i < |rest| ensures rest[i] >= 0.0 {
          assert rest[i] == deltas[i + 1];
        }
      }
      SumNonNegative(rest);
      TickAllElapsed(Tick(t, deltas[0]), rest);
    }
  }

  lemma {:induction false} SumNonNegative(deltas: seq<real>)
    requires NonNegative(deltas)
    ensures Sum(deltas) >= 0.0
    decreases |deltas|
  {
    if deltas != [] {
      var rest := deltas[1..];
      assert NonNegative(rest) by {
        forall i | 0 <= i < |rest| ensures rest[i] >= 0.0 {
          assert rest[i] == deltas[i + 1];
        }
      }
      SumNonNegative(rest);
    }
  }
}
