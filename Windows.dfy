/**
 Tumbling event-time windows as the windowed query groups by them:
 `window(datetime, windowDuration = 15 seconds, slideDuration = 15 seconds)`.
 Times are whole seconds since the epoch. Since duration and slide are equal,
 the windows are the half-open intervals `[start, start + 15)` with `start`
 a multiple of 15, and each event time lies in exactly one of them.
 */
module Windows {

  /** Window duration and slide, in seconds. */
  const WINDOW_SECONDS: int := 15

  /** A half-open window `[start, end)`. */
  datatype Window = Window(start: int, end: int)

  /** A window that the grouping can produce: aligned to a multiple of the duration, of that length. */
  predicate IsTumbling(w: Window)
  {
    w.start % WINDOW_SECONDS == 0 && w.end == w.start + WINDOW_SECONDS
  }

  predicate Contains(w: Window, t: int)
  {
    w.start <= t < w.end
  }

  /**
   The window an event at time `t` is assigned to. The start is `t` rounded
   down to a multiple of the duration (a floor, also for times before the
   epoch; Dafny's `%` never returns a negative remainder).
   */
  function WindowOf(t: int): (w: Window)
    ensures IsTumbling(w) && Contains(w, t)
  {
    var start := t - t % WINDOW_SECONDS;
    Window(start, start + WINDOW_SECONDS)
  }

  /** An aligned window contains `t` exactly when it is the window `t` is assigned to. */
  lemma WindowOfUnique(w: Window, t: int)
    requires IsTumbling(w)
    ensures Contains(w, t) <==> w == WindowOf(t)
  {
    if Contains(w, t) {
      var q := w.start / WINDOW_SECONDS;
      assert w.start == WINDOW_SECONDS * q;
      var r := t - w.start;
      assert 0 <= r < WINDOW_SECONDS;
      assert t == WINDOW_SECONDS * q + r;
      assert t % WINDOW_SECONDS == r;
    }
  }

  /** An event never falls into the window before or the window after its own. */
  lemma NotInAdjacentWindow(t: int)
    ensures !Contains(Window(WindowOf(t).start - WINDOW_SECONDS, WindowOf(t).start), t)
    ensures !Contains(Window(WindowOf(t).end, WindowOf(t).end + WINDOW_SECONDS), t)
  {
  }
}
