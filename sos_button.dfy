/** The hold-to-activate SOS button: pressing starts a progress ring that
    fills over two seconds; holding until it is full activates the alarm,
    releasing earlier resets it. */
module SosButton {
  import opened Common

  const HoldDurationMs := 2000

  /** `Math.min((elapsed / holdDuration) * 100, 100)`. */
  function Progress(elapsed: int): (r: real)
    ensures r <= 100.0
    ensures r >= 100.0 <==> elapsed >= HoldDurationMs
    ensures elapsed >= 0 ==> r >= 0.0
  {
    var p := (elapsed as real / HoldDurationMs as real) * 100.0;
    if p < 100.0 then p else 100.0
  }

  /** Holding longer never shows less progress. */
  lemma ProgressIsMonotone(e1: int, e2: int)
    requires e1 <= e2
    ensures Progress(e1) <= Progress(e2)
  {
    assert (e1 as real / HoldDurationMs as real) <= (e2 as real / HoldDurationMs as real);
  }

  /** `clearInterval(progressInterval.current)` behind its truthiness test:
      the latest handle stops, any other running interval goes on. */
  function Cleared(intervals: map<nat, int>, current: Option<nat>): (r: map<nat, int>)
    ensures current.None? ==> r == intervals
    ensures current.Some? ==> current.value !in r && forall h :: h in intervals && h != current.value ==> h in r && r[h] == intervals[h]
    ensures r.Keys <= intervals.Keys
  {
    if current.Some? then intervals - {current.value} else intervals
  }

  class Button {
    var pressed: bool
    var progress: real
    var activated: bool
    /** The running 16 ms intervals, by handle, with the start time of the
        press that created each. */
    var intervals: map<nat, int>
    /** `progressInterval.current`: the handle of the latest interval. */
    var current: Option<nat>
    /** The handle the next `setInterval` returns; handles are positive. */
    var nextHandle: nat
    var activations: nat
    var cancels: nat

    ghost predicate Valid()
      reads this
    {
      progress <= 100.0 && nextHandle > 0 &&
      (forall h :: h in intervals ==> 0 < h < nextHandle) &&
      (current.Some? ==> 0 < current.value < nextHandle)
    }

    constructor ()
      ensures Valid() && !pressed && progress == 0.0 && !activated
      ensures intervals == map[] && current.None?
      ensures activations == 0 && cancels == 0
    {
      pressed, progress, activated := false, 0.0, false;
      intervals, current, nextHandle := map[], None, 1;
      activations, cancels := 0, 0;
    }

    /** Press and release handlers are attached only while not activated. */
    predicate HandlersAttached()
      reads this
    {
      !activated
    }

    /** Whether the latest interval is still running. */
    predicate Ticking()
      reads this
    {
      current.Some? && current.value in intervals
    }

    /** `startPress`: a new interval starts and becomes the latest; an
        interval already running is not stopped and keeps ticking. */
    method Press(now: int)
      requires Valid() && HandlersAttached()
      modifies this`pressed, this`progress, this`intervals, this`current, this`nextHandle
      ensures Valid() && pressed && progress == 0.0 && Ticking()
      ensures current == Some(old(nextHandle)) && nextHandle == old(nextHandle) + 1
      ensures intervals == old(intervals)[old(nextHandle) := now]
    {
      pressed, progress := true, 0.0;
      intervals := intervals[nextHandle := now];
      current := Some(nextHandle);
      nextHandle := nextHandle + 1;
    }

    /** One tick of the running interval `h`: the ring shows the time since
        that interval's press; when full, the latest interval is cleared and
        the alarm fires. An interval other than the latest is not cleared
        and fires again on its next tick. */
    method Tick(h: nat, now: int)
      requires Valid() && h in intervals
      modifies this`progress, this`intervals, this`activated, this`activations
      ensures Valid() && progress == Progress(now - old(intervals)[h])
      ensures now - old(intervals)[h] >= HoldDurationMs ==>
        activated && activations == old(activations) + 1 && intervals == Cleared(old(intervals), current)
      ensures now - old(intervals)[h] < HoldDurationMs ==>
        activated == old(activated) && activations == old(activations) && intervals == old(intervals)
    {
      progress := Progress(now - intervals[h]);
      if progress >= 100.0 {
        intervals := Cleared(intervals, current);
        activated := true;
        activations := activations + 1;
      }
    }

    /** `endPress`, attached only while the button is not activated: stops
        the latest interval and empties the ring. */
    method Release()
      requires Valid() && HandlersAttached()
      modifies this`pressed, this`progress, this`intervals
      ensures Valid() && !pressed && !Ticking() && intervals == Cleared(old(intervals), current)
      ensures progress == 0.0
    {
      intervals := Cleared(intervals, current);
      pressed := false;
      if !activated {
        progress := 0.0;
      }
    }

    /** `handleCancel`. */
    method Cancel()
      requires Valid()
      modifies this`activated, this`progress, this`cancels
      ensures Valid() && !activated && progress == 0.0 && cancels == old(cancels) + 1
    {
      activated := false;
      progress := 0.0;
      cancels := cancels + 1;
    }
  }

  /** Pressing and then holding for the full two seconds activates the
      button and fires the alarm once; its own interval stops, and only
      intervals that were already running go on. */
  method HoldToActivate(b: Button, pressedAt: int, tickAt: int)
    requires b.Valid() && b.HandlersAttached() && tickAt - pressedAt >= HoldDurationMs
    modifies b
    ensures b.Valid() && b.activated && b.progress == 100.0 && b.activations == old(b.activations) + 1
    ensures b.intervals == old(b.intervals) && !b.Ticking()
  {
    b.Press(pressedAt);
    b.Tick(b.current.value, tickAt);
  }

  /** Two presses without a release in between (a second touch) and then a
      release leave the first interval running, and once its two seconds
      are up every tick of it fires the alarm again. */
  method SecondPressLeavesFirstInterval(b: Button, t1: int, t2: int, late: int)
    requires b.Valid() && b.HandlersAttached() && b.intervals == map[] && late - t1 >= HoldDurationMs
    modifies b
    ensures b.activated && b.activations == old(b.activations) + 2
    ensures old(b.nextHandle) in b.intervals && !b.Ticking()
  {
    var first := b.nextHandle;
    b.Press(t1);
    b.Press(t2);
    b.Release();
    b.Tick(first, late);
    b.Tick(first, late + 16);
  }
}
