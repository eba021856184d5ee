/** The `useShakeToAlert` hook: device-motion readings are counted as shakes,
    and enough quick shakes send a silent SOS from the current position. */
module ShakeToAlert {
  import opened Common
  import opened Schema
  import TriggerSos

  /** The handler's own constant: it is both the acceleration (m/s²) a reading
      must exceed and, because it shadows the hook's `shakeThreshold` option,
      the number of shakes that trigger an alert. */
  const Threshold := 15
  const DefaultWindow := 2000
  const AlertDescription := "Shake-to-alert activated"

  /** `event.acceleration`; a missing component reads as 0. */
  datatype Acceleration = Acceleration(x: Option<real>, y: Option<real>, z: Option<real>)

  function Component(v: Option<real>): real {
    if v.Some? then v.value else 0.0
  }

  /** `sqrt(x² + y² + z²) > 15`, compared on the squares. */
  predicate IsStrong(a: Acceleration) {
    var x, y, z := Component(a.x), Component(a.y), Component(a.z);
    x * x + y * y + z * z > (Threshold * Threshold) as real
  }

  /** One strong reading reaching the counter: the new count and whether it
      detected a shake gesture (the count then restarts at 0). */
  function Step(count: nat, last: int, now: int, window: int): (r: (nat, bool))
    ensures r.1 <==> (if now - last > window then 0 else count) + 1 >= Threshold
    ensures r.1 ==> r.0 == 0
    ensures !r.1 ==> r.0 == (if now - last > window then 1 else count + 1) && r.0 < Threshold
  {
    var c := (if now - last > window then 0 else count) + 1;
    if c >= Threshold then (0, true) else (c, false)
  }

  /** The count and the number of detections after strong readings at `times`. */
  function Shakes(count: nat, last: int, window: int, times: seq<int>): (nat, nat)
    decreases |times|
  {
    if times == [] then (count, 0)
    else
      var s := Step(count, last, times[0], window);
      var rest := Shakes(s.0, times[0], window, times[1..]);
      (rest.0, rest.1 + if s.1 then 1 else 0)
  }

  /** Each reading follows the previous one within the window. */
  ghost predicate Quick(last: int, window: int, times: seq<int>) {
    (|times| > 0 ==> times[0] - last <= window) &&
    forall i :: 0 < i < |times| ==> times[i] - times[i - 1] <= window
  }

  /** Every detection takes fifteen strong readings: the readings counted so
      far and fifteen per detection never exceed the readings seen. */
  lemma {:induction false} DetectionNeedsFifteenShakes(count: nat, last: int, window: int, times: seq<int>)
    ensures Shakes(count, last, window, times).0 + Threshold * Shakes(count, last, window, times).1 <=
      count + |times|
    decreases |times|
  {
    if times != [] {
      var s := Step(count, last, times[0], window);
      DetectionNeedsFifteenShakes(s.0, times[0], window, times[1..]);
    }
  }

  /** With quick readings nothing is lost: every fifteenth reading detects. */
  lemma {:induction false} QuickShakesAllCount(count: nat, last: int, window: int, times: seq<int>)
    requires count < Threshold && Quick(last, window, times)
    ensures Shakes(count, last, window, times).0 + Threshold * Shakes(count, last, window, times).1 ==
      count + |times|
    decreases |times|
  {
    if times != [] {
      var s := Step(count, last, times[0], window);
      assert Quick(times[0], window, times[1..]) by {
        if |times| > 1 {
          assert times[1] - times[0] <= window;
        }
        forall i | 0 < i < |times[1..]| ensures times[1..][i] - times[1..][i - 1] <= window {
          assert times[i + 1] - times[i] <= window;
        }
      }
      QuickShakesAllCount(s.0, times[0], window, times[1..]);
    }
  }

  /** The silent SOS the hook sends from a resolved position. */
  function ShakeRequest(lat: real, lng: real): (r: TriggerSos.SosRequest)
    ensures r.kind == Some(Sos) && r.latitude == Some(lat) && r.longitude == Some(lng)
    ensures r.isSilentAlert == Some(true) && r.triggeredByShake == Some(true)
    ensures r.description == Some(AlertDescription) && r.emergencyType == Some("other")
    ensures r.voiceNoteUrl.None? && r.triggeredByCalculator.None? && r.autoContact.None?
  {
    TriggerSos.SosRequest(Some(Sos), Some(lat), Some(lng), Some(AlertDescription), Some("other"),
                          None, Some(true), Some(true), None, None)
  }

  class ShakeDetector {
    const enabled: bool
    const window: int
    var listening: bool
    var count: nat
    var lastShakeTime: int
    var processing: bool
    /** Detections whose `requestLocation()` has not settled yet. */
    var awaitingLocation: nat
    /** Five-second timers armed in `finally` that have not fired yet. */
    var pendingCooldowns: nat
    var detections: nat
    var sent: seq<TriggerSos.SosRequest>

    ghost predicate Valid()
      reads this
    {
      count < Threshold
    }

    /** The hook's options: `enabled` defaults to true in the source, and a
        missing window to 2000 ms. */
    constructor (enabled: bool, window: Option<int>)
      ensures Valid() && this.enabled == enabled
      ensures this.window == (if window.Some? then window.value else DefaultWindow)
      ensures !listening && count == 0 && lastShakeTime == 0 && !processing
      ensures awaitingLocation == 0 && pendingCooldowns == 0
      ensures detections == 0 && sent == []
    {
      this.enabled := enabled;
      this.window := if window.Some? then window.value else DefaultWindow;
      listening, count, lastShakeTime, processing := false, 0, 0, false;
      awaitingLocation, pendingCooldowns := 0, 0;
      detections, sent := 0, [];
    }

    /** The effect: disabled does nothing; where motion access has to be
        requested the listener is added only if it is granted. The user's
        `shake_to_alert_enabled` preference is read but does not gate it. */
    method Install(needsPermission: bool, granted: bool, preferenceEnabled: bool)
      modifies this`listening
      ensures listening == (old(listening) || (enabled && (!needsPermission || granted)))
    {
      if !enabled {
        return;
      }
      if !needsPermission || granted {
        listening := true;
      }
    }

    /** The effect's cleanup. */
    method Uninstall()
      modifies this`listening
      ensures !listening
    {
      listening := false;
    }

    /** The `devicemotion` handler. */
    method OnMotion(acceleration: Option<Acceleration>, now: int)
      requires Valid()
      modifies this
      ensures Valid() && sent == old(sent) && pendingCooldowns == old(pendingCooldowns)
      ensures !old(listening) || old(processing) || acceleration.None? || !IsStrong(acceleration.value) ==>
        count == old(count) && lastShakeTime == old(lastShakeTime) && processing == old(processing) &&
        awaitingLocation == old(awaitingLocation) && detections == old(detections)
      ensures old(listening) && !old(processing) && acceleration.Some? && IsStrong(acceleration.value) ==>
        var s := Step(old(count), old(lastShakeTime), now, window);
        count == s.0 && lastShakeTime == now &&
        processing == s.1 && awaitingLocation == old(awaitingLocation) + (if s.1 then 1 else 0) &&
        detections == old(detections) + (if s.1 then 1 else 0)
      ensures listening == old(listening)
    {
      if !listening || processing || acceleration.None? || !IsStrong(acceleration.value) {
        return;
      }
      var s := Step(count, lastShakeTime, now, window);
      lastShakeTime := now;
      if s.1 {
        processing := true;
        detections := detections + 1;
        awaitingLocation := awaitingLocation + 1;
      }
      count := s.0;
    }

    /** One pending `requestLocation()` settles: without a position the lock
        is released at once, with one the silent SOS is sent. Either way the
        `finally` block arms another five-second cooldown. */
    method LocationResolved(position: Option<(real, real)>)
      requires Valid() && awaitingLocation > 0
      modifies this`processing, this`awaitingLocation, this`pendingCooldowns, this`sent
      ensures Valid() && awaitingLocation == old(awaitingLocation) - 1
      ensures pendingCooldowns == old(pendingCooldowns) + 1
      ensures position.None? ==> !processing && sent == old(sent)
      ensures position.Some? ==>
        processing == old(processing) && sent == old(sent) + [ShakeRequest(position.value.0, position.value.1)]
    {
      awaitingLocation := awaitingLocation - 1;
      pendingCooldowns := pendingCooldowns + 1;
      if position.None? {
        processing := false;
        return;
      }
      sent := sent + [ShakeRequest(position.value.0, position.value.1)];
    }

    /** One of the armed five-second timers fires and releases the lock, even
        when it was armed by an earlier detection and a later one is still
        waiting for its location. */
    method CooldownElapsed()
      requires Valid() && pendingCooldowns > 0
      modifies this`processing, this`pendingCooldowns
      ensures Valid() && !processing && pendingCooldowns == old(pendingCooldowns) - 1
    {
      processing := false;
      pendingCooldowns := pendingCooldowns - 1;
    }
  }
}
