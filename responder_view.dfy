/** The demo responder view: the simulated ETA and distance countdown, the
    emergency type shown, the simulated other responders and the `m:ss`
    time format. */
module ResponderView {
  import opened Common
  import opened JsNumbers
  import ResponderEta

  const StartEta := 4
  /** 1.2 km, in tenths. */
  const StartDistanceTenths := 12
  /** The ETA drops once every ten ticks. */
  const TicksPerStep := 10

  /** `emergency_type || type || 'other'`. */
  function EmergencyTypeShown(emergencyType: Option<string>, kind: string): (r: string)
    ensures TruthyString(emergencyType) ==> r == emergencyType.value
    ensures !TruthyString(emergencyType) && kind != "" ==> r == kind
    ensures !TruthyString(emergencyType) && kind == "" ==> r == "other"
  {
    StringOr(emergencyType, StringOr(Some(kind), "other"))
  }

  /** The two simulated responders, 2 and 4 minutes behind this one. */
  function OtherResponders(demo: bool, eta: int, distanceTenths: int): (r: seq<ResponderEta.Responder>)
    ensures !demo ==> r == []
    ensures demo ==> |r| == 2 && r[0].eta == eta + 2 && r[1].eta == eta + 4
    ensures demo ==> r[0].distanceTenths == distanceTenths + 5 && r[1].distanceTenths == distanceTenths + 12
  {
    if !demo then []
    else [ResponderEta.Responder("1", "Sarah Johnson", eta + 2, distanceTenths + 5, ResponderEta.EnRoute),
          ResponderEta.Responder("2", "Mike Chen", eta + 4, distanceTenths + 12, ResponderEta.EnRoute)]
  }

  /** `secs.toString().padStart(2, '0')` for a value below 60. */
  function Pad2(n: nat): (s: string)
    requires n < 60
    ensures |s| == 2 && AllDigits(s) && DigitsValue(s) == n
  {
    var s := [DigitChar(n / 10), DigitChar(n % 10)];
    assert s[..1] == [s[0]] && s[..1][..0] == [];
    assert DigitsValue(s[..1]) == n / 10;
    s
  }

  /** `formatTime`: whole minutes, a colon, and two-digit seconds. */
  function FormatTime(seconds: nat): (r: string)
    ensures |r| >= 4 && r[|r| - 3] == ':'
    ensures AllDigits(r[..|r| - 3]) && AllDigits(r[|r| - 2..]) && DigitsValue(r[|r| - 2..]) == seconds % 60
  {
    var m := NatToString(seconds / 60);
    var r := m + ":" + Pad2(seconds % 60);
    assert r[..|r| - 3] == m && r[|r| - 2..] == Pad2(seconds % 60);
    r
  }

  /** Reads `m:ss` back into seconds; anything else is rejected. */
  function ParseClock(t: string): Option<nat> {
    var i := LeadingDigits(t);
    if 0 < i && |t| == i + 3 && t[i] == ':' && AllDigits(t[i + 1..]) && DigitsValue(t[i + 1..]) < 60
    then Some(DigitsValue(t[..i]) * 60 + DigitsValue(t[i + 1..]))
    else None
  }

  /** The formatted time reads back as the same number of seconds, with the
      seconds part below 60. */
  lemma FormatTimeRoundTrip(seconds: nat)
    ensures ParseClock(FormatTime(seconds)) == Some(seconds)
  {
    var m := NatToString(seconds / 60);
    var t := FormatTime(seconds);
    LeadingDigitsStopsAtColon(m, ":" + Pad2(seconds % 60));
    assert t == m + (":" + Pad2(seconds % 60));
    assert LeadingDigits(t) == |m|;
    assert t[..|m|] == m;
    assert t[|m|] == ':' && |t| == |m| + 3;
    assert t[|m| + 1..] == Pad2(seconds % 60);
    NatToStringRoundTrip(seconds / 60);
    assert (seconds / 60) * 60 + seconds % 60 == seconds;
  }

  lemma {:induction false} LeadingDigitsStopsAtColon(digits: string, rest: string)
    requires AllDigits(digits) && rest != [] && rest[0] == ':'
    ensures LeadingDigits(digits + rest) == |digits|
  {
    if digits != [] {
      assert (digits + rest)[1..] == digits[1..] + rest;
      LeadingDigitsStopsAtColon(digits[1..], rest);
    }
  }

  /** One tick of the demo interval, using the values the effect captured:
      the ETA and distance drop when the captured elapsed count is a
      multiple of ten and the ETA is still positive. */
  datatype Countdown = Countdown(elapsed: nat, eta: int, distanceTenths: int)

  function Tick(c: Countdown): (r: Countdown)
    ensures r.elapsed == c.elapsed + 1
    ensures c.eta >= 0 && c.distanceTenths >= 0 ==> r.eta >= 0 && r.distanceTenths >= 0
  {
    if c.elapsed % TicksPerStep == 0 && c.eta > 0 then
      Countdown(c.elapsed + 1, if c.eta - 1 > 0 then c.eta - 1 else 0,
                if c.distanceTenths - 1 > 0 then c.distanceTenths - 1 else 0)
    else Countdown(c.elapsed + 1, c.eta, c.distanceTenths)
  }

  const Start := Countdown(0, StartEta, StartDistanceTenths)

  function AfterTicks(n: nat): Countdown {
    if n == 0 then Start else Tick(AfterTicks(n - 1))
  }

  function Min(a: int, b: int): int {
    if a < b then a else b
  }

  /** After `n` ticks the ETA has dropped once for each of the ticks 0, 10,
      20, ... so far, but never below 0; the distance dropped by the same
      steps, so it stops at 0.8 km. */
  lemma {:induction false} CountdownClosedForm(n: nat)
    ensures var steps := Min(StartEta, (n + TicksPerStep - 1) / TicksPerStep);
      AfterTicks(n) == Countdown(n, StartEta - steps, StartDistanceTenths - steps)
  {
    if n > 0 {
      CountdownClosedForm(n - 1);
      StepsGrowAtMultiplesOfTen(n - 1);
    }
  }

  /** Between `m` and `m + 1` ticks the step count grows exactly when `m`
      is a multiple of ten. */
  lemma StepsGrowAtMultiplesOfTen(m: nat)
    ensures (m + 1 + TicksPerStep - 1) / TicksPerStep ==
      (m + TicksPerStep - 1) / TicksPerStep + if m % TicksPerStep == 0 then 1 else 0
  {
    var q, r := m / TicksPerStep, m % TicksPerStep;
    assert m == TicksPerStep * q + r;
    assert (m + TicksPerStep) / TicksPerStep == q + 1;
    if r == 0 {
      assert (m + TicksPerStep - 1) / TicksPerStep == q;
    } else {
      assert (m + TicksPerStep - 1) / TicksPerStep == q + 1;
    }
  }

  class DemoCountdown {
    const demo: bool
    var state: Countdown

    constructor (demo: bool)
      ensures this.demo == demo && state == Start
    {
      this.demo := demo;
      state := Start;
    }

    /** The interval only runs in demo mode. */
    method OnInterval()
      requires demo
      modifies this`state
      ensures state == Tick(old(state))
    {
      var c := state;
      var eta, distance := c.eta, c.distanceTenths;
      if c.elapsed % TicksPerStep == 0 && eta > 0 {
        eta := if eta - 1 > 0 then eta - 1 else 0;
        distance := if distance - 1 > 0 then distance - 1 else 0;
      }
      state := Countdown(c.elapsed + 1, eta, distance);
    }
  }
}
