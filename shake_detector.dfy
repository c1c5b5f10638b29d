/** The shake detector: accelerometer samples pass a magnitude threshold and
    a cooldown gate; an accepted shake latches its time and launches the
    panic alert. */
module ShakeDetection {
  import opened Wrappers
  import opened Location

  /** A sample is a shake when its magnitude exceeds this. */
  const TriggerThreshold: real := 12.0
  /** Above this magnitude the debug line reports movement. */
  const MovementThreshold: real := 8.0
  /** Milliseconds that must pass after an accepted shake. */
  const CooldownMs: int := 800
  /** Location text of the panic prompt when no address is known. */
  const PanicFallback := "Ubicación no disponible"

  /** One accelerometer reading, in the sensor's units. */
  datatype Sample = Sample(x: real, y: real, z: real)

  /** A sample together with the clock reading (ms) at which it was handled. */
  datatype Reading = Reading(sample: Sample, at: int)

  /** The square of the sample's Euclidean norm; the gate compares it with
      the squared thresholds instead of taking a square root. */
  function SquaredMagnitude(s: Sample): (m2: real)
    ensures m2 >= 0.0
  {
    s.x * s.x + s.y * s.y + s.z * s.z
  }

  predicate IsShake(s: Sample)
  {
    SquaredMagnitude(s) > TriggerThreshold * TriggerThreshold
  }

  predicate IsMovement(s: Sample)
  {
    SquaredMagnitude(s) > MovementThreshold * MovementThreshold
  }

  /** The gate: a shake, and strictly more than the cooldown since the last
      accepted one. */
  predicate Accepts(s: Sample, lastShake: int, now: int)
  {
    IsShake(s) && now - lastShake > CooldownMs
  }

  lemma PositiveProduct(a: real, b: real)
    requires a > 0.0 && b > 0.0
    ensures a * b > 0.0
  {
  }

  lemma SquareCompare(m: real, c: real)
    requires m >= 0.0 && c >= 0.0
    ensures m * m > c * c <==> m > c
  {
    if m > c {
      assert m * m - c * c == (m - c) * (m + c);
      PositiveProduct(m - c, m + c);
    } else {
      assert m * m <= m * c;
      assert m * c <= c * c;
    }
  }

  /** Comparing squares is comparing magnitudes: for the non-negative `m`
      whose square is the squared magnitude, the sample is a shake iff
      m > 12 and is movement iff m > 8. */
  lemma MagnitudeThresholds(s: Sample, m: real)
    requires m >= 0.0 && m * m == SquaredMagnitude(s)
    ensures IsShake(s) <==> m > 12.0
    ensures IsMovement(s) <==> m > 8.0
  {
    SquareCompare(m, TriggerThreshold);
    SquareCompare(m, MovementThreshold);
  }

  /** The debug line's category. */
  datatype DebugLabel = WaitingForMovement | Movement | Stable | PanicTriggered

  /** The label a handled sample leaves behind. */
  function Label(s: Sample, accepted: bool): (l: DebugLabel)
    ensures l == PanicTriggered <==> accepted
    ensures !accepted ==> (l == Movement <==> IsMovement(s))
    ensures l != WaitingForMovement
  {
    if accepted then PanicTriggered
    else if IsMovement(s) then Movement
    else Stable
  }

  /** The clock readings at which a stream of samples launches panic alerts,
      starting from `lastShake`. */
  function Triggers(stream: seq<Reading>, lastShake: int): seq<int>
  {
    if stream == [] then []
    else if Accepts(stream[0].sample, lastShake, stream[0].at)
    then [stream[0].at] + Triggers(stream[1..], stream[0].at)
    else Triggers(stream[1..], lastShake)
  }

  /** Any two launches are more than the cooldown apart. */
  ghost predicate Spaced(ts: seq<int>)
  {
    forall i, j :: 0 <= i < j < |ts| ==> ts[j] - ts[i] > CooldownMs
  }

  /** Whatever the samples and whatever order their timestamps come in, the
      alerts launched from one stream are pairwise more than the cooldown
      apart, and each is more than the cooldown after the starting latch. */
  lemma {:induction false} TriggersSpaced(stream: seq<Reading>, lastShake: int)
    ensures Spaced(Triggers(stream, lastShake))
    ensures forall t :: t in Triggers(stream, lastShake) ==> t - lastShake > CooldownMs
  {
    if stream != [] {
      var r := stream[0];
      if Accepts(r.sample, lastShake, r.at) {
        TriggersSpaced(stream[1..], r.at);
        var rest := Triggers(stream[1..], r.at);
        var ts := Triggers(stream, lastShake);
        assert ts == [r.at] + rest;
        forall i, j | 0 <= i < j < |ts|
          ensures ts[j] - ts[i] > CooldownMs
        {
          assert ts[j] == rest[j - 1] && rest[j - 1] in rest;
          if i > 0 {
            assert ts[i] == rest[i - 1];
          }
        }
      } else {
        TriggersSpaced(stream[1..], lastShake);
      }
    }
  }

  /** Two magnitude-14 samples 500 ms apart launch exactly one alert. */
  lemma {:induction false} TwoQuickShakesTriggerOnce(lastShake: int, t: int)
    requires t - lastShake > CooldownMs
    ensures Triggers([Reading(Sample(14.0, 0.0, 0.0), t), Reading(Sample(14.0, 0.0, 0.0), t + 500)], lastShake) == [t]
  {
    var stream := [Reading(Sample(14.0, 0.0, 0.0), t), Reading(Sample(14.0, 0.0, 0.0), t + 500)];
    assert Accepts(stream[0].sample, lastShake, t);
    assert !Accepts(stream[1].sample, t, t + 500);
    assert stream[1..][1..] == [];
    assert Triggers(stream[1..], t) == Triggers([], t) == [];
  }

  /** Whatever the latch, two magnitude-14 samples 500 ms apart launch at
      most one alert. */
  lemma {:induction false} TwoQuickShakesTriggerAtMostOnce(lastShake: int, t: int)
    ensures |Triggers([Reading(Sample(14.0, 0.0, 0.0), t), Reading(Sample(14.0, 0.0, 0.0), t + 500)], lastShake)| <= 1
  {
    var stream := [Reading(Sample(14.0, 0.0, 0.0), t), Reading(Sample(14.0, 0.0, 0.0), t + 500)];
    assert stream[1..][1..] == [];
    if Accepts(stream[0].sample, lastShake, t) {
      assert !Accepts(stream[1].sample, t, t + 500);
      assert Triggers(stream[1..], t) == Triggers([], t) == [];
    } else {
      assert Triggers(stream, lastShake) == Triggers(stream[1..], lastShake);
    }
  }

  /** The detector's state: whether a listener is subscribed, the latched
      time of the last accepted shake, the debug line, and, as ghost state
      recording the launches of the panic alert, the latch value each launch
      saw. */
  class ShakeDetector {
    var subscribed: bool
    var isActive: bool
    var lastShake: int
    var debugInfo: DebugLabel
    ghost var alerts: seq<int>

    ghost predicate Valid()
      reads this
    {
      && isActive == subscribed
      && Spaced(alerts)
      && (alerts != [] ==> alerts[|alerts| - 1] == lastShake)
    }

    constructor ()
      ensures Valid()
      ensures !subscribed && !isActive && lastShake == 0
      ensures debugInfo == WaitingForMovement && alerts == []
    {
      subscribed, isActive := false, false;
      lastShake := 0;
      debugInfo := WaitingForMovement;
      alerts := [];
    }

    /** Handles one sample at clock reading `now`; `fired` tells whether the
        panic alert was launched. */
    method HandleShakeDetection(s: Sample, now: int) returns (fired: bool)
      requires Valid()
      modifies this`lastShake, this`debugInfo, this`alerts
      ensures Valid()
      ensures fired == Accepts(s, old(lastShake), now)
      ensures lastShake == if fired then now else old(lastShake)
      ensures debugInfo == Label(s, fired)
      ensures alerts == old(alerts) + Triggers([Reading(s, now)], old(lastShake))
      ensures fired ==> alerts == old(alerts) + [now]
    {
      debugInfo := if IsMovement(s) then Movement else Stable;
      fired := IsShake(s) && now - lastShake > CooldownMs;
      if fired {
        assert forall t :: t in alerts ==> lastShake - t >= 0;
        lastShake := now;
        debugInfo := PanicTriggered;
        alerts := alerts + [lastShake];
      }
      assert [Reading(s, now)][1..] == [];
    }

    method StartShakeDetection()
      requires Valid()
      modifies this`subscribed, this`isActive
      ensures Valid()
      ensures subscribed && isActive
      ensures old(subscribed) ==> unchanged(this)
    {
      if !subscribed {
        subscribed := true;
        isActive := true;
      }
    }

    method StopShakeDetection()
      requires Valid()
      modifies this`subscribed, this`isActive
      ensures Valid()
      ensures !subscribed && !isActive
      ensures !old(subscribed) ==> unchanged(this)
    {
      if subscribed {
        subscribed := false;
        isActive := false;
      }
    }
  }

  datatype PanicChoice = FalseAlarm | NeedHelp

  /** How the panic prompt ends: dismissed, or the "emergency activated"
      notice is shown. */
  datatype PanicOutcome = Dismissed | EmergencyActivated

  /** The panic alert: a location lookup that falls back to a fixed text,
      then a two-choice prompt showing that text. */
  method TriggerPanicAlert(w: LocationWorld, choice: PanicChoice) returns (shown: string, outcome: PanicOutcome)
    ensures shown == LocationText(w, PanicFallback)
    ensures !Resolves(w) ==> shown == PanicFallback
    ensures outcome == Dismissed <==> choice == FalseAlarm
  {
    shown := LookupLocation(w, PanicFallback);
    match choice
    case FalseAlarm => outcome := Dismissed;
    case NeedHelp => outcome := EmergencyActivated;
  }
}
