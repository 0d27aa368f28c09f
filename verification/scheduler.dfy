/**
  The envelope scheduler shared by both synthesisers: for one harmonic, the
  gain automation calls made from a start time `start`.

  A harmonic whose damping factor or tempo is zero sustains at its volume
  (one `setValueAtTime`). Otherwise it is retriggered for `Horizon` cycles of
  `60 / bpm` seconds: silence at the cycle start, a linear attack to the
  volume over `AttackTime`, then an exponential approach toward `DecayFloor`
  with time constant `1 / damping`. With `guardDecay` (the normalising
  variant) the approach is scheduled only for a positive damping factor.
 */
module Scheduler {
  import opened Automation

  /** Number of retrigger cycles scheduled per call. */
  const Horizon: nat := 100
  /** Length of the linear attack, in seconds. */
  const AttackTime: real := 0.01
  /** Level the exponential decay approaches. */
  const DecayFloor: real := 0.0001

  /** The sustain regime: no damping or no repetition. */
  predicate Sustains(damping: real, bpm: real) {
    damping == 0.0 || bpm == 0.0
  }

  /** Whether a retrigger cycle ends with the exponential decay call. */
  predicate EmitsDecay(damping: real, guardDecay: bool) {
    !guardDecay || damping > 0.0
  }

  /** Calls per retrigger cycle. */
  function CycleWidth(damping: real, guardDecay: bool): (w: nat)
    ensures w == 2 || w == 3
    ensures w == 3 <==> EmitsDecay(damping, guardDecay)
  {
    if EmitsDecay(damping, guardDecay) then 3 else 2
  }

  function CycleDuration(bpm: real): real
    requires bpm != 0.0
  {
    60.0 / bpm
  }

  /** Start of cycle `i`, measured from the common time origin `start`. */
  function CycleStart(start: real, bpm: real, i: nat): real
    requires bpm != 0.0
  {
    start + (i as real) * CycleDuration(bpm)
  }

  /** The `j`-th call of a retrigger schedule: call `j % w` of cycle `j / w`. */
  function ScheduledEvent(volume: real, damping: real, bpm: real, start: real, guardDecay: bool, j: nat): Event
    requires !Sustains(damping, bpm)
  {
    var w := CycleWidth(damping, guardDecay);
    var cycleStart := CycleStart(start, bpm, j / w);
    if j % w == 0 then SetValue(0.0, cycleStart)
    else if j % w == 1 then LinearRamp(volume, cycleStart + AttackTime)
    else SetTarget(DecayFloor, cycleStart + AttackTime, 1.0 / damping)
  }

  /** The gain calls scheduled for one harmonic. Nothing is cancelled; a
      retrigger schedule only ever silences, ramps to the volume, or decays
      toward the floor with time constant `1 / damping`. */
  function Envelope(volume: real, damping: real, bpm: real, start: real, guardDecay: bool): (r: seq<Event>)
    ensures CancelFree(r)
    ensures Sustains(damping, bpm) ==> |r| == 1 && r[0].SetValue? && r[0].value == volume
    ensures !Sustains(damping, bpm) ==> |r| == Horizon * CycleWidth(damping, guardDecay)
    ensures !Sustains(damping, bpm) ==>
              forall j :: 0 <= j < |r| ==>
                && (r[j].SetValue? ==> r[j].value == 0.0)
                && (r[j].LinearRamp? ==> r[j].value == volume)
                && (r[j].SetTarget? ==> r[j].target == DecayFloor && r[j].timeConstant == 1.0 / damping
                                        && EmitsDecay(damping, guardDecay))
  {
    if Sustains(damping, bpm) then [SetValue(volume, start)]
    else
      seq(Horizon * CycleWidth(damping, guardDecay),
          j requires 0 <= j => ScheduledEvent(volume, damping, bpm, start, guardDecay, j))
  }

  /** Position `k` of cycle `c` in a schedule of width `w`. */
  lemma CycleIndex(c: nat, k: nat, w: nat)
    requires w == 2 || w == 3
    requires k < w
    ensures (w * c + k) / w == c
    ensures (w * c + k) % w == k
  {
  }

  /** The calls of a retrigger schedule, from the first on, as far as `events` goes. */
  predicate FollowsSchedule(events: seq<Event>, volume: real, damping: real, bpm: real, start: real, guardDecay: bool)
    requires !Sustains(damping, bpm)
  {
    forall j :: 0 <= j < |events| ==> events[j] == ScheduledEvent(volume, damping, bpm, start, guardDecay, j)
  }

  /** Call `k` of cycle `c`, written out. */
  lemma CycleEntry(volume: real, damping: real, bpm: real, start: real, guardDecay: bool, c: nat, k: nat)
    requires !Sustains(damping, bpm)
    requires k < CycleWidth(damping, guardDecay)
    ensures var cycleStart := CycleStart(start, bpm, c);
            ScheduledEvent(volume, damping, bpm, start, guardDecay, CycleWidth(damping, guardDecay) * c + k)
            == (if k == 0 then SetValue(0.0, cycleStart)
                else if k == 1 then LinearRamp(volume, cycleStart + AttackTime)
                else SetTarget(DecayFloor, cycleStart + AttackTime, 1.0 / damping))
  {
    CycleIndex(c, k, CycleWidth(damping, guardDecay));
  }

  /** Appending cycle `i` to the first `i` cycles gives the first `i + 1`. */
  lemma ExtendByCycle(volume: real, damping: real, bpm: real, start: real, guardDecay: bool,
                      events: seq<Event>, i: nat, cycle: seq<Event>)
    requires !Sustains(damping, bpm)
    requires |events| == CycleWidth(damping, guardDecay) * i
    requires FollowsSchedule(events, volume, damping, bpm, start, guardDecay)
    requires |cycle| == CycleWidth(damping, guardDecay)
    requires forall k :: 0 <= k < |cycle| ==>
               cycle[k] == ScheduledEvent(volume, damping, bpm, start, guardDecay, |events| + k)
    ensures |events + cycle| == CycleWidth(damping, guardDecay) * (i + 1)
    ensures FollowsSchedule(events + cycle, volume, damping, bpm, start, guardDecay)
  {
    var all := events + cycle;
    forall j | 0 <= j < |all|
      ensures all[j] == ScheduledEvent(volume, damping, bpm, start, guardDecay, j)
    {
      if j >= |events| {
        assert all[j] == cycle[j - |events|];
      }
    }
  }

  /** The loop of the source, call by call: it produces `Envelope`. */
  method ScheduleEnvelope(volume: real, damping: real, bpm: real, now: real, guardDecay: bool)
    returns (events: seq<Event>)
    ensures Sustains(damping, bpm) ==> events == [SetValue(volume, now)]
    ensures !Sustains(damping, bpm) ==>
              && |events| == Horizon * CycleWidth(damping, guardDecay)
              && forall j :: 0 <= j < |events| ==>
                   events[j] == ScheduledEvent(volume, damping, bpm, now, guardDecay, j)
    ensures events == Envelope(volume, damping, bpm, now, guardDecay)
  {
    if damping == 0.0 || bpm == 0.0 {
      events := [SetValue(volume, now)];
    } else {
      var cycleDuration := 60.0 / bpm;
      var attackTime := 0.01;
      ghost var w := CycleWidth(damping, guardDecay);
      events := [];
      for i := 0 to 100
        invariant |events| == w * i
        invariant FollowsSchedule(events, volume, damping, bpm, now, guardDecay)
      {
        var cycleStart := now + (i as real) * cycleDuration;
        assert cycleStart == CycleStart(now, bpm, i);
        var cycle := [SetValue(0.0, cycleStart), LinearRamp(volume, cycleStart + attackTime)];
        CycleEntry(volume, damping, bpm, now, guardDecay, i, 0);
        CycleEntry(volume, damping, bpm, now, guardDecay, i, 1);
        if !guardDecay || damping > 0.0 {
          cycle := cycle + [SetTarget(0.0001, cycleStart + attackTime, 1.0 / damping)];
          CycleEntry(volume, damping, bpm, now, guardDecay, i, 2);
        }
        ExtendByCycle(volume, damping, bpm, now, guardDecay, events, i, cycle);
        events := events + cycle;
      }
      ghost var env := Envelope(volume, damping, bpm, now, guardDecay);
      assert forall j :: 0 <= j < |events| ==> events[j] == env[j];
    }
  }

  /** Sustain regime: a single call setting the volume at the start time. */
  lemma SustainedEnvelope(volume: real, damping: real, bpm: real, start: real, guardDecay: bool)
    requires Sustains(damping, bpm)
    ensures Envelope(volume, damping, bpm, start, guardDecay) == [SetValue(volume, start)]
  {
  }

  /** Retrigger regime: 300 calls, or 200 when the guarded variant drops the
      decay for a negative damping factor. */
  lemma RetriggerCount(volume: real, damping: real, bpm: real, start: real, guardDecay: bool)
    requires !Sustains(damping, bpm)
    ensures !guardDecay ==> |Envelope(volume, damping, bpm, start, guardDecay)| == 300
    ensures guardDecay && damping > 0.0 ==> |Envelope(volume, damping, bpm, start, guardDecay)| == 300
    ensures guardDecay && damping < 0.0 ==> |Envelope(volume, damping, bpm, start, guardDecay)| == 200
  {
  }

  /** Layout of cycle `i`: silence at its start, a ramp to the volume
      `AttackTime` later, and (when emitted) a decay toward `DecayFloor`
      starting at that same instant with time constant `1 / damping`. */
  lemma CycleLayout(volume: real, damping: real, bpm: real, start: real, guardDecay: bool, i: nat)
    requires !Sustains(damping, bpm)
    requires i < Horizon
    ensures var env := Envelope(volume, damping, bpm, start, guardDecay);
            var w := CycleWidth(damping, guardDecay);
            var cycleStart := start + (i as real) * (60.0 / bpm);
            && w * i + w <= |env|
            && env[w * i] == SetValue(0.0, cycleStart)
            && env[w * i + 1] == LinearRamp(volume, cycleStart + 0.01)
            && (EmitsDecay(damping, guardDecay) ==>
                  env[w * i + 2] == SetTarget(0.0001, cycleStart + 0.01, 1.0 / damping))
  {
    var cycleStart := start + (i as real) * (60.0 / bpm);
    assert CycleStart(start, bpm, i) == cycleStart;
    CallOfCycle(volume, damping, bpm, start, guardDecay, i, 0);
    CallOfCycle(volume, damping, bpm, start, guardDecay, i, 1);
    if EmitsDecay(damping, guardDecay) {
      CallOfCycle(volume, damping, bpm, start, guardDecay, i, 2);
    }
  }

  /** Call `k` of cycle `c` sits at index `w * c + k` of the envelope. */
  lemma CallOfCycle(volume: real, damping: real, bpm: real, start: real, guardDecay: bool, c: nat, k: nat)
    requires !Sustains(damping, bpm)
    requires c < Horizon
    requires k < CycleWidth(damping, guardDecay)
    ensures var env := Envelope(volume, damping, bpm, start, guardDecay);
            var w := CycleWidth(damping, guardDecay);
            var cycleStart := CycleStart(start, bpm, c);
            && w * c + w <= |env|
            && env[w * c + k] == (if k == 0 then SetValue(0.0, cycleStart)
                                  else if k == 1 then LinearRamp(volume, cycleStart + AttackTime)
                                  else SetTarget(DecayFloor, cycleStart + AttackTime, 1.0 / damping))
  {
    var w := CycleWidth(damping, guardDecay);
    assert w * c + w == w * (c + 1);
    assert w * (c + 1) <= w * Horizon;
    CycleIndex(c, k, w);
    var j := w * c + k;
    assert Envelope(volume, damping, bpm, start, guardDecay)[j]
        == ScheduledEvent(volume, damping, bpm, start, guardDecay, j);
  }

  /** With a positive tempo, cycles start strictly later one after another. */
  lemma CycleStartsIncrease(start: real, bpm: real, i: nat, k: nat)
    requires bpm > 0.0
    requires i < k
    ensures CycleStart(start, bpm, i) < CycleStart(start, bpm, k)
  {
    var d := CycleDuration(bpm);
    assert d > 0.0;
    assert (k as real) * d - (i as real) * d == ((k - i) as real) * d;
  }

  /** Within a cycle the silence precedes the ramp end, and the decay starts
      exactly when the ramp ends. */
  lemma WithinCycleOrder(volume: real, damping: real, bpm: real, start: real, guardDecay: bool, i: nat)
    requires !Sustains(damping, bpm)
    requires i < Horizon
    ensures var env := Envelope(volume, damping, bpm, start, guardDecay);
            var w := CycleWidth(damping, guardDecay);
            && w * i + w <= |env|
            && env[w * i].Time() < env[w * i + 1].Time()
            && (EmitsDecay(damping, guardDecay) ==> env[w * i + 1].Time() == env[w * i + 2].Time())
  {
    CycleLayout(volume, damping, bpm, start, guardDecay, i);
  }

  /** Every call is filed in time order. */
  predicate InTimeOrder(es: seq<Event>) {
    forall j :: 0 < j < |es| ==> es[j - 1].Time() <= es[j].Time()
  }

  lemma NextCycleStart(start: real, bpm: real, c: nat)
    requires bpm != 0.0
    ensures CycleStart(start, bpm, c + 1) == CycleStart(start, bpm, c) + CycleDuration(bpm)
  {
    assert ((c + 1) as real) * CycleDuration(bpm) == (c as real) * CycleDuration(bpm) + CycleDuration(bpm);
  }

  /** Consecutive calls `j - 1` and `j` of a retrigger schedule: either in
      the same cycle, or the last of one cycle and the first of the next. */
  lemma Neighbours(j: nat, w: nat)
    requires w == 2 || w == 3
    requires 0 < j
    ensures (j - 1) % w < w - 1 ==> j / w == (j - 1) / w && j % w == (j - 1) % w + 1
    ensures (j - 1) % w == w - 1 ==> j / w == (j - 1) / w + 1 && j % w == 0
  {
  }

  /** A retrigger schedule is filed in time order exactly when a cycle is at
      least as long as the attack, that is for tempos up to 6000 bpm; above
      that, each cycle's silence is filed before the previous ramp ends. */
  lemma TimeOrderIff(volume: real, damping: real, bpm: real, start: real, guardDecay: bool)
    requires !Sustains(damping, bpm)
    ensures InTimeOrder(Envelope(volume, damping, bpm, start, guardDecay)) <==> 60.0 / bpm >= 0.01
  {
    var env := Envelope(volume, damping, bpm, start, guardDecay);
    var w := CycleWidth(damping, guardDecay);
    var d := CycleDuration(bpm);
    if d >= AttackTime {
      forall j | 0 < j < |env|
        ensures env[j - 1].Time() <= env[j].Time()
      {
        Neighbours(j, w);
        var c := (j - 1) / w;
        if (j - 1) % w == w - 1 {
          NextCycleStart(start, bpm, c);
        }
      }
    } else {
      var j := w;
      assert 0 < j < |env|;
      CycleIndex(0, w - 1, w);
      CycleIndex(1, 0, w);
      NextCycleStart(start, bpm, 0);
      assert env[j - 1].Time() > env[j].Time();
    }
  }

  /** A retrigger schedule with a positive tempo never files a call before
      its start time; neither does the sustain call. */
  lemma NotBeforeStart(volume: real, damping: real, bpm: real, start: real, guardDecay: bool)
    requires Sustains(damping, bpm) || bpm > 0.0
    ensures forall e :: e in Envelope(volume, damping, bpm, start, guardDecay) ==> e.Time() >= start
  {
    if !Sustains(damping, bpm) {
      var env := Envelope(volume, damping, bpm, start, guardDecay);
      forall j | 0 <= j < |env|
        ensures env[j].Time() >= start
      {
        var c := j / CycleWidth(damping, guardDecay);
        assert (c as real) * CycleDuration(bpm) >= 0.0;
      }
    }
  }

  /** A schedule contains no cancellation. */
  lemma EnvelopeCancelFree(volume: real, damping: real, bpm: real, start: real, guardDecay: bool)
    ensures CancelFree(Envelope(volume, damping, bpm, start, guardDecay))
  {
  }
}
