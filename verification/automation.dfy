/**
  The slice of the Web Audio API the synthesiser drives, as plain values.

  An `AudioParam` (an oscillator's frequency, a gain node's gain) is modelled
  by the list of automation calls made on it, in call order. Oscillators and
  gain nodes are records holding that list; their allocation, routing
  (`connect`) and `start`/`stop` are device plumbing and are not modelled.
 */
module Automation {

  /** One automation call on an AudioParam. */
  datatype Event =
    | SetValue(value: real, time: real)                             // setValueAtTime(value, time)
    | LinearRamp(value: real, endTime: real)                        // linearRampToValueAtTime(value, endTime)
    | SetTarget(target: real, startTime: real, timeConstant: real)  // setTargetAtTime(target, startTime, timeConstant)
    | CancelFrom(cancelTime: real)                                  // cancelScheduledValues(cancelTime)
  {
    /** The instant the Web Audio API files the call under: the value time,
        the end of a ramp, the start of an approach, the cancel time. */
    function Time(): real {
      match this
      case SetValue(_, t) => t
      case LinearRamp(_, t) => t
      case SetTarget(_, t, _) => t
      case CancelFrom(t) => t
    }
  }

  /** The calls made on one AudioParam, oldest first. */
  type Param = seq<Event>

  /** An oscillator, reduced to its frequency parameter (the waveform is always sine). */
  datatype Oscillator = Oscillator(frequency: Param)

  /** A gain node, reduced to its gain parameter. */
  datatype GainNode = GainNode(gain: Param)

  predicate CancelFree(es: seq<Event>) {
    forall k :: 0 <= k < |es| ==> !es[k].CancelFrom?
  }

  /** The events of `es` filed strictly before `t`, in their original order:
      what survives `cancelScheduledValues(t)`. */
  function Before(es: seq<Event>, t: real): (r: seq<Event>)
    ensures |r| <= |es|
    ensures forall e :: e in r ==> e in es && e.Time() < t
    ensures forall e :: e in es && e.Time() < t ==> e in r
    ensures CancelFree(es) ==> CancelFree(r)
  {
    if es == [] then []
    else
      var rest := Before(es[..|es| - 1], t);
      var last := es[|es| - 1];
      assert es == es[..|es| - 1] + [last];
      if last.Time() < t then rest + [last] else rest
  }

  /** The events still scheduled on a parameter after its calls have been
      made in order: a cancellation removes every earlier-made event filed at
      or after its cancel time, and is not itself scheduled. */
  function Pending(p: Param): (r: seq<Event>)
    ensures CancelFree(r)
    ensures forall e :: e in r ==> e in p
  {
    if p == [] then []
    else
      var rest := Pending(p[..|p| - 1]);
      var last := p[|p| - 1];
      assert p == p[..|p| - 1] + [last];
      if last.CancelFrom? then Before(rest, last.cancelTime) else rest + [last]
  }

  /** Calls that cancel nothing are simply scheduled after what is pending. */
  lemma {:induction false} PendingAppend(p: Param, q: seq<Event>)
    requires CancelFree(q)
    ensures Pending(p + q) == Pending(p) + q
    decreases |q|
  {
    if q == [] {
      assert p + q == p;
    } else {
      var q' := q[..|q| - 1];
      assert CancelFree(q');
      PendingAppend(p, q');
      assert (p + q)[..|p + q| - 1] == p + q';
      assert (p + q)[|p + q| - 1] == q[|q| - 1];
      assert q == q' + [q[|q| - 1]];
    }
  }

  /** Cancelling at `t` and then scheduling `q` leaves exactly the earlier
      events filed before `t`, followed by `q`: no stale event at or after
      `t` survives. */
  lemma CancelThenSchedule(p: Param, t: real, q: seq<Event>)
    requires CancelFree(q)
    ensures Pending(p + [CancelFrom(t)] + q) == Before(Pending(p), t) + q
    ensures forall e :: e in Pending(p + [CancelFrom(t)] + q) && e.Time() >= t ==> e in q
  {
    PendingAppend(p + [CancelFrom(t)], q);
    assert (p + [CancelFrom(t)])[..|p + [CancelFrom(t)]| - 1] == p;
  }
}
