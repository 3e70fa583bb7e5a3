/**
 * The alert cooldown gate: for each event type, the time of its last accepted
 * alert. One cooldown, fixed when the gate is built, applies to every event type.
 * The clock is an explicit parameter `now`; acceptance, implicit in the source
 * (an early return means "suppressed"), is an explicit boolean here.
 */
module Alerts {

  const AlertCooldownSeconds: real := 5.0

  /** One gate decision: whether the alert is accepted, and the map afterwards. */
  function Gate(last: map<string, real>, eventType: string, now: real, cooldown: real)
    : (r: (bool, map<string, real>))
    ensures r.1.Keys == last.Keys + (if r.0 then {eventType} else {})
    ensures forall e :: e in last && e != eventType ==> r.1[e] == last[e]
    ensures r.0 ==> r.1[eventType] == now
    ensures !r.0 ==> r.1 == last
  {
    if eventType in last && now - last[eventType] < cooldown then (false, last)
    else (true, last[eventType := now])
  }

  /** The decisions for a run of alerts of one event type at the given times. */
  function Replay(last: map<string, real>, eventType: string, times: seq<real>, cooldown: real)
    : (r: seq<bool>)
    ensures |r| == |times|
    ensures times != [] && eventType !in last ==> r[0]
    decreases |times|
  {
    if times == [] then []
    else
      var step := Gate(last, eventType, times[0], cooldown);
      [step.0] + Replay(step.1, eventType, times[1..], cooldown)
  }

  function CountAccepted(decisions: seq<bool>): nat
  {
    if decisions == [] then 0
    else (if decisions[0] then 1 else 0) + CountAccepted(decisions[1..])
  }

  class AlertManager {
    const cooldown: real
    var lastAlertTime: map<string, real>

    constructor (cooldown: real := AlertCooldownSeconds)
      ensures this.cooldown == cooldown && lastAlertTime == map[]
    {
      this.cooldown := cooldown;
      lastAlertTime := map[];
    }

    /** Accepts the alert iff the event type has no entry or its last accepted alert is
        at least `cooldown` old; on acceptance the entry is set to `now`. */
    method TriggerAlert(eventType: string, now: real) returns (accepted: bool)
      modifies this
      ensures accepted <==>
        eventType !in old(lastAlertTime) || now - old(lastAlertTime)[eventType] >= cooldown
      ensures lastAlertTime == if accepted then old(lastAlertTime)[eventType := now]
                               else old(lastAlertTime)
      ensures (accepted, lastAlertTime) == Gate(old(lastAlertTime), eventType, now, cooldown)
    {
      if eventType in lastAlertTime {
        if now - lastAlertTime[eventType] < cooldown {
          return false;
        }
      }
      lastAlertTime := lastAlertTime[eventType := now];
      accepted := true;
    }
  }

  /** The gate accepts iff there is no entry or the cooldown has fully elapsed;
      a suppressed call leaves the map as it was. */
  lemma GateAcceptsIff(last: map<string, real>, eventType: string, now: real, cooldown: real)
    ensures var r := Gate(last, eventType, now, cooldown);
      && (r.0 <==> eventType !in last || now - last[eventType] >= cooldown)
      && (!r.0 <==> eventType in last && now - last[eventType] < cooldown)
  {
  }

  /** The first alert of an event type is always accepted and recorded at `now`. */
  lemma FirstAlertAccepted(last: map<string, real>, eventType: string, now: real, cooldown: real)
    requires eventType !in last
    ensures Gate(last, eventType, now, cooldown).0
    ensures Gate(last, eventType, now, cooldown).1 == last[eventType := now]
  {
  }

  /** The comparison is strict: an alert exactly `cooldown` after the last one passes. */
  lemma AcceptedAtCooldownBoundary(last: map<string, real>, eventType: string, cooldown: real)
    requires eventType in last
    ensures Gate(last, eventType, last[eventType] + cooldown, cooldown).0
  {
  }

  /** With a positive cooldown, two alerts of one type at the same instant: the first is
      accepted, the second suppressed. */
  lemma SameInstantTwice(last: map<string, real>, eventType: string, now: real, cooldown: real)
    requires cooldown > 0.0 && eventType !in last
    ensures Replay(last, eventType, [now, now], cooldown) == [true, false]
  {
    var first := Gate(last, eventType, now, cooldown);
    assert first.1[eventType] == now;
    assert [now, now][1..] == [now];
    assert Replay(first.1, eventType, [now], cooldown) == [false];
  }

  /** Alerts of a type whose last accepted time is `t0` are all suppressed while they
      stay within the cooldown after `t0`, and the map keeps `t0`. */
  lemma {:induction false} SuppressedWithinCooldown(
    last: map<string, real>, eventType: string, times: seq<real>, cooldown: real)
    requires eventType in last
    requires forall i :: 0 <= i < |times| ==> times[i] - last[eventType] < cooldown
    ensures |Replay(last, eventType, times, cooldown)| == |times|
    ensures CountAccepted(Replay(last, eventType, times, cooldown)) == 0
  {
    if times != [] {
      var step := Gate(last, eventType, times[0], cooldown);
      assert !step.0 && step.1 == last;
      SuppressedWithinCooldown(last, eventType, times[1..], cooldown);
    }
  }

  /** A burst of alerts of one type that starts when the gate admits it and stays within
      one cooldown of its first alert is accepted exactly once: at its first alert. */
  lemma BurstAcceptedOnce(last: map<string, real>, eventType: string, times: seq<real>, cooldown: real)
    requires |times| > 0
    requires eventType !in last || times[0] - last[eventType] >= cooldown
    requires forall i :: 0 < i < |times| ==> times[i] - times[0] < cooldown
    ensures Replay(last, eventType, times, cooldown)[0]
    ensures CountAccepted(Replay(last, eventType, times, cooldown)) == 1
  {
    var step := Gate(last, eventType, times[0], cooldown);
    assert step.0 && step.1[eventType] == times[0];
    var rest := times[1..];
    assert forall i :: 0 <= i < |rest| ==> rest[i] == times[i + 1];
    SuppressedWithinCooldown(step.1, eventType, rest, cooldown);
  }

  /** The cooldown scenario: accepted at t0, suppressed one second before the cooldown
      ends, accepted one second after it. */
  lemma CooldownScenario(eventType: string, t0: real, cooldown: real)
    ensures Replay(map[], eventType, [t0, t0 + cooldown - 1.0, t0 + cooldown + 1.0], cooldown)
      == [true, false, true]
  {
    var ts := [t0, t0 + cooldown - 1.0, t0 + cooldown + 1.0];
    var m1 := Gate(map[], eventType, t0, cooldown).1;
    assert m1[eventType] == t0;
    assert ts[1..] == [t0 + cooldown - 1.0, t0 + cooldown + 1.0];
    assert ts[1..][1..] == [t0 + cooldown + 1.0];
    assert Replay(m1, eventType, [t0 + cooldown + 1.0], cooldown) == [true];
    assert Replay(m1, eventType, ts[1..], cooldown) == [false, true];
  }
}
