/**
 * The bus supervisor of `Application.monitor_events`: a two-state automaton
 * (operational / degraded) driven by the events read from the CAN bus.
 */
module Supervisor {

  /** The `qmixbus.EventId` values the supervisor tells apart. */
  datatype EventId = DeviceEmergency | DeviceGuard | OtherEvent

  /**
   * One `bus.read_event()` result: whether `is_valid()` holds, its
   * `event_id`, and the first word of its payload, `data[0]`.
   */
  datatype Event = Event(valid: bool, eventId: EventId, data0: int)

  /**
   * The `qmixbus.GuardEventId` codes for "heartbeat error occurred" and
   * "heartbeat error resolved"; their numeric values belong to the SDK.
   */
  datatype GuardIds = GuardIds(heartbeatErrOccurred: int, heartbeatErrResolved: int)

  /** The emergency code of a DC-link under-voltage. */
  const DcLinkUnderVoltage: int := 0x3220

  predicate IsDcLinkUnderVoltage(e: Event)
  {
    e.eventId == DeviceEmergency && e.data0 == DcLinkUnderVoltage
  }

  predicate IsHeartbeatErrOccurred(ids: GuardIds, e: Event)
  {
    e.eventId == DeviceGuard && e.data0 == ids.heartbeatErrOccurred
  }

  predicate IsHeartbeatErrResolved(ids: GuardIds, e: Event)
  {
    e.eventId == DeviceGuard && e.data0 == ids.heartbeatErrResolved
  }

  /** An event that takes an operational system to degraded. */
  predicate Degrades(ids: GuardIds, e: Event)
  {
    IsDcLinkUnderVoltage(e) || IsHeartbeatErrOccurred(ids, e)
  }

  /** The guard codes are distinct, as the SDK's enumeration makes them. */
  predicate DistinctIds(ids: GuardIds)
  {
    ids.heartbeatErrOccurred != ids.heartbeatErrResolved
  }

  /**
   * One pass of the monitoring loop: the new value of `system_operational`
   * after reading `e` while it was `operational`.
   */
  function Step(ids: GuardIds, operational: bool, e: Event): (r: bool)
    ensures !e.valid ==> r == operational
    ensures e.valid && !operational ==> (r <==> IsHeartbeatErrResolved(ids, e))
    ensures e.valid && operational && !Degrades(ids, e) ==> r
    ensures e.valid && operational && Degrades(ids, e) ==> (r <==> IsHeartbeatErrResolved(ids, e))
  {
    if !e.valid then operational
    else
      var afterFault := if operational && Degrades(ids, e) then false else operational;
      if !afterFault && IsHeartbeatErrResolved(ids, e) then true else afterFault
  }

  /** The flag after the loop has read `events` in order, starting from `operational`. */
  function Supervise(ids: GuardIds, operational: bool, events: seq<Event>): bool
    decreases |events|
  {
    if events == [] then operational
    else Supervise(ids, Step(ids, operational, events[0]), events[1..])
  }

  /**
   * Reference definition: the flag is decided by the last valid event that
   * either degrades or resolves; with no such event it keeps its start value.
   */
  function LastDecisive(ids: GuardIds, operational: bool, events: seq<Event>): bool
    decreases |events|
  {
    if events == [] then operational
    else
      var e := events[|events| - 1];
      if e.valid && Degrades(ids, e) then false
      else if e.valid && IsHeartbeatErrResolved(ids, e) then true
      else LastDecisive(ids, operational, events[..|events| - 1])
  }

  /** With distinct guard codes a degrading event always takes effect. */
  lemma DegradingEventTakesEffect(ids: GuardIds, e: Event)
    requires DistinctIds(ids)
    requires e.valid && Degrades(ids, e)
    ensures !Step(ids, true, e) && !Step(ids, false, e)
  {
  }

  /**
   * At most one transition per event: the new flag differs from the old one
   * only by a degrading event on an operational system or by a resolving
   * event on a degraded one.
   */
  lemma AtMostOneTransition(ids: GuardIds, operational: bool, e: Event)
    requires DistinctIds(ids)
    ensures Step(ids, operational, e) != operational ==>
              e.valid && ((operational && Degrades(ids, e)) || (!operational && IsHeartbeatErrResolved(ids, e)))
  {
  }

  lemma {:induction false} SuperviseSnoc(ids: GuardIds, operational: bool, events: seq<Event>, e: Event)
    ensures Supervise(ids, operational, events + [e]) == Step(ids, Supervise(ids, operational, events), e)
    decreases |events|
  {
    if events != [] {
      assert (events + [e])[1..] == events[1..] + [e];
      SuperviseSnoc(ids, Step(ids, operational, events[0]), events[1..], e);
    }
  }

  /** The automaton's final state is that of the last decisive event. */
  lemma {:induction false} SuperviseIsLastDecisive(ids: GuardIds, operational: bool, events: seq<Event>)
    requires DistinctIds(ids)
    ensures Supervise(ids, operational, events) == LastDecisive(ids, operational, events)
    decreases |events|
  {
    if events != [] {
      var front := events[..|events| - 1];
      var e := events[|events| - 1];
      assert events == front + [e];
      SuperviseSnoc(ids, operational, front, e);
      SuperviseIsLastDecisive(ids, operational, front);
    }
  }

  /** A degraded system becomes operational again only through a "heartbeat resolved" event. */
  lemma {:induction false} RecoveryNeedsResolvedEvent(ids: GuardIds, events: seq<Event>)
    ensures Supervise(ids, false, events) ==>
              exists i :: 0 <= i < |events| && events[i].valid && IsHeartbeatErrResolved(ids, events[i])
    decreases |events|
  {
    if events != [] && Supervise(ids, false, events) {
      var next := Step(ids, false, events[0]);
      if next {
        assert events[0].valid && IsHeartbeatErrResolved(ids, events[0]);
      } else {
        RecoveryNeedsResolvedEvent(ids, events[1..]);
        var i :| 0 <= i < |events[1..]| && events[1..][i].valid && IsHeartbeatErrResolved(ids, events[1..][i]);
        assert events[i + 1] == events[1..][i];
      }
    }
  }

  /** Invalid reads are no-ops: dropping them does not change the outcome. */
  lemma {:induction false} InvalidEventsAreIgnored(ids: GuardIds, operational: bool, events: seq<Event>, e: Event)
    requires !e.valid
    ensures Supervise(ids, operational, [e] + events) == Supervise(ids, operational, events)
  {
    assert ([e] + events)[1..] == events;
  }

  /**
   * The loop's state as `Application` holds it: `system_operational` is
   * written only by `MonitorEvents`; `shutting_down` ends the loop.
   */
  class Application {
    var systemOperational: bool
    var shuttingDown: bool

    constructor ()
      ensures systemOperational && !shuttingDown
    {
      systemOperational := true;
      shuttingDown := false;
    }

    /**
     * `monitor_events`: `events` are the reads made, one per second, until
     * `shutting_down` was seen; each invalid read is skipped.
     */
    method MonitorEvents(ids: GuardIds, events: seq<Event>)
      modifies this`systemOperational
      ensures systemOperational == Supervise(ids, true, events)
    {
      systemOperational := true;
      var i := 0;
      while i < |events|
        invariant 0 <= i <= |events|
        invariant Supervise(ids, systemOperational, events[i..]) == Supervise(ids, true, events)
      {
        var event := events[i];
        assert events[i..][1..] == events[i + 1..];
        i := i + 1;
        if !event.valid {
          continue;
        }
        if systemOperational && (IsDcLinkUnderVoltage(event) || IsHeartbeatErrOccurred(ids, event)) {
          systemOperational := false;
        }
        if !systemOperational && IsHeartbeatErrResolved(ids, event) {
          systemOperational := true;
        }
      }
    }
  }

  /** Concrete event sequences: a DC-link under-voltage, a recovery after it, a lost heartbeat, and a repeated under-voltage. */
  lemma SupervisorScenarios(ids: GuardIds)
    requires DistinctIds(ids)
    ensures var underVoltage := Event(true, DeviceEmergency, DcLinkUnderVoltage);
            var restored := Event(true, DeviceGuard, ids.heartbeatErrResolved);
            var lost := Event(true, DeviceGuard, ids.heartbeatErrOccurred);
            && !Supervise(ids, true, [underVoltage])
            && Supervise(ids, true, [underVoltage, restored])
            && !Supervise(ids, true, [lost])
            && !Supervise(ids, true, [underVoltage, underVoltage])
  {
    var underVoltage := Event(true, DeviceEmergency, DcLinkUnderVoltage);
    var restored := Event(true, DeviceGuard, ids.heartbeatErrResolved);
    assert [underVoltage, restored][1..] == [restored];
    assert [underVoltage, underVoltage][1..] == [underVoltage];
  }
}
