/**
 * `LeaderKeyCoordinator`: keeps the leader sub-mode over real event objects. The leader
 * fields hold the event objects themselves, so a rewrite of the in-flight event after it
 * became the leader is seen through `leaderEvent`. Each method is proved to do what the
 * corresponding function of `LeaderKeyMachine` describes.
 */
module LeaderKeys {
  import opened Wrappers
  import opened MachPort
  import opened Models
  import opened LeaderKeyMachine

  /** The delegate: records the calls it receives. */
  class LeaderKeyDelegate {
    var notifications: seq<Notification>

    constructor ()
      ensures notifications == []
    {
      notifications := [];
    }

    method ChangedState(state: Option<State>)
      modifies this
      ensures notifications == old(notifications) + [Notification.ChangedState(state)]
    {
      notifications := notifications + [Notification.ChangedState(state)];
    }

    method DidResignLeader()
      modifies this
      ensures notifications == old(notifications) + [Notification.DidResignLeader]
    {
      notifications := notifications + [Notification.DidResignLeader];
    }
  }

  class LeaderKeyCoordinator {
    const delegate: LeaderKeyDelegate?
    const machPort: MachPortEventController?
    /** The raw value of `defaultPartialMatch`, the only part of it the coordinator reads. */
    const defaultRawValue: string
    var state: State
    var leaderKeyWorkItem: Option<Timer>
    var lastEventTime: int
    var switchedEvents: map<int, int>
    var leaderEvent: MachPortEvent?
    var previousLeader: MachPortEvent?

    constructor (delegate: LeaderKeyDelegate?, machPort: MachPortEventController?, defaultRawValue: string)
      ensures this.delegate == delegate && this.machPort == machPort && this.defaultRawValue == defaultRawValue
      ensures Snapshot() == Initial
    {
      this.delegate := delegate;
      this.machPort := machPort;
      this.defaultRawValue := defaultRawValue;
      state := Idle;
      leaderKeyWorkItem := None;
      lastEventTime := 0;
      switchedEvents := map[];
      leaderEvent := null;
      previousLeader := null;
    }

    /** The machine, with the leader objects as they are now. */
    function Snapshot(): Machine
      reads this, leaderEvent, previousLeader
    {
      Machine(state,
              if leaderEvent == null then None else Some(leaderEvent.View()),
              if previousLeader == null then None else Some(previousLeader.View()),
              switchedEvents, leaderKeyWorkItem, lastEventTime)
    }

    /** Where the coordinator's output goes. */
    function Outputs(): set<object> {
      (if machPort == null then {} else {machPort}) + (if delegate == null then {} else {delegate})
    }

    /** The posts so far, when the coordinator has a port. */
    function Posted(): seq<Posted>
      reads machPort
    {
      if machPort == null then [] else machPort.posted
    }

    function Notified(): seq<Notification>
      reads delegate
    {
      if delegate == null then [] else delegate.notifications
    }

    /** `isLeader(_:)`. */
    method IsLeader(e: MachPortEvent) returns (r: bool)
      ensures r == IsLeaderEvent(Snapshot(), e.View())
    {
      if leaderEvent != null {
        r := e.keyCode == leaderEvent.keyCode && e.flags == leaderEvent.flags;
      } else if previousLeader != null {
        r := e.keyCode == previousLeader.keyCode && e.flags == previousLeader.flags;
      } else {
        r := false;
      }
    }

    /** The `leaderEvent` setter with its `willSet` observer. */
    method SetLeaderEvent(e: MachPortEvent?)
      modifies this
      ensures leaderEvent == e && previousLeader == old(leaderEvent)
      ensures state == old(state) && leaderKeyWorkItem == old(leaderKeyWorkItem)
      ensures lastEventTime == old(lastEventTime) && switchedEvents == old(switchedEvents)
    {
      previousLeader := leaderEvent;
      leaderEvent := e;
    }

    /**
     * `handlePartialMatchIfApplicable(_:machPortEvent:)` on a freshly delivered event, with the
     * clock as a parameter. The posts land on the port and the notifications on the delegate
     * when those are present.
     */
    method HandlePartialMatchIfApplicable(partialMatch: Option<PartialMatch>, e: MachPortEvent, now: int) returns (handled: bool)
      requires e != leaderEvent && e != previousLeader
      modifies this, e, leaderEvent, Outputs()
      ensures var o := Handle(old(Snapshot()), partialMatch, defaultRawValue, old(e.View()), now);
        && Snapshot() == o.machine && e.View() == o.event && handled == o.handled
        && Posted() == old(Posted()) + (if machPort == null then [] else o.posts)
        && Notified() == old(Notified()) + (if delegate == null then [] else o.notifications)
    {
      leaderKeyWorkItem := None;
      match state {
        case Idle =>
          handled := HandleIdle(partialMatch, e, now);
        case Event(kind, holdDuration) =>
          if leaderEvent == null {
            Reset();
            return false;
          }
          handled := HandleEvent(kind, holdDuration, partialMatch, e, now);
      }
    }

    /** `handlePartialMatchIfApplicable` inside the sub-mode, once the work item is cancelled. */
    method HandleEvent(kind: LeaderKeyMachine.Kind, holdDuration: int, partialMatch: Option<PartialMatch>, e: MachPortEvent, now: int)
      returns (handled: bool)
      requires state == Event(kind, holdDuration) && leaderKeyWorkItem.None?
      requires leaderEvent != null && e != leaderEvent && e != previousLeader
      modifies this, e, leaderEvent, Outputs()
      ensures var o := Handle(old(Snapshot()), partialMatch, defaultRawValue, old(e.View()), now);
        && Snapshot() == o.machine && e.View() == o.event && handled == o.handled
        && Posted() == old(Posted()) + (if machPort == null then [] else o.posts)
        && Notified() == old(Notified()) + (if delegate == null then [] else o.notifications)
    {
      var isLeader := IsLeader(e);
      if !isLeader && Applicable(partialMatch, defaultRawValue).Some? {
        TakeOver(kind, holdDuration, e, now);
      } else {
        Stay(kind, holdDuration, e, now);
      }
      handled := true;
    }

    /** The sub-mode when the event takes over as the leader. */
    method TakeOver(kind: LeaderKeyMachine.Kind, holdDuration: int, e: MachPortEvent, now: int)
      requires leaderKeyWorkItem.None?
      requires leaderEvent != null && e != leaderEvent && e != previousLeader
      modifies this, e, leaderEvent, Outputs()
      ensures var o := SubModeStep(old(Snapshot()), kind, holdDuration, true, old(e.View()), now);
        && Snapshot() == o.machine && e.View() == o.event
        && Posted() == old(Posted()) + (if machPort == null then [] else o.posts)
        && Notified() == old(Notified()) + (if delegate == null then [] else o.notifications)
    {
      var leader := leaderEvent;
      HandOff(e);
      DispatchLeaders(Snapshot(), kind, e.View(), leader.View(), holdDuration, now);
      Dispatch(kind, e, leader, holdDuration, now);
    }

    /** The sub-mode when the leader stays. */
    method Stay(kind: LeaderKeyMachine.Kind, holdDuration: int, e: MachPortEvent, now: int)
      requires leaderKeyWorkItem.None?
      requires leaderEvent != null && e != leaderEvent && e != previousLeader
      modifies this, e, Outputs()
      ensures var o := SubModeStep(old(Snapshot()), kind, holdDuration, false, old(e.View()), now);
        && Snapshot() == o.machine && e.View() == o.event
        && Posted() == old(Posted()) + (if machPort == null then [] else o.posts)
        && Notified() == old(Notified()) + (if delegate == null then [] else o.notifications)
    {
      DispatchLeaders(Snapshot(), kind, e.View(), leaderEvent.View(), holdDuration, now);
      Dispatch(kind, e, leaderEvent, holdDuration, now);
    }

    /**
     * The hand-off inside `handlePartialMatchIfApplicable`: the old leader is replayed and the
     * new event becomes the leader.
     */
    method HandOff(e: MachPortEvent)
      requires leaderEvent != null && e != leaderEvent
      modifies this, leaderEvent, Outputs()
      ensures var f := LeaderKeyMachine.PostKeyDownAndUp(old(leaderEvent.View()));
        && Snapshot() == SetLeader(old(Snapshot()).(leaderEvent := Some(f.event)), Some(e.View()))
        && leaderEvent == e && previousLeader == old(leaderEvent)
        && e.View() == old(e.View())
        && Posted() == old(Posted()) + (if machPort == null then [] else f.posts)
        && Notified() == old(Notified())
    {
      PostKeyDownAndUp(leaderEvent);
      SetLeaderEvent(e);
    }

    /**
     * The branch on the event's type in `handlePartialMatchIfApplicable`, which has already
     * cancelled the pending work item.
     */
    method Dispatch(kind: LeaderKeyMachine.Kind, e: MachPortEvent, leader: MachPortEvent, holdDuration: int, now: int)
      requires leaderKeyWorkItem.None?
      modifies this, e, Outputs()
      ensures var s := LeaderKeyMachine.Dispatch(old(Snapshot()), kind, old(e.View()), old(leader.View()), holdDuration, now);
        && state == s.machine.state && switchedEvents == s.machine.switchedEvents
        && leaderKeyWorkItem == s.machine.workItem && lastEventTime == s.machine.lastEventTime
        && leaderEvent == (if s.machine.leaderEvent.None? then null else old(leaderEvent))
        && previousLeader == (if s.machine.previousLeader.None? then null else old(previousLeader))
        && e.View() == s.event
        && Posted() == old(Posted()) + (if machPort == null then [] else s.posts)
        && Notified() == old(Notified()) + (if delegate == null then [] else s.notifications)
    {
      if e.eventType.KeyDown? {
        HandleKeyDown(e, leader, holdDuration, now);
      } else if e.eventType.FlagsChanged? {
        leaderKeyWorkItem := None;
        HandleKeyDown(e, leader, holdDuration, now);
      } else if e.eventType.KeyUp? {
        leaderKeyWorkItem := None;
        HandleKeyUp(kind, e, leader, holdDuration, now);
      }
    }

    /** `handleIdle(_:machPortEvent:)`. */
    method HandleIdle(partialMatch: Option<PartialMatch>, e: MachPortEvent, now: int) returns (handled: bool)
      requires e != leaderEvent && e != previousLeader
      modifies this, e
      ensures var o := IdleStep(old(Snapshot()), partialMatch, defaultRawValue, old(e.View()), now);
        && Snapshot() == o.machine && e.View() == o.event && handled == o.handled
        && o.posts == [] && o.notifications == []
    {
      var d := Applicable(partialMatch, defaultRawValue);
      if d.None? {
        return false;
      }
      SetLeaderEvent(e);
      state := Event(Fallback, d.value);
      HandleKeyDown(e, e, d.value, now);
      e.delivered := false;
      return true;
    }

    /** `handleKeyDown(_:newEvent:leaderEvent:holdDuration:)`; the state's kind decides, as in the source. */
    method HandleKeyDown(newEvent: MachPortEvent, leader: MachPortEvent, holdDuration: int, now: int)
      modifies this, newEvent
      ensures var s := KeyDownStep(old(Snapshot()), old(newEvent.View()), old(leader.View()), holdDuration, now);
        && state == s.machine.state && switchedEvents == s.machine.switchedEvents
        && leaderKeyWorkItem == s.machine.workItem && lastEventTime == s.machine.lastEventTime
        && leaderEvent == old(leaderEvent) && previousLeader == old(previousLeader)
        && newEvent.View() == s.event && s.posts == [] && s.notifications == []
    {
      if newEvent.isRepeat {
        return;
      }
      var isLeader := IsLeader(newEvent);
      if !isLeader {
        if state.Event? && state.kind == Fallback {
          var leaderKeyCode := leader.keyCode;
          switchedEvents := switchedEvents[leaderKeyCode := newEvent.keyCode];
          newEvent.Set(leaderKeyCode, KeyUp);
          newEvent.delivered := false;
          leaderKeyWorkItem := None;
          lastEventTime := now;
        }
        return;
      }
      lastEventTime := now;
      var delay := Max(holdDuration, MinimumDelay);
      var item := StartTimer(delay, holdDuration, now);
      leaderKeyWorkItem := Some(item);
      newEvent.delivered := false;
    }

    /** `handleKeyUp(_:newEvent:leaderEvent:holdDuration:)`. */
    method HandleKeyUp(kind: LeaderKeyMachine.Kind, newEvent: MachPortEvent, leader: MachPortEvent, holdDuration: int, now: int)
      modifies this, newEvent, Outputs()
      ensures var s := KeyUpStep(old(Snapshot()), kind, old(newEvent.View()), old(leader.View()), holdDuration, now);
        && state == s.machine.state && switchedEvents == s.machine.switchedEvents
        && leaderKeyWorkItem == s.machine.workItem && lastEventTime == s.machine.lastEventTime
        && leaderEvent == (if s.machine.leaderEvent.None? then null else old(leaderEvent))
        && previousLeader == (if s.machine.previousLeader.None? then null else old(previousLeader))
        && newEvent.View() == s.event
        && Posted() == old(Posted()) + (if machPort == null then [] else s.posts)
        && Notified() == old(Notified()) + (if delegate == null then [] else s.notifications)
    {
      var isLeader := IsLeader(newEvent);
      if isLeader {
        match kind {
          case Fallback =>
            ReleaseFallback(newEvent, leader.keyCode);
          case Leader =>
            ReleaseLeader(newEvent, holdDuration, now);
        }
      } else {
        var leaderKeyCode := leader.keyCode;
        if leaderKeyCode in switchedEvents && newEvent.keyCode == switchedEvents[leaderKeyCode] {
          var keyCode := switchedEvents[leaderKeyCode];
          newEvent.Set(keyCode, CGEventType.KeyDown);
          PostKeyDownAndUp(newEvent);
        }
      }
    }

    /** The `fallback` case of `handleKeyUp` for the leader's own key-up. */
    method ReleaseFallback(newEvent: MachPortEvent, leaderKeyCode: int)
      modifies this, newEvent, Outputs()
      ensures var s := FallbackReleaseStep(old(Snapshot()), old(newEvent.View()), leaderKeyCode);
        && state == s.machine.state && switchedEvents == s.machine.switchedEvents
        && leaderKeyWorkItem == s.machine.workItem && lastEventTime == s.machine.lastEventTime
        && leaderEvent == null && previousLeader == null
        && newEvent.View() == s.event
        && Posted() == old(Posted()) + (if machPort == null then [] else s.posts)
        && Notified() == old(Notified()) + (if delegate == null then [] else s.notifications)
    {
      if leaderKeyCode in switchedEvents {
        var keyCode := switchedEvents[leaderKeyCode];
        newEvent.Set(keyCode, CGEventType.KeyDown);
        PostKeyDownAndUp(newEvent);
        switchedEvents := switchedEvents - {leaderKeyCode};
      } else {
        PostKeyDownAndUp(newEvent);
      }
      if delegate != null {
        delegate.ChangedState(Some(state));
      }
      Reset();
    }

    /** The `leader` case of `handleKeyUp` for the leader's own key-up. */
    method ReleaseLeader(newEvent: MachPortEvent, holdDuration: int, now: int)
      modifies this, newEvent, Outputs()
      ensures var s := LeaderReleaseStep(old(Snapshot()), old(newEvent.View()), holdDuration, now);
        && state == s.machine.state && switchedEvents == s.machine.switchedEvents
        && leaderKeyWorkItem == s.machine.workItem && lastEventTime == s.machine.lastEventTime
        && leaderEvent == null && previousLeader == null
        && newEvent.View() == s.event
        && Posted() == old(Posted()) + (if machPort == null then [] else s.posts)
        && Notified() == old(Notified()) + (if delegate == null then [] else s.notifications)
    {
      var elapsedTime := now - lastEventTime;
      var threshold := holdDuration;
      if threshold <= elapsedTime {
      } else {
        PostKeyDownAndUp(newEvent);
      }
      Reset();
      if delegate != null {
        delegate.ChangedState(None);
        delegate.DidResignLeader();
      }
    }

    /** `reset()`. */
    method Reset()
      modifies this
      ensures state == Idle && leaderKeyWorkItem.None? && leaderEvent == null && previousLeader == null
      ensures switchedEvents == old(switchedEvents) && lastEventTime == old(lastEventTime)
    {
      state := Idle;
      leaderKeyWorkItem := None;
      SetLeaderEvent(null);
      previousLeader := null;
    }

    /** `startTimer(delay:completion:)`: a work item due `delay` ms from now that escalates with `holdDuration`. */
    method StartTimer(delay: int, holdDuration: int, now: int) returns (item: Timer)
      ensures item.deadline - now == delay && item.holdDuration == holdDuration
    {
      item := Timer(now + delay, holdDuration);
    }

    /** `postKeyDownAndUp(_:)`. */
    method PostKeyDownAndUp(e: MachPortEvent)
      modifies e, Outputs()
      ensures var f := LeaderKeyMachine.PostKeyDownAndUp(old(e.View()));
        && e.View() == f.event
        && Posted() == old(Posted()) + (if machPort == null then [] else f.posts)
        && Notified() == old(Notified())
    {
      if e.delivered {
        e.eventType := CGEventType.KeyDown;
      } else if machPort != null {
        machPort.Post(e.keyCode, CGEventType.KeyDown, e.flags);
      }
      if machPort != null {
        machPort.Post(e.keyCode, KeyUp, e.flags);
      }
    }

    /** The escalation timer's completion, run when the clock reaches `now`. */
    method FireTimer(now: int)
      modifies this, Outputs()
      ensures var o := Fire(old(Snapshot()), now);
        && Snapshot() == o.machine
        && Posted() == old(Posted())
        && Notified() == old(Notified()) + (if delegate == null then [] else o.notifications)
    {
      if leaderKeyWorkItem.Some? && now >= leaderKeyWorkItem.value.deadline {
        var newState := Event(Leader, leaderKeyWorkItem.value.holdDuration);
        state := newState;
        leaderKeyWorkItem := None;
        if delegate != null {
          delegate.ChangedState(Some(newState));
        }
      }
    }
  }
}
