/**
 * The state machine of `LeaderKeyCoordinator`: one transition per call of
 * `handlePartialMatchIfApplicable` and one per firing of the escalation timer.
 * The leader fields hold snapshots of event objects; when the in-flight event becomes
 * the leader, the snapshot kept is the event as the callback leaves it.
 */
module LeaderKeyMachine {
  import opened Wrappers
  import opened MachPort
  import opened Models
  import opened ModifierTriggerEventHandler

  datatype Kind = Fallback | Leader

  /** `LeaderKeyCoordinator.State`; the hold duration is in milliseconds. */
  datatype State = Idle | Event(kind: Kind, holdDuration: int)

  /** Calls on the delegate, in order. */
  datatype Notification = ChangedState(state: Option<State>) | DidResignLeader

  /** The pending escalation work item: when it is due and the hold duration it escalates with. */
  datatype Timer = Timer(deadline: int, holdDuration: int)

  datatype Machine = Machine(
    state: State,
    leaderEvent: Option<EventView>,
    previousLeader: Option<EventView>,
    switchedEvents: map<int, int>,
    workItem: Option<Timer>,
    lastEventTime: int)

  /** What one handler leaves: the machine, the in-flight event, the posts and the notifications. */
  datatype Step = Step(machine: Machine, event: EventView, posts: seq<Posted>, notifications: seq<Notification>)

  /** A whole call: a `Step` and the value `handlePartialMatchIfApplicable` returns. */
  datatype Outcome = Outcome(machine: Machine, event: EventView, posts: seq<Posted>, notifications: seq<Notification>, handled: bool)

  datatype TimerOutcome = TimerOutcome(machine: Machine, notifications: seq<Notification>)

  /** What `postKeyDownAndUp(_:)` leaves of an event, and what it posts. */
  datatype Flush = Flush(event: EventView, posts: seq<Posted>)

  /** The shortest escalation delay, in milliseconds. */
  const MinimumDelay: int := 125

  const Initial: Machine := Machine(Idle, None, None, map[], None, 0)

  /** `isLeader(_:)`: same key code and flags as the leader, or, without one, as the previous leader. */
  predicate IsLeaderEvent(m: Machine, ev: EventView) {
    if m.leaderEvent.Some? then ev.keyCode == m.leaderEvent.value.keyCode && ev.flags == m.leaderEvent.value.flags
    else if m.previousLeader.Some? then ev.keyCode == m.previousLeader.value.keyCode && ev.flags == m.previousLeader.value.flags
    else false
  }

  /**
   * `condition(_:)`: the hold duration of a partial match whose workflow has the hold-for-delay
   * condition and a keyboard-shortcut trigger with a positive hold duration, and whose raw value
   * differs from the default one.
   */
  function Condition(partialMatch: PartialMatch, defaultRawValue: string): (r: Option<int>)
    ensures r.Some? ==> r.value > 0
  {
    match partialMatch.workflow
    case None => None
    case Some(w) =>
      if w.hasHoldForDelay && w.trigger.Some? && w.trigger.value.KeyboardShortcuts?
         && partialMatch.rawValue != defaultRawValue
         && w.trigger.value.holdDuration.Some? && w.trigger.value.holdDuration.value > 0
      then Some(w.trigger.value.holdDuration.value)
      else None
  }

  function Applicable(partialMatch: Option<PartialMatch>, defaultRawValue: string): Option<int> {
    if partialMatch.Some? then Condition(partialMatch.value, defaultRawValue) else None
  }

  /**
   * `postKeyDownAndUp(_:)`: a still-delivered event is itself retyped to a key-down and only
   * the key-up is posted; a swallowed one is replayed as a posted key-down; either way a
   * key-up with the event's key code and flags follows.
   */
  function PostKeyDownAndUp(ev: EventView): Flush {
    if ev.delivered then Flush(ev.(eventType := CGEventType.KeyDown), [Synthetic(ev.keyCode, KeyUp, ev.flags)])
    else Flush(ev, [Synthetic(ev.keyCode, CGEventType.KeyDown, ev.flags), Synthetic(ev.keyCode, KeyUp, ev.flags)])
  }

  /** `reset()`; `switchedEvents` is kept. */
  function Reset(m: Machine): Machine {
    m.(state := Idle, workItem := None, leaderEvent := None, previousLeader := None)
  }

  /** Assigning `leaderEvent`, whose `willSet` first moves the old leader into `previousLeader`. */
  function SetLeader(m: Machine, ev: Option<EventView>): Machine {
    m.(previousLeader := m.leaderEvent, leaderEvent := ev)
  }

  function Max(a: int, b: int): int {
    if a >= b then a else b
  }

  /** `handleKeyDown(_:newEvent:leaderEvent:holdDuration:)`; `leader` is the event passed as `leaderEvent`. */
  function KeyDownStep(m: Machine, ev: EventView, leader: EventView, holdDuration: int, now: int): Step {
    if ev.isRepeat then Step(m, ev, [], [])
    else if !IsLeaderEvent(m, ev) then
      if m.state.Event? && m.state.kind == Fallback then
        Step(m.(switchedEvents := m.switchedEvents[leader.keyCode := ev.keyCode], workItem := None, lastEventTime := now),
             Discarded(SetResult(ev, leader.keyCode, KeyUp)), [], [])
      else Step(m, ev, [], [])
    else
      Step(m.(lastEventTime := now, workItem := Some(Timer(now + Max(holdDuration, MinimumDelay), holdDuration))),
           Discarded(ev), [], [])
  }

  /** The leader's key-up in `fallback`: the substitute (or else the leader) is replayed, the delegate told, the machine reset. */
  function FallbackReleaseStep(m: Machine, ev: EventView, leaderKeyCode: int): Step {
    var notes := [ChangedState(Some(m.state))];
    if leaderKeyCode in m.switchedEvents then
      var f := PostKeyDownAndUp(SetResult(ev, m.switchedEvents[leaderKeyCode], CGEventType.KeyDown));
      Step(Reset(m.(switchedEvents := m.switchedEvents - {leaderKeyCode})), f.event, f.posts, notes)
    else
      var f := PostKeyDownAndUp(ev);
      Step(Reset(m), f.event, f.posts, notes)
  }

  /** The leader's key-up in `leader`: replayed only before the hold duration elapsed; reset, then two notifications. */
  function LeaderReleaseStep(m: Machine, ev: EventView, holdDuration: int, now: int): Step {
    var f := if holdDuration <= now - m.lastEventTime then Flush(ev, []) else PostKeyDownAndUp(ev);
    Step(Reset(m), f.event, f.posts, [ChangedState(None), DidResignLeader])
  }

  /** `handleKeyUp(_:newEvent:leaderEvent:holdDuration:)`. */
  function KeyUpStep(m: Machine, kind: Kind, ev: EventView, leader: EventView, holdDuration: int, now: int): Step {
    if IsLeaderEvent(m, ev) then
      match kind
      case Fallback => FallbackReleaseStep(m, ev, leader.keyCode)
      case Leader => LeaderReleaseStep(m, ev, holdDuration, now)
    else if leader.keyCode in m.switchedEvents && ev.keyCode == m.switchedEvents[leader.keyCode] then
      var f := PostKeyDownAndUp(SetResult(ev, m.switchedEvents[leader.keyCode], CGEventType.KeyDown));
      Step(m, f.event, f.posts, [])
    else Step(m, ev, [], [])
  }

  /** `handleIdle(_:machPortEvent:)`: an applicable partial match makes the event the leader and swallows it. */
  function IdleStep(m: Machine, partialMatch: Option<PartialMatch>, defaultRawValue: string, ev: EventView, now: int): Outcome {
    match Applicable(partialMatch, defaultRawValue)
    case None => Outcome(m, ev, [], [], false)
    case Some(d) =>
      var s := KeyDownStep(SetLeader(m, Some(ev)).(state := Event(Fallback, d)), ev, ev, d, now);
      var final := Discarded(s.event);
      Outcome(s.machine.(leaderEvent := Some(final)), final, s.posts, s.notifications, true)
  }

  /** The branch on the event's type inside the sub-mode: other event types change nothing. */
  function Dispatch(m: Machine, kind: Kind, ev: EventView, leader: EventView, holdDuration: int, now: int): Step {
    if ev.eventType.KeyDown? || ev.eventType.FlagsChanged? then KeyDownStep(m, ev, leader, holdDuration, now)
    else if ev.eventType.KeyUp? then KeyUpStep(m, kind, ev, leader, holdDuration, now)
    else Step(m, ev, [], [])
  }

  /** A step inside the sub-mode either keeps both leader slots or clears both. */
  lemma DispatchLeaders(m: Machine, kind: Kind, ev: EventView, leader: EventView, holdDuration: int, now: int)
    ensures var s := Dispatch(m, kind, ev, leader, holdDuration, now);
      || (s.machine.leaderEvent == m.leaderEvent && s.machine.previousLeader == m.previousLeader)
      || (s.machine.leaderEvent.None? && s.machine.previousLeader.None? && s.machine.state.Idle?)
  {
  }

  /**
   * The sub-mode with a leader. On a hand-off the old leader is replayed and the event becomes
   * the leader, kept as the callback leaves it; either way the event is then dispatched on its
   * type, with the old leader as the reference leader.
   */
  function SubModeStep(m: Machine, kind: Kind, holdDuration: int, handOff: bool, ev: EventView, now: int): Outcome
    requires m.leaderEvent.Some?
  {
    if handOff then
      var flush := PostKeyDownAndUp(m.leaderEvent.value);
      var s := Dispatch(SetLeader(m.(leaderEvent := Some(flush.event)), Some(ev)), kind, ev, flush.event, holdDuration, now);
      var final := if s.machine.leaderEvent.Some? then s.machine.(leaderEvent := Some(s.event)) else s.machine;
      Outcome(final, s.event, flush.posts + s.posts, s.notifications, true)
    else
      var s := Dispatch(m, kind, ev, m.leaderEvent.value, holdDuration, now);
      Outcome(s.machine, s.event, s.posts, s.notifications, true)
  }

  /** `handlePartialMatchIfApplicable(_:machPortEvent:)`. */
  function Handle(m: Machine, partialMatch: Option<PartialMatch>, defaultRawValue: string, ev: EventView, now: int): Outcome {
    var m0 := m.(workItem := None);
    match m0.state
    case Idle => IdleStep(m0, partialMatch, defaultRawValue, ev, now)
    case Event(kind, d) =>
      if m0.leaderEvent.None? then Outcome(Reset(m0), ev, [], [], false)
      else SubModeStep(m0, kind, d, !IsLeaderEvent(m0, ev) && Applicable(partialMatch, defaultRawValue).Some?, ev, now)
  }

  /** The escalation timer at time `now`: when due, the sub-mode becomes `leader` and the delegate is told once. */
  function Fire(m: Machine, now: int): TimerOutcome {
    if m.workItem.Some? && now >= m.workItem.value.deadline then
      var s := Event(Leader, m.workItem.value.holdDuration);
      TimerOutcome(m.(state := s, workItem := None), [ChangedState(Some(s))])
    else TimerOutcome(m, [])
  }

  // ---- Invariant ----

  /**
   * The machine as the coordinator keeps it: idle means no leader, no previous leader and
   * no timer; the sub-mode always has a leader and a positive hold duration; a pending
   * timer escalates with the sub-mode's hold duration.
   */
  predicate Consistent(m: Machine) {
    && (m.state.Idle? ==> m.leaderEvent.None? && m.previousLeader.None? && m.workItem.None?)
    && (m.state.Event? ==> m.leaderEvent.Some? && m.state.holdDuration > 0)
    && (m.workItem.Some? ==> m.state.Event? && m.workItem.value.holdDuration == m.state.holdDuration)
  }

  lemma InitialConsistent()
    ensures Consistent(Initial)
  {
  }

  /** Entering the sub-mode from idle keeps the invariant. */
  lemma IdleStepConsistent(m: Machine, partialMatch: Option<PartialMatch>, defaultRawValue: string, ev: EventView, now: int)
    requires Consistent(m) && m.state.Idle?
    ensures Consistent(IdleStep(m, partialMatch, defaultRawValue, ev, now).machine)
  {
  }

  /** A step inside the sub-mode, with the timer cancelled, keeps the invariant. */
  lemma SubModeStepConsistent(m: Machine, kind: Kind, handOff: bool, ev: EventView, now: int)
    requires Consistent(m) && m.state.Event? && m.state.kind == kind && m.leaderEvent.Some? && m.workItem.None?
    ensures Consistent(SubModeStep(m, kind, m.state.holdDuration, handOff, ev, now).machine)
  {
  }

  lemma HandleConsistent(m: Machine, partialMatch: Option<PartialMatch>, defaultRawValue: string, ev: EventView, now: int)
    requires Consistent(m)
    ensures Consistent(Handle(m, partialMatch, defaultRawValue, ev, now).machine)
  {
    var m0 := m.(workItem := None);
    if m.state.Idle? {
      IdleStepConsistent(m0, partialMatch, defaultRawValue, ev, now);
    } else if m.leaderEvent.Some? {
      SubModeStepConsistent(m0, m.state.kind, !IsLeaderEvent(m0, ev) && Applicable(partialMatch, defaultRawValue).Some?, ev, now);
    }
  }

  lemma FireConsistent(m: Machine, now: int)
    requires Consistent(m)
    ensures Consistent(Fire(m, now).machine)
  {
  }

  // ---- Properties ----

  /** The condition holds exactly for a hold-for-delay keyboard-shortcut workflow with a positive hold duration and a non-default raw value. */
  lemma ConditionIff(partialMatch: PartialMatch, defaultRawValue: string)
    ensures Condition(partialMatch, defaultRawValue).Some? <==>
      && partialMatch.workflow.Some?
      && partialMatch.workflow.value.hasHoldForDelay
      && partialMatch.workflow.value.trigger.Some?
      && partialMatch.workflow.value.trigger.value.KeyboardShortcuts?
      && partialMatch.rawValue != defaultRawValue
      && partialMatch.workflow.value.trigger.value.holdDuration.Some?
      && partialMatch.workflow.value.trigger.value.holdDuration.value > 0
  {
  }

  /** `isLeader(_:)` compares with the leader when there is one, else with the previous leader, else says no. */
  lemma IsLeaderCases(m: Machine, ev: EventView)
    ensures m.leaderEvent.Some? ==>
      (IsLeaderEvent(m, ev) <==> ev.keyCode == m.leaderEvent.value.keyCode && ev.flags == m.leaderEvent.value.flags)
    ensures m.leaderEvent.None? && m.previousLeader.Some? ==>
      (IsLeaderEvent(m, ev) <==> ev.keyCode == m.previousLeader.value.keyCode && ev.flags == m.previousLeader.value.flags)
    ensures m.leaderEvent.None? && m.previousLeader.None? ==> !IsLeaderEvent(m, ev)
  {
  }

  /** `postKeyDownAndUp(_:)` always ends with the key-up of the event's key code and flags, and posts a key-down only for a swallowed event. */
  lemma PostKeyDownAndUpShape(ev: EventView)
    ensures var f := PostKeyDownAndUp(ev);
      && |f.posts| == (if ev.delivered then 1 else 2)
      && f.posts[|f.posts| - 1] == Synthetic(ev.keyCode, KeyUp, ev.flags)
      && (!ev.delivered ==> f.posts[0] == Synthetic(ev.keyCode, CGEventType.KeyDown, ev.flags) && f.event == ev)
      && (ev.delivered ==> f.event == ev.(eventType := CGEventType.KeyDown))
  {
  }

  /** Resetting leaves the machine idle with no timer and no leaders, and keeps the recorded substitutions. */
  lemma ResetClears(m: Machine)
    ensures var r := Reset(m);
      && r.state == Idle && r.workItem.None? && r.leaderEvent.None? && r.previousLeader.None?
      && r.switchedEvents == m.switchedEvents && r.lastEventTime == m.lastEventTime
      && Consistent(r)
  {
  }

  /**
   * In idle the call returns whether the partial match is applicable. Without one nothing
   * changes but the cancelled timer; with one the event becomes the leader, is swallowed,
   * the sub-mode starts in `fallback` with the match's hold duration and, unless the event
   * is a repeat, the escalation timer is armed at least 125 ms ahead.
   */
  lemma IdleEntry(m: Machine, partialMatch: Option<PartialMatch>, defaultRawValue: string, ev: EventView, now: int)
    requires m.state.Idle?
    ensures var o := Handle(m, partialMatch, defaultRawValue, ev, now);
      && (o.handled <==> Applicable(partialMatch, defaultRawValue).Some?)
      && (!o.handled ==> o == Outcome(m.(workItem := None), ev, [], [], false))
      && (o.handled ==>
            var d := Applicable(partialMatch, defaultRawValue).value;
            && o.machine.state == Event(Fallback, d)
            && o.event == Discarded(ev)
            && o.machine.leaderEvent == Some(o.event)
            && o.machine.previousLeader == m.leaderEvent
            && o.posts == [] && o.notifications == []
            && (ev.isRepeat ==> o.machine.workItem.None?)
            && (!ev.isRepeat ==> o.machine.workItem == Some(Timer(now + Max(d, MinimumDelay), d))
                                 && o.machine.workItem.value.deadline >= now + MinimumDelay))
  {
  }

  /** In the sub-mode the pending timer is always cancelled; without a leader the machine resets and returns false, otherwise true. */
  lemma EventStateGuard(m: Machine, partialMatch: Option<PartialMatch>, defaultRawValue: string, ev: EventView, now: int)
    requires m.state.Event?
    ensures var o := Handle(m, partialMatch, defaultRawValue, ev, now);
      && (m.leaderEvent.None? ==> o == Outcome(Reset(m), ev, [], [], false))
      && (m.leaderEvent.Some? ==> o.handled)
      && (o.machine.workItem.Some? ==> !ev.isRepeat && (ev.eventType.KeyDown? || ev.eventType.FlagsChanged?) && !o.event.delivered)
  {
  }

  /**
   * Hand-off: a key-down that is not the leader, with an applicable partial match, flushes the
   * old leader exactly once (one key-up, preceded by a key-down when the old leader was
   * swallowed) and becomes the leader itself; it is then swallowed and arms the timer.
   */
  lemma HandOff(m: Machine, partialMatch: Option<PartialMatch>, defaultRawValue: string, ev: EventView, now: int)
    requires m.state.Event? && m.leaderEvent.Some?
    requires !IsLeaderEvent(m, ev) && Applicable(partialMatch, defaultRawValue).Some?
    requires ev.eventType.KeyDown? && !ev.isRepeat
    ensures var o := Handle(m, partialMatch, defaultRawValue, ev, now);
      var former := m.leaderEvent.value;
      && o.posts == PostKeyDownAndUp(former).posts
      && |o.posts| == (if former.delivered then 1 else 2)
      && o.posts[|o.posts| - 1] == Synthetic(former.keyCode, KeyUp, former.flags)
      && o.machine.leaderEvent == Some(Discarded(ev))
      && o.machine.previousLeader == Some(PostKeyDownAndUp(former).event)
      && o.machine.state == m.state
      && o.machine.workItem == Some(Timer(now + Max(m.state.holdDuration, MinimumDelay), m.state.holdDuration))
      && o.event == Discarded(ev) && o.handled
  {
    PostKeyDownAndUpShape(m.leaderEvent.value);
  }

  /**
   * Hand-off on an event of any type: the posts begin with exactly one flush of the old leader.
   * Unless the event is a key-up, nothing else is posted, the event is the leader as the call
   * leaves it and the flushed old leader is the previous leader. A key-up hand-off releases the
   * new leader at once, which resets the machine after the flush.
   */
  lemma HandOffFlush(m: Machine, partialMatch: Option<PartialMatch>, defaultRawValue: string, ev: EventView, now: int)
    requires m.state.Event? && m.leaderEvent.Some?
    requires !IsLeaderEvent(m, ev) && Applicable(partialMatch, defaultRawValue).Some?
    ensures var o := Handle(m, partialMatch, defaultRawValue, ev, now);
      var flush := PostKeyDownAndUp(m.leaderEvent.value);
      && |flush.posts| <= |o.posts| && o.posts[..|flush.posts|] == flush.posts
      && o.handled
      && (!ev.eventType.KeyUp? ==>
            && o.posts == flush.posts && o.notifications == []
            && o.machine.leaderEvent == Some(o.event)
            && o.machine.previousLeader == Some(flush.event)
            && o.machine.state == m.state)
      && (ev.eventType.KeyUp? ==>
            && o.machine.state.Idle? && o.machine.leaderEvent.None? && o.machine.previousLeader.None?
            && o.machine.workItem.None? && o.notifications != [])
  {
    var m0 := m.(workItem := None);
    var flush := PostKeyDownAndUp(m.leaderEvent.value);
    var m1 := SetLeader(m0.(leaderEvent := Some(flush.event)), Some(ev));
    assert IsLeaderEvent(m1, ev);
    var s := Dispatch(m1, m.state.kind, ev, flush.event, m.state.holdDuration, now);
    assert Handle(m, partialMatch, defaultRawValue, ev, now) == SubModeStep(m0, m.state.kind, m.state.holdDuration, true, ev, now);
    assert (flush.posts + s.posts)[..|flush.posts|] == flush.posts;
  }

  /** In the sub-mode, a repeated key-down or flags-changed event is ignored (the timer is still cancelled). */
  lemma RepeatIgnored(m: Machine, partialMatch: Option<PartialMatch>, defaultRawValue: string, ev: EventView, now: int)
    requires m.state.Event? && m.leaderEvent.Some?
    requires IsLeaderEvent(m, ev) || Applicable(partialMatch, defaultRawValue).None?
    requires (ev.eventType.KeyDown? || ev.eventType.FlagsChanged?) && ev.isRepeat
    ensures Handle(m, partialMatch, defaultRawValue, ev, now) == Outcome(m.(workItem := None), ev, [], [], true)
  {
  }

  /**
   * In `fallback`, a fresh key-down of another key (with no hand-off) records the substitution
   * leader code to its code, is rewritten to a key-up of the leader's code, swallowed, and the
   * timer stays cancelled.
   */
  lemma FallbackSubstitution(m: Machine, partialMatch: Option<PartialMatch>, defaultRawValue: string, ev: EventView, now: int)
    requires m.state.Event? && m.state.kind == Fallback && m.leaderEvent.Some?
    requires !IsLeaderEvent(m, ev) && Applicable(partialMatch, defaultRawValue).None?
    requires (ev.eventType.KeyDown? || ev.eventType.FlagsChanged?) && !ev.isRepeat
    ensures var o := Handle(m, partialMatch, defaultRawValue, ev, now);
      var code := m.leaderEvent.value.keyCode;
      && o.machine.switchedEvents == m.switchedEvents[code := ev.keyCode]
      && o.machine.switchedEvents[code] == ev.keyCode
      && o.machine.workItem.None? && o.machine.state == m.state
      && !o.event.delivered
      && (ev.delivered ==> o.event.keyCode == code && o.event.eventType == KeyUp)
      && o.posts == [] && o.notifications == []
  {
  }

  /** The leader's own fresh key-down arms the escalation timer, never less than 125 ms ahead, and is swallowed. */
  lemma LeaderArmsTimer(m: Machine, partialMatch: Option<PartialMatch>, defaultRawValue: string, ev: EventView, now: int)
    requires m.state.Event? && m.leaderEvent.Some? && IsLeaderEvent(m, ev)
    requires (ev.eventType.KeyDown? || ev.eventType.FlagsChanged?) && !ev.isRepeat
    ensures var o := Handle(m, partialMatch, defaultRawValue, ev, now);
      var d := m.state.holdDuration;
      && o.machine.workItem == Some(Timer(now + Max(d, MinimumDelay), d))
      && o.machine.workItem.value.deadline >= now + MinimumDelay
      && o.machine.workItem.value.deadline >= now + d
      && o.machine.lastEventTime == now
      && o.event == Discarded(ev) && o.posts == []
  {
  }

  /** A due timer escalates to `leader` with its hold duration and notifies `changedState` exactly once; a stale or reset machine stays as it is. */
  lemma FireEscalates(m: Machine, now: int)
    ensures var o := Fire(m, now);
      && (m.workItem.Some? && now >= m.workItem.value.deadline ==>
            && o.machine.state == Event(Leader, m.workItem.value.holdDuration)
            && o.machine.workItem.None?
            && o.notifications == [ChangedState(Some(o.machine.state))])
      && (m.workItem.None? || now < m.workItem.value.deadline ==> o == TimerOutcome(m, []))
  {
  }

  /**
   * The leader's key-up in `fallback`: replays the recorded substitute (removing the entry)
   * or else the leader itself, notifies `changedState` with the sub-mode once, and resets.
   */
  lemma FallbackRelease(m: Machine, partialMatch: Option<PartialMatch>, defaultRawValue: string, ev: EventView, now: int)
    requires m.state.Event? && m.state.kind == Fallback && m.leaderEvent.Some? && IsLeaderEvent(m, ev)
    requires ev.eventType.KeyUp?
    ensures var o := Handle(m, partialMatch, defaultRawValue, ev, now);
      var code := m.leaderEvent.value.keyCode;
      && o.machine.state == Idle && o.machine.leaderEvent.None? && o.machine.workItem.None?
      && o.notifications == [ChangedState(Some(m.state))]
      && (code in m.switchedEvents ==>
            && o.machine.switchedEvents == m.switchedEvents - {code}
            && o.posts == PostKeyDownAndUp(SetResult(ev, m.switchedEvents[code], CGEventType.KeyDown)).posts)
      && (code !in m.switchedEvents ==>
            o.machine.switchedEvents == m.switchedEvents && o.posts == PostKeyDownAndUp(ev).posts)
  {
  }

  /**
   * The leader's key-up in `leader`: replays the key only when released before the hold
   * duration elapsed, always resets, then notifies `changedState(nil)` and `didResignLeader()`.
   */
  lemma LeaderRelease(m: Machine, partialMatch: Option<PartialMatch>, defaultRawValue: string, ev: EventView, now: int)
    requires m.state.Event? && m.state.kind == Leader && m.leaderEvent.Some? && IsLeaderEvent(m, ev)
    requires ev.eventType.KeyUp?
    ensures var o := Handle(m, partialMatch, defaultRawValue, ev, now);
      && o.machine == Reset(m)
      && o.notifications == [ChangedState(None), DidResignLeader]
      && (now - m.lastEventTime < m.state.holdDuration <==> o.posts != [])
      && (o.posts != [] ==> o.posts == PostKeyDownAndUp(ev).posts)
  {
    PostKeyDownAndUpShape(ev);
  }

  /** A key-up of another key that is the recorded substitute of the leader posts it as a key-down and key-up; the sub-mode goes on. */
  lemma SubstituteRelease(m: Machine, partialMatch: Option<PartialMatch>, defaultRawValue: string, ev: EventView, now: int)
    requires m.state.Event? && m.leaderEvent.Some? && !IsLeaderEvent(m, ev)
    requires Applicable(partialMatch, defaultRawValue).None?
    requires ev.eventType.KeyUp?
    requires m.leaderEvent.value.keyCode in m.switchedEvents && ev.keyCode == m.switchedEvents[m.leaderEvent.value.keyCode]
    ensures var o := Handle(m, partialMatch, defaultRawValue, ev, now);
      && o.machine == m.(workItem := None)
      && o.posts == PostKeyDownAndUp(SetResult(ev, ev.keyCode, CGEventType.KeyDown)).posts
      && o.posts[|o.posts| - 1] == Synthetic(ev.keyCode, KeyUp, ev.flags)
      && o.notifications == [] && o.handled
  {
    PostKeyDownAndUpShape(SetResult(ev, ev.keyCode, CGEventType.KeyDown));
  }

  // ---- Scenario: a leader tapped quickly ----

  /** A leader pressed and released before the timer, with no other key in between, replays the leader key and ends the sub-mode. */
  lemma LeaderTap(partialMatch: PartialMatch, defaultRawValue: string, down: EventView, up: EventView, t0: int, t1: int)
    requires Condition(partialMatch, defaultRawValue).Some?
    requires down.eventType.KeyDown? && !down.isRepeat && down.delivered
    requires up.eventType.KeyUp? && up.keyCode == down.keyCode && up.flags == down.flags && up.delivered
    ensures var o1 := Handle(Initial, Some(partialMatch), defaultRawValue, down, t0);
      var o2 := Handle(o1.machine, Some(partialMatch), defaultRawValue, up, t1);
      && o1.handled && !o1.event.delivered && o1.posts == []
      && o2.handled && o2.machine.state == Idle
      && o2.event == up.(eventType := CGEventType.KeyDown)
      && o2.posts == [Synthetic(down.keyCode, KeyUp, down.flags)]
      && o2.notifications == [ChangedState(Some(Event(Fallback, Condition(partialMatch, defaultRawValue).value)))]
  {
  }
}
