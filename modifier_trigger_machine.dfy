/**
 * The state machine of `ModifierTriggerController`, one transition per call of
 * `handleIfApplicable` and one per firing of the hold timer. Each transition maps the
 * machine, the in-flight event and the clock to the new machine, what is left of the
 * event, and the synthetic events posted, in order.
 */
module ModifierTriggerMachine {
  import opened Wrappers
  import opened MachPort
  import opened Models
  import opened TriggerCache
  import opened ModifierTriggerEventHandler

  /** `ModifierTriggerController.State`. */
  datatype State = Idle | KeyDown(kind: Kind, held: bool)

  /** A scheduled hold-timer work item: when it is due and the modifiers it will assert. */
  datatype Timer = Timer(deadline: int, modifiers: seq<ModifierKey>)

  /** The controller's mutable fields other than the cache. */
  datatype Machine = Machine(
    state: State,
    currentTrigger: Option<ModifierTrigger>,
    workItem: Option<Timer>,
    lastEventTime: int)

  datatype Outcome = Outcome(machine: Machine, event: EventView, posts: seq<Posted>)

  datatype TimerOutcome = TimerOutcome(machine: Machine, posts: seq<Posted>)

  const Initial: Machine := Machine(Idle, None, None, 0)

  /** The force-unwraps of `currentTrigger.key.keyCode!` are safe. */
  predicate Resolvable(m: Machine) {
    m.currentTrigger.Some? ==> Resolved(m.currentTrigger.value)
  }

  function TriggerKey(t: ModifierTrigger): ResolvedKey
    requires Resolved(t)
  {
    t.key
  }

  /** The state a trigger's press enters: its hold behaviour when it has one, otherwise its tap behaviour. */
  function EntryState(t: ModifierTrigger): State {
    if t.manipulator.heldDown.Some? then State.KeyDown(t.manipulator.heldDown.value.kind, true)
    else State.KeyDown(t.manipulator.alone.kind, false)
  }

  /** `reset()`: back to idle with no timer and no current trigger; the timestamp stays. */
  function Reset(m: Machine): Machine {
    m.(state := Idle, workItem := None, currentTrigger := None)
  }

  /** `handleKeyDown(_:coordinator:currentTrigger:)`. */
  function KeyDownStep(m: Machine, t: ModifierTrigger, ev: EventView, now: int): Outcome
    requires Resolved(t)
  {
    match m.state
    case Idle => Outcome(m, ev, [])
    case KeyDown(kind, _) =>
      match kind
      case Key(key) => Outcome(m, Discarded(ev.(keyCode := CodeOf(key))), KeyTap(key))
      case Modifiers(modifiers) =>
        if ev.keyCode == CodeOf(TriggerKey(t)) then
          if ev.isRepeat then Outcome(m, Discarded(ev), [])
          else Outcome(m.(workItem := Some(Timer(now + t.manipulator.alone.threshold, modifiers))), Discarded(ev), [])
        else Outcome(m, Decorated(ev, modifiers), [])
  }

  /** `handleKeyUp(_:coordinator:currentTrigger:)`. */
  function KeyUpStep(m: Machine, t: ModifierTrigger, ev: EventView, now: int): Outcome
    requires Resolved(t)
  {
    match m.state
    case Idle => Outcome(Reset(m), ev, [])
    case KeyDown(kind, held) =>
      match kind
      case Key(key) => Outcome(Reset(m), Discarded(ev.(keyCode := CodeOf(key))), KeyTap(key))
      case Modifiers(modifiers) =>
        if held && t.manipulator.alone.threshold >= now - m.lastEventTime then
          Outcome(Reset(m), ev, KeyTap(TriggerKey(t)))
        else if ev.keyCode == CodeOf(TriggerKey(t)) then
          Outcome(Reset(m), Discarded(ev).(flags := MaskNonCoalesced), [FlagsOnly(MaskNonCoalesced)])
        else
          Outcome(m, Decorated(ev, modifiers), [])
  }

  lemma LookupResolved(cache: Cache, signature: Signature, frontmost: Option<string>, modes: seq<string>)
    requires WellFormed(cache)
    ensures LookupResult(cache, signature, frontmost, modes).Some? ==>
              Resolved(LookupResult(cache, signature, frontmost, modes).value)
  {
    if LookupResult(cache, signature, frontmost, modes).Some? {
      LookupPlainPress(cache, signature, frontmost, modes);
    }
  }

  /** `handleIdle(_:coordinator:)`: only a tap-reported key-down that `lookup` resolves starts a press. */
  function IdleStep(m: Machine, cache: Cache, ev: EventView, now: int, frontmost: Option<string>, modes: seq<string>): Outcome
    requires WellFormed(cache)
  {
    if !ev.tapType.KeyDown? then Outcome(m, ev, [])
    else
      var found := LookupResult(cache, Signature(ev.keyCode, ev.flags), frontmost, modes);
      LookupResolved(cache, Signature(ev.keyCode, ev.flags), frontmost, modes);
      match found
      case None => Outcome(m, ev, [])
      case Some(t) =>
        if t.manipulator.heldDown.Some? then
          var o := KeyDownStep(m.(lastEventTime := now, state := EntryState(t)), t, ev, now);
          Outcome(o.machine.(currentTrigger := Some(t)), Discarded(o.event), o.posts)
        else
          Outcome(m.(state := EntryState(t), currentTrigger := Some(t)), Discarded(ev), [])
  }

  /**
   * `handleIfApplicable(_:)`: nothing without a coordinator or with an empty cache;
   * otherwise the pending timer is cancelled and the event is dispatched on the state
   * and on the event's current type.
   */
  function Handle(m: Machine, cache: Cache, hasCoordinator: bool, ev: EventView, now: int,
                  frontmost: Option<string>, modes: seq<string>): Outcome
    requires WellFormed(cache) && Resolvable(m)
  {
    if !hasCoordinator || |cache| == 0 then Outcome(m, ev, [])
    else
      var m1 := m.(workItem := None);
      match m1.state
      case Idle => IdleStep(m1, cache, ev, now, frontmost, modes)
      case KeyDown(_, _) =>
        if m1.currentTrigger.None? then Outcome(Reset(m1), ev, [])
        else if ev.eventType.KeyDown? || ev.eventType.FlagsChanged? then KeyDownStep(m1, m1.currentTrigger.value, ev, now)
        else if ev.eventType.KeyUp? then KeyUpStep(m1, m1.currentTrigger.value, ev, now)
        else Outcome(m1, ev, [])
  }

  /** The hold timer's work item at time `now`: when it is due, it asserts its modifiers and refreshes the timestamp. */
  function Fire(m: Machine, now: int): TimerOutcome {
    if m.workItem.Some? && now >= m.workItem.value.deadline then
      TimerOutcome(m.(workItem := None, lastEventTime := now), FlagsChangedPosts(m.workItem.value.modifiers))
    else TimerOutcome(m, [])
  }

  // ---- Invariant ----

  /**
   * The machine as the controller keeps it: idle exactly when there is no current
   * trigger, never a timer while idle, the state is the one the current trigger's
   * press entered, and a pending timer carries that state's modifiers.
   */
  predicate Consistent(m: Machine) {
    && Resolvable(m)
    && (m.state.Idle? <==> m.currentTrigger.None?)
    && (m.state.Idle? ==> m.workItem.None?)
    && (m.currentTrigger.Some? ==> m.state == EntryState(m.currentTrigger.value))
    && (m.workItem.Some? ==> m.state.KeyDown? && m.state.kind == Modifiers(m.workItem.value.modifiers))
  }

  lemma InitialConsistent()
    ensures Consistent(Initial)
  {
  }

  /** Handling in idle, with the timer already cancelled, keeps the machine consistent. */
  lemma IdleStepConsistent(m: Machine, cache: Cache, ev: EventView, now: int, frontmost: Option<string>, modes: seq<string>)
    requires WellFormed(cache) && Consistent(m) && m.state.Idle? && m.workItem.None?
    ensures Consistent(IdleStep(m, cache, ev, now, frontmost, modes).machine)
  {
    if ev.tapType.KeyDown? {
      LookupResolved(cache, Signature(ev.keyCode, ev.flags), frontmost, modes);
    }
  }

  /** A key-down or flags-changed event under the current trigger, with the timer cancelled, keeps the machine consistent. */
  lemma KeyDownStepConsistent(m: Machine, ev: EventView, now: int)
    requires Consistent(m) && m.currentTrigger.Some? && m.workItem.None?
    ensures Consistent(KeyDownStep(m, m.currentTrigger.value, ev, now).machine)
  {
  }

  /** A key-up under the current trigger, with the timer cancelled, keeps the machine consistent. */
  lemma KeyUpStepConsistent(m: Machine, ev: EventView, now: int)
    requires Consistent(m) && m.currentTrigger.Some? && m.workItem.None?
    ensures Consistent(KeyUpStep(m, m.currentTrigger.value, ev, now).machine)
  {
  }

  /** Every event keeps the machine consistent. */
  lemma HandleConsistent(m: Machine, cache: Cache, hasCoordinator: bool, ev: EventView, now: int,
                         frontmost: Option<string>, modes: seq<string>)
    requires WellFormed(cache) && Consistent(m)
    ensures Consistent(Handle(m, cache, hasCoordinator, ev, now, frontmost, modes).machine)
  {
    if hasCoordinator && |cache| > 0 {
      var m1 := m.(workItem := None);
      if m.state.Idle? {
        IdleStepConsistent(m1, cache, ev, now, frontmost, modes);
      } else if m.currentTrigger.Some? {
        if ev.eventType.KeyDown? || ev.eventType.FlagsChanged? {
          KeyDownStepConsistent(m1, ev, now);
        } else if ev.eventType.KeyUp? {
          KeyUpStepConsistent(m1, ev, now);
        }
      }
    }
  }

  /** Every event keeps the current trigger's key resolvable. */
  lemma HandleResolvable(m: Machine, cache: Cache, hasCoordinator: bool, ev: EventView, now: int,
                         frontmost: Option<string>, modes: seq<string>)
    requires WellFormed(cache) && Resolvable(m)
    ensures Resolvable(Handle(m, cache, hasCoordinator, ev, now, frontmost, modes).machine)
  {
    if hasCoordinator && |cache| > 0 && m.state.Idle? && ev.tapType.KeyDown? {
      LookupResolved(cache, Signature(ev.keyCode, ev.flags), frontmost, modes);
    }
  }

  /** The timer keeps the machine consistent. */
  lemma FireConsistent(m: Machine, now: int)
    requires Consistent(m)
    ensures Consistent(Fire(m, now).machine)
  {
  }

  // ---- Guards and idle handling ----

  /** Without a coordinator or with an empty cache nothing changes, the event passes untouched and nothing is posted. */
  lemma HandleInactive(m: Machine, cache: Cache, hasCoordinator: bool, ev: EventView, now: int,
                       frontmost: Option<string>, modes: seq<string>)
    requires WellFormed(cache) && Resolvable(m)
    requires !hasCoordinator || |cache| == 0
    ensures Handle(m, cache, hasCoordinator, ev, now, frontmost, modes) == Outcome(m, ev, [])
  {
  }

  /** A key-down step keeps the state and trigger, and arms a timer only for a fresh press of the trigger key under a modifier role. */
  lemma KeyDownStepTimer(m: Machine, t: ModifierTrigger, ev: EventView, now: int)
    requires Resolved(t) && m.workItem.None?
    ensures var o := KeyDownStep(m, t, ev, now);
      && o.machine.state == m.state && o.machine.currentTrigger == m.currentTrigger
      && (o.machine.workItem.Some? ==>
            && t.key.keyCode == Some(ev.keyCode) && !ev.isRepeat
            && m.state.KeyDown? && m.state.kind.Modifiers?
            && o.machine.workItem == Some(Timer(now + t.manipulator.alone.threshold, m.state.kind.modifiers))
            && !o.event.delivered)
  {
  }

  /**
   * Once active, every event cancels the pending timer: a timer pending afterwards was
   * armed by this very event, a non-repeated press of the current trigger's own key in a
   * `modifiers` state, and is due the trigger's tap threshold after `now`.
   */
  lemma HandleCancelsTimer(m: Machine, cache: Cache, ev: EventView, now: int,
                           frontmost: Option<string>, modes: seq<string>)
    requires WellFormed(cache) && Resolvable(m)
    ensures var o := Handle(m, cache, true, ev, now, frontmost, modes);
      |cache| > 0 && o.machine.workItem.Some? ==>
        && o.machine.currentTrigger.Some?
        && var t := o.machine.currentTrigger.value;
        && t.key.keyCode == Some(ev.keyCode)
        && !ev.isRepeat
        && o.machine.state.KeyDown? && o.machine.state.kind.Modifiers?
        && o.machine.workItem == Some(Timer(now + t.manipulator.alone.threshold, o.machine.state.kind.modifiers))
        && !o.event.delivered
  {
    if |cache| > 0 {
      var m1 := m.(workItem := None);
      if m.state.Idle? {
        if ev.tapType.KeyDown? {
          var found := LookupResult(cache, Signature(ev.keyCode, ev.flags), frontmost, modes);
          LookupResolved(cache, Signature(ev.keyCode, ev.flags), frontmost, modes);
          if found.Some? && found.value.manipulator.heldDown.Some? {
            var t := found.value;
            KeyDownStepTimer(m1.(lastEventTime := now, state := EntryState(t)), t, ev, now);
          }
        }
      } else if m.currentTrigger.Some? && (ev.eventType.KeyDown? || ev.eventType.FlagsChanged?) {
        KeyDownStepTimer(m1, m.currentTrigger.value, ev, now);
      }
    }
  }

  /** In `keyDown` with no current trigger the machine resets and the event passes untouched. */
  lemma HandleLostTrigger(m: Machine, cache: Cache, ev: EventView, now: int, frontmost: Option<string>, modes: seq<string>)
    requires WellFormed(cache) && |cache| > 0
    requires m.state.KeyDown? && m.currentTrigger.None?
    ensures var o := Handle(m, cache, true, ev, now, frontmost, modes);
      o.machine.state == Idle && o.machine.workItem.None? && o.event == ev && o.posts == []
  {
  }

  /**
   * In idle: an event the tap did not report as a key-down, or one `lookup` misses,
   * changes nothing but the cancelled timer. A hit swallows the event, makes the trigger
   * current and enters its press state; without a hold behaviour nothing is posted and
   * the event is otherwise untouched.
   */
  lemma HandleIdle(m: Machine, cache: Cache, ev: EventView, now: int, frontmost: Option<string>, modes: seq<string>)
    requires WellFormed(cache) && |cache| > 0 && Resolvable(m)
    requires m.state.Idle?
    ensures var o := Handle(m, cache, true, ev, now, frontmost, modes);
      var found := LookupResult(cache, Signature(ev.keyCode, ev.flags), frontmost, modes);
      && (!ev.tapType.KeyDown? || found.None? ==> o == Outcome(m.(workItem := None), ev, []))
      && (ev.tapType.KeyDown? && found.Some? ==>
            && !o.event.delivered
            && o.machine.currentTrigger == found
            && o.machine.state == EntryState(found.value)
            && (found.value.manipulator.heldDown.None? ==> o.event == Discarded(ev) && o.posts == []))
  {
    assert Handle(m, cache, true, ev, now, frontmost, modes) == IdleStep(m.(workItem := None), cache, ev, now, frontmost, modes);
    LookupResolved(cache, Signature(ev.keyCode, ev.flags), frontmost, modes);
  }

  /** A press only starts on a plain key-down: the neutral mask and exactly the trigger's key code. */
  lemma IdleHitIsPlainPress(m: Machine, cache: Cache, ev: EventView, now: int, frontmost: Option<string>, modes: seq<string>)
    requires WellFormed(cache) && |cache| > 0 && Consistent(m)
    requires m.state.Idle?
    ensures var o := Handle(m, cache, true, ev, now, frontmost, modes);
      o.machine.currentTrigger.Some? ==>
        ev.tapType.KeyDown? && ev.flags == MaskNonCoalesced && o.machine.currentTrigger.value.key.keyCode == Some(ev.keyCode)
  {
    var found := LookupResult(cache, Signature(ev.keyCode, ev.flags), frontmost, modes);
    if ev.tapType.KeyDown? && found.Some? {
      LookupPlainPress(cache, Signature(ev.keyCode, ev.flags), frontmost, modes);
    }
  }

  // ---- The `key` kind ----

  /**
   * `key(k)`: every key-down, flags-changed and key-up posts a tap of `k`, rewrites the
   * event's key code to `k` and swallows it; a key-up also returns to idle.
   */
  lemma KeyKindRemaps(m: Machine, cache: Cache, ev: EventView, now: int, frontmost: Option<string>, modes: seq<string>, k: ResolvedKey)
    requires WellFormed(cache) && |cache| > 0 && Resolvable(m)
    requires m.state.KeyDown? && m.state.kind == Key(k) && m.currentTrigger.Some?
    requires ev.eventType.KeyDown? || ev.eventType.FlagsChanged? || ev.eventType.KeyUp?
    ensures var o := Handle(m, cache, true, ev, now, frontmost, modes);
      && o.posts == KeyTap(k)
      && o.event == Discarded(ev.(keyCode := CodeOf(k)))
      && o.machine.state == (if ev.eventType.KeyUp? then Idle else m.state)
      && o.machine.workItem.None?
  {
  }

  // ---- The `modifiers` kind ----

  /**
   * `modifiers(ms)`, key-down or flags-changed: the trigger's own key is always swallowed
   * and, unless it is a repeat, arms the timer; any other key is passed on with `ms` added
   * to its flags. The state stays and nothing is posted.
   */
  lemma ModifiersKeyDown(m: Machine, cache: Cache, ev: EventView, now: int, frontmost: Option<string>, modes: seq<string>,
                         ms: seq<ModifierKey>)
    requires WellFormed(cache) && |cache| > 0 && Resolvable(m)
    requires m.state.KeyDown? && m.state.kind == Modifiers(ms) && m.currentTrigger.Some?
    requires ev.eventType.KeyDown? || ev.eventType.FlagsChanged?
    ensures var o := Handle(m, cache, true, ev, now, frontmost, modes);
      var t := m.currentTrigger.value;
      && o.posts == []
      && o.machine.state == m.state && o.machine.currentTrigger == m.currentTrigger
      && (t.key.keyCode == Some(ev.keyCode) ==>
            && o.event == Discarded(ev)
            && o.machine.workItem == (if ev.isRepeat then None else Some(Timer(now + t.manipulator.alone.threshold, ms))))
      && (t.key.keyCode != Some(ev.keyCode) ==> o.event == Decorated(ev, ms) && o.machine.workItem.None?)
  {
  }

  /**
   * `modifiers(ms)`, key-up: a held press released within the tap threshold posts a tap
   * of the trigger's key and leaves the event alone; otherwise the trigger's own key-up is
   * swallowed with its flags set to the neutral mask and one neutral flags event is posted;
   * both return to idle. Any other key-up is decorated with `ms` and the press goes on.
   */
  lemma ModifiersKeyUp(m: Machine, cache: Cache, ev: EventView, now: int, frontmost: Option<string>, modes: seq<string>,
                       ms: seq<ModifierKey>)
    requires WellFormed(cache) && |cache| > 0 && Resolvable(m)
    requires m.state.KeyDown? && m.state.kind == Modifiers(ms) && m.currentTrigger.Some?
    requires ev.eventType.KeyUp?
    ensures var o := Handle(m, cache, true, ev, now, frontmost, modes);
      var t := m.currentTrigger.value;
      var tap := m.state.held && t.manipulator.alone.threshold >= now - m.lastEventTime;
      && (tap ==> o == Outcome(Reset(m), ev, KeyTap(TriggerKey(t))))
      && (!tap && t.key.keyCode == Some(ev.keyCode) ==>
            o == Outcome(Reset(m), Discarded(ev).(flags := MaskNonCoalesced), [FlagsOnly(MaskNonCoalesced)]))
      && (!tap && t.key.keyCode != Some(ev.keyCode) ==>
            o == Outcome(m.(workItem := None), Decorated(ev, ms), []))
  {
  }

  /** A release that ends a `modifiers` press posts either a tap or the neutral release, never both. */
  lemma KeyUpTapOrRelease(m: Machine, cache: Cache, ev: EventView, now: int, frontmost: Option<string>, modes: seq<string>)
    requires WellFormed(cache) && |cache| > 0 && Resolvable(m)
    requires m.state.KeyDown? && m.state.kind.Modifiers? && m.currentTrigger.Some?
    requires ev.eventType.KeyUp?
    ensures var o := Handle(m, cache, true, ev, now, frontmost, modes);
      o.posts == [] || o.posts == KeyTap(TriggerKey(m.currentTrigger.value)) || o.posts == [FlagsOnly(MaskNonCoalesced)]
    ensures var o := Handle(m, cache, true, ev, now, frontmost, modes);
      o.machine.state.Idle? <==> o.posts != []
  {
  }

  /** The timer asserts its modifiers exactly when it is due, and the press state stays. */
  lemma FireAsserts(m: Machine, now: int)
    ensures var o := Fire(m, now);
      && o.machine.state == m.state && o.machine.currentTrigger == m.currentTrigger
      && (m.workItem.Some? && now >= m.workItem.value.deadline ==>
            o.posts == FlagsChangedPosts(m.workItem.value.modifiers) && o.machine.lastEventTime == now && o.machine.workItem.None?)
      && (m.workItem.None? || now < m.workItem.value.deadline ==> o == TimerOutcome(m, []))
  {
  }

  // ---- Scenarios with the Escape demo trigger ----

  /** A plain Escape key event as the tap reports it. */
  function EscapeEvent(eventType: CGEventType, isRepeat: bool): EventView {
    EventView(CodeOf(Escape), MaskNonCoalesced, eventType, true, eventType, isRepeat)
  }

  /** Escape pressed when `lookup` resolves it to the demo trigger: swallowed, Control hold armed. */
  lemma EscapePress(m: Machine, cache: Cache, now: int, frontmost: Option<string>, modes: seq<string>)
    requires WellFormed(cache) && Consistent(m) && m.state.Idle?
    requires LookupResult(cache, Signature(CodeOf(Escape), MaskNonCoalesced), frontmost, modes) == Some(EscapeDemo)
    ensures var o := Handle(m, cache, true, EscapeEvent(CGEventType.KeyDown, false), now, frontmost, modes);
      && o.machine == Machine(State.KeyDown(Modifiers([LeftControl]), true), Some(EscapeDemo), Some(Timer(now + 100, [LeftControl])), now)
      && o.event == Discarded(EscapeEvent(CGEventType.KeyDown, false))
      && o.posts == []
  {
    assert |cache| > 0 by {
      LookupFound(cache, Signature(CodeOf(Escape), MaskNonCoalesced), frontmost, modes);
    }
  }

  /** Escape released within 100 ms of the press, before the timer: a tap of Escape, back to idle. */
  lemma EscapeTap(cache: Cache, t0: int, t1: int, frontmost: Option<string>, modes: seq<string>)
    requires WellFormed(cache) && |cache| > 0
    requires t1 - t0 <= 100
    ensures var m := Machine(State.KeyDown(Modifiers([LeftControl]), true), Some(EscapeDemo), Some(Timer(t0 + 100, [LeftControl])), t0);
      var o := Handle(m, cache, true, EscapeEvent(CGEventType.KeyUp, false), t1, frontmost, modes);
      o == Outcome(Reset(m), EscapeEvent(CGEventType.KeyUp, false), KeyTap(Escape))
  {
  }

  /**
   * Escape held: the timer asserts Control, a key pressed meanwhile carries Control, and a
   * release more than 100 ms after the timer releases the modifiers and posts no tap.
   */
  lemma EscapeHold(cache: Cache, t0: int, tf: int, t2: int, t3: int, other: EventView, frontmost: Option<string>, modes: seq<string>)
    requires WellFormed(cache) && |cache| > 0
    requires tf >= t0 + 100 && t3 - tf > 100
    requires other.keyCode != CodeOf(Escape) && other.eventType.KeyDown?
    ensures var m0 := Machine(State.KeyDown(Modifiers([LeftControl]), true), Some(EscapeDemo), Some(Timer(t0 + 100, [LeftControl])), t0);
      var f := Fire(m0, tf);
      var o2 := Handle(f.machine, cache, true, other, t2, frontmost, modes);
      var o3 := Handle(o2.machine, cache, true, EscapeEvent(CGEventType.KeyUp, false), t3, frontmost, modes);
      && f.posts == [Synthetic(ModifierKeyCode(LeftControl), FlagsChanged, {NonCoalesced, ModifierMask(LeftControl)})]
      && o2.event == other.(flags := other.flags + {ModifierMask(LeftControl)}) && o2.posts == []
      && o3.machine.state == Idle
      && o3.event == Discarded(EscapeEvent(CGEventType.KeyUp, false))
      && o3.posts == [FlagsOnly(MaskNonCoalesced)]
  {
    var mods := [LeftControl];
    assert mods[..0] == [];
    assert FlagsOf(mods) == {ModifierMask(LeftControl)};
    var m0 := Machine(State.KeyDown(Modifiers([LeftControl]), true), Some(EscapeDemo), Some(Timer(t0 + 100, [LeftControl])), t0);
    var f := Fire(m0, tf);
    assert f.machine == Machine(State.KeyDown(Modifiers([LeftControl]), true), Some(EscapeDemo), None, tf);
    assert MaskNonCoalesced + FlagsOf(mods) == {NonCoalesced, ModifierMask(LeftControl)};
    assert FlagsChangedPosts(mods)[0] == Synthetic(ModifierKeyCode(LeftControl), FlagsChanged, {NonCoalesced, ModifierMask(LeftControl)});
    var o2 := Handle(f.machine, cache, true, other, t2, frontmost, modes);
    assert o2.machine == f.machine;
    assert o2.event == other.(flags := other.flags + {ModifierMask(LeftControl)}) && o2.posts == [];
    var o3 := Handle(o2.machine, cache, true, EscapeEvent(CGEventType.KeyUp, false), t3, frontmost, modes);
    assert o3.machine.state == Idle;
    assert o3.event == Discarded(EscapeEvent(CGEventType.KeyUp, false));
    assert o3.posts == [FlagsOnly(MaskNonCoalesced)];
  }

  /**
   * Hold and tap are not exclusive: the timer refreshes the timestamp, so a release within
   * 100 ms after the hold engaged posts a tap of Escape on top of the asserted Control, and
   * no neutral flags event releases Control.
   */
  lemma EscapeHoldThenQuickRelease(cache: Cache, t0: int, tf: int, t3: int, frontmost: Option<string>, modes: seq<string>)
    requires WellFormed(cache) && |cache| > 0
    requires tf >= t0 + 100 && t3 - tf <= 100
    ensures var m0 := Machine(State.KeyDown(Modifiers([LeftControl]), true), Some(EscapeDemo), Some(Timer(t0 + 100, [LeftControl])), t0);
      var f := Fire(m0, tf);
      var o3 := Handle(f.machine, cache, true, EscapeEvent(CGEventType.KeyUp, false), t3, frontmost, modes);
      && f.posts == FlagsChangedPosts([LeftControl]) && |f.posts| == 1
      && o3.posts == KeyTap(Escape)
      && FlagsOnly(MaskNonCoalesced) !in f.posts + o3.posts
  {
  }
}
