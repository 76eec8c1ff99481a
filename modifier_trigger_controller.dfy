/**
 * `ModifierTriggerController`: the object that owns the trigger cache and the
 * modifier-trigger state machine. Each method is proved to do what the corresponding
 * function of `ModifierTriggerMachine` or `TriggerCache` describes.
 */
module ModifierTriggers {
  import opened Wrappers
  import opened MachPort
  import opened Models
  import opened TriggerCache
  import opened ModifierTriggerEventHandler
  import opened ModifierTriggerMachine

  class ModifierTriggerController {
    var cache: Cache
    var state: State
    var currentTrigger: Option<ModifierTrigger>
    var workItem: Option<Timer>
    var lastEventTime: int
    const coordinator: ModifierTriggerMachPortCoordinator?

    constructor (coordinator: ModifierTriggerMachPortCoordinator?)
      ensures this.coordinator == coordinator && cache == map[] && Snapshot() == Initial && Valid()
    {
      this.coordinator := coordinator;
      cache := map[];
      state := Idle;
      currentTrigger := None;
      workItem := None;
      lastEventTime := 0;
    }

    /** The machine part of the fields. */
    function Snapshot(): Machine
      reads this
    {
      Machine(state, currentTrigger, workItem, lastEventTime)
    }

    /** The cache as rebuilds leave it, and a current trigger whose key resolves. */
    ghost predicate Valid()
      reads this
    {
      WellFormed(cache) && Resolvable(Snapshot())
    }

    /** The objects the engine posts through. */
    function Ports(): set<object> {
      if coordinator == null then {} else {coordinator.machPort}
    }

    /** `handleIfApplicable(_:)`, with the clock, the frontmost bundle and the active user modes as parameters. */
    method HandleIfApplicable(e: MachPortEvent, now: int, frontmost: Option<string>, modes: seq<string>)
      requires Valid()
      modifies this, e, Ports()
      ensures Valid()
      ensures var o := Handle(old(Snapshot()), old(cache), coordinator != null, old(e.View()), now, frontmost, modes);
        && Snapshot() == o.machine && e.View() == o.event && cache == old(cache)
        && (coordinator != null ==> coordinator.machPort.posted == old(coordinator.machPort.posted) + o.posts)
    {
      HandleResolvable(Snapshot(), cache, coordinator != null, e.View(), now, frontmost, modes);
      if coordinator == null || |cache| == 0 {
        return;
      }
      var c := coordinator;
      workItem := None;
      match state {
        case Idle =>
          HandleIdle(e, c, now, frontmost, modes);
        case KeyDown(_, _) =>
          if currentTrigger.None? {
            Reset();
            return;
          }
          var t := currentTrigger.value;
          if e.eventType.KeyDown? {
            HandleKeyDown(e, c, t, now);
          } else if e.eventType.FlagsChanged? {
            HandleKeyDown(e, c, t, now);
          } else if e.eventType.KeyUp? {
            workItem := None;
            HandleKeyUp(e, c, t, now);
          }
      }
    }

    /** `cache(_:)`: seeds the two demo triggers, then stores every registered trigger; nothing is removed. */
    method Cache(groups: seq<WorkflowGroup>)
      requires Valid()
      modifies this
      ensures Valid()
      ensures cache == ApplyWrites(old(cache), Writes(groups)) && Snapshot() == old(Snapshot())
    {
      ghost var c0 := cache;
      cache := cache[DemoKey(Escape) := EscapeDemo];
      cache := cache[DemoKey(Tab) := TabDemo];
      ApplyDemoWrites(c0);
      ghost var c1 := cache;
      var i := 0;
      while i < |groups|
        invariant 0 <= i <= |groups|
        invariant cache == ApplyWrites(c1, UserWrites(groups[..i]))
        invariant Snapshot() == old(Snapshot())
      {
        ghost var before := cache;
        CacheGroup(groups[i]);
        ConcatSnoc(groups, i, GroupWrites);
        ApplyWritesAppend(c1, UserWrites(groups[..i]), GroupWrites(groups[i]));
        i := i + 1;
      }
      assert groups[..i] == groups;
      ApplyWritesAppend(c0, DemoWrites(), UserWrites(groups));
      RebuildWellFormed(c0, groups);
    }

    /** One group of `cache(_:)`: its workflows under each of its bundles, when it is enabled. */
    method CacheGroup(group: WorkflowGroup)
      modifies this
      ensures cache == ApplyWrites(old(cache), GroupWrites(group)) && Snapshot() == old(Snapshot())
    {
      if group.isDisabled {
        return;
      }
      var bundleIdentifiers: seq<string>;
      if group.rule.Some? {
        bundleIdentifiers := group.rule.value.bundleIdentifiers;
      } else {
        bundleIdentifiers := ["*"];
      }
      var j := 0;
      while j < |bundleIdentifiers|
        invariant 0 <= j <= |bundleIdentifiers|
        invariant cache == ApplyWrites(old(cache), Concat(bundleIdentifiers[..j], BundleWrites(group)))
        invariant Snapshot() == old(Snapshot())
      {
        var bundleIdentifier := bundleIdentifiers[j];
        var k := 0;
        ghost var before := cache;
        while k < |group.workflows|
          invariant 0 <= k <= |group.workflows|
          invariant cache == ApplyWrites(before, Concat(group.workflows[..k], WorkflowWrites(bundleIdentifier, group.userModes)))
          invariant Snapshot() == old(Snapshot())
        {
          CacheWorkflow(bundleIdentifier, group.userModes, group.workflows[k]);
          ConcatSnoc(group.workflows, k, WorkflowWrites(bundleIdentifier, group.userModes));
          ApplyWritesAppend(before, Concat(group.workflows[..k], WorkflowWrites(bundleIdentifier, group.userModes)),
                            WorkflowWrites(bundleIdentifier, group.userModes)(group.workflows[k]));
          k := k + 1;
        }
        assert group.workflows[..k] == group.workflows;
        ConcatSnoc(bundleIdentifiers, j, BundleWrites(group));
        ApplyWritesAppend(old(cache), Concat(bundleIdentifiers[..j], BundleWrites(group)), BundleWrites(group)(bundleIdentifier));
        j := j + 1;
      }
      assert bundleIdentifiers[..j] == bundleIdentifiers;
    }

    /** One workflow under one bundle: skipped unless it is enabled with a modifier trigger whose key resolves. */
    method CacheWorkflow(bundleIdentifier: string, userModes: seq<string>, workflow: Workflow)
      modifies this
      ensures cache == ApplyWrites(old(cache), WorkflowWrites(bundleIdentifier, userModes)(workflow))
      ensures Snapshot() == old(Snapshot())
    {
      if !workflow.isEnabled || !(workflow.trigger.Some? && workflow.trigger.value.Modifier?) {
        return;
      }
      var trigger := workflow.trigger.value.trigger;
      if trigger.key.keyCode.None? {
        return;
      }
      var signature := Signature(trigger.key.keyCode.value, MaskNonCoalesced);
      var first := Write(CreateKey(signature, bundleIdentifier, ""), trigger);
      var rest := ModeWrites(signature, bundleIdentifier, userModes, trigger);
      ApplyWritesSnoc(old(cache), [], first);
      assert [] + [first] == [first];
      cache := cache[CreateKey(signature, bundleIdentifier, "") := trigger];
      var l := 0;
      while l < |userModes|
        invariant 0 <= l <= |userModes|
        invariant cache == ApplyWrites(old(cache), [first] + rest[..l])
        invariant Snapshot() == old(Snapshot())
      {
        ApplyWritesSnoc(old(cache), [first] + rest[..l], rest[l]);
        assert [first] + rest[..l] + [rest[l]] == [first] + rest[..l + 1];
        cache := cache[CreateKey(signature, bundleIdentifier, userModes[l]) := trigger];
        l := l + 1;
      }
      assert rest[..l] == rest;
    }

    /** `handleIdle(_:coordinator:)`. */
    method HandleIdle(e: MachPortEvent, c: ModifierTriggerMachPortCoordinator, now: int, frontmost: Option<string>, modes: seq<string>)
      requires WellFormed(cache) && c == coordinator
      modifies this, e, c.machPort
      ensures var o := IdleStep(old(Snapshot()), old(cache), old(e.View()), now, frontmost, modes);
        && Snapshot() == o.machine && e.View() == o.event && cache == old(cache)
        && c.machPort.posted == old(c.machPort.posted) + o.posts
    {
      if !e.tapType.KeyDown? {
        return;
      }
      var signature := Signature(e.keyCode, e.flags);
      var found := Lookup(signature, frontmost, modes);
      if found.None? {
        return;
      }
      var trigger := found.value;
      LookupResolved(cache, signature, frontmost, modes);
      if trigger.manipulator.heldDown.Some? {
        lastEventTime := now;
        state := State.KeyDown(trigger.manipulator.heldDown.value.kind, true);
        HandleKeyDown(e, c, trigger, now);
      } else {
        state := State.KeyDown(trigger.manipulator.alone.kind, false);
      }
      currentTrigger := Some(trigger);
      e.delivered := false;
    }

    /** `handleKeyDown(_:coordinator:currentTrigger:)`. */
    method HandleKeyDown(e: MachPortEvent, c: ModifierTriggerMachPortCoordinator, t: ModifierTrigger, now: int)
      requires Resolved(t)
      modifies this, e, c.machPort
      ensures var o := KeyDownStep(old(Snapshot()), t, old(e.View()), now);
        && Snapshot() == o.machine && e.View() == o.event && cache == old(cache)
        && c.machPort.posted == old(c.machPort.posted) + o.posts
    {
      match state {
        case Idle =>
        case KeyDown(kind, _) =>
          match kind {
            case Key(key) =>
              c.Post(key);
              c.Set(key, e);
              c.DiscardSystemEvent(e);
            case Modifiers(modifiers) =>
              if e.keyCode == CodeOf(TriggerKey(t)) {
                c.DiscardSystemEvent(e);
                if e.isRepeat {
                  return;
                }
                var item := StartTimer(t.manipulator.alone.threshold, modifiers, now);
                workItem := Some(item);
              } else {
                c.DecorateEvent(e, modifiers);
              }
          }
      }
    }

    /** `handleKeyUp(_:coordinator:currentTrigger:)`. */
    method HandleKeyUp(e: MachPortEvent, c: ModifierTriggerMachPortCoordinator, t: ModifierTrigger, now: int)
      requires Resolved(t)
      modifies this, e, c.machPort
      ensures var o := KeyUpStep(old(Snapshot()), t, old(e.View()), now);
        && Snapshot() == o.machine && e.View() == o.event && cache == old(cache)
        && c.machPort.posted == old(c.machPort.posted) + o.posts
    {
      match state {
        case Idle =>
        case KeyDown(kind, held) =>
          match kind {
            case Key(key) =>
              c.Post(key);
              c.Set(key, e);
              c.DiscardSystemEvent(e);
            case Modifiers(modifiers) =>
              var elapsedTime := now - lastEventTime;
              if held && t.manipulator.alone.threshold >= elapsedTime {
                c.Post(TriggerKey(t));
                Reset();
                workItem := None;
                return;
              }
              if e.keyCode == CodeOf(TriggerKey(t)) {
                c.DiscardSystemEvent(e);
                c.PostMaskNonCoalesced();
              } else {
                c.DecorateEvent(e, modifiers);
                return;
              }
              c.SetMaskNonCoalesced(e);
          }
      }
      Reset();
    }

    /** `reset()`. */
    method Reset()
      modifies this
      ensures Snapshot() == ModifierTriggerMachine.Reset(old(Snapshot())) && cache == old(cache)
    {
      state := Idle;
      workItem := None;
      currentTrigger := None;
    }

    /** `startTimer(delay:currentTrigger:completion:)`: a work item due `delay` ms from now that will assert `modifiers`. */
    method StartTimer(delay: nat, modifiers: seq<ModifierKey>, now: int) returns (item: Timer)
      ensures item.deadline == now + delay && item.modifiers == modifiers
    {
      item := Timer(now + delay, modifiers);
    }

    /** The hold timer's completion, run when the clock reaches `now`. */
    method FireTimer(now: int)
      requires Valid()
      modifies this, Ports()
      ensures Valid()
      ensures var o := Fire(old(Snapshot()), now);
        && Snapshot() == o.machine && cache == old(cache)
        && (coordinator != null ==> coordinator.machPort.posted == old(coordinator.machPort.posted) + o.posts)
    {
      if workItem.Some? && now >= workItem.value.deadline {
        if coordinator != null {
          coordinator.PostFlagsChanged(workItem.value.modifiers);
        }
        lastEventTime := now;
        workItem := None;
      }
    }

    /** `lookup(_:)`: the frontmost bundle, then the wildcard; in each, the no-mode key, then each active mode. */
    method Lookup(signature: Signature, frontmost: Option<string>, modes: seq<string>) returns (trigger: Option<ModifierTrigger>)
      ensures trigger == LookupResult(cache, signature, frontmost, modes)
    {
      var bundleIdentifiers: seq<string>;
      if frontmost.Some? {
        bundleIdentifiers := [frontmost.value, "*"];
      } else {
        bundleIdentifiers := ["*"];
      }
      assert bundleIdentifiers[0..] == bundleIdentifiers;
      trigger := None;
      var i := 0;
      while i < |bundleIdentifiers|
        invariant 0 <= i <= |bundleIdentifiers|
        invariant trigger.None?
        invariant LookupResult(cache, signature, frontmost, modes) ==
                  FirstHit(cache, Concat(bundleIdentifiers[i..], BundleCandidates(signature, modes)))
      {
        FirstHitBundles(cache, signature, modes, bundleIdentifiers[i..]);
        assert bundleIdentifiers[i..][1..] == bundleIdentifiers[i + 1..];
        trigger := LookupBundle(signature, bundleIdentifiers[i], modes);
        if trigger.Some? {
          break;
        }
        i := i + 1;
      }
    }

    /** One bundle of `lookup(_:)`: the no-mode key, then each active mode, stopping at the first hit. */
    method LookupBundle(signature: Signature, bundleIdentifier: string, modes: seq<string>) returns (trigger: Option<ModifierTrigger>)
      ensures trigger == FirstHit(cache, BundleCandidates(signature, modes)(bundleIdentifier))
    {
      ghost var keys := BundleCandidates(signature, modes)(bundleIdentifier);
      assert |keys| == |modes| + 1 && keys[0] == CreateKey(signature, bundleIdentifier, "");
      var key := CreateKey(signature, bundleIdentifier, "");
      if key in cache {
        return Some(cache[key]);
      }
      FirstHitSkip(cache, keys, 0);
      assert keys[0..] == keys;
      var j := 0;
      while j < |modes|
        invariant 0 <= j <= |modes|
        invariant FirstHit(cache, keys) == FirstHit(cache, keys[j + 1..])
      {
        var modeKey := CreateKey(signature, bundleIdentifier, modes[j]);
        assert keys[j + 1] == modeKey;
        if modeKey in cache {
          assert keys[j + 1..][0] == modeKey;
          return Some(cache[modeKey]);
        }
        FirstHitSkip(cache, keys, j + 1);
        j := j + 1;
      }
      assert keys[j + 1..] == [];
      return None;
    }
  }
}
