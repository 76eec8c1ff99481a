# KeyboardCowboy modifier triggers and leader keys, modelled in Dafny

KeyboardCowboy sits on a macOS event tap and can rewrite each keyboard event before the
system delivers it. This project models two features of that remapping engine, and the
helper that does their posting:

* **Modifier triggers** (`ModifierTriggerController`). A key such as Escape can act as
  itself when tapped alone and as a modifier, say Control, while held. The controller
  builds a cache from the user's workflow groups. It looks up the frontmost application
  first, then the global scope `*`, and within each scope the plain key before the
  user-mode keys. A small state machine (`idle` / `keyDown(kind, held)`) then swallows,
  rewrites, decorates or replays events. A delayed timer posts the held-down modifiers.
* **Posting helper** (`ModifierTriggerMachPortCoordinator`). This is the fluent helper
  that rewrites the in-flight event or posts synthetic events through the mach port.
* **Leader keys** (`LeaderKeyCoordinator`). A keyboard-shortcut workflow with a hold
  duration turns its key into a *leader*. The sub-mode starts as `fallback`. There, another
  key pressed while the leader is held is recorded as a substitution and replayed on
  release. An escalation timer of at least 125 ms moves the sub-mode to `leader`. The
  delegate is told about each state change and about resignation.

Each source file is modelled twice:

* A value-level module of functions and lemmas (`TriggerCache`, `ModifierTriggerMachine`,
  `ModifierTriggerEventHandler`, `LeaderKeyMachine`). In these modules a call is a function
  from the machine state and the event to a new state, the rewritten event, the posted
  events and the delegate notifications.
* Classes with the source's own fields (`ModifierTriggers.ModifierTriggerController`,
  `ModifierTriggerEventHandler.ModifierTriggerMachPortCoordinator`,
  `LeaderKeys.LeaderKeyCoordinator`, `MachPort.MachPortEvent`,
  `MachPort.MachPortEventController`). Every method of these classes is proved to leave
  exactly the state, event and posts that the value-level function describes.

The cache rebuild and the lookup keep the source's loops, each with its invariants.

Modifier keys are an enumeration. An event's flags are a set of flag atoms: the
non-coalesced bit, one mask per modifier, and other bits. Time is an integer number of
milliseconds. The clock, the frontmost application and the active user modes are
parameters of each call.

Where the documented behaviour and the code differ, the model follows the code:

* `cache(_:)` never clears the cache. Entries of workflows that have since been removed
  survive a rebuild (`TriggerCache.RebuildKeepsOldEntries`).
* The demo entries for Escape and Tab are written first. A user trigger for the same key
  overwrites them (`TriggerCache.RebuildDemoEntries`).
* The held-down timer refreshes `lastEventTime` when it fires. A release within the tap
  threshold after the timer fired therefore counts as a tap as well: the modifier flags are
  posted and then the key is tapped
  (`ModifierTriggerMachine.EscapeHoldThenQuickRelease`).
* A tap's key-up is not swallowed. The system still receives the original key-up after the
  replayed tap.
* `postKeyDown(_:)` posts a key-up. This is modelled as written; the controller never calls it.
* The modifier trigger's hold timer is armed by the trigger key's first press, not by its
  repeats: repeats return before the timer is armed.
* Within each scope the lookup tries the plain key before the user-mode keys, and the
  frontmost application's scope comes entirely before `*` (`TriggerCache.LookupOrder`,
  `TriggerCache.BundleLookupOrder`).
* The leader's key-up in `fallback` notifies `changedState` with the sub-mode. It does not
  call `didResignLeader()`.

## Model

| member | source | states |
|---|---|---|
| TriggerCache.ConcatMember | App/Sources/Core/Controllers/ModifierTriggerController.swift:109-136 | A value is produced by the nested loops exactly when some iteration produces it |
| TriggerCache.LastWrite | App/Sources/Core/Controllers/ModifierTriggerController.swift:75-138 | The value a key ends with after a write sequence: none exactly when no write touches the key, otherwise the trigger of the last write to it |
| TriggerCache.ApplyWritesAt | App/Sources/Core/Controllers/ModifierTriggerController.swift:75-138 | After the writes, a key is present exactly when it was before or some write touched it; it holds its last write's trigger, and an untouched key keeps its old entry |
| TriggerCache.GroupWritesMember | App/Sources/Core/Controllers/ModifierTriggerController.swift:109-136 | A group writes a key/trigger pair exactly when the group is enabled, the scope is one of its bundle identifiers (or `*` without a rule), an enabled workflow carries that modifier trigger with a resolved key code equal to the signature's, the flags are the non-coalesced mask, and the mode is empty or one of the group's modes |
| TriggerCache.BundleWritesMember | App/Sources/Core/Controllers/ModifierTriggerController.swift:114-135 | Under one bundle identifier a write happens exactly when one of the group's workflows produces it |
| TriggerCache.UserWritesMember | App/Sources/Core/Controllers/ModifierTriggerController.swift:109-136 | The user writes are exactly those some group registers |
| TriggerCache.RebuildKeys | App/Sources/Core/Controllers/ModifierTriggerController.swift:75-138 | After a rebuild, a key is present exactly when it was already present, is a demo key, or is registered by some group |
| TriggerCache.RebuildKeepsOldEntries | App/Sources/Core/Controllers/ModifierTriggerController.swift:75-138 | A rebuild never removes or changes an entry that no demo entry and no group writes |
| TriggerCache.RebuildDemoEntries | App/Sources/Core/Controllers/ModifierTriggerController.swift:76-105 | After a rebuild the Escape and Tab demo keys are present, holding the last user trigger for that key when there is one and the demo trigger otherwise |
| TriggerCache.RebuildWithoutOverridesKeepsDemo | App/Sources/Core/Controllers/ModifierTriggerController.swift:76-105 | When no group registers a demo key, the cache holds the demo triggers: Escape taps Escape and holds Control, Tab taps Tab and holds Function, with an alone threshold of 100 ms (the held-down threshold of 75 ms is stored but never read by the controller) |
| TriggerCache.RebuildWellFormed | App/Sources/Core/Controllers/ModifierTriggerController.swift:116-121 | A rebuild keeps every entry's trigger key resolved to the signature's key code, and the signature's flags set to the non-coalesced mask |
| TriggerCache.WritesResolved | App/Sources/Core/Controllers/ModifierTriggerController.swift:116-121 | No write stores a trigger whose key code is unresolved or differs from its key's signature |
| TriggerCache.FirstHit | App/Sources/Core/Controllers/ModifierTriggerController.swift:270-286 | The probe result: none exactly when no candidate key is cached, otherwise the entry of the first cached candidate |
| TriggerCache.FirstHitAppend | App/Sources/Core/Controllers/ModifierTriggerController.swift:270-286 | Probing a concatenation where the first part hits never looks at the second |
| TriggerCache.LookupOrder | App/Sources/Core/Controllers/ModifierTriggerController.swift:259-289 | The lookup answers from the frontmost application's scope when that scope hits, and from `*` otherwise |
| TriggerCache.BundleLookupOrder | App/Sources/Core/Controllers/ModifierTriggerController.swift:270-285 | Within a scope the plain key wins; otherwise the first user mode, in the given order, whose key is cached |
| TriggerCache.LookupPrefersFrontmost | App/Sources/Core/Controllers/ModifierTriggerController.swift:262-276 | A plain entry for the frontmost application beats every other entry |
| TriggerCache.LookupFound | App/Sources/Core/Controllers/ModifierTriggerController.swift:259-289 | A found trigger is the entry of some cached key with the probed signature |
| TriggerCache.LookupPlainPress | App/Sources/Core/Controllers/ModifierTriggerController.swift:259-289 | In a well-formed cache, only a press whose flags are exactly non-coalesced finds a trigger, and the found trigger's key is the pressed key |
| TriggerCache.LookupMiss | App/Sources/Core/Controllers/ModifierTriggerController.swift:259-289 | The lookup finds nothing exactly when no scope/mode combination it probes is cached |
| TriggerCache.BundleCandidatesMember | App/Sources/Core/Controllers/ModifierTriggerController.swift:270-285 | The keys tried within one scope are exactly its plain key and its keys for the given modes |
| TriggerCache.CandidatesMember | App/Sources/Core/Controllers/ModifierTriggerController.swift:259-289 | The keys `lookup` tries are exactly the combinations of a probed scope with the empty mode or a given mode |
| ModifierTriggerMachine.InitialConsistent | App/Sources/Core/Controllers/ModifierTriggerController.swift:29-40 | The initial controller satisfies the invariant: idle exactly when no current trigger; the state is its trigger's entry state; a pending timer only while holding modifiers |
| ModifierTriggerMachine.HandleConsistent | App/Sources/Core/Controllers/ModifierTriggerController.swift:50-73 | Every handled event preserves that invariant |
| ModifierTriggerMachine.FireConsistent | App/Sources/Core/Controllers/ModifierTriggerController.swift:184-189 | The firing timer preserves that invariant |
| ModifierTriggerMachine.IdleStepConsistent | App/Sources/Core/Controllers/ModifierTriggerController.swift:143-163 | Starting a trigger from idle keeps the invariant |
| ModifierTriggerMachine.KeyDownStepConsistent | App/Sources/Core/Controllers/ModifierTriggerController.swift:165-196 | A press under the current trigger keeps the invariant |
| ModifierTriggerMachine.KeyUpStepConsistent | App/Sources/Core/Controllers/ModifierTriggerController.swift:198-237 | A release under the current trigger keeps the invariant |
| ModifierTriggerMachine.HandleResolvable | App/Sources/Core/Controllers/ModifierTriggerController.swift:143-163 | The current trigger's own key always resolves, so the forced unwrap of `currentTrigger.key.keyCode` cannot fail. The role keys are resolved by their type, not by this lemma (see Left out) |
| ModifierTriggerMachine.LookupResolved | App/Sources/Core/Controllers/ModifierTriggerController.swift:143-163 | A trigger found in a well-formed cache has a resolved key |
| ModifierTriggerMachine.HandleInactive | App/Sources/Core/Controllers/ModifierTriggerController.swift:51 | Without a coordinator, or with an empty cache, an event changes nothing |
| ModifierTriggerMachine.HandleCancelsTimer | App/Sources/Core/Controllers/ModifierTriggerController.swift:53 | Any handled event cancels a pending timer; a new one exists afterwards only if this event armed it |
| ModifierTriggerMachine.KeyDownStepTimer | App/Sources/Core/Controllers/ModifierTriggerController.swift:165-196 | A press keeps the state and the trigger, and arms a timer only for a fresh press of the trigger key in a modifier role, due after the tap threshold |
| ModifierTriggerMachine.HandleLostTrigger | App/Sources/Core/Controllers/ModifierTriggerController.swift:58-61 | A key-down state with no current trigger resets, leaving the event alone |
| ModifierTriggerMachine.HandleIdle | App/Sources/Core/Controllers/ModifierTriggerController.swift:143-163 | In idle, only a key-down whose signature hits the cache starts a trigger; the event is swallowed, the state becomes held-down (or alone when there is no held-down role); anything else passes through |
| ModifierTriggerMachine.IdleHitIsPlainPress | App/Sources/Core/Controllers/ModifierTriggerController.swift:143-163 | A trigger only starts from a plain key-down of its own key |
| ModifierTriggerMachine.KeyKindRemaps | App/Sources/Core/Controllers/ModifierTriggerController.swift:165-209 | In a key role every key event swallows the original, taps the target key and rewrites the event's key code; a key-up then ends the trigger |
| ModifierTriggerMachine.ModifiersKeyDown | App/Sources/Core/Controllers/ModifierTriggerController.swift:179-192 | While holding modifiers, the trigger's own key-down is swallowed and arms the timer after the tap threshold (not on a repeat); another key's event is decorated with the modifier flags |
| ModifierTriggerMachine.ModifiersKeyUp | App/Sources/Core/Controllers/ModifierTriggerController.swift:210-236 | A key-up within the tap threshold of a held trigger ends it with a tap of the trigger key; otherwise the trigger's own key-up is swallowed, the flags reset to non-coalesced and the trigger ends; another key's key-up is decorated and the trigger goes on |
| ModifierTriggerMachine.KeyUpTapOrRelease | App/Sources/Core/Controllers/ModifierTriggerController.swift:198-237 | A key-up in a modifier role posts nothing, a tap, or the flag reset, and the trigger ends exactly when it posts |
| ModifierTriggerMachine.FireAsserts | App/Sources/Core/Controllers/ModifierTriggerController.swift:184-189 | A due timer posts one flags-changed event per held modifier and refreshes the event time; a cancelled or early one does nothing |
| ModifierTriggerMachine.EscapePress | App/Sources/Core/Controllers/ModifierTriggerController.swift:76-88 | Pressing Escape with the demo trigger swallows it, enters held-down Control and arms the timer 100 ms ahead |
| ModifierTriggerMachine.EscapeTap | App/Sources/Core/Controllers/ModifierTriggerController.swift:210-218 | Releasing Escape within 100 ms posts an Escape tap and ends the trigger |
| ModifierTriggerMachine.EscapeHold | App/Sources/Core/Controllers/ModifierTriggerController.swift:184-236 | Held past the timer, Escape posts Control, adds Control to other keys, and its late release resets the flags |
| ModifierTriggerMachine.EscapeHoldThenQuickRelease | App/Sources/Core/Controllers/ModifierTriggerController.swift:184-218 | A release within 100 ms of the timer firing taps Escape after Control was posted, and never resets the flags |
| ModifierTriggers.ModifierTriggerController.HandleIfApplicable | App/Sources/Core/Controllers/ModifierTriggerController.swift:50-73 | Leaves exactly the state, event and posts of `ModifierTriggerMachine.Handle`, and keeps the cache well-formed |
| ModifierTriggers.ModifierTriggerController.Cache | App/Sources/Core/Controllers/ModifierTriggerController.swift:75-138 | The new cache is the old one with `TriggerCache.Writes` applied; the state machine is untouched |
| ModifierTriggers.ModifierTriggerController.CacheGroup | App/Sources/Core/Controllers/ModifierTriggerController.swift:109-136 | The new cache is the old one with the group's writes applied |
| ModifierTriggers.ModifierTriggerController.CacheWorkflow | App/Sources/Core/Controllers/ModifierTriggerController.swift:116-135 | The new cache is the old one with the workflow's plain-key and user-mode writes applied |
| ModifierTriggers.ModifierTriggerController.HandleIdle | App/Sources/Core/Controllers/ModifierTriggerController.swift:143-163 | Leaves exactly what `ModifierTriggerMachine.IdleStep` describes |
| ModifierTriggers.ModifierTriggerController.HandleKeyDown | App/Sources/Core/Controllers/ModifierTriggerController.swift:165-196 | Leaves exactly what `ModifierTriggerMachine.KeyDownStep` describes |
| ModifierTriggers.ModifierTriggerController.HandleKeyUp | App/Sources/Core/Controllers/ModifierTriggerController.swift:198-237 | Leaves exactly what `ModifierTriggerMachine.KeyUpStep` describes |
| ModifierTriggers.ModifierTriggerController.Reset | App/Sources/Core/Controllers/ModifierTriggerController.swift:243-248 | Idle, no timer, no current trigger; the cache is kept |
| ModifierTriggers.ModifierTriggerController.StartTimer | App/Sources/Core/Controllers/ModifierTriggerController.swift:250-256 | The work item is due `delay` ms from now and posts the given modifiers |
| ModifierTriggers.ModifierTriggerController.FireTimer | App/Sources/Core/Controllers/ModifierTriggerController.swift:184-189 | Leaves exactly what `ModifierTriggerMachine.Fire` describes |
| ModifierTriggers.ModifierTriggerController.Lookup | App/Sources/Core/Controllers/ModifierTriggerController.swift:259-289 | The loop's answer is `TriggerCache.LookupResult` |
| ModifierTriggers.ModifierTriggerController.LookupBundle | App/Sources/Core/Controllers/ModifierTriggerController.swift:270-285 | The inner loop's answer is the first hit among the scope's plain key and mode keys |
| ModifierTriggerEventHandler.FlagsOf | App/Sources/Core/Controllers/ModifierTriggerEventHandler.swift:20-29 | The union of the modifiers' masks holds exactly the masks of the listed modifiers |
| ModifierTriggerEventHandler.DecoratedAddsModifiers | App/Sources/Core/Controllers/ModifierTriggerEventHandler.swift:20-29 | Decorating keeps the event's flags, adds every listed modifier's mask, adds nothing else and changes nothing else |
| ModifierTriggerEventHandler.DecoratedIdempotent | App/Sources/Core/Controllers/ModifierTriggerEventHandler.swift:20-29 | Decorating twice with the same modifiers is decorating once |
| ModifierTriggerEventHandler.FlagsChangedPosts | App/Sources/Core/Controllers/ModifierTriggerEventHandler.swift:78-88 | One flags-changed event per modifier, in order, with that modifier's key code and the non-coalesced mask plus all the modifiers' masks |
| ModifierTriggerEventHandler.ModifierTriggerMachPortCoordinator.Set | App/Sources/Core/Controllers/ModifierTriggerEventHandler.swift:13-17 | Only the event's key code changes, to the key's |
| ModifierTriggerEventHandler.ModifierTriggerMachPortCoordinator.DecorateEvent | App/Sources/Core/Controllers/ModifierTriggerEventHandler.swift:20-29 | The event's flags gain the modifiers' masks |
| ModifierTriggerEventHandler.ModifierTriggerMachPortCoordinator.DiscardSystemEvent | App/Sources/Core/Controllers/ModifierTriggerEventHandler.swift:32-36 | The event is no longer delivered |
| ModifierTriggerEventHandler.ModifierTriggerMachPortCoordinator.Post | App/Sources/Core/Controllers/ModifierTriggerEventHandler.swift:39-44 | Posts a key-down then a key-up of the key, both non-coalesced |
| ModifierTriggerEventHandler.ModifierTriggerMachPortCoordinator.PostKeyDown | App/Sources/Core/Controllers/ModifierTriggerEventHandler.swift:47-51 | Posts one key-up of the key, as written |
| ModifierTriggerEventHandler.ModifierTriggerMachPortCoordinator.PostKeyUp | App/Sources/Core/Controllers/ModifierTriggerEventHandler.swift:54-58 | Posts one key-up of the key |
| ModifierTriggerEventHandler.ModifierTriggerMachPortCoordinator.PostModifiers | App/Sources/Core/Controllers/ModifierTriggerEventHandler.swift:61-69 | Posts one flags-changed event of the key. It carries the given flags, or the non-coalesced mask when none are given, with the modifiers' masks added |
| ModifierTriggerEventHandler.ModifierTriggerMachPortCoordinator.PostEvent | App/Sources/Core/Controllers/ModifierTriggerEventHandler.swift:72-75 | Reposts the event as it is |
| ModifierTriggerEventHandler.ModifierTriggerMachPortCoordinator.PostFlagsChanged | App/Sources/Core/Controllers/ModifierTriggerEventHandler.swift:78-88 | Appends exactly `FlagsChangedPosts` to the port's posts |
| ModifierTriggerEventHandler.ModifierTriggerMachPortCoordinator.UnionFlags | App/Sources/Core/Controllers/ModifierTriggerEventHandler.swift:78-82 | The accumulated flags are the non-coalesced mask joined with exactly the modifiers' masks |
| ModifierTriggerEventHandler.ModifierTriggerMachPortCoordinator.PostMaskNonCoalesced | App/Sources/Core/Controllers/ModifierTriggerEventHandler.swift:91-95 | Posts one flags-only event with the non-coalesced mask |
| ModifierTriggerEventHandler.ModifierTriggerMachPortCoordinator.SetMaskNonCoalesced | App/Sources/Core/Controllers/ModifierTriggerEventHandler.swift:98-103 | The event's flags become exactly the non-coalesced mask |
| MachPort.SetResult | App/Sources/Core/MachPort/LeaderKeyCoordinator.swift:211-215 | Rewriting key code and type acts only on a still-delivered event and changes nothing else |
| LeaderKeyMachine.Condition | App/Sources/Core/MachPort/LeaderKeyCoordinator.swift:167-176 | An applicable hold duration is always positive |
| LeaderKeyMachine.ConditionIff | App/Sources/Core/MachPort/LeaderKeyCoordinator.swift:167-176 | A partial match is applicable exactly when its workflow has hold-for-delay, a keyboard-shortcut trigger with a positive hold duration, and a raw value other than the default |
| LeaderKeyMachine.IsLeaderCases | App/Sources/Core/MachPort/LeaderKeyCoordinator.swift:44-52 | An event is the leader when its key code and flags equal the leader's, or the previous leader's when there is no leader, and never when there is neither |
| LeaderKeyMachine.PostKeyDownAndUpShape | App/Sources/Core/MachPort/LeaderKeyCoordinator.swift:201-208 | A replay always ends with a key-up of the event's code and flags; a delivered event becomes the key-down itself, a swallowed one gets a posted key-down |
| LeaderKeyMachine.ResetClears | App/Sources/Core/MachPort/LeaderKeyCoordinator.swift:178-184 | Reset leaves idle with no timer and no leaders, keeps the substitutions, and satisfies the invariant |
| LeaderKeyMachine.InitialConsistent | App/Sources/Core/MachPort/LeaderKeyCoordinator.swift:26-42 | The initial coordinator satisfies the invariant: idle means no leaders and no timer; the sub-mode has a leader and a positive hold duration; a pending timer escalates with the sub-mode's hold duration |
| LeaderKeyMachine.HandleConsistent | App/Sources/Core/MachPort/LeaderKeyCoordinator.swift:54-84 | Every handled event preserves that invariant |
| LeaderKeyMachine.FireConsistent | App/Sources/Core/MachPort/LeaderKeyCoordinator.swift:120-125 | The firing timer preserves that invariant |
| LeaderKeyMachine.IdleStepConsistent | App/Sources/Core/MachPort/LeaderKeyCoordinator.swift:88-99 | Entering the sub-mode from idle keeps the invariant |
| LeaderKeyMachine.SubModeStepConsistent | App/Sources/Core/MachPort/LeaderKeyCoordinator.swift:61-83 | Every step inside the sub-mode, with or without hand-off, keeps the invariant |
| LeaderKeyMachine.DispatchLeaders | App/Sources/Core/MachPort/LeaderKeyCoordinator.swift:72-80 | A step inside the sub-mode keeps both leader slots, or resets to idle with both cleared |
| LeaderKeyMachine.IdleEntry | App/Sources/Core/MachPort/LeaderKeyCoordinator.swift:88-99 | In idle the call is handled exactly when the partial match is applicable; then the event becomes the swallowed leader, the sub-mode starts in fallback, and a non-repeat arms the timer at least 125 ms ahead; otherwise nothing changes |
| LeaderKeyMachine.EventStateGuard | App/Sources/Core/MachPort/LeaderKeyCoordinator.swift:61-83 | In the sub-mode, a lost leader resets and returns false, otherwise the call returns true; a timer survives only when a fresh key-down or flags-changed event armed it and was swallowed |
| LeaderKeyMachine.HandOff | App/Sources/Core/MachPort/LeaderKeyCoordinator.swift:67-73 | A new applicable key-down replays the old leader once and becomes the swallowed leader, with the old one as previous leader, and arms the timer |
| LeaderKeyMachine.HandOffFlush | App/Sources/Core/MachPort/LeaderKeyCoordinator.swift:61-80 | On a hand-off of any event type, the posts begin with exactly one flush of the old leader. For any type but key-up nothing else is posted, the event is the new leader and the flushed old leader is the previous leader. A key-up hand-off releases the new leader at once and resets the machine |
| LeaderKeyMachine.RepeatIgnored | App/Sources/Core/MachPort/LeaderKeyCoordinator.swift:105 | A repeat in the sub-mode changes nothing but the cancelled timer |
| LeaderKeyMachine.FallbackSubstitution | App/Sources/Core/MachPort/LeaderKeyCoordinator.swift:107-116 | In fallback, another key's press records leader code to that key, becomes a swallowed key-up of the leader's code, and leaves the timer cancelled |
| LeaderKeyMachine.LeaderArmsTimer | App/Sources/Core/MachPort/LeaderKeyCoordinator.swift:118-127 | The leader's own press is swallowed and arms the timer no sooner than both 125 ms and the hold duration |
| LeaderKeyMachine.FireEscalates | App/Sources/Core/MachPort/LeaderKeyCoordinator.swift:120-125 | A due timer escalates to leader with its hold duration and notifies once; an early or cancelled one does nothing |
| LeaderKeyMachine.FallbackRelease | App/Sources/Core/MachPort/LeaderKeyCoordinator.swift:136-145 | The leader's release in fallback replays the recorded substitute and drops it, or else replays the leader; it notifies the sub-mode and resets |
| LeaderKeyMachine.LeaderRelease | App/Sources/Core/MachPort/LeaderKeyCoordinator.swift:146-157 | The leader's release in leader replays it exactly when released before the hold duration; it resets and notifies nil and resignation, in that order |
| LeaderKeyMachine.SubstituteRelease | App/Sources/Core/MachPort/LeaderKeyCoordinator.swift:159-164 | Releasing the recorded substitute replays it and leaves the sub-mode going |
| LeaderKeyMachine.LeaderTap | App/Sources/Core/MachPort/LeaderKeyCoordinator.swift:88-145 | A leader pressed and released with nothing in between is swallowed and then delivered as a key-down, with a posted key-up; the sub-mode ends with one notification |
| LeaderKeys.LeaderKeyCoordinator.constructor | App/Sources/Core/MachPort/LeaderKeyCoordinator.swift:39-42 | Starts idle, with no leaders, no timer and no substitutions |
| LeaderKeys.LeaderKeyCoordinator.IsLeader | App/Sources/Core/MachPort/LeaderKeyCoordinator.swift:44-52 | Answers `LeaderKeyMachine.IsLeaderEvent` on the current leader objects |
| LeaderKeys.LeaderKeyCoordinator.SetLeaderEvent | App/Sources/Core/MachPort/LeaderKeyCoordinator.swift:32-36 | The new leader is set and the old leader becomes the previous leader |
| LeaderKeys.LeaderKeyCoordinator.HandlePartialMatchIfApplicable | App/Sources/Core/MachPort/LeaderKeyCoordinator.swift:54-84 | Leaves exactly the state, leader objects, event, posts, notifications and return value of `LeaderKeyMachine.Handle` |
| LeaderKeys.LeaderKeyCoordinator.HandleEvent | App/Sources/Core/MachPort/LeaderKeyCoordinator.swift:61-83 | The sub-mode branch leaves what `LeaderKeyMachine.Handle` describes |
| LeaderKeys.LeaderKeyCoordinator.TakeOver | App/Sources/Core/MachPort/LeaderKeyCoordinator.swift:67-80 | With a hand-off, leaves what `LeaderKeyMachine.SubModeStep` describes: the old leader replayed, the event the leader as the callback leaves it |
| LeaderKeys.LeaderKeyCoordinator.Stay | App/Sources/Core/MachPort/LeaderKeyCoordinator.swift:72-80 | Without a hand-off, leaves what `LeaderKeyMachine.SubModeStep` describes |
| LeaderKeys.LeaderKeyCoordinator.HandOff | App/Sources/Core/MachPort/LeaderKeyCoordinator.swift:67-70 | The old leader object is replayed and the event becomes the leader |
| LeaderKeys.LeaderKeyCoordinator.Dispatch | App/Sources/Core/MachPort/LeaderKeyCoordinator.swift:72-80 | The branch on the event type leaves what `LeaderKeyMachine.Dispatch` describes |
| LeaderKeys.LeaderKeyCoordinator.HandleIdle | App/Sources/Core/MachPort/LeaderKeyCoordinator.swift:88-99 | Leaves exactly what `LeaderKeyMachine.IdleStep` describes |
| LeaderKeys.LeaderKeyCoordinator.HandleKeyDown | App/Sources/Core/MachPort/LeaderKeyCoordinator.swift:101-128 | Leaves exactly what `LeaderKeyMachine.KeyDownStep` describes; the leader objects are not touched |
| LeaderKeys.LeaderKeyCoordinator.HandleKeyUp | App/Sources/Core/MachPort/LeaderKeyCoordinator.swift:130-165 | Leaves exactly what `LeaderKeyMachine.KeyUpStep` describes, including the order of the delegate calls |
| LeaderKeys.LeaderKeyCoordinator.ReleaseFallback | App/Sources/Core/MachPort/LeaderKeyCoordinator.swift:136-145 | Leaves what `LeaderKeyMachine.FallbackReleaseStep` describes: substitute or leader replayed, one notification, reset |
| LeaderKeys.LeaderKeyCoordinator.ReleaseLeader | App/Sources/Core/MachPort/LeaderKeyCoordinator.swift:146-157 | Leaves what `LeaderKeyMachine.LeaderReleaseStep` describes: replay only before the hold duration, reset, two notifications |
| LeaderKeys.LeaderKeyCoordinator.Reset | App/Sources/Core/MachPort/LeaderKeyCoordinator.swift:178-184 | Idle, no timer, no leaders; the substitutions and the event time are kept |
| LeaderKeys.LeaderKeyCoordinator.StartTimer | App/Sources/Core/MachPort/LeaderKeyCoordinator.swift:190-195 | The work item is due `delay` ms from now |
| LeaderKeys.LeaderKeyCoordinator.PostKeyDownAndUp | App/Sources/Core/MachPort/LeaderKeyCoordinator.swift:201-208 | Leaves the event and posts of `LeaderKeyMachine.PostKeyDownAndUp`, and no notification |
| LeaderKeys.LeaderKeyCoordinator.FireTimer | App/Sources/Core/MachPort/LeaderKeyCoordinator.swift:120-125 | Leaves exactly what `LeaderKeyMachine.Fire` describes |

## Left out

- Clock, frontmost application and user modes: `DispatchTime.now()`, `NSWorkspace.shared.frontmostApplication` and `UserSpace.shared.userModes` become the parameters `now`, `frontmost` and `modes`.
- Dispatch queues: `DispatchQueue.main.asyncAfter` is replaced by a pending-timer field and an explicit `FireTimer(now)` / `Fire(m, now)` step. Cancelling a work item clears that field. A timer that has fired is cleared so it cannot fire twice. The source's `[weak self]` guards are not modelled.
- Floating point: timestamps and hold durations are integer milliseconds. A hold duration `d` is the source's `d * 1000`, and `convertTimestampToMilliseconds` is left out.
- The event tap's delivery slot (`MachPortEvent.result`) is modelled as a flag saying whether the event itself is still delivered. Rewriting through the slot rewrites the event.
- MachPort.MachPortEvent: the library type is not part of this model, and two assumptions are made about it. (a) `keyCode` and `flags` are live reads of the underlying event, so a rewrite with `setIntegerValueField` shows in later reads, while `type` is fixed when the event is created. (b) Every tap callback gets a fresh event object, distinct from the stored leader and previous leader.
- LeaderKeyMachine.FallbackReleaseStep: relies on assumption (a) above. After the substitute rewrite at LeaderKeyCoordinator.swift:137-139, the posted key-up carries the substitute's code. If the library stored `keyCode` at creation, the source would post the leader's code instead.
- LeaderKeys.LeaderKeyCoordinator.HandlePartialMatchIfApplicable: relies on assumption (b) above, stated as `requires e != leaderEvent && e != previousLeader`. Re-delivering the same event object is not modelled.
- Models.Kind: a `.key` role holds a `ResolvedKey`, so a trigger whose alone or held-down key has no key code cannot be expressed. The source caches such a trigger, since only the trigger's own key is checked (ModifierTriggerController.swift:118). It then traps on `key.keyCode!` (ModifierTriggerEventHandler.swift:14, 40-41) at the first press. The model does not capture that crash.
- ModifierTriggerMachine.HandleResolvable: proves only that the current trigger's own key resolves. That the role keys resolve is given by `Models.Kind`'s type, not proved, so the crash path above is outside the model.
- `try?` on posting: a post that fails is not modelled. Every post is appended to the port's log.
- `CGEventSignature.id`, `KeyShortcut.keyCode` lookup, `cgEventFlags` and `UserMode.dictionaryKey` are abstract: signatures are (key code, flags) pairs and mode keys are given as strings.
- TriggerCache.CreateKey: the key is a tuple, not the concatenated string. Distinct string keys that collide (bundle identifiers or mode keys with dots in contrived places) are therefore not modelled.
- The `id` field of `ModifierTrigger` is not read by the core and is left out.
- `subscribe(to:)` and its Combine subscription are left out: rebuilding the cache is a direct call to `Cache(groups)`.
- The `machPort` setter that creates the coordinator is not modelled: the coordinator is fixed at construction.
- The delegate's weak reference is not modelled: a present delegate records its calls, and without one notifications are dropped. Without a mach port, leader posts are dropped.
- Debug logging (`debugModifier`, `debug`, commented-out observers) is left out.
