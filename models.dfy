/**
 * The configuration values the remapping engine reads: key shortcuts, modifier
 * triggers and the workflow groups they come from. Their Swift definitions
 * (`KeyShortcut`, `ModifierTrigger`, `Workflow`, `WorkflowGroup`, `PartialMatch`)
 * are in files that are not part of this model; only the fields the engine
 * reads are kept.
 */
module Models {
  import opened Wrappers
  import opened MachPort

  /**
   * A recorded key. `keyCode` is the source's computed `KeyShortcut.keyCode`, which
   * is nil when the key cannot be resolved to a virtual key code.
   */
  datatype KeyShortcut = KeyShortcut(key: string, keyCode: Option<int>)

  /** A key whose key code resolves; the engine force-unwraps those it posts. */
  type ResolvedKey = k: KeyShortcut | k.keyCode.Some? witness KeyShortcut("", Some(0))

  /** The code of a resolved key (Swift's `key.keyCode!`). */
  function CodeOf(k: ResolvedKey): int {
    k.keyCode.value
  }

  /** `KeyShortcut.escape` and `KeyShortcut.tab`, with their macOS virtual key codes. */
  const Escape: ResolvedKey := KeyShortcut("⎋", Some(53))
  const Tab: ResolvedKey := KeyShortcut("⇥", Some(48))

  /** `ModifierTrigger.Kind`: remap to one key, or assert a set of modifiers. */
  datatype Kind = Key(key: ResolvedKey) | Modifiers(modifiers: seq<ModifierKey>)

  /** `manipulator.alone`: what a tap does, with its threshold in milliseconds. */
  datatype Alone = Alone(kind: Kind, threshold: nat)

  /** `manipulator.heldDown`: what holding does, with its threshold in milliseconds. */
  datatype HeldDown = HeldDown(kind: Kind, threshold: nat)

  datatype Manipulator = Manipulator(alone: Alone, heldDown: Option<HeldDown>)

  /** A modifier trigger: the physical key it listens to and what it turns into. */
  datatype ModifierTrigger = ModifierTrigger(key: KeyShortcut, manipulator: Manipulator)

  /** The trigger kinds a workflow can have; only the two the engine inspects are told apart. */
  datatype WorkflowTrigger =
    | Modifier(trigger: ModifierTrigger)
    | KeyboardShortcuts(holdDuration: Option<int>)  // hold duration in milliseconds
    | OtherTrigger

  datatype Workflow = Workflow(
    isEnabled: bool,
    trigger: Option<WorkflowTrigger>,
    hasHoldForDelay: bool)          // workflow.machPortConditions.hasHoldForDelay

  datatype Rule = Rule(bundleIdentifiers: seq<string>)

  /** A group of workflows; `userModes` holds the dictionary keys of the group's user modes. */
  datatype WorkflowGroup = WorkflowGroup(
    isDisabled: bool,
    rule: Option<Rule>,
    workflows: seq<Workflow>,
    userModes: seq<string>)

  /** A partial match of the key sequence typed so far, as the shortcut resolver reports it. */
  datatype PartialMatch = PartialMatch(rawValue: string, workflow: Option<Workflow>)
}
