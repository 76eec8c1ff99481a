/**
 * `ModifierTriggerMachPortCoordinator`: the stateless facade the modifier-trigger
 * controller uses to rewrite, decorate or swallow the in-flight event and to inject
 * synthetic events. The pure functions below say what each operation produces; the
 * class performs it on a `MachPortEvent` and a `MachPortEventController`.
 */
module ModifierTriggerEventHandler {
  import opened Wrappers
  import opened MachPort
  import opened Models

  /** The union of the masks of `modifiers`, accumulated left to right as the `forEach` loops do. */
  function FlagsOf(modifiers: seq<ModifierKey>): (r: Flags)
    ensures forall f :: f in r <==> exists i :: 0 <= i < |modifiers| && f == FlagOf(modifiers[i])
  {
    if |modifiers| == 0 then {}
    else FlagsOf(modifiers[..|modifiers| - 1]) + {FlagOf(modifiers[|modifiers| - 1])}
  }

  lemma FlagsOfSnoc(modifiers: seq<ModifierKey>, i: nat)
    requires i < |modifiers|
    ensures FlagsOf(modifiers[..i + 1]) == FlagsOf(modifiers[..i]) + {FlagOf(modifiers[i])}
  {
    assert modifiers[..i + 1][..i] == modifiers[..i];
  }

  /** The event after `decorateEvent(_:with:)`. */
  function Decorated(ev: EventView, modifiers: seq<ModifierKey>): EventView {
    ev.(flags := ev.flags + FlagsOf(modifiers))
  }

  /** The event after `discardSystemEvent(on:)`. */
  function Discarded(ev: EventView): EventView {
    ev.(delivered := false)
  }

  /** Decorating keeps the flags the event had, adds exactly the modifiers' masks, and nothing else changes. */
  lemma DecoratedAddsModifiers(ev: EventView, modifiers: seq<ModifierKey>)
    ensures var d := Decorated(ev, modifiers);
      && ev.flags <= d.flags
      && (forall i :: 0 <= i < |modifiers| ==> FlagOf(modifiers[i]) in d.flags)
      && (forall f :: f in d.flags && f !in ev.flags ==> exists i :: 0 <= i < |modifiers| && f == FlagOf(modifiers[i]))
      && d.(flags := ev.flags) == ev
  {
  }

  /** Decorating twice with the same modifiers is the same as decorating once. */
  lemma DecoratedIdempotent(ev: EventView, modifiers: seq<ModifierKey>)
    ensures Decorated(Decorated(ev, modifiers), modifiers) == Decorated(ev, modifiers)
  {
  }

  /** `post(_ key:)`: a key-down and a key-up of the key, both with the neutral mask. */
  function KeyTap(key: ResolvedKey): seq<Posted> {
    [Synthetic(CodeOf(key), KeyDown, MaskNonCoalesced), Synthetic(CodeOf(key), KeyUp, MaskNonCoalesced)]
  }

  /** `postFlagsChanged(modifiers:)`: one flags-changed per modifier, each carrying the full union. */
  function FlagsChangedPosts(modifiers: seq<ModifierKey>): (r: seq<Posted>)
    ensures |r| == |modifiers|
    ensures forall i :: 0 <= i < |modifiers| ==>
      r[i] == Synthetic(ModifierKeyCode(modifiers[i]), FlagsChanged, MaskNonCoalesced + FlagsOf(modifiers))
  {
    seq(|modifiers|, i requires 0 <= i < |modifiers| =>
      Synthetic(ModifierKeyCode(modifiers[i]), FlagsChanged, MaskNonCoalesced + FlagsOf(modifiers)))
  }

  class ModifierTriggerMachPortCoordinator {
    const machPort: MachPortEventController

    constructor (machPort: MachPortEventController)
      ensures this.machPort == machPort
    {
      this.machPort := machPort;
    }

    /** `set(_:on:)`: rewrites the event's key code and nothing else. */
    method Set(key: ResolvedKey, e: MachPortEvent)
      modifies e
      ensures e.View() == old(e.View()).(keyCode := CodeOf(key))
    {
      e.keyCode := CodeOf(key);
    }

    /**
     * `decorateEvent(_:with:)`: inserts every modifier's mask into the event's flags.
     * The source inserts into `event.flags` and into the delivered `result`; here both
     * are the same event.
     */
    method DecorateEvent(e: MachPortEvent, modifiers: seq<ModifierKey>)
      modifies e
      ensures e.View() == Decorated(old(e.View()), modifiers)
    {
      var i := 0;
      while i < |modifiers|
        invariant 0 <= i <= |modifiers|
        invariant e.View() == old(e.View()).(flags := old(e.flags) + FlagsOf(modifiers[..i]))
      {
        FlagsOfSnoc(modifiers, i);
        e.flags := e.flags + {FlagOf(modifiers[i])};
        i := i + 1;
      }
      assert modifiers[..i] == modifiers;
    }

    /** `discardSystemEvent(on:)`: empties the delivery slot, so the OS never sees the event. */
    method DiscardSystemEvent(e: MachPortEvent)
      modifies e
      ensures e.View() == Discarded(old(e.View()))
    {
      e.delivered := false;
    }

    /** `post(_ key:)`: a key-down then a key-up of `key`. */
    method Post(key: ResolvedKey)
      modifies machPort
      ensures machPort.posted == old(machPort.posted) + KeyTap(key)
    {
      machPort.Post(CodeOf(key), KeyDown, MaskNonCoalesced);
      machPort.Post(CodeOf(key), KeyUp, MaskNonCoalesced);
    }

    /** `postKeyDown(_:)`: as written, it posts a key-up, not a key-down. */
    method PostKeyDown(key: ResolvedKey)
      modifies machPort
      ensures machPort.posted == old(machPort.posted) + [Synthetic(CodeOf(key), KeyUp, MaskNonCoalesced)]
    {
      machPort.Post(CodeOf(key), KeyUp, MaskNonCoalesced);
    }

    /** `postKeyUp(_:)`: a single key-up. */
    method PostKeyUp(key: ResolvedKey)
      modifies machPort
      ensures machPort.posted == old(machPort.posted) + [Synthetic(CodeOf(key), KeyUp, MaskNonCoalesced)]
    {
      machPort.Post(CodeOf(key), KeyUp, MaskNonCoalesced);
    }

    /** `post(_:modifiers:flags:)`: one flags-changed of `key` carrying the given flags (or the neutral mask) and the modifiers. */
    method PostModifiers(key: ResolvedKey, modifiers: seq<ModifierKey>, flags: Option<Flags>)
      modifies machPort
      ensures machPort.posted == old(machPort.posted) +
        [Synthetic(CodeOf(key), FlagsChanged, flags.GetOr(MaskNonCoalesced) + FlagsOf(modifiers))]
    {
      var accumulated := flags.GetOr(MaskNonCoalesced);
      var i := 0;
      while i < |modifiers|
        invariant 0 <= i <= |modifiers|
        invariant accumulated == flags.GetOr(MaskNonCoalesced) + FlagsOf(modifiers[..i])
        invariant machPort.posted == old(machPort.posted)
      {
        FlagsOfSnoc(modifiers, i);
        accumulated := accumulated + {FlagOf(modifiers[i])};
        i := i + 1;
      }
      assert modifiers[..i] == modifiers;
      machPort.Post(CodeOf(key), FlagsChanged, accumulated);
    }

    /** `post(_ machPortEvent:)`: hands the event itself to the injection primitive. */
    method PostEvent(e: MachPortEvent)
      modifies machPort
      ensures machPort.posted == old(machPort.posted) + [Reposted(e.View())]
    {
      machPort.PostEvent(e);
    }

    /** The first loop of `postFlagsChanged(modifiers:)`: the non-coalesced mask joined with every modifier's mask. */
    method UnionFlags(modifiers: seq<ModifierKey>) returns (flags: Flags)
      ensures flags == MaskNonCoalesced + FlagsOf(modifiers)
    {
      flags := MaskNonCoalesced;
      var i := 0;
      while i < |modifiers|
        invariant 0 <= i <= |modifiers|
        invariant flags == MaskNonCoalesced + FlagsOf(modifiers[..i])
      {
        FlagsOfSnoc(modifiers, i);
        flags := flags + {FlagOf(modifiers[i])};
        i := i + 1;
      }
      assert modifiers[..i] == modifiers;
    }

    /** `postFlagsChanged(modifiers:)`: accumulates the union of the masks, then posts one flags-changed per modifier. */
    method PostFlagsChanged(modifiers: seq<ModifierKey>)
      modifies machPort
      ensures machPort.posted == old(machPort.posted) + FlagsChangedPosts(modifiers)
    {
      var flags := UnionFlags(modifiers);
      ghost var posts := FlagsChangedPosts(modifiers);
      var j := 0;
      while j < |modifiers|
        invariant 0 <= j <= |modifiers|
        invariant machPort.posted == old(machPort.posted) + posts[..j]
      {
        machPort.Post(ModifierKeyCode(modifiers[j]), FlagsChanged, flags);
        assert posts[..j + 1] == posts[..j] + [posts[j]];
        j := j + 1;
      }
      assert posts[..j] == posts;
    }

    /** `postMaskNonCoalesced()`: one neutral flags event, which releases asserted modifiers. */
    method PostMaskNonCoalesced()
      modifies machPort
      ensures machPort.posted == old(machPort.posted) + [FlagsOnly(MaskNonCoalesced)]
    {
      machPort.PostFlags(MaskNonCoalesced);
    }

    /** `setMaskNonCoalesced(on:)`: replaces the event's flags by the neutral mask (no union). */
    method SetMaskNonCoalesced(e: MachPortEvent)
      modifies e
      ensures e.View() == old(e.View()).(flags := MaskNonCoalesced)
    {
      e.flags := MaskNonCoalesced;
    }
  }
}
