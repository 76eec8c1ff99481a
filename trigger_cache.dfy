/**
 * The trigger cache of `ModifierTriggerController`: how `cache(_:)` fills the table
 * from the workflow groups and how `lookup` searches it. A rebuild is described as
 * the sequence of writes it performs, in the order the nested loops perform them;
 * the controller class is proved to apply exactly this sequence.
 */
module TriggerCache {
  import opened Wrappers
  import opened MachPort
  import opened Models

  /** `CGEventSignature`: the key code and the flags of an event. */
  datatype Signature = Signature(keyCode: int, flags: Flags)

  /**
   * A cache key. The source joins the three parts into the string
   * `bundle + "." + ("." + modeKey, when modeKey is not empty) + signature.id`;
   * keeping the parts assumes that encoding tells different triples apart.
   * An empty `userModeKey` is the key that ignores user modes.
   */
  datatype CacheKey = CacheKey(bundleIdentifier: string, userModeKey: string, signature: Signature)

  /** `createKey(signature:bundleIdentifier:userModeKey:)`. */
  function CreateKey(signature: Signature, bundleIdentifier: string, userModeKey: string): CacheKey {
    CacheKey(bundleIdentifier, userModeKey, signature)
  }

  type Cache = map<CacheKey, ModifierTrigger>

  /** One assignment `cache[key] = trigger`. */
  datatype Write = Write(key: CacheKey, trigger: ModifierTrigger)

  // ---- Concatenating per-element results, in order ----

  /** `f(xs[0]) + f(xs[1]) + ...`, built from the last element so that a loop can extend it. */
  function Concat<A, B>(xs: seq<A>, f: A -> seq<B>): seq<B> {
    if |xs| == 0 then [] else Concat(xs[..|xs| - 1], f) + f(xs[|xs| - 1])
  }

  lemma ConcatSnoc<A, B>(xs: seq<A>, i: nat, f: A -> seq<B>)
    requires i < |xs|
    ensures Concat(xs[..i + 1], f) == Concat(xs[..i], f) + f(xs[i])
  {
    assert xs[..i + 1][..i] == xs[..i];
  }

  lemma {:induction false} ConcatAppend<A, B>(xs: seq<A>, ys: seq<A>, f: A -> seq<B>)
    ensures Concat(xs + ys, f) == Concat(xs, f) + Concat(ys, f)
  {
    if |ys| == 0 {
      assert xs + ys == xs;
    } else {
      ConcatAppend(xs, ys[..|ys| - 1], f);
      assert (xs + ys)[..|xs + ys| - 1] == xs + ys[..|ys| - 1];
    }
  }

  lemma ConcatCons<A, B>(xs: seq<A>, f: A -> seq<B>)
    requires |xs| > 0
    ensures Concat(xs, f) == f(xs[0]) + Concat(xs[1..], f)
  {
    var head := [xs[0]];
    assert head[..0] == [];
    assert Concat(head, f) == Concat(head[..0], f) + f(head[0]);
    assert Concat(head, f) == f(xs[0]);
    ConcatAppend(head, xs[1..], f);
    assert head + xs[1..] == xs;
  }

  lemma {:induction false} ConcatMember<A, B>(xs: seq<A>, f: A -> seq<B>, b: B)
    ensures b in Concat(xs, f) <==> exists i :: 0 <= i < |xs| && b in f(xs[i])
  {
    if |xs| > 0 {
      var init := xs[..|xs| - 1];
      ConcatMember(init, f, b);
      if b in Concat(xs, f) && b !in f(xs[|xs| - 1]) {
        var i :| 0 <= i < |init| && b in f(init[i]);
        assert xs[i] == init[i];
      }
      if exists i :: 0 <= i < |xs| && b in f(xs[i]) {
        var i :| 0 <= i < |xs| && b in f(xs[i]);
        if i < |xs| - 1 {
          assert init[i] == xs[i];
        }
      }
    }
  }

  // ---- The writes a rebuild performs ----

  /** The two demo triggers seeded before any workflow: Escape and Tab, tap to the key itself, hold for a modifier. */
  const EscapeDemo: ModifierTrigger :=
    ModifierTrigger(Escape, Manipulator(Alone(Key(Escape), 100), Some(HeldDown(Modifiers([LeftControl]), 75))))
  const TabDemo: ModifierTrigger :=
    ModifierTrigger(Tab, Manipulator(Alone(Key(Tab), 100), Some(HeldDown(Modifiers([Function]), 75))))

  /** The wildcard-bundle, no-mode key of a plain press of `key`. */
  function DemoKey(key: ResolvedKey): CacheKey {
    CreateKey(Signature(CodeOf(key), MaskNonCoalesced), "*", "")
  }

  function DemoWrites(): seq<Write> {
    [Write(DemoKey(Escape), EscapeDemo), Write(DemoKey(Tab), TabDemo)]
  }

  /** The bundles a group applies to: those of its rule, or the wildcard when it has none. */
  function BundleIdentifiers(g: WorkflowGroup): seq<string> {
    if g.rule.Some? then g.rule.value.bundleIdentifiers else ["*"]
  }

  /** The modifier trigger a workflow contributes, when it is enabled, has one, and its key resolves. */
  function CachedTrigger(w: Workflow): Option<ModifierTrigger> {
    if w.isEnabled && w.trigger.Some? && w.trigger.value.Modifier? && w.trigger.value.trigger.key.keyCode.Some?
    then Some(w.trigger.value.trigger)
    else None
  }

  /** The signature a cached trigger is stored under: its key code with the neutral mask. */
  function TriggerSignature(t: ModifierTrigger): Signature
    requires t.key.keyCode.Some?
  {
    Signature(t.key.keyCode.value, MaskNonCoalesced)
  }

  function ModeWrites(signature: Signature, bundle: string, modes: seq<string>, t: ModifierTrigger): seq<Write> {
    seq(|modes|, j requires 0 <= j < |modes| => Write(CreateKey(signature, bundle, modes[j]), t))
  }

  /** One workflow under one bundle: the no-mode key, then one key per user mode of the group. */
  function WorkflowWrites(bundle: string, modes: seq<string>): Workflow -> seq<Write> {
    w =>
      match CachedTrigger(w)
      case None => []
      case Some(t) =>
        [Write(CreateKey(TriggerSignature(t), bundle, ""), t)] + ModeWrites(TriggerSignature(t), bundle, modes, t)
  }

  /** All workflows of a group under one bundle. */
  function BundleWrites(g: WorkflowGroup): string -> seq<Write> {
    b => Concat(g.workflows, WorkflowWrites(b, g.userModes))
  }

  /** A group: nothing when disabled, otherwise its workflows under each of its bundles. */
  function GroupWrites(g: WorkflowGroup): seq<Write> {
    if g.isDisabled then [] else Concat(BundleIdentifiers(g), BundleWrites(g))
  }

  function UserWrites(groups: seq<WorkflowGroup>): seq<Write> {
    Concat(groups, GroupWrites)
  }

  /** Every write `cache(_:)` performs, in order. */
  function Writes(groups: seq<WorkflowGroup>): seq<Write> {
    DemoWrites() + UserWrites(groups)
  }

  // ---- Applying writes ----

  /** The table after performing `ws` on `m`, one assignment at a time. */
  function ApplyWrites(m: Cache, ws: seq<Write>): Cache {
    if |ws| == 0 then m
    else ApplyWrites(m, ws[..|ws| - 1])[ws[|ws| - 1].key := ws[|ws| - 1].trigger]
  }

  /** The trigger of the last write to `k` in `ws`, if any: a reference definition for the final table. */
  function LastWrite(ws: seq<Write>, k: CacheKey): (r: Option<ModifierTrigger>)
    ensures r.None? <==> forall i :: 0 <= i < |ws| ==> ws[i].key != k
    ensures r.Some? ==> exists i :: 0 <= i < |ws| && ws[i] == Write(k, r.value) &&
                                   forall j :: i < j < |ws| ==> ws[j].key != k
  {
    if |ws| == 0 then None
    else if ws[|ws| - 1].key == k then Some(ws[|ws| - 1].trigger)
    else
      var front := ws[..|ws| - 1];
      assert forall i :: 0 <= i < |front| ==> front[i] == ws[i];
      LastWrite(front, k)
  }

  lemma ApplyWritesSnoc(m: Cache, ws: seq<Write>, w: Write)
    ensures ApplyWrites(m, ws + [w]) == ApplyWrites(m, ws)[w.key := w.trigger]
  {
    assert (ws + [w])[..|ws|] == ws;
  }

  lemma ApplyDemoWrites(m: Cache)
    ensures ApplyWrites(m, DemoWrites()) == m[DemoKey(Escape) := EscapeDemo][DemoKey(Tab) := TabDemo]
  {
    var ws := DemoWrites();
    assert ws[..1][..0] == [];
    assert ApplyWrites(m, ws[..1]) == ApplyWrites(m, ws[..1][..0])[ws[0].key := ws[0].trigger];
    assert ApplyWrites(m, ws) == ApplyWrites(m, ws[..1])[ws[1].key := ws[1].trigger];
  }

  lemma {:induction false} ApplyWritesAppend(m: Cache, a: seq<Write>, b: seq<Write>)
    ensures ApplyWrites(m, a + b) == ApplyWrites(ApplyWrites(m, a), b)
  {
    if |b| == 0 {
      assert a + b == a;
    } else {
      var init := b[..|b| - 1];
      ApplyWritesAppend(m, a, init);
      assert (a + b)[..|a + b| - 1] == a + init;
    }
  }

  /**
   * The table after a sequence of writes: a key is present when it was present
   * before or is written, and holds the last trigger written to it (last write wins)
   * or, when never written, its old trigger.
   */
  lemma {:induction false} ApplyWritesAt(m: Cache, ws: seq<Write>, k: CacheKey)
    ensures k in ApplyWrites(m, ws) <==> k in m || LastWrite(ws, k).Some?
    ensures LastWrite(ws, k).Some? ==> ApplyWrites(m, ws)[k] == LastWrite(ws, k).value
    ensures LastWrite(ws, k).None? && k in m ==> ApplyWrites(m, ws)[k] == m[k]
  {
    if |ws| > 0 {
      ApplyWritesAt(m, ws[..|ws| - 1], k);
    }
  }

  lemma {:induction false} LastWriteAppend(a: seq<Write>, b: seq<Write>, k: CacheKey)
    ensures LastWrite(a + b, k) == if LastWrite(b, k).Some? then LastWrite(b, k) else LastWrite(a, k)
  {
    if |b| == 0 {
      assert a + b == a;
    } else {
      LastWriteAppend(a, b[..|b| - 1], k);
      assert (a + b)[..|a + b| - 1] == a + b[..|b| - 1];
    }
  }

  // ---- Which writes a configuration produces ----

  /**
   * Group `g` stores trigger `w.trigger` under key `w.key`: the group is enabled, the key's
   * bundle is one the group applies to, and some enabled workflow of the group has that
   * modifier trigger, with a resolvable key code matching the key's signature, under the
   * no-mode key or one of the group's user modes.
   */
  ghost predicate Registers(g: WorkflowGroup, w: Write) {
    && !g.isDisabled
    && w.key.bundleIdentifier in BundleIdentifiers(g)
    && (exists wf :: wf in g.workflows && CachedTrigger(wf) == Some(w.trigger))
    && w.trigger.key.keyCode == Some(w.key.signature.keyCode)
    && w.key.signature.flags == MaskNonCoalesced
    && (w.key.userModeKey == "" || w.key.userModeKey in g.userModes)
  }

  lemma WorkflowWritesMember(bundle: string, modes: seq<string>, wf: Workflow, w: Write)
    ensures w in WorkflowWrites(bundle, modes)(wf) <==>
      && CachedTrigger(wf) == Some(w.trigger)
      && w.key.bundleIdentifier == bundle
      && w.trigger.key.keyCode == Some(w.key.signature.keyCode)
      && w.key.signature.flags == MaskNonCoalesced
      && (w.key.userModeKey == "" || w.key.userModeKey in modes)
  {
    var ws := WorkflowWrites(bundle, modes)(wf);
    if CachedTrigger(wf).Some? {
      var t := CachedTrigger(wf).value;
      var ms := ModeWrites(TriggerSignature(t), bundle, modes, t);
      assert ws == [Write(CreateKey(TriggerSignature(t), bundle, ""), t)] + ms;
      if w.key.userModeKey in modes && CachedTrigger(wf) == Some(w.trigger) && w.key.bundleIdentifier == bundle
         && w.trigger.key.keyCode == Some(w.key.signature.keyCode) && w.key.signature.flags == MaskNonCoalesced {
        var j :| 0 <= j < |modes| && modes[j] == w.key.userModeKey;
        assert ms[j] == w;
      }
    }
  }

  /** The writes for one bundle identifier are those of the group's workflows under it. */
  lemma BundleWritesMember(g: WorkflowGroup, b: string, w: Write)
    ensures w in BundleWrites(g)(b) <==> exists wf :: wf in g.workflows && w in WorkflowWrites(b, g.userModes)(wf)
  {
    ConcatMember(g.workflows, WorkflowWrites(b, g.userModes), w);
    if exists wf :: wf in g.workflows && w in WorkflowWrites(b, g.userModes)(wf) {
      var wf :| wf in g.workflows && w in WorkflowWrites(b, g.userModes)(wf);
      var i :| 0 <= i < |g.workflows| && g.workflows[i] == wf;
    }
  }

  lemma GroupWritesMember(g: WorkflowGroup, w: Write)
    ensures w in GroupWrites(g) <==> Registers(g, w)
  {
    if !g.isDisabled {
      var bs := BundleIdentifiers(g);
      ConcatMember(bs, BundleWrites(g), w);
      if w in GroupWrites(g) {
        var i :| 0 <= i < |bs| && w in BundleWrites(g)(bs[i]);
        BundleWritesMember(g, bs[i], w);
        var wf :| wf in g.workflows && w in WorkflowWrites(bs[i], g.userModes)(wf);
        WorkflowWritesMember(bs[i], g.userModes, wf, w);
      }
      if Registers(g, w) {
        var wf :| wf in g.workflows && CachedTrigger(wf) == Some(w.trigger);
        var b := w.key.bundleIdentifier;
        var i :| 0 <= i < |bs| && bs[i] == b;
        WorkflowWritesMember(b, g.userModes, wf, w);
        BundleWritesMember(g, b, w);
        assert w in BundleWrites(g)(bs[i]);
      }
    }
  }

  /** A write happens during a rebuild exactly when some group of the configuration registers it. */
  lemma UserWritesMember(groups: seq<WorkflowGroup>, w: Write)
    ensures w in UserWrites(groups) <==> exists i :: 0 <= i < |groups| && Registers(groups[i], w)
  {
    ConcatMember(groups, GroupWrites, w);
    forall i | 0 <= i < |groups| ensures w in GroupWrites(groups[i]) <==> Registers(groups[i], w) {
      GroupWritesMember(groups[i], w);
    }
  }

  /** Every trigger a rebuild stores has a resolvable key code, equal to the one in its key. */
  lemma WritesResolved(groups: seq<WorkflowGroup>, w: Write)
    requires w in Writes(groups)
    ensures w.trigger.key.keyCode == Some(w.key.signature.keyCode)
  {
    if w !in DemoWrites() {
      assert w in UserWrites(groups);
      UserWritesMember(groups, w);
    }
  }

  /**
   * A table as rebuilds leave it: every stored trigger's key code resolves to the key
   * code of the signature it is stored under, and every signature carries the neutral mask.
   */
  predicate WellFormed(cache: Cache) {
    forall k :: k in cache ==> cache[k].key.keyCode == Some(k.signature.keyCode) && k.signature.flags == MaskNonCoalesced
  }

  /** The key of every cached trigger resolves, so the force-unwraps of the state machine are safe. */
  predicate Resolved(t: ModifierTrigger) {
    t.key.keyCode.Some?
  }

  lemma WellFormedResolved(cache: Cache, k: CacheKey)
    requires WellFormed(cache) && k in cache
    ensures Resolved(cache[k])
  {
  }

  /** A rebuild keeps a well-formed table well-formed. */
  lemma RebuildWellFormed(m: Cache, groups: seq<WorkflowGroup>)
    requires WellFormed(m)
    ensures WellFormed(ApplyWrites(m, Writes(groups)))
  {
    var ws := Writes(groups);
    var r := ApplyWrites(m, ws);
    forall k | k in r
      ensures r[k].key.keyCode == Some(k.signature.keyCode) && k.signature.flags == MaskNonCoalesced
    {
      ApplyWritesAt(m, ws, k);
      if LastWrite(ws, k).Some? {
        var i :| 0 <= i < |ws| && ws[i] == Write(k, LastWrite(ws, k).value) && forall j :: i < j < |ws| ==> ws[j].key != k;
        if i >= 2 {
          assert ws[i] in UserWrites(groups);
          UserWritesMember(groups, ws[i]);
        }
      }
    }
  }

  // ---- What a rebuild leaves in the table ----

  /**
   * After a rebuild from `groups` on table `m`:
   * a key is present exactly when it was present before, is one of the two demo keys,
   * or is registered by some group; nothing is ever removed.
   */
  lemma RebuildKeys(m: Cache, groups: seq<WorkflowGroup>, k: CacheKey)
    ensures k in ApplyWrites(m, Writes(groups)) <==>
      || k in m
      || k == DemoKey(Escape) || k == DemoKey(Tab)
      || exists i, t :: 0 <= i < |groups| && Registers(groups[i], Write(k, t))
  {
    ApplyWritesAt(m, Writes(groups), k);
    var ws := Writes(groups);
    if LastWrite(ws, k).Some? {
      var i :| 0 <= i < |ws| && ws[i] == Write(k, LastWrite(ws, k).value) && forall j :: i < j < |ws| ==> ws[j].key != k;
      if i >= 2 {
        assert ws[i] in UserWrites(groups);
        UserWritesMember(groups, ws[i]);
      }
    }
    if exists i, t :: 0 <= i < |groups| && Registers(groups[i], Write(k, t)) {
      var i, t :| 0 <= i < |groups| && Registers(groups[i], Write(k, t));
      UserWritesMember(groups, Write(k, t));
      var j :| 0 <= j < |UserWrites(groups)| && UserWrites(groups)[j] == Write(k, t);
      assert ws[2 + j].key == k;
    }
    if k == DemoKey(Escape) {
      assert ws[0].key == k;
    }
    if k == DemoKey(Tab) {
      assert ws[1].key == k;
    }
  }

  /** A rebuild keeps every earlier entry: an entry no group registers keeps its old trigger (stale entries survive). */
  lemma RebuildKeepsOldEntries(m: Cache, groups: seq<WorkflowGroup>, k: CacheKey)
    requires k in m
    requires k != DemoKey(Escape) && k != DemoKey(Tab)
    requires forall i, t :: 0 <= i < |groups| ==> !Registers(groups[i], Write(k, t))
    ensures k in ApplyWrites(m, Writes(groups)) && ApplyWrites(m, Writes(groups))[k] == m[k]
  {
    ApplyWritesAt(m, Writes(groups), k);
    var ws := Writes(groups);
    if LastWrite(ws, k).Some? {
      var i :| 0 <= i < |ws| && ws[i] == Write(k, LastWrite(ws, k).value) && forall j :: i < j < |ws| ==> ws[j].key != k;
      assert i >= 2;
      assert ws[i] in UserWrites(groups);
      UserWritesMember(groups, ws[i]);
      assert false;
    }
  }

  /**
   * The demo keys: after a rebuild, each holds the trigger of the last workflow that
   * registers the same key, or the demo trigger when no workflow does.
   */
  lemma RebuildDemoEntries(m: Cache, groups: seq<WorkflowGroup>)
    ensures var r := ApplyWrites(m, Writes(groups));
      && DemoKey(Escape) in r && DemoKey(Tab) in r
      && r[DemoKey(Escape)] == LastWrite(UserWrites(groups), DemoKey(Escape)).GetOr(EscapeDemo)
      && r[DemoKey(Tab)] == LastWrite(UserWrites(groups), DemoKey(Tab)).GetOr(TabDemo)
  {
    var us := UserWrites(groups);
    LastWriteAppend(DemoWrites(), us, DemoKey(Escape));
    LastWriteAppend(DemoWrites(), us, DemoKey(Tab));
    ApplyWritesAt(m, Writes(groups), DemoKey(Escape));
    ApplyWritesAt(m, Writes(groups), DemoKey(Tab));
    assert LastWrite(DemoWrites(), DemoKey(Escape)) == Some(EscapeDemo);
    assert LastWrite(DemoWrites(), DemoKey(Tab)) == Some(TabDemo);
  }

  /** With no workflow registering the Escape or Tab key, a rebuild leaves the demo triggers there. */
  lemma RebuildWithoutOverridesKeepsDemo(m: Cache, groups: seq<WorkflowGroup>)
    requires forall i, w :: 0 <= i < |groups| && Registers(groups[i], w) ==>
      w.key != DemoKey(Escape) && w.key != DemoKey(Tab)
    ensures var r := ApplyWrites(m, Writes(groups));
      DemoKey(Escape) in r && r[DemoKey(Escape)] == EscapeDemo &&
      DemoKey(Tab) in r && r[DemoKey(Tab)] == TabDemo
  {
    RebuildDemoEntries(m, groups);
    var us := UserWrites(groups);
    forall j | 0 <= j < |us| ensures us[j].key != DemoKey(Escape) && us[j].key != DemoKey(Tab) {
      UserWritesMember(groups, us[j]);
    }
  }

  // ---- Lookup ----

  /** The bundles `lookup` tries: the frontmost application's, then the wildcard. */
  function Bundles(frontmost: Option<string>): seq<string> {
    if frontmost.Some? then [frontmost.value, "*"] else ["*"]
  }

  /** The keys tried for one bundle: the no-mode key, then one per active user mode, in order. */
  function BundleCandidates(signature: Signature, modes: seq<string>): string -> seq<CacheKey> {
    b => [CreateKey(signature, b, "")] + seq(|modes|, j requires 0 <= j < |modes| => CreateKey(signature, b, modes[j]))
  }

  /** All keys `lookup` tries, in order. */
  function Candidates(signature: Signature, bundles: seq<string>, modes: seq<string>): seq<CacheKey> {
    Concat(bundles, BundleCandidates(signature, modes))
  }

  /** The trigger under the first of `keys` that is in the table, if any. */
  function FirstHit(cache: Cache, keys: seq<CacheKey>): (r: Option<ModifierTrigger>)
    ensures r.None? <==> forall i :: 0 <= i < |keys| ==> keys[i] !in cache
    ensures r.Some? ==> exists i :: 0 <= i < |keys| && keys[i] in cache && r.value == cache[keys[i]] &&
                                   forall j :: 0 <= j < i ==> keys[j] !in cache
  {
    if |keys| == 0 then None
    else if keys[0] in cache then Some(cache[keys[0]])
    else
      var r := FirstHit(cache, keys[1..]);
      assert forall i :: 1 <= i < |keys| ==> keys[1..][i - 1] == keys[i];
      r
  }

  lemma {:induction false} FirstHitAppend(cache: Cache, a: seq<CacheKey>, b: seq<CacheKey>)
    ensures FirstHit(cache, a + b) == if FirstHit(cache, a).Some? then FirstHit(cache, a) else FirstHit(cache, b)
  {
    if |a| > 0 {
      assert (a + b)[0] == a[0];
      assert (a + b)[1..] == a[1..] + b;
      FirstHitAppend(cache, a[1..], b);
    } else {
      assert a + b == b;
    }
  }

  /** Skipping a key that is not in the table does not change the first hit. */
  lemma FirstHitSkip(cache: Cache, keys: seq<CacheKey>, j: nat)
    requires j < |keys| && keys[j] !in cache
    ensures FirstHit(cache, keys[j..]) == FirstHit(cache, keys[j + 1..])
  {
    assert keys[j..][1..] == keys[j + 1..];
  }

  /** The first hit over the keys of several bundles: the first bundle's, or else the rest's. */
  lemma FirstHitBundles(cache: Cache, signature: Signature, modes: seq<string>, bundles: seq<string>)
    requires |bundles| > 0
    ensures var bc := BundleCandidates(signature, modes);
      FirstHit(cache, Concat(bundles, bc)) ==
        if FirstHit(cache, bc(bundles[0])).Some? then FirstHit(cache, bc(bundles[0])) else FirstHit(cache, Concat(bundles[1..], bc))
  {
    var bc := BundleCandidates(signature, modes);
    ConcatCons(bundles, bc);
    FirstHitAppend(cache, bc(bundles[0]), Concat(bundles[1..], bc));
  }

  /** What `lookup` returns for `signature` with the given frontmost bundle and active user modes. */
  function LookupResult(cache: Cache, signature: Signature, frontmost: Option<string>, modes: seq<string>): Option<ModifierTrigger> {
    FirstHit(cache, Candidates(signature, Bundles(frontmost), modes))
  }

  /** The first hit among the keys tried for bundle `b`. */
  function BundleHit(cache: Cache, signature: Signature, modes: seq<string>, b: string): Option<ModifierTrigger> {
    FirstHit(cache, BundleCandidates(signature, modes)(b))
  }

  lemma CandidatesOfBundles(signature: Signature, frontmost: Option<string>, modes: seq<string>)
    ensures var bc := BundleCandidates(signature, modes);
      Candidates(signature, Bundles(frontmost), modes) ==
        if frontmost.Some? then bc(frontmost.value) + bc("*") else bc("*")
  {
    var bc := BundleCandidates(signature, modes);
    var bs := Bundles(frontmost);
    ConcatSnoc(bs, 0, bc);
    assert bs[..0] == [];
    assert [] + bc(bs[0]) == bc(bs[0]);
    if frontmost.Some? {
      ConcatSnoc(bs, 1, bc);
      assert bs[..2] == bs;
    } else {
      assert bs[..1] == bs;
    }
  }

  /**
   * Search order: the frontmost bundle's keys (no mode first, then each active mode)
   * are all tried before any wildcard key; without a frontmost bundle only the
   * wildcard keys are tried.
   */
  lemma LookupOrder(cache: Cache, signature: Signature, frontmost: Option<string>, modes: seq<string>)
    ensures LookupResult(cache, signature, frontmost, modes) ==
      if frontmost.Some? && BundleHit(cache, signature, modes, frontmost.value).Some?
      then BundleHit(cache, signature, modes, frontmost.value)
      else BundleHit(cache, signature, modes, "*")
  {
    CandidatesOfBundles(signature, frontmost, modes);
    if frontmost.Some? {
      var bc := BundleCandidates(signature, modes);
      FirstHitAppend(cache, bc(frontmost.value), bc("*"));
    }
  }

  /** Within one bundle, the no-mode key wins over every user-mode key, and the modes are tried in order. */
  lemma BundleLookupOrder(cache: Cache, signature: Signature, modes: seq<string>, b: string)
    ensures var r := FirstHit(cache, BundleCandidates(signature, modes)(b));
      && (CreateKey(signature, b, "") in cache ==> r == Some(cache[CreateKey(signature, b, "")]))
      && (forall j :: 0 <= j < |modes| && CreateKey(signature, b, modes[j]) in cache &&
            CreateKey(signature, b, "") !in cache &&
            (forall j' :: 0 <= j' < j ==> CreateKey(signature, b, modes[j']) !in cache)
            ==> r == Some(cache[CreateKey(signature, b, modes[j])]))
  {
    var keys := BundleCandidates(signature, modes)(b);
    forall j | 0 <= j < |modes| && CreateKey(signature, b, modes[j]) in cache &&
            CreateKey(signature, b, "") !in cache &&
            (forall j' :: 0 <= j' < j ==> CreateKey(signature, b, modes[j']) !in cache)
      ensures FirstHit(cache, keys) == Some(cache[CreateKey(signature, b, modes[j])])
    {
      var r := FirstHit(cache, keys);
      assert keys[j + 1] in cache;
      var i :| 0 <= i < |keys| && keys[i] in cache && r.value == cache[keys[i]] &&
               forall i' :: 0 <= i' < i ==> keys[i'] !in cache;
      assert i == j + 1;
    }
  }

  /** A frontmost-bundle entry without a user mode is preferred over any wildcard entry. */
  lemma LookupPrefersFrontmost(cache: Cache, signature: Signature, bundle: string, modes: seq<string>)
    requires CreateKey(signature, bundle, "") in cache
    ensures LookupResult(cache, signature, Some(bundle), modes) == Some(cache[CreateKey(signature, bundle, "")])
  {
    LookupOrder(cache, signature, Some(bundle), modes);
    BundleLookupOrder(cache, signature, modes, bundle);
  }

  /** Every key `lookup` tries carries the signature it was asked for. */
  lemma CandidatesSignature(signature: Signature, bundles: seq<string>, modes: seq<string>, k: CacheKey)
    requires k in Candidates(signature, bundles, modes)
    ensures k.signature == signature
  {
    ConcatMember(bundles, BundleCandidates(signature, modes), k);
  }

  /** What `lookup` finds is stored in the table under one of the keys it tries. */
  lemma LookupFound(cache: Cache, signature: Signature, frontmost: Option<string>, modes: seq<string>)
    requires LookupResult(cache, signature, frontmost, modes).Some?
    ensures exists k :: k in cache && k.signature == signature &&
                        cache[k] == LookupResult(cache, signature, frontmost, modes).value
  {
    var keys := Candidates(signature, Bundles(frontmost), modes);
    var i :| 0 <= i < |keys| && keys[i] in cache && LookupResult(cache, signature, frontmost, modes).value == cache[keys[i]] &&
             forall j :: 0 <= j < i ==> keys[j] !in cache;
    CandidatesSignature(signature, Bundles(frontmost), modes, keys[i]);
  }

  /** In a well-formed table, `lookup` finds only plain presses: the neutral mask and the trigger's own key code. */
  lemma LookupPlainPress(cache: Cache, signature: Signature, frontmost: Option<string>, modes: seq<string>)
    requires WellFormed(cache)
    requires LookupResult(cache, signature, frontmost, modes).Some?
    ensures signature.flags == MaskNonCoalesced
    ensures LookupResult(cache, signature, frontmost, modes).value.key.keyCode == Some(signature.keyCode)
  {
    LookupFound(cache, signature, frontmost, modes);
  }

  /** The keys tried for one scope are its plain key and one key per given mode. */
  lemma BundleCandidatesMember(signature: Signature, modes: seq<string>, b: string, k: CacheKey)
    ensures k in BundleCandidates(signature, modes)(b) <==>
      exists mode :: (mode == "" || mode in modes) && k == CreateKey(signature, b, mode)
  {
    var keys := BundleCandidates(signature, modes)(b);
    if k in keys && k != CreateKey(signature, b, "") {
      var j :| 0 <= j < |keys| && keys[j] == k;
      assert k == CreateKey(signature, b, modes[j - 1]);
    }
    if exists mode :: (mode == "" || mode in modes) && k == CreateKey(signature, b, mode) {
      var mode :| (mode == "" || mode in modes) && k == CreateKey(signature, b, mode);
      if mode != "" {
        var j :| 0 <= j < |modes| && modes[j] == mode;
        assert keys[j + 1] == k;
      }
    }
  }

  /** The keys `lookup` tries are exactly the scope/mode combinations it is given. */
  lemma CandidatesMember(signature: Signature, bundles: seq<string>, modes: seq<string>, k: CacheKey)
    ensures k in Candidates(signature, bundles, modes) <==>
      exists b, mode :: b in bundles && (mode == "" || mode in modes) && k == CreateKey(signature, b, mode)
  {
    var bc := BundleCandidates(signature, modes);
    ConcatMember(bundles, bc, k);
    if k in Candidates(signature, bundles, modes) {
      var i :| 0 <= i < |bundles| && k in bc(bundles[i]);
      BundleCandidatesMember(signature, modes, bundles[i], k);
    }
    if exists b, mode :: b in bundles && (mode == "" || mode in modes) && k == CreateKey(signature, b, mode) {
      var b, mode :| b in bundles && (mode == "" || mode in modes) && k == CreateKey(signature, b, mode);
      var i :| 0 <= i < |bundles| && bundles[i] == b;
      BundleCandidatesMember(signature, modes, b, k);
    }
  }

  /** `lookup` misses exactly when none of the tried keys is in the table. */
  lemma LookupMiss(cache: Cache, signature: Signature, frontmost: Option<string>, modes: seq<string>)
    ensures LookupResult(cache, signature, frontmost, modes).None? <==>
      forall b, mode :: b in Bundles(frontmost) && (mode == "" || mode in modes) ==>
        CreateKey(signature, b, mode) !in cache
  {
    var bs := Bundles(frontmost);
    var keys := Candidates(signature, bs, modes);
    if LookupResult(cache, signature, frontmost, modes).None? {
      forall b, mode | b in bs && (mode == "" || mode in modes) ensures CreateKey(signature, b, mode) !in cache {
        var k := CreateKey(signature, b, mode);
        CandidatesMember(signature, bs, modes, k);
        var i :| 0 <= i < |keys| && keys[i] == k;
      }
    } else {
      var i :| 0 <= i < |keys| && keys[i] in cache;
      CandidatesMember(signature, bs, modes, keys[i]);
      var b, mode :| b in bs && (mode == "" || mode in modes) && keys[i] == CreateKey(signature, b, mode);
    }
  }
}
