/** Removing a workspace, and why repeating the removal ends (internal/workspace/docker.go). */
module Removal {
  import opened Options
  import opened Store
  import opened Worlds
  import opened Records
  import opened Overlays
  import opened LeaseClient
  import opened Journal
  import opened Lifecycle

  // ---------- What a removal may touch: it only takes away ----------

  ghost predicate FewerContainers(s: map<ContainerId, Container>, t: map<ContainerId, Container>) {
    forall c :: c in t ==> c in s && t[c] == s[c].(running := t[c].running)
  }

  /** Nothing comes into being: containers, leases, mounts, the known-hosts file, the trees and
      plan.json stay or go. The saved record stays, but for its status, flags and release marks. */
  ghost predicate Shrinking(s: State, t: State) {
    && t == s.(record := t.record, stale := t.stale, trail := t.trail, cleaned := t.cleaned, plan := t.plan,
               containers := t.containers, removing := t.removing, host := t.host,
               mounts := t.mounts, knownHosts := t.knownHosts, keys := t.keys, runTree := t.runTree, dataTree := t.dataTree)
    && KeysFresh(s.keys, t.keys)
    && FewerContainers(s.containers, t.containers) && FewerLeases(s.host, t.host)
    && Untouched(t.mounts, s.mounts)
    && t.knownHosts in {s.knownHosts, None} && t.plan in {s.plan, None}
    && (t.runTree ==> s.runTree) && (t.dataTree ==> s.dataTree) && (s.removing ==> t.removing)
  }

  lemma StillShrinking(a: State, b: State, c: State)
    requires Shrinking(a, b) && Shrinking(b, c)
    ensures Shrinking(a, c)
  {
  }

  /** No container but the one that the reference names is gone. */
  ghost predicate Spared(s: State, t: State, ref: Option<Ref>) {
    forall c :: c in s.containers && c !in t.containers ==> ref.Some? && c == ref.value.container
  }

  lemma StillSpared(a: State, b: State, c: State, ref: Option<Ref>)
    requires Spared(a, b, ref) && Spared(b, c, ref)
    ensures Spared(a, c, ref)
  {
  }

  lemma ShrinkingLife(s: State, t: State)
    requires t == s.(record := t.record, trail := t.trail, removing := t.removing, knownHosts := t.knownHosts, mounts := t.mounts,
                     cleaned := t.cleaned, keys := t.keys, runTree := t.runTree, dataTree := t.dataTree)
    requires KeysOrNone(s.keys, t.keys)
    requires Untouched(t.mounts, s.mounts) && t.knownHosts in {s.knownHosts, None}
    requires (t.runTree ==> s.runTree) && (t.dataTree ==> s.dataTree) && (s.removing ==> t.removing)
    ensures Shrinking(s, t)
  {
  }

  // ---------- What is left to do ----------

  /** `r` records nothing that `given` does not, and is the same workspace. */
  ghost predicate Narrower(given: Record, r: Record) {
    && r.subject == given.subject && r.ref == given.ref && r.fingerprint == given.fingerprint
    && (forall l :: Held(r.resources, l) ==> Held(given.resources, l))
    && (forall p, id :: Claimed(r.resources, p, id) ==> Claimed(given.resources, p, id))
    && (forall x :: x in r.LiveOf(KnownHosts) ==> x in given.LiveOf(KnownHosts))
  }

  /** Everything `given` records is recorded by `r` as well, or gone. */
  ghost predicate Covered(s: State, given: Record, r: Record) {
    && r.subject == given.subject && r.ref == given.ref
    && (forall l :: Held(given.resources, l) && l in s.host ==> Held(r.resources, l))
    && (forall p :: p in s.mounts && Claimed(given.resources, p, s.mounts[p]) ==> Claimed(r.resources, p, s.mounts[p]))
    && (given.LiveOf(KnownHosts) != [] && s.knownHosts.Some? ==> r.LiveOf(KnownHosts) != [])
  }

  /** Everything that `given` records is gone: its container, its leases at the host, its mounts and
      its known-hosts file. */
  ghost predicate Gone(s: State, given: Record) {
    && (given.ref.Some? ==> given.ref.value.container !in s.containers)
    && (forall l :: Held(given.resources, l) ==> l !in s.host)
    && (forall p :: p in s.mounts ==> !Claimed(given.resources, p, s.mounts[p]))
    && (given.LiveOf(KnownHosts) != [] ==> s.knownHosts.None?)
  }

  /** The pinned host key is the one in the files, and what the container shows if it runs. */
  predicate Cleanable(s: State, r: Record) {
    s.keys.file == r.fingerprint && if Runs(s, r) then r.fingerprint == Some(s.keys.shown) else PlanUsable(s)
  }

  /** The container can go: no host key is pinned, or it is gone already, or its system directory can be
      cleaned. */
  predicate Cleared(s: State, r: Record) {
    r.fingerprint.None? || (r.ref.Some? ==> r.ref.value.container !in s.containers) || Cleanable(s, r)
  }

  /** The container exists, and the host key that is pinned is not in its files any more. */
  predicate Stuck(s: State, r: Record) {
    r.fingerprint.Some? && r.ref.Some? && r.ref.value.container in s.containers && s.keys.file != r.fingerprint
  }

  /** What the record describes in the known-hosts file and the mount table is what is there. */
  ghost predicate FilesRemovable(s: State, r: Record) {
    && !ForeignEntry(s, r.resources)
    && (forall p, id :: Claimed(r.resources, p, id) && p in s.mounts ==> s.mounts[p] == id)
  }

  /** Removal can succeed. */
  ghost predicate Removable(s: State, r: Record) {
    Cleared(s, r) && FilesRemovable(s, r)
  }

  lemma StillRemovable(s: State, t: State, given: Record, r: Record)
    requires FilesRemovable(s, given) && Shrinking(s, t) && Narrower(given, r)
    ensures FilesRemovable(t, r)
  {
    if ForeignEntry(t, r.resources) {
      var x :| x in r.resources && x.Active(KnownHosts) && x.identity.line != t.knownHosts.value;
      LiveMember(r.resources, KnownHosts, x);
      assert x in r.LiveOf(KnownHosts) && x in given.LiveOf(KnownHosts);
      LiveMember(given.resources, KnownHosts, x);
    }
  }

  /** Once the pinned key is gone from the files it never comes back: they are empty or hold a new one. */
  lemma StaysStuck(s: State, t: State, r: Record)
    requires Stuck(s, r) && PinMinted(s, r) && KeysFresh(s.keys, t.keys) && r.ref.value.container in t.containers
    ensures Stuck(t, r)
  {
  }

  /** A workspace that serves can be removed as far as its container goes: whatever was lost, a rotation that
      succeeds makes up for it. */
  lemma ServedClears(s: State, r: Record)
    requires Serving(s, r)
    ensures Cleanable(s, r) && Cleared(s, r) && !Stuck(s, r)
  {
  }

  lemma StillNarrower(a: Record, b: Record, c: Record)
    requires Narrower(a, b) && Narrower(b, c)
    ensures Narrower(a, c)
  {
  }

  lemma StillCovered(s: State, t: State, given: Record, r: Record, after: Record)
    requires Covered(s, given, r) && Shrinking(s, t) && Covered(t, r, after)
    ensures Covered(t, given, after)
  {
  }

  lemma GoneCovered(s: State, t: State, given: Record, r: Record)
    requires Covered(s, given, r) && Shrinking(s, t) && Gone(t, r)
    ensures Gone(t, given)
  {
  }

  lemma CoversItself(s: State, r: Record)
    ensures Covered(s, r, r) && Narrower(r, r) && Shrinking(s, s)
  {
  }

  // ---------- The container ----------

  /** A removal under way: the saved record is Removing and names the same container as `r`. */
  ghost predicate Doomed(s: State, r: Record) {
    && MayAct(s) && s.acting.Some? && Sound(s, r) && r.status == Removing && s.removing
    && s.record.value.fingerprint == r.fingerprint
    && s.record.value.status == Removing && s.record.value.ref == r.ref && s.record.value.subject == r.subject
  }

  lemma DoomedTarget(s: State, r: Record)
    requires Doomed(s, r)
    ensures MayAct(s) && s.removing && Savable(s, r) && s.record.Some? && s.record.value.status == Removing
    ensures s.acting.Some? && s.record.value.ref == r.ref && s.record.value.fingerprint == r.fingerprint
    ensures r.ref.Some? && r.ref.value.container in s.containers ==>
      && Identified(s, r.ref.value.container) && Matches(s.record.value, s.containers[r.ref.value.container])
      && Matches(r, s.containers[r.ref.value.container])
  {
    SoundSavable(s, r);
  }

  lemma StillDoomed(s: State, t: State, r: Record)
    requires Doomed(s, r) && Shrinking(s, t) && t.record == s.record
    ensures Doomed(t, r)
  {
    SoundStays(s, t, r);
  }

  /** What the engine part of a removal may touch: the container of the record, and its host key. */
  ghost predicate Handled(s: State, t: State, r: Record) {
    && t == s.(containers := t.containers, trail := t.trail, cleaned := t.cleaned, keys := t.keys)
    && FewerContainers(s.containers, t.containers) && KeysFresh(s.keys, t.keys) && Spared(s, t, r.ref)
  }

  lemma StillHandled(a: State, b: State, c: State, r: Record)
    requires Handled(a, b, r) && Handled(b, c, r)
    ensures Handled(a, c, r)
  {
  }

  lemma HandledShrinks(s: State, t: State, r: Record)
    requires Handled(s, t, r)
    ensures Shrinking(s, t) && Spared(s, t, r.ref) && t.record == s.record
    ensures Doomed(s, r) ==> Doomed(t, r)
  {
    if Doomed(s, r) {
      StillDoomed(s, t, r);
    }
  }

  lemma HandledSame(s: State, r: Record)
    ensures Handled(s, s, r)
  {
  }

  /** One engine call of the removal on the record's container. */
  method StopDoomed(w: World, r: Record) returns (out: Outcome)
    requires w.Valid() && Doomed(w.s, r) && r.ref.Some?
    modifies w`s, w`history, w`crashes
    ensures w.Went(out) && w.Smooth(out) && Handled(old(w.s), w.s, r) && Doomed(w.s, r)
    ensures w.s == old(w.s).(containers := w.s.containers, trail := w.s.trail) &&
      w.s.containers.Keys == old(w.s).containers.Keys
    ensures (out == Ok ==> !Runs(w.s, r)) && (Runs(w.s, r) ==> Runs(old(w.s), r))
    ensures out == Fail ==> w.s == old(w.s) && !w.reliable
  {
    hide Chain, Good, Savable, Sound, Identified, Doomed, Shrinking;
    DoomedTarget(w.s, r);
    out := w.StopContainer(r.ref.value.container);
    HandledShrinks(old(w.s), w.s, r);
  }

  method StartDoomed(w: World, r: Record) returns (out: Outcome)
    requires w.Valid() && Doomed(w.s, r) && r.ref.Some? && r.ref.value.container in w.s.containers
    modifies w`s, w`history, w`crashes
    ensures w.Went(out) && Handled(old(w.s), w.s, r) && Doomed(w.s, r)
    ensures w.s.containers.Keys == old(w.s).containers.Keys
    ensures out == Ok ==> Runs(w.s, r)
    ensures out == Fail ==> !w.reliable
    ensures w.s == old(w.s) || KeysStarted(old(w.s).keys, w.s.keys)
    ensures out == Ok ==> KeysStarted(old(w.s).keys, w.s.keys)
  {
    hide Chain, Good, Savable, Sound, Identified, Doomed, Shrinking;
    DoomedTarget(w.s, r);
    out := w.StartContainer(r.ref.value.container);
    HandledShrinks(old(w.s), w.s, r);
  }

  method DeleteDoomed(w: World, r: Record) returns (out: Outcome)
    requires w.Valid() && Doomed(w.s, r) && r.ref.Some? && (r.fingerprint.Some? ==> w.s.cleaned)
    modifies w`s, w`history, w`crashes
    ensures w.Went(out) && Handled(old(w.s), w.s, r) && Doomed(w.s, r) && w.s.keys == old(w.s).keys
    ensures out == Ok ==> r.ref.value.container !in w.s.containers
    ensures w.s.containers in {old(w.s).containers, old(w.s).containers - {r.ref.value.container}}
    ensures out == Fail && !Runs(old(w.s), r) ==> !w.reliable
  {
    hide Chain, Good, Savable, Sound, Identified, Doomed, Shrinking;
    DoomedTarget(w.s, r);
    out := w.DeleteContainer(r.ref.value.container, false);
    HandledShrinks(old(w.s), w.s, r);
  }

  /** The pinned key of a record that is being removed was generated once. */
  lemma DoomedMinted(s: State, r: Record)
    requires Doomed(s, r)
    ensures PinMinted(s, r) && MayAct(s) && s.acting.Some?
    ensures s.record.Some? && s.record.value.fingerprint == r.fingerprint
  {
  }

  /** In a world where nothing else goes wrong, the process dies over the next deletion of the key. */
  twostate predicate Strikes(w: World)
    reads w
  {
    w.calm && old(w.mishap) == DiesAfterKeys && old(w.crashes) > 0
  }

  /** `cleanupPersistentSystem`: the container runs while its system directory is cleaned, which it
      allows only with the recorded host key, and it is stopped whatever came of it. When every call
      works it succeeds exactly on a container that is `Cleanable`; and then that key never comes back. */
  method CleanupSystem(w: World, r: Record, running: bool) returns (out: Outcome)
    requires w.Valid() && Doomed(w.s, r) && r.ref.Some? && r.fingerprint.Some? && r.ref.value.container in w.s.containers
    requires running == Runs(w.s, r)
    modifies w
    ensures w.Went(out) && Handled(old(w.s), w.s, r) && Doomed(w.s, r) && w.s.containers.Keys == old(w.s).containers.Keys
    ensures out == Ok ==> !Runs(w.s, r) && Cleanable(old(w.s), r) && w.s.cleaned
    ensures out == Fail && w.reliable ==> !Cleanable(old(w.s), r)
    ensures (w.reliable || PlanUsable(old(w.s))) && Cleanable(old(w.s), r) ==> Cleanable(w.s, r) || Stuck(w.s, r)
    ensures Stuck(old(w.s), r) ==> Stuck(w.s, r)
    ensures Strikes(w) && running && Cleanable(old(w.s), r) ==> out == Crash && Stuck(w.s, r)
  {
    hide Chain, Good, Savable, Sound, Identified, Doomed, Shrinking, Handled;
    HandledSame(w.s, r);
    DoomedMinted(w.s, r);
    out := Ok;
    if !running {
      out := StartForCleanup(w, r);
    }
    if out == Ok {
      ghost var t := w.s;
      SamePlan(old(w.s), t, r);
      out := CleanAndStop(w, r);
      StillHandled(old(w.s), t, w.s, r);
    }
  }

  /** The cleaning of a container that runs, and its stop. */
  method CleanAndStop(w: World, r: Record) returns (out: Outcome)
    requires w.Valid() && Doomed(w.s, r) && r.ref.Some? && r.fingerprint.Some? && Runs(w.s, r)
    modifies w
    ensures w.Went(out) && Handled(old(w.s), w.s, r) && Doomed(w.s, r) && w.s.containers.Keys == old(w.s).containers.Keys
    ensures out == Ok ==> !Runs(w.s, r) && Cleanable(old(w.s), r) && w.s.cleaned
    ensures out == Fail && w.reliable ==> !Cleanable(old(w.s), r)
    ensures (w.reliable || PlanUsable(old(w.s))) && Cleanable(old(w.s), r) ==> Cleanable(w.s, r) || Stuck(w.s, r)
    ensures Stuck(old(w.s), r) ==> Stuck(w.s, r)
    ensures Strikes(w) && Cleanable(old(w.s), r) ==> out == Crash && Stuck(w.s, r)
  {
    hide Chain, Good, Savable, Sound, Identified, Doomed, Shrinking, Handled;
    DoomedMinted(w.s, r);
    var cleaned := Clean(w, r);
    HandledKeys(old(w.s), w.s, r);
    if cleaned == Crash {
      return Crash;
    }
    ghost var t := w.s;
    out := StopDoomed(w, r);
    StillHandled(old(w.s), t, w.s, r);
    out := if out == Ok then cleaned else out;
  }

  lemma HandledKeys(s: State, t: State, r: Record)
    requires Doomed(s, r) && (t == s || t == WithoutKey(s, r.fingerprint))
    ensures Handled(s, t, r) && Doomed(t, r) && PlanUsable(t) == PlanUsable(s) && Runs(t, r) == Runs(s, r)
    ensures t.containers == s.containers && KeysOrNone(s.keys, t.keys)
  {
    HandledShrinks(s, t, r);
  }

  method StartForCleanup(w: World, r: Record) returns (out: Outcome)
    requires w.Valid() && Doomed(w.s, r) && r.ref.Some? && r.ref.value.container in w.s.containers && !Runs(w.s, r)
    requires r.fingerprint.Some?
    modifies w`s, w`history, w`crashes
    ensures w.Went(out) && Handled(old(w.s), w.s, r) && Doomed(w.s, r) && w.s.containers.Keys == old(w.s).containers.Keys
    ensures out == Ok ==> Runs(w.s, r) && Cleanable(w.s, r) == Cleanable(old(w.s), r)
    ensures out == Fail && w.reliable ==> !Cleanable(old(w.s), r)
    ensures Cleanable(old(w.s), r) ==> Cleanable(w.s, r)
    ensures Stuck(old(w.s), r) ==> Stuck(w.s, r)
  {
    hide Chain, Good, Savable, Sound, Identified, Doomed, Shrinking, Handled, Runs;
    HandledSame(w.s, r);
    out := w.Try();  // read plan.json, pin the reserved masks
    if out == Ok && !PlanUsable(w.s) {
      out := Fail;
    }
    if out == Ok {
      out := StartOrStop(w, r);
    }
  }

  lemma SamePlan(s: State, t: State, r: Record)
    requires Handled(s, t, r)
    ensures PlanUsable(t) == PlanUsable(s)
  {
  }

  /** The start; a container whose masks do not validate is stopped again. */
  method StartOrStop(w: World, r: Record) returns (out: Outcome)
    requires w.Valid() && Doomed(w.s, r) && r.ref.Some? && r.ref.value.container in w.s.containers && !Runs(w.s, r)
    requires r.fingerprint.Some? && PlanUsable(w.s)
    modifies w`s, w`history, w`crashes
    ensures w.Went(out) && Handled(old(w.s), w.s, r) && Doomed(w.s, r) && w.s.containers.Keys == old(w.s).containers.Keys
    ensures out == Ok ==> Runs(w.s, r) && Cleanable(w.s, r) == Cleanable(old(w.s), r)
    ensures out == Fail ==> !w.reliable
    ensures Cleanable(old(w.s), r) ==> Cleanable(w.s, r)
    ensures Stuck(old(w.s), r) ==> Stuck(w.s, r)
  {
    hide Chain, Good, Savable, Sound, Identified, Doomed, Shrinking, Handled, Runs, Cleanable, Stuck, PlanUsable, KeysStarted;
    out := StartValidated(w, r);
    if out == Fail {
      ghost var t := w.s;
      out := StopDoomed(w, r);
      StillHandled(old(w.s), t, w.s, r);
      out := if out == Ok then Fail else out;
      AfterStop(t, w.s, r);
    }
  }

  method StartValidated(w: World, r: Record) returns (out: Outcome)
    requires w.Valid() && Doomed(w.s, r) && r.ref.Some? && r.ref.value.container in w.s.containers && !Runs(w.s, r)
    requires r.fingerprint.Some? && PlanUsable(w.s)
    modifies w`s, w`history, w`crashes
    ensures w.Went(out) && Handled(old(w.s), w.s, r) && Doomed(w.s, r) && w.s.containers.Keys == old(w.s).containers.Keys
    ensures PlanUsable(w.s) && Cleanable(w.s, r) == Cleanable(old(w.s), r) && (Stuck(old(w.s), r) ==> Stuck(w.s, r))
    ensures (out == Ok ==> Runs(w.s, r)) && (out == Fail ==> !w.reliable)
  {
    hide Chain, Good, Savable, Sound, Identified, Doomed, Shrinking, Handled, Runs, Cleanable, Stuck, PlanUsable, KeysStarted;
    DoomedMinted(w.s, r);
    out := StartDoomed(w, r);
    AfterStart(old(w.s), w.s, r);
    if out == Ok {
      out := w.Try();  // validate the masks
    }
  }

  /** A start shows the key of the files, so what could be cleaned still can. */
  lemma AfterStart(s: State, t: State, r: Record)
    requires Handled(s, t, r) && PlanUsable(s) && !Runs(s, r) && PinMinted(s, r) && t.containers.Keys == s.containers.Keys
    requires r.fingerprint.Some? && (t == s || KeysStarted(s.keys, t.keys))
    ensures PlanUsable(t) && Cleanable(t, r) == Cleanable(s, r) && (Stuck(s, r) ==> Stuck(t, r))
  {
  }

  lemma AfterStop(s: State, t: State, r: Record)
    requires t == s.(containers := t.containers, trail := t.trail) && PlanUsable(s)
    requires t.containers.Keys == s.containers.Keys && (Runs(t, r) ==> Runs(s, r))
    ensures (Cleanable(s, r) ==> Cleanable(t, r)) && (Stuck(s, r) ==> Stuck(t, r))
  {
  }

  /** Readiness, the comparison of host keys, and the command in the container. */
  method Clean(w: World, r: Record) returns (out: Outcome)
    requires w.Valid() && MayAct(w.s) && r.fingerprint.Some? && Runs(w.s, r)
    requires w.s.acting.Some? && w.s.record.Some? && w.s.record.value.fingerprint == r.fingerprint
    modifies w
    ensures w.Went(out) && (w.s == old(w.s) || w.s == WithoutKey(old(w.s), r.fingerprint))
    ensures out == Ok ==> Cleanable(old(w.s), r) && w.s == WithoutKey(old(w.s), r.fingerprint)
    ensures out == Fail ==> w.s == old(w.s) && (w.reliable ==> !Cleanable(old(w.s), r))
    ensures Stuck(old(w.s), r) ==> Stuck(w.s, r)
    ensures Strikes(w) && Cleanable(old(w.s), r) ==> out == Crash && w.s.keys.file.None?
  {
    hide Chain, Good;
    out := w.Try();  // waitForContainerReady
    if out == Ok && r.fingerprint != Some(w.s.keys.shown) {
      out := Fail;
    }
    if out == Ok {
      out := DropKeyFiles(w, r, r.fingerprint);
    }
  }

  /** The engine part of `removeLocked`. When every call works it succeeds exactly on a record that is
      `Cleared`; and whatever end it comes to while plan.json can be used, such a record still is `Cleared`, or
      is stuck: the key is lost and the container is there. */
  method RemoveContainer(w: World, r: Record) returns (out: Outcome)
    requires w.Valid() && Doomed(w.s, r)
    modifies w
    ensures w.Went(out) && Handled(old(w.s), w.s, r) && Doomed(w.s, r)
    ensures out == Ok ==> Cleared(old(w.s), r) && (r.ref.Some? ==> r.ref.value.container !in w.s.containers)
    ensures out == Fail && w.reliable ==> !Cleared(old(w.s), r)
    ensures (w.reliable || PlanUsable(old(w.s))) && Cleared(old(w.s), r) ==> Cleared(w.s, r) || Stuck(w.s, r)
    ensures Stuck(old(w.s), r) ==> out != Ok && Stuck(w.s, r)
    ensures Strikes(w) && Runs(old(w.s), r) && r.fingerprint.Some? && Cleanable(old(w.s), r) ==> out == Crash && Stuck(w.s, r)
  {
    hide Chain, Good, Savable, Sound, Identified, Doomed, Shrinking, Handled;
    HandledSame(w.s, r);
    if r.ref.None? {
      return Ok;
    }
    var found;
    out, found := w.Inspect(r.ref.value.container);
    if out == Ok && found.Some? {
      DoomedTarget(w.s, r);
      out := RemoveFound(w, r, found.value);
    }
  }

  method RemoveFound(w: World, r: Record, container: Container) returns (out: Outcome)
    requires w.Valid() && Doomed(w.s, r) && r.ref.Some? && r.ref.value.container in w.s.containers
    requires container == w.s.containers[r.ref.value.container] && Matches(r, container)
    modifies w
    ensures w.Went(out) && Handled(old(w.s), w.s, r) && Doomed(w.s, r)
    ensures out == Ok ==> Cleared(old(w.s), r) && r.ref.value.container !in w.s.containers
    ensures out == Fail && w.reliable ==> !Cleared(old(w.s), r)
    ensures (w.reliable || PlanUsable(old(w.s))) && Cleared(old(w.s), r) ==> Cleared(w.s, r) || Stuck(w.s, r)
    ensures Stuck(old(w.s), r) ==> out != Ok && Stuck(w.s, r)
    ensures Strikes(w) && container.running && r.fingerprint.Some? && Cleanable(old(w.s), r) ==> out == Crash && Stuck(w.s, r)
  {
    hide Chain, Good, Savable, Sound, Identified, Doomed, Shrinking, Handled, Cleared, Cleanable, Stuck, PlanUsable, Runs;
    HandledSame(w.s, r);
    FoundRuns(w.s, r);
    if !Matches(r, container) {
      return Fail;
    }
    out := QuietFound(w, r, container.running);
    if out == Ok {
      ghost var t := w.s;
      out := DeleteDoomed(w, r);
      StillHandled(old(w.s), t, w.s, r);
      AfterDelete(t, w.s, r);
    }
  }

  lemma FoundRuns(s: State, r: Record)
    ensures r.ref.Some? && r.ref.value.container in s.containers ==> Runs(s, r) == s.containers[r.ref.value.container].running
  {
  }

  /** Whether the deletion worked or not does not matter to what is left. */
  lemma AfterDelete(s: State, t: State, r: Record)
    requires Handled(s, t, r) && t.keys == s.keys && r.ref.Some?
    requires t.containers in {s.containers, s.containers - {r.ref.value.container}}
    ensures Cleared(s, r) || Stuck(s, r) ==> Cleared(t, r) || Stuck(t, r)
  {
  }

  /** The container is cleaned if its host key is pinned, and stopped. */
  method QuietFound(w: World, r: Record, running: bool) returns (out: Outcome)
    requires w.Valid() && Doomed(w.s, r) && r.ref.Some? && r.ref.value.container in w.s.containers
    requires running == Runs(w.s, r)
    modifies w
    ensures w.Went(out) && Handled(old(w.s), w.s, r) && Doomed(w.s, r)
    ensures out == Ok ==> Cleared(old(w.s), r) && !Runs(w.s, r) && (r.fingerprint.Some? ==> w.s.cleaned)
    ensures out == Fail && w.reliable ==> !Cleared(old(w.s), r)
    ensures (w.reliable || PlanUsable(old(w.s))) && Cleared(old(w.s), r) ==> Cleared(w.s, r) || Stuck(w.s, r)
    ensures Stuck(old(w.s), r) ==> out != Ok && Stuck(w.s, r)
    ensures Strikes(w) && running && r.fingerprint.Some? && Cleanable(old(w.s), r) ==> out == Crash && Stuck(w.s, r)
  {
    hide Chain, Good, Savable, Sound, Identified, Doomed, Shrinking, Handled, Cleanable, PlanUsable, Runs;
    HandledSame(w.s, r);
    NotBoth(w.s, r);
    out := Ok;
    if r.fingerprint.Some? {
      out := CleanupSystem(w, r, running);
    } else if running {
      out := StopDoomed(w, r);
    }
  }

  lemma NotBoth(s: State, r: Record)
    ensures Cleanable(s, r) ==> !Stuck(s, r)
  {
  }

  // ---------- The rest of the resources ----------

  /** How far the removal of what `given` records has come, at every point of it: what is not gone is
      still in the saved record. */
  ghost predicate Progress(start: State, s: State, given: Record) {
    && Shrinking(start, s) && Spared(start, s, given.ref) && s.record.Some?
    && Covered(s, given, s.record.value) && Narrower(given, s.record.value)
  }

  /** The record in memory, on the way. */
  ghost predicate OnTheWay(start: State, s: State, given: Record, r: Record) {
    && Progress(start, s, given) && Doomed(s, r)
    && Covered(s, given, r) && Narrower(given, r)
  }

  lemma StillOnTheWay(start: State, s: State, t: State, given: Record, r: Record)
    requires OnTheWay(start, s, given, r) && Shrinking(s, t) && Spared(s, t, r.ref) && t.record == s.record
    ensures OnTheWay(start, t, given, r)
  {
    hide Narrower;
    StillShrinking(start, s, t);
    StillSpared(start, s, t, r.ref);
    StillDoomed(s, t, r);
  }

  lemma ClaimedLive(a: seq<Resource>, b: seq<Resource>)
    requires Live(a, Mount) == Live(b, Mount)
    ensures forall p, id :: Claimed(a, p, id) <==> Claimed(b, p, id)
  {
    forall p, id ensures Claimed(a, p, id) <==> Claimed(b, p, id) {
      if Claimed(a, p, id) {
        var x :| x in a && x.Active(Mount) && x.identity == MountIdentity(p, id);
        LiveMember(a, Mount, x);
        LiveMember(b, Mount, x);
      }
      if Claimed(b, p, id) {
        var x :| x in b && x.Active(Mount) && x.identity == MountIdentity(p, id);
        LiveMember(a, Mount, x);
        LiveMember(b, Mount, x);
      }
    }
  }

  lemma ReleasedCovers(s: State, t: State, r: Record, after: Record)
    requires Released(r, after, s.host, t.host)
    ensures Covered(t, r, after) && Narrower(r, after) && FewerLeases(s.host, t.host)
  {
    ClaimedLive(r.resources, after.resources);
  }

  lemma LeasesShrink(s: State, t: State)
    requires t == s.(host := t.host, record := t.record, trail := t.trail) && FewerLeases(s.host, t.host)
    ensures Shrinking(s, t)
  {
  }

  /** Leases were released; the saved record is the earlier one or one from that call. */
  lemma LeasesOnTheWay(start: State, s: State, t: State, given: Record, r: Record, after: Record)
    requires OnTheWay(start, s, given, r) && t == s.(host := t.host, record := t.record, trail := t.trail)
    requires Released(r, after, s.host, t.host) && Savable(t, after)
    requires t.record == s.record || (t.record.Some? && Released(r, t.record.value, s.host, t.host))
    ensures OnTheWay(start, t, given, after)
  {
    LeasesProgress(start, s, t, given, r);
    ReleasedCovers(s, t, r, after);
    StillCovered(s, t, given, r, after);
    StillNarrower(given, r, after);
    assert Doomed(t, after);
  }

  lemma LeasesProgress(start: State, s: State, t: State, given: Record, r: Record)
    requires OnTheWay(start, s, given, r) && t == s.(host := t.host, record := t.record, trail := t.trail)
    requires FewerLeases(s.host, t.host)
    requires t.record == s.record || (t.record.Some? && Released(r, t.record.value, s.host, t.host))
    ensures Progress(start, t, given) && Shrinking(s, t)
  {
    LeasesShrink(s, t);
    StillShrinking(start, s, t);
    if t.record != s.record {
      ReleasedCovers(s, t, r, t.record.value);
      StillCovered(s, t, given, r, t.record.value);
      StillNarrower(given, r, t.record.value);
    }
  }

  /** Leases, if any are held. */
  method RemoveLeases(w: World, ghost start: State, ghost given: Record, r: Record) returns (out: Outcome, after: Record)
    requires w.Valid() && OnTheWay(start, w.s, given, r)
    modifies w
    ensures w.Went(out) && Progress(start, w.s, given) && Shrinking(old(w.s), w.s)
    ensures out == Ok ==> OnTheWay(start, w.s, given, after) && Narrower(r, after)
    ensures out == Ok ==> forall l :: !Held(after.resources, l)
    ensures out == Fail ==> !w.reliable
  {
    hide Chain, Good, Savable, Sound, Shrinking, Covered, Narrower, Doomed, Held, Released, LeasesOnly, HostOnly, FewerLeases;
    CoversItself(w.s, r);
    DoomedTarget(w.s, r);
    after := r;
    if !HasActiveLease(r) {
      NoneActive(r);
      return Ok, r;
    }
    out := w.Try();  // reach the host service
    if out != Ok {
      return;
    }
    hide OnTheWay, Progress;
    out, after := ReleaseLeases(w, r);
    HostOnlyFrame(old(w.s), w.s, r);
    LeasesProgress(start, old(w.s), w.s, given, r);
    if out == Ok {
      LeasesOnTheWay(start, old(w.s), w.s, given, r, after);
      ReleasedCovers(old(w.s), w.s, r, after);
    }
  }

  lemma HostOnlyFrame(s: State, t: State, r: Record)
    requires HostOnly(s, t, r) && FewerLeases(s.host, t.host)
    requires s.nextId == t.nextId
    ensures t == s.(host := t.host, record := t.record, trail := t.trail)
  {
  }

  /** Forgetting what is gone keeps the record in step: `after` is `r` without entries of `kind`. */
  lemma WithoutKind(s: State, given: Record, r: Record, after: Record, kind: Kind)
    requires Covered(s, given, r) && Narrower(given, r)
    requires after == r.(resources := ReleasedAll(r.resources, kind)) && kind != HostLease
    requires kind == KnownHosts && r.LiveOf(KnownHosts) != [] ==> s.knownHosts.None?
    requires kind == Mount ==> forall p :: p in s.mounts ==> !Claimed(r.resources, p, s.mounts[p])
    ensures Covered(s, given, after) && Narrower(given, after)
  {
    forall k ensures Live(after.resources, k) == if k == kind then [] else Live(r.resources, k) {
      LiveReleasedAll(r.resources, kind, k);
    }
    forall l ensures Held(after.resources, l) <==> Held(r.resources, l) {
      HeldLive(after.resources, r.resources, l);
      HeldLive(r.resources, after.resources, l);
    }
    if kind != Mount {
      ClaimedLive(r.resources, after.resources);
    } else {
      NoClaim(after.resources);
    }
  }

  lemma NoClaim(resources: seq<Resource>)
    requires Live(resources, Mount) == []
    ensures forall p, id :: !Claimed(resources, p, id)
  {
    forall p, id ensures !Claimed(resources, p, id) {
      if Claimed(resources, p, id) {
        var x :| x in resources && x.Active(Mount) && x.identity == MountIdentity(p, id);
        LiveMember(resources, Mount, x);
      }
    }
  }

  lemma ReleasedDoomed(s: State, r: Record, kind: Kind)
    requires Doomed(s, r) && (kind == KnownHosts || kind == Mount)
    ensures Doomed(s, r.(resources := ReleasedAll(r.resources, kind)))
  {
    ReleasedLeases(r.resources, kind);
    hide LeasesDistinct, NoLeases, ReleasedAll, Live;
    LiveReleasedAll(r.resources, kind, SshSocket);
    LiveReleasedAll(r.resources, kind, KnownHosts);
  }

  lemma ReleasedLeases(resources: seq<Resource>, kind: Kind)
    ensures LeasesDistinct(resources) ==> LeasesDistinct(ReleasedAll(resources, kind))
    ensures NoLeases(resources) ==> NoLeases(ReleasedAll(resources, kind))
  {
  }

  /** The pinned host key. */
  method RemovePinned(w: World, ghost start: State, ghost given: Record, r: Record) returns (out: Outcome, after: Record)
    requires w.Valid() && OnTheWay(start, w.s, given, r)
    modifies w
    ensures w.Went(out) && Progress(start, w.s, given) && Shrinking(old(w.s), w.s)
    ensures out == Ok ==> OnTheWay(start, w.s, given, after) && Narrower(r, after)
    ensures out == Ok ==> after == r.(resources := ReleasedAll(r.resources, KnownHosts)) && after.LiveOf(KnownHosts) == []
    ensures out == Fail && w.reliable ==> ForeignEntry(old(w.s), r.resources)
  {
    hide Chain, Good, Savable, Sound, Shrinking, Covered, Narrower, Doomed, ReleasedAll, Live, OnTheWay, Progress;
    MayActOnTheWay(start, w.s, given, r);
    out, after := RemoveHostKey(w, r);
    ShrinkingLife(old(w.s), w.s);
    StillOnTheWay(start, old(w.s), w.s, given, r);
    OnTheWayProgress(start, w.s, given, r);
    if out == Ok {
      PinnedGone(start, w.s, given, r, after);
    }
  }

  lemma MayActOnTheWay(start: State, s: State, given: Record, r: Record)
    requires OnTheWay(start, s, given, r)
    ensures MayAct(s)
  {
  }

  lemma OnTheWayProgress(start: State, s: State, given: Record, r: Record)
    requires OnTheWay(start, s, given, r)
    ensures Progress(start, s, given)
  {
  }

  lemma PinnedGone(start: State, s: State, given: Record, r: Record, after: Record)
    requires OnTheWay(start, s, given, r) && after == r.(resources := ReleasedAll(r.resources, KnownHosts))
    requires r.LiveOf(KnownHosts) != [] ==> s.knownHosts.None?
    ensures OnTheWay(start, s, given, after) && after.LiveOf(KnownHosts) == [] && Narrower(r, after)
  {
    CoversItself(s, r);
    WithoutKind(s, r, r, after, KnownHosts);
    WithoutKind(s, given, r, after, KnownHosts);
    ReleasedDoomed(s, r, KnownHosts);
    LiveReleasedAll(r.resources, KnownHosts, KnownHosts);
  }

  /** Saves the record on the way. */
  method SaveOnTheWay(w: World, ghost start: State, ghost given: Record, r: Record) returns (out: Outcome)
    requires w.Valid() && OnTheWay(start, w.s, given, r)
    modifies w
    ensures w.Went(out) && w.s == old(w.s).(record := w.s.record, trail := w.s.trail)
    ensures OnTheWay(start, w.s, given, r)
    ensures out == Ok ==> w.s.record == Some(r)
    ensures out == Fail ==> !w.reliable
  {
    hide Chain, Good, Savable, Sound, Shrinking, Covered, Narrower, Doomed, OnTheWay, Progress;
    DoomedNow(start, w.s, given, r);
    DoomedTarget(w.s, r);
    out := w.SaveRecord(r);
    SavedOnTheWay(start, old(w.s), w.s, given, r);
  }

  lemma SavedOnTheWay(start: State, s: State, t: State, given: Record, r: Record)
    requires OnTheWay(start, s, given, r)
    requires t == s.(record := t.record, trail := t.trail, removing := t.removing) && (s.removing ==> t.removing)
    requires t.record == s.record || t.record == Some(r)
    ensures OnTheWay(start, t, given, r) && t.removing
  {
    hide Sound, Narrower;
    ShrinkingLife(s, t);
    StillShrinking(start, s, t);
    SoundStays(s, t, r);
  }

  /** The mounts: one that will not go is quarantined, in the saved record too. */
  method RemoveMounts(w: World, ghost start: State, ghost given: Record, r: Record) returns (out: Outcome, after: Record)
    requires w.Valid() && OnTheWay(start, w.s, given, r)
    modifies w
    ensures w.Went(out) && Progress(start, w.s, given) && Shrinking(old(w.s), w.s)
    ensures out == Ok ==> w.s.record == Some(after) && after == r.(resources := ReleasedAll(r.resources, Mount))
    ensures out == Ok ==> OnTheWay(start, w.s, given, after)
    ensures out == Fail && w.reliable ==> ForeignMount(old(w.s), r) && SavedFlagged(w.s, r)
  {
    hide Chain, Good, Savable, Sound, Shrinking, Covered, Narrower, Doomed, ReleasedAll, OnTheWay, Progress,
      ForeignMount, SavedFlagged;
    after := r;
    out := UnmountAll(w, start, given, r);
    ghost var t := w.s;
    if out == Ok {
      out, after := SaveReleased(w, start, given, r);
      ShrinkingLife(t, w.s);
      StillShrinking(old(w.s), t, w.s);
    } else if out == Fail {
      out := SaveFlagged(w, start, given, r);
      ShrinkingLife(t, w.s);
      StillShrinking(old(w.s), t, w.s);
    }
  }

  method UnmountAll(w: World, ghost start: State, ghost given: Record, r: Record) returns (out: Outcome)
    requires w.Valid() && OnTheWay(start, w.s, given, r)
    modifies w`s, w`history, w`crashes
    ensures w.Went(out) && w.s == old(w.s).(mounts := w.s.mounts) && Shrinking(old(w.s), w.s)
    ensures OnTheWay(start, w.s, given, r) && Progress(start, w.s, given)
    ensures out == Ok ==> forall p :: p in w.s.mounts ==> !Claimed(r.resources, p, w.s.mounts[p])
    ensures out == Fail && w.reliable ==> ForeignMount(old(w.s), r)
  {
    hide Chain, Good, Savable, Sound, Shrinking, Covered, Narrower, Doomed, OnTheWay, Progress, ForeignMount, Changed;
    MayActOnTheWay(start, w.s, given, r);
    out := Deactivate(w, r.resources);
    if out == Fail && w.reliable {
      ForeignFound(old(w.s), r);
    }
    ShrinkingLife(old(w.s), w.s);
    StillOnTheWay(start, old(w.s), w.s, given, r);
    OnTheWayProgress(start, w.s, given, r);
  }

  /** A mount point that the record claims carries another mount. */
  ghost predicate ForeignMount(s: State, r: Record) {
    exists p, id :: Claimed(r.resources, p, id) && p in s.mounts && s.mounts[p] != id
  }

  lemma ForeignFound(s: State, r: Record)
    requires Changed(r.resources, s.mounts)
    ensures ForeignMount(s, r)
  {
    var x :| x in r.resources && x.Active(Mount) && x.identity.point in s.mounts
      && s.mounts[x.identity.point] != x.identity.mountID;
    assert Claimed(r.resources, x.identity.point, x.identity.mountID);
  }

  method SaveReleased(w: World, ghost start: State, ghost given: Record, r: Record) returns (out: Outcome, after: Record)
    requires w.Valid() && OnTheWay(start, w.s, given, r)
    requires forall p :: p in w.s.mounts ==> !Claimed(r.resources, p, w.s.mounts[p])
    modifies w
    ensures w.Went(out) && w.s == old(w.s).(record := w.s.record, trail := w.s.trail) && Progress(start, w.s, given)
    ensures out == Ok ==> w.s.record == Some(after) && after == r.(resources := ReleasedAll(r.resources, Mount))
    ensures out == Ok ==> OnTheWay(start, w.s, given, after)
    ensures out == Fail ==> !w.reliable
  {
    hide Chain, Good, Savable, Sound, Shrinking, Covered, Narrower, Doomed, ReleasedAll, OnTheWay, Progress;
    var released := ReleaseAll(r.resources, Mount);
    after := r.(resources := released);
    MountsReleased(start, w.s, given, r, after);
    out := SaveOnTheWay(w, start, given, after);
    OnTheWayProgress(start, w.s, given, after);
  }

  lemma MountsReleased(start: State, s: State, given: Record, r: Record, after: Record)
    requires OnTheWay(start, s, given, r) && after == r.(resources := ReleasedAll(r.resources, Mount))
    requires forall p :: p in s.mounts ==> !Claimed(r.resources, p, s.mounts[p])
    ensures OnTheWay(start, s, given, after)
  {
    WithoutKind(s, given, r, after, Mount);
    ReleasedDoomed(s, r, Mount);
  }

  /** The saved record has the quarantine flag on each unreleased mount. */
  ghost predicate SavedFlagged(s: State, r: Record) {
    s.record.Some? && Flagged(r.resources, s.record.value.resources)
  }

  method Flag(r: Record) returns (after: Record)
    ensures after == r.(resources := after.resources)
    ensures MountsAside(r.resources, after.resources) && Flagged(r.resources, after.resources)
  {
    var flagged := QuarantineMounts(r.resources);
    after := r.(resources := flagged);
  }

  method SaveFlagged(w: World, ghost start: State, ghost given: Record, r: Record) returns (out: Outcome)
    requires w.Valid() && OnTheWay(start, w.s, given, r)
    modifies w
    ensures w.Went(out) && w.s == old(w.s).(record := w.s.record, trail := w.s.trail) && Progress(start, w.s, given) &&
      out != Ok
    ensures out == Fail && w.reliable ==> SavedFlagged(w.s, r)
  {
    hide Chain, Good, Savable, Sound, Shrinking, Covered, Narrower, Doomed, OnTheWay, Progress, Flagged;
    var after := Flag(r);
    MountsFlagged(start, w.s, given, r, after);
    out := SaveOnTheWay(w, start, given, after);
    OnTheWayProgress(start, w.s, given, after);
    out := if out == Ok then Fail else out;
  }

  lemma MountsFlagged(start: State, s: State, given: Record, r: Record, after: Record)
    requires OnTheWay(start, s, given, r) && after == r.(resources := after.resources)
    requires MountsAside(r.resources, after.resources) && Flagged(r.resources, after.resources)
    ensures OnTheWay(start, s, given, after)
  {
    MountsAsideSound(s, r, after.resources);
    MountsAsideLive(r.resources, after.resources, KnownHosts);
    MountsAsideLive(r.resources, after.resources, HostLease);
    forall l ensures Held(after.resources, l) <==> Held(r.resources, l) {
      HeldLive(after.resources, r.resources, l);
      HeldLive(r.resources, after.resources, l);
    }
    forall p, id ensures Claimed(after.resources, p, id) <==> Claimed(r.resources, p, id) {
      FlaggedClaim(r.resources, after.resources, p, id);
    }
  }

  /** The unreleased mounts got their quarantine flag, and nothing else changed. */
  ghost predicate Flagged(a: seq<Resource>, b: seq<Resource>) {
    && |a| == |b|
    && forall i :: 0 <= i < |a| ==> b[i] == if a[i].Active(Mount) then a[i].(quarantined := true) else a[i]
  }

  lemma FlaggedClaim(a: seq<Resource>, b: seq<Resource>, p: string, id: MountId)
    requires Flagged(a, b)
    ensures Claimed(b, p, id) <==> Claimed(a, p, id)
  {
    if Claimed(a, p, id) {
      var i :| 0 <= i < |a| && a[i].Active(Mount) && a[i].identity == MountIdentity(p, id);
      assert b[i] in b;
    }
    if Claimed(b, p, id) {
      var i :| 0 <= i < |b| && b[i].Active(Mount) && b[i].identity == MountIdentity(p, id);
      assert a[i] in a;
    }
  }

  // ---------- The whole removal ----------

  /** The moves of `transitionToRemoving`: each is legal, and only the last is saved. */
  function IntoRemoving(given: Record): (r: Record)
    ensures r == given.(status := Removing)
  {
    var r := if given.status == Ready then given.To(Stopping).To(Stopped) else given.To(TowardsRemoving(given.status));
    r.To(Removing)
  }

  method BeginRemoving(w: World, given: Record) returns (out: Outcome, r: Record)
    requires w.Valid() && MayAct(w.s) && w.s.acting.Some? && w.s.record == Some(given)
    modifies w
    ensures w.Went(out) && w.s == old(w.s).(record := w.s.record, trail := w.s.trail, removing := w.s.removing)
    ensures Progress(old(w.s), w.s, given) && Shrinking(old(w.s), w.s)
    ensures w.Smooth(out) && r == given.(status := Removing)
    ensures out == Ok ==> OnTheWay(old(w.s), w.s, given, r)
    ensures out == Fail ==> !w.reliable
  {
    hide Chain, Good, Savable, Sound, Shrinking, Covered, Narrower, Doomed, OnTheWay, Progress;
    assert Good(w.s) by { w.GoodNow(); }
    r := IntoRemoving(given);
    Began(w.s, given);
    out := w.SaveRecord(r);
    BeganSaved(old(w.s), w.s, given);
  }

  lemma Began(s: State, given: Record)
    requires Good(s) && s.record == Some(given)
    ensures Savable(s, given.(status := Removing)) && Sound(s, given)
  {
    SoundNow(s);
    assert Sound(Saved(s, given.(status := Removing)), given.(status := Removing));
  }

  lemma BeganSaved(s: State, t: State, given: Record)
    requires Sound(s, given) && MayAct(s) && s.acting.Some? && s.record == Some(given)
    requires t == s.(record := t.record, trail := t.trail, removing := t.removing)
    requires s.removing ==> t.removing
    requires t.record == s.record || (t.record == Some(given.(status := Removing)))
    ensures Progress(s, t, given) && Shrinking(s, t)
    ensures t.removing && t.record == Some(given.(status := Removing)) ==> OnTheWay(s, t, given, given.(status := Removing))
  {
    CoversItself(t, given);
    ShrinkingLife(s, t);
    SoundStays(s, t, given.(status := given.status));
    assert Covered(t, given, given.(status := Removing)) && Narrower(given, given.(status := Removing));
    assert t.removing ==> Sound(t, given.(status := Removing));
  }

  lemma AllGone(s: State, given: Record, r: Record)
    requires Covered(s, given, r) && Live(r.resources, Mount) == [] && r.LiveOf(KnownHosts) == []
    requires forall l :: !Held(r.resources, l)
    requires r.ref.Some? ==> r.ref.value.container !in s.containers
    ensures Gone(s, given)
  {
    NoClaim(r.resources);
  }

  /** Container, leases, host key, mounts, in this order; the record is saved at the end. */
  method RemoveResources(w: World, ghost start: State, ghost given: Record, r: Record) returns (out: Outcome, after: Record)
    requires w.Valid() && OnTheWay(start, w.s, given, r)
    modifies w
    ensures w.Went(out) && Progress(start, w.s, given) && Shrinking(old(w.s), w.s)
    ensures out == Ok ==> w.s.record == Some(after) && OnTheWay(start, w.s, given, after) && Gone(w.s, given)
    ensures out == Ok ==> Cleared(old(w.s), r)
    ensures out == Fail && w.reliable ==> !Removable(old(w.s), r)
    ensures (w.reliable || PlanUsable(old(w.s))) && Cleared(old(w.s), r) ==> Cleared(w.s, r) || Stuck(w.s, r)
    ensures Stuck(old(w.s), r) ==> out != Ok && Stuck(w.s, r)
    ensures Strikes(w) && Runs(old(w.s), r) && r.fingerprint.Some? && Cleanable(old(w.s), r) ==> out == Crash && Stuck(w.s, r)
  {
    hide Chain, Good, Savable, Sound, Shrinking, Covered, Narrower, Doomed, OnTheWay, Progress, Gone, Handled,
      FilesRemovable, Spared;
    DoomedNow(start, w.s, given, r);
    out := RemoveContainer(w, r);
    HandledShrinks(old(w.s), w.s, r);
    StillOnTheWay(start, old(w.s), w.s, given, r);
    OnTheWayProgress(start, w.s, given, r);
    after := r;
    if out == Ok {
      ghost var t := w.s;
      out, after := RemoveBookings(w, start, given, r);
      StillGone(t, w.s, r);
      StillShrinking(old(w.s), t, w.s);
      if out == Fail && w.reliable && FilesRemovable(old(w.s), r) {
        CoversItself(t, r);
        StillRemovable(old(w.s), t, r, r);
      }
    }
  }

  lemma StillGone(s: State, t: State, r: Record)
    requires Shrinking(s, t)
    ensures (r.ref.Some? ==> r.ref.value.container !in s.containers) ==> Cleared(t, r)
  {
  }

  lemma DoomedNow(start: State, s: State, given: Record, r: Record)
    requires OnTheWay(start, s, given, r)
    ensures Doomed(s, r)
  {
  }

  method RemoveBookings(w: World, ghost start: State, ghost given: Record, r: Record) returns (out: Outcome, after: Record)
    requires w.Valid() && OnTheWay(start, w.s, given, r)
    requires r.ref.Some? ==> r.ref.value.container !in w.s.containers
    modifies w
    ensures w.Went(out) && Progress(start, w.s, given) && Shrinking(old(w.s), w.s)
    ensures out == Ok ==> w.s.record == Some(after) && OnTheWay(start, w.s, given, after) && Gone(w.s, given)
    ensures out == Fail && w.reliable ==> !FilesRemovable(old(w.s), r)
  {
    hide Chain, Good, Savable, Sound, Shrinking, Covered, Narrower, Doomed, OnTheWay, Progress, Gone, FilesRemovable, Held;
    out, after := RemoveLeases(w, start, given, r);
    ghost var t, free := w.s, after;
    if out == Ok {
      StillRef(old(w.s), t, r, after);
      out, after := RemoveFiles(w, start, given, after);
      StillShrinking(old(w.s), t, w.s);
      if out == Fail && w.reliable && FilesRemovable(old(w.s), r) {
        StillRemovable(old(w.s), t, r, free);
      }
    }
  }

  lemma StillRef(s: State, t: State, r: Record, after: Record)
    requires Narrower(r, after) && Shrinking(s, t)
    requires r.ref.Some? ==> r.ref.value.container !in s.containers
    ensures after.ref == r.ref && (after.ref.Some? ==> after.ref.value.container !in t.containers)
  {
  }

  /** The known-hosts file and the mounts, once no lease is held. */
  method RemoveFiles(w: World, ghost start: State, ghost given: Record, r: Record) returns (out: Outcome, after: Record)
    requires w.Valid() && OnTheWay(start, w.s, given, r)
    requires r.ref.Some? ==> r.ref.value.container !in w.s.containers
    requires forall l :: !Held(r.resources, l)
    modifies w
    ensures w.Went(out) && Progress(start, w.s, given) && Shrinking(old(w.s), w.s)
    ensures out == Ok ==> w.s.record == Some(after) && OnTheWay(start, w.s, given, after) && Gone(w.s, given)
    ensures out == Fail && w.reliable ==> !FilesRemovable(old(w.s), r)
  {
    hide Chain, Good, Savable, Sound, Shrinking, Covered, Narrower, Doomed, OnTheWay, Progress, Gone, FilesRemovable,
      Held, ReleasedAll, Live, ForeignEntry, ForeignMount;
    out, after := RemovePinned(w, start, given, r);
    ghost var t, free := w.s, after;
    if out == Fail && w.reliable {
      ForeignUnremovable(old(w.s), r);
    }
    if out == Ok {
      StillRef(old(w.s), t, r, after);
      out, after := RemoveMounts(w, start, given, after);
      StillShrinking(old(w.s), t, w.s);
      if out == Fail && w.reliable {
        ForeignUnremovable(t, free);
        if FilesRemovable(old(w.s), r) {
          StillRemovable(old(w.s), t, r, free);
        }
      }
      if out == Ok {
        FilesGone(start, t, w.s, given, r, free, after);
      }
    }
  }

  lemma ForeignUnremovable(s: State, r: Record)
    ensures ForeignEntry(s, r.resources) || ForeignMount(s, r) ==> !FilesRemovable(s, r)
  {
  }

  lemma FilesGone(start: State, t: State, s: State, given: Record, r: Record, free: Record, after: Record)
    requires OnTheWay(start, s, given, after) && Shrinking(t, s)
    requires free == r.(resources := ReleasedAll(r.resources, KnownHosts))
    requires after == free.(resources := ReleasedAll(free.resources, Mount))
    requires forall l :: !Held(r.resources, l)
    requires r.ref.Some? ==> r.ref.value.container !in t.containers
    ensures Gone(s, given)
  {
    LiveReleasedAll(r.resources, KnownHosts, HostLease);
    LiveReleasedAll(r.resources, KnownHosts, KnownHosts);
    LiveReleasedAll(free.resources, Mount, HostLease);
    LiveReleasedAll(free.resources, Mount, KnownHosts);
    LiveReleasedAll(free.resources, Mount, Mount);
    forall l ensures !Held(after.resources, l) {
      HeldLive(after.resources, r.resources, l);
    }
    AllGone(s, given, after);
  }

  /** The run tree, then the data tree. */
  method RemoveTrees(w: World) returns (out: Outcome)
    requires w.Valid() && MayAct(w.s)
    modifies w`s, w`history, w`crashes
    ensures w.Went(out) && w.s == old(w.s).(runTree := w.s.runTree, dataTree := w.s.dataTree, keys := w.s.keys)
    ensures Shrinking(old(w.s), w.s)
    ensures out == Ok ==> !w.s.runTree && !w.s.dataTree
    ensures out == Fail ==> !w.reliable
  {
    hide Chain, Good, Shrinking;
    out := w.SetTrees(false, w.s.dataTree);
    if out == Ok {
      out := w.SetTrees(false, false);
    }
    ShrinkingLife(old(w.s), w.s);
  }

  /** `removeLocked`. Success: everything the record described is gone, and so are the trees. At any
      other end nothing that still exists has been forgotten. Without errors from outside it fails
      only on a workspace that is not `Removable`; as far as the container goes, it succeeds exactly on
      a record that is `Cleared`. */
  method RemoveLocked(w: World, given: Record) returns (out: Outcome, r: Record)
    requires w.Valid() && MayAct(w.s) && w.s.acting.Some? && w.s.record == Some(given)
    modifies w
    ensures w.Went(out) && Progress(old(w.s), w.s, given)
    ensures out == Ok ==> w.s.record == Some(r) && w.s.removing && Gone(w.s, given) && !w.s.runTree && !w.s.dataTree
    ensures out == Fail && w.reliable ==> !Removable(old(w.s), given)
    ensures w.reliable && FilesRemovable(old(w.s), given) && out != Crash ==> (out == Ok <==> Cleared(old(w.s), given))
    ensures KeyFate(old(w.s), w.s, given, out, w.reliable)
    ensures Strikes(w) && Striking(old(w.s), given) ==> out == Crash && Stuck(w.s, given)
  {
    hide Chain, Good, Savable, Sound, Shrinking, Covered, Narrower, Doomed, OnTheWay, Progress, Gone, FilesRemovable;
    out, r := BeginRemoving(w, given);
    ghost var t := w.s;
    SameClear(old(w.s), t, given, given.(status := Removing));
    if out == Ok {
      out, r := RemoveMarked(w, old(w.s), given, r);
      SameClear(w.s, w.s, given, given.(status := Removing));
    }
  }

  /** What becomes of the host key in a removal that ends with `out`: it succeeds only on a record whose
      container could go; while every call works or plan.json can be used such a record stays so, unless the
      key is lost; and a removal that starts with the key lost fails and leaves it so. */
  ghost predicate KeyFate(s: State, t: State, r: Record, out: Outcome, reliable: bool) {
    && (out == Ok ==> Cleared(s, r))
    && ((reliable || PlanUsable(s)) && Cleared(s, r) ==> Cleared(t, r) || Stuck(t, r))
    && (Stuck(s, r) ==> out != Ok && Stuck(t, r))
  }

  /** A running container that is about to be cleaned. */
  predicate Striking(s: State, r: Record) {
    Runs(s, r) && r.fingerprint.Some? && Cleanable(s, r)
  }

  lemma FateSame(s: State, t: State, r: Record, out: Outcome, reliable: bool)
    requires t == s.(journal := t.journal, acting := t.acting, cleaned := t.cleaned) && out != Ok
    ensures KeyFate(s, t, r, out, reliable)
  {
  }

  /** Journal steps before and after a removal do not matter to it. */
  lemma FateJournal(a: State, s: State, t: State, u: State, r: Record, out: Outcome, ended: Outcome, reliable: bool)
    requires s == a.(journal := s.journal, acting := s.acting, cleaned := s.cleaned)
    requires u == t.(journal := u.journal, acting := u.acting, cleaned := u.cleaned)
    requires KeyFate(s, t, r, out, reliable) && (ended == Ok ==> out == Ok)
    ensures KeyFate(a, u, r, ended, reliable)
    ensures Striking(a, r) == Striking(s, r) && Stuck(u, r) == Stuck(t, r)
  {
  }

  /** Nor does the deletion of the files after it. */
  lemma FateForgot(s: State, t: State, u: State, key: Key, r: Record, out: Outcome, reliable: bool)
    requires KeyFate(s, t, r, Ok, reliable) && Removed(t, key, r)
    requires u == t.(record := u.record, plan := u.plan, stale := u.stale)
    ensures KeyFate(s, u, r, out, reliable)
  {
  }

  /** Whether the container can go depends on little of state and record. */
  lemma SameClear(s: State, t: State, given: Record, r: Record)
    requires t == s.(record := t.record, trail := t.trail, removing := t.removing)
    requires r.ref == given.ref && r.fingerprint == given.fingerprint
    ensures Cleared(t, r) == Cleared(s, given) && Stuck(t, r) == Stuck(s, given)
    ensures Cleanable(t, r) == Cleanable(s, given) && Runs(t, r) == Runs(s, given)
  {
  }

  /** The removal once the record says Removing. */
  method RemoveMarked(w: World, ghost start: State, ghost given: Record, marked: Record) returns (out: Outcome, r: Record)
    requires w.Valid() && OnTheWay(start, w.s, given, marked) && marked == given.(status := Removing)
    requires w.s == start.(record := w.s.record, trail := w.s.trail, removing := w.s.removing)
    modifies w
    ensures w.Went(out) && Progress(start, w.s, given)
    ensures out == Ok ==> w.s.record == Some(r) && w.s.removing && Gone(w.s, given) && !w.s.runTree && !w.s.dataTree
    ensures out == Ok ==> Cleared(old(w.s), marked)
    ensures out == Fail && w.reliable ==> !(Cleared(old(w.s), marked) && FilesRemovable(start, given))
    ensures (w.reliable || PlanUsable(old(w.s))) && Cleared(old(w.s), marked) ==> Cleared(w.s, marked) || Stuck(w.s, marked)
    ensures Stuck(old(w.s), marked) ==> out != Ok && Stuck(w.s, marked)
    ensures Strikes(w) && Runs(old(w.s), marked) && marked.fingerprint.Some? && Cleanable(old(w.s), marked) ==>
      out == Crash && Stuck(w.s, marked)
  {
    hide Chain, Good, Savable, Sound, Shrinking, Covered, Narrower, Doomed, OnTheWay, Progress, Gone, FilesRemovable;
    out, r := RemoveResources(w, start, given, marked);
    if out == Fail && w.reliable && FilesRemovable(start, given) {
      MarkedNarrower(given, marked);
      MarkedShrinks(start, old(w.s), given, marked);
      StillRemovable(start, old(w.s), given, marked);
    }
    if out == Ok {
      ghost var t := w.s;
      RemovingNow(start, t, given, r);
      GoneNow(t, given, marked);
      out := RemoveTrees(w);
      TreesProgress(start, t, w.s, given);
      StillGone(t, w.s, marked);
    }
  }

  lemma MarkedShrinks(start: State, s: State, given: Record, r: Record)
    requires OnTheWay(start, s, given, r)
    ensures Shrinking(start, s)
  {
  }

  lemma GoneNow(s: State, given: Record, r: Record)
    requires Gone(s, given) && r.ref == given.ref
    ensures r.ref.Some? ==> r.ref.value.container !in s.containers
  {
  }

  lemma MarkedNarrower(given: Record, r: Record)
    requires r == given.(status := Removing)
    ensures Narrower(given, r)
  {
  }

  lemma RemovingNow(start: State, s: State, given: Record, r: Record)
    requires OnTheWay(start, s, given, r)
    ensures s.removing && MayAct(s)
  {
  }

  lemma TreesProgress(start: State, s: State, t: State, given: Record)
    requires Progress(start, s, given) && Shrinking(s, t) && t.record == s.record && t.containers == s.containers
    ensures Progress(start, t, given) && (Gone(s, given) ==> Gone(t, given)) && (s.removing ==> t.removing)
  {
    hide Narrower;
    StillShrinking(start, s, t);
  }

  // ---------- The operation ----------

  /** `RemoveWorkspaceStateArtifacts`: the record first, then plan.json, going on after a failure. */
  method RemoveArtifacts(w: World) returns (out: Outcome)
    requires w.Valid() && MayForget(w.s)
    modifies w`s, w`history, w`crashes
    ensures w.Went(out) && w.s == old(w.s).(record := w.s.record, plan := w.s.plan, stale := w.s.stale)
    ensures w.s.record in {old(w.s).record, None} && w.s.plan in {old(w.s).plan, None}
    ensures out == Ok ==> w.s.record.None? && w.s.plan.None?
    ensures out == Fail ==> !w.reliable
    ensures old(w.s).record.None? && old(w.s).plan.None? ==> w.s == old(w.s)
  {
    hide Chain, Good;
    out := w.RemoveRecordFile();
    if out != Crash {
      var planned := w.RemovePlanFile();
      out := if planned == Ok then out else planned;
    }
  }

  /** Exactly when plan.json can go and leave every container of a creation with a plan behind it:
      not while such a container exists. A key of a finished removal that is used again after the
      workspace was created anew deletes without looking, and that is how a state becomes stale. */
  lemma PlanRemovalSafe(s: State)
    requires Good(s)
    ensures Good(s.(plan := None)) <==> s.stale || !Bereaves(s)
  {
    var t := s.(plan := None);
    if s.record.Some? {
      var r := s.record.value;
      if Nursery(t, r) {
        assert GoodRecord(t, r);
      }
    }
  }

  /** The removal of what `given` records is over, and the journal says so. */
  ghost predicate Removed(s: State, key: Key, given: Record) {
    && key in s.journal && s.journal[key].phase == Succeeded
    && Gone(s, given) && !s.runTree && !s.dataTree
    && (s.record.Some? ==> s.removing)
  }

  /** It is not over, and nothing that still exists has been forgotten. */
  ghost predicate Advancing(s: State, given: Record) {
    s.record.Some? && Covered(s, given, s.record.value) && Narrower(given, s.record.value)
  }

  /** The key may be used for this removal, and nothing outside stands against it. */
  ghost predicate Clear(s: State, key: Key, input: Input) {
    && Bindable(s, key, input)
    && (if Concluded(s, key) then s.journal[key].phase == Succeeded
        else s.record.Some? && Removable(s, s.record.value))
  }

  /** Apart from the journal, things only go. */
  ghost predicate Shrank(s: State, t: State) {
    Shrinking(s, t.(journal := s.journal, acting := s.acting, cleaned := s.cleaned))
  }

  /** No container but the one that the record names is gone. */
  ghost predicate OnlyOwnGone(s: State, t: State) {
    Spared(s, t, if s.record.Some? then s.record.value.ref else None)
  }

  /** Of the containers made for the record none is left. */
  ghost predicate NoneLeft(s: State) {
    forall c :: c in s.born ==> c !in s.containers
  }

  /** Every container made for the record that exists is the one it names. */
  ghost predicate AllNamed(s: State, r: Record) {
    forall c :: c in s.born && c in s.containers ==> r.ref.Some? && c == r.ref.value.container
  }

  /** A removal takes away what the record names and nothing else: none of the containers made for the
      record is left if and only if it named each of them. */
  lemma RemovesNamed(s: State, t: State, given: Record)
    requires Shrank(s, t) && Spared(s, t, given.ref) && Gone(t, given)
    ensures NoneLeft(t) <==> AllNamed(s, given)
  {
    if !AllNamed(s, given) {
      var c :| c in s.born && c in s.containers && !(given.ref.Some? && c == given.ref.value.container);
      assert c in t.born && c in t.containers;
    }
  }

  lemma SameButJournal(s: State, t: State, given: Record)
    requires t == s.(journal := t.journal, acting := t.acting, cleaned := t.cleaned)
    ensures Shrank(s, t) && (Gone(s, given) <==> Gone(t, given)) && (Removable(s, given) <==> Removable(t, given))
    ensures Advancing(s, given) <==> Advancing(t, given)
  {
  }

  /** `removeLocked` on the loaded record. */
  method RemoveLoaded(w: World) returns (out: Outcome, r: Option<Record>)
    requires w.Valid() && MayAct(w.s) && w.s.acting.Some?
    modifies w
    ensures w.Went(out) && Shrinking(old(w.s), w.s) && OnlyOwnGone(old(w.s), w.s)
    ensures old(w.s).record.Some? ==>
      Advancing(w.s, old(w.s).record.value) && KeyFate(old(w.s), w.s, old(w.s).record.value, out, w.reliable)
    ensures out == Ok ==> old(w.s).record.Some? && w.s.record.Some? && w.s.removing
    ensures out == Ok ==> Gone(w.s, old(w.s).record.value) && !w.s.runTree && !w.s.dataTree
    ensures out == Fail && w.reliable ==> old(w.s).record.None? || !Removable(old(w.s), old(w.s).record.value)
    ensures Strikes(w) && old(w.s).record.Some? && Striking(old(w.s), old(w.s).record.value) ==>
      out == Crash && Stuck(w.s, old(w.s).record.value)
  {
    hide Chain, Good, Shrinking, Covered, Narrower, Gone, Removable, KeyFate, Striking, Stuck;
    r := w.s.record;
    out := w.Try();  // load the record
    if out == Ok && r.None? {
      out := Fail;
    }
    if out != Ok {
      CoversNothing(w.s);
      if r.Some? {
        CoversItself(w.s, r.value);
        FateSame(w.s, w.s, r.value, out, w.reliable);
      }
      return;
    }
    var after;
    out, after := RemoveLocked(w, r.value);
    r := Some(after);
  }

  lemma CoversNothing(s: State)
    ensures Shrinking(s, s)
  {
  }

  /** The operation of `key` once it has begun: the removal, and its entry. */
  method RemoveBegun(w: World, key: Key) returns (out: Outcome)
    requires w.Valid() && MayAct(w.s) && w.s.acting == Some(key)
    modifies w
    ensures w.Went(out) && w.s.acting.None? && Shrank(old(w.s), w.s) && OnlyOwnGone(old(w.s), w.s)
    ensures key in w.s.journal && w.s.journal[key].input == old(w.s).journal[key].input
    ensures OthersKept(old(w.s).journal, w.s.journal, key)
    ensures old(w.s).record.Some? ==> Advancing(w.s, old(w.s).record.value)
    ensures Concluded(w.s, key) && (w.s.journal[key].phase == Succeeded || out == Ok) ==>
      old(w.s).record.Some? && Removed(w.s, key, old(w.s).record.value) && w.s.journal[key].phase == Succeeded
    ensures out == Ok ==> Concluded(w.s, key)
    ensures w.reliable && old(w.s).record.Some? && Removable(old(w.s), old(w.s).record.value) ==>
      out != Fail && (Concluded(w.s, key) ==> w.s.journal[key].phase == Succeeded)
    ensures old(w.s).record.Some? ==> KeyFate(old(w.s), w.s, old(w.s).record.value, out, w.reliable)
    ensures Strikes(w) && old(w.s).record.Some? && Striking(old(w.s), old(w.s).record.value) ==>
      out == Crash && Stuck(w.s, old(w.s).record.value)
  {
    hide Chain, Good, Shrinking, Covered, Narrower, Gone, Removable, Shrank, Advancing, KeyFate, Striking, Stuck;
    var r;
    out, r := RemoveLoaded(w);
    ghost var t, ended := w.s, out;
    KeepsJournal(old(w.s), t);
    out := Conclude(w, key, out, r);
    if old(w.s).record.Some? {
      SameButJournal(t, w.s, old(w.s).record.value);
      FateJournal(old(w.s), old(w.s), t, w.s, old(w.s).record.value, ended, out, w.reliable);
    }
    StillShrank(old(w.s), t, w.s);
  }

  lemma KeepsJournal(s: State, t: State)
    requires Shrinking(s, t)
    ensures t.journal == s.journal && t.acting == s.acting && t.id == s.id && (s.removing ==> t.removing)
  {
  }

  lemma StillShrank(s: State, t: State, u: State)
    requires Shrinking(s, t) && u == t.(journal := u.journal, acting := u.acting, cleaned := u.cleaned)
    ensures Shrank(s, u)
  {
  }

  lemma ShrankTwice(s: State, t: State, u: State)
    requires Shrank(s, t) && Shrank(t, u)
    ensures Shrank(s, u)
  {
    StillShrinking(s, t.(journal := s.journal, acting := s.acting, cleaned := s.cleaned),
                   u.(journal := s.journal, acting := s.acting, cleaned := s.cleaned));
  }

  /** What is clear to go stays so at every end of the removal. */
  lemma StillClear(s: State, t: State, key: Key, input: Input)
    requires Clear(s, key, input) && Shrank(s, t) && !Concluded(s, key)
    requires Bindable(t, key, input) && Advancing(t, s.record.value)
    requires Concluded(t, key) ==> t.journal[key].phase == Succeeded
    requires Cleared(t, s.record.value)
    ensures Clear(t, key, input)
  {
    StillRemovable(s, t.(journal := s.journal, acting := s.acting, cleaned := s.cleaned), s.record.value, t.record.value);
    NarrowerKey(t, s.record.value, t.record.value);
  }

  lemma NarrowerKey(s: State, given: Record, r: Record)
    requires Narrower(given, r)
    ensures Cleared(s, r) == Cleared(s, given) && Stuck(s, r) == Stuck(s, given)
  {
  }

  /** The removal under this key is not over, and the key that is pinned is lost. */
  predicate Jammed(s: State, key: Key) {
    s.record.Some? && Stuck(s, s.record.value) && !(Concluded(s, key) && s.journal[key].phase == Succeeded)
  }

  lemma DecidedJammed(s: State, given: Record, key: Key)
    requires Decided(s, key, given) && Stuck(s, given)
    ensures Jammed(s, key)
  {
    NowJammed(s, given, key);
  }

  lemma NowJammed(s: State, given: Record, key: Key)
    requires Advancing(s, given) && Stuck(s, given) && !(Concluded(s, key) && s.journal[key].phase == Succeeded)
    ensures Jammed(s, key)
  {
    NarrowerKey(s, given, s.record.value);
  }

  /** `mutateWorkspace` around the removal. A concluded key is replayed without effect. */
  method RemoveMutate(w: World, key: Key, command: Command) returns (out: Outcome)
    requires w.Valid() && w.s.acting.None?
    modifies w
    ensures w.Went(out) && w.s.acting.None? && Shrank(old(w.s), w.s) && OnlyOwnGone(old(w.s), w.s)
    ensures OthersKept(old(w.s).journal, w.s.journal, key)
    ensures Concluded(old(w.s), key) ==> w.s == old(w.s)
    ensures out == Ok ==> Concluded(w.s, key) && w.s.journal[key].phase == Succeeded
    ensures out == Ok ==> w.s.journal[key].input == CommandInput(command)
    ensures !Concluded(old(w.s), key) && old(w.s).record.Some? ==> Advancing(w.s, old(w.s).record.value)
    ensures !Concluded(old(w.s), key) && Concluded(w.s, key) && w.s.journal[key].phase == Succeeded ==>
      old(w.s).record.Some? && Removed(w.s, key, old(w.s).record.value)
    ensures w.reliable && Clear(old(w.s), key, CommandInput(command)) ==>
      out != Fail && (Clear(w.s, key, CommandInput(command)) || (out == Crash && Jammed(w.s, key)))
    ensures !Concluded(old(w.s), key) && old(w.s).record.Some? ==>
      KeyFate(old(w.s), w.s, old(w.s).record.value, out, w.reliable)
    ensures Strikes(w) && StrikesUnder(old(w.s), key, CommandInput(command)) ==>
      out == Crash && Stuck(w.s, old(w.s).record.value)
  {
    hide Chain, Good, Covered, Narrower, Gone, Removable, Shrank, Advancing, Removed, KeyFate, Striking, Stuck,
      Jammed, OnlyOwnGone, Clear;
    var proceed;
    out, proceed := EnterRemoval(w, key, command);
    if proceed {
      ghost var t := w.s;
      out := RemoveBegun(w, key);
      BegunEnds(old(w.s), t, w.s, key, CommandInput(command), out, w.reliable);
    }
  }

  /** `BeginOperation` for a removal: it goes on only under a running entry. */
  method EnterRemoval(w: World, key: Key, command: Command) returns (out: Outcome, proceed: bool)
    requires w.Valid() && w.s.acting.None?
    modifies w
    ensures w.Went(out) && w.s == old(w.s).(journal := w.s.journal, acting := w.s.acting, cleaned := w.s.cleaned)
    ensures Shrank(old(w.s), w.s) && OnlyOwnGone(old(w.s), w.s) && OthersKept(old(w.s).journal, w.s.journal, key)
    ensures Concluded(old(w.s), key) ==> w.s == old(w.s) && !proceed
    ensures proceed ==>
      && out == Ok && w.s.acting == Some(key) && MayAct(w.s) && !Concluded(w.s, key)
      && w.s.journal[key].input == CommandInput(command) && Bindable(w.s, key, CommandInput(command))
    ensures !proceed ==> w.s.acting.None? && (Concluded(w.s, key) ==> Concluded(old(w.s), key))
    ensures !proceed && out == Ok ==> Concluded(old(w.s), key) && w.s.journal[key].phase == Succeeded
    ensures out == Ok ==> key in w.s.journal && w.s.journal[key].input == CommandInput(command)
    ensures old(w.s).record.Some? ==> Advancing(w.s, old(w.s).record.value)
    ensures old(w.s).record.Some? && out != Ok ==> KeyFate(old(w.s), w.s, old(w.s).record.value, out, w.reliable)
    ensures w.reliable && Clear(old(w.s), key, CommandInput(command)) ==>
      out != Fail && Clear(w.s, key, CommandInput(command))
    ensures w.calm && Bindable(old(w.s), key, CommandInput(command)) && !Concluded(old(w.s), key) ==>
      proceed && w.mishap == old(w.mishap) && w.crashes == old(w.crashes)
  {
    hide Chain, Good, Covered, Narrower, Gone, Removable, Shrank, Advancing, KeyFate, Stuck, Cleared, OnlyOwnGone, Clear;
    ClearGives(w.s, key, CommandInput(command));
    var begun;
    out, begun := BeginOperation(w, key, CommandInput(command));
    KeyBound(old(w.s), w.s, key, CommandInput(command));
    proceed := out == Ok && begun.Proceed?;
    if out == Ok && begun.Replay? && begun.phase == Failed {
      out := Fail;
    }
    if old(w.s).record.Some? && out != Ok {
      FateSame(old(w.s), w.s, old(w.s).record.value, out, w.reliable);
    }
  }

  /** What the operation achieved since its key was bound it achieved since it was called. */
  lemma BegunEnds(s: State, t: State, u: State, key: Key, input: Input, out: Outcome, reliable: bool)
    requires t == s.(journal := t.journal, acting := t.acting, cleaned := t.cleaned) && !Concluded(s, key) &&
      Bindable(u, key, input)
    requires Shrank(t, u) && OnlyOwnGone(t, u) && (out == Ok ==> Concluded(u, key))
    requires t.record.Some? ==> Advancing(u, t.record.value) && KeyFate(t, u, t.record.value, out, reliable)
    requires Concluded(u, key) && u.journal[key].phase == Succeeded ==> t.record.Some? && Removed(u, key, t.record.value)
    requires reliable && t.record.Some? && Removable(t, t.record.value) ==>
      out != Fail && (Concluded(u, key) ==> u.journal[key].phase == Succeeded)
    ensures Shrank(s, u) && OnlyOwnGone(s, u)
    ensures s.record.Some? ==> KeyFate(s, u, s.record.value, out, reliable)
    ensures reliable && Clear(s, key, input) ==> out != Fail && (Clear(u, key, input) || (out == Crash && Jammed(u, key)))
    ensures s.record.Some? ==> Striking(t, s.record.value) == Striking(s, s.record.value)
  {
    hide Shrank, Advancing, Removed, KeyFate, Striking, Stuck, Cleared, Jammed, FilesRemovable, Bindable, OnlyOwnGone, Spared;
    SameShrank(s, t, u);
    ShrankTwice(s, t, u);
    if s.record.Some? {
      SameButJournal(s, t, s.record.value);
      FateJournal(s, t, u, u, s.record.value, out, out, reliable);
      if reliable && Clear(s, key, input) {
        ClearOrJammed(s, u, key, input, out);
      }
    }
  }

  lemma SameShrank(s: State, t: State, u: State)
    requires t == s.(journal := t.journal, acting := t.acting, cleaned := t.cleaned) && OnlyOwnGone(t, u)
    ensures Shrank(s, t) && OnlyOwnGone(s, u)
  {
  }

  /** A removal that starts, on a running container that is about to be cleaned. */
  predicate StrikesUnder(s: State, key: Key, input: Input) {
    Bindable(s, key, input) && !Concluded(s, key) && s.record.Some? && Striking(s, s.record.value)
  }

  /** A removal that could succeed still can at every end of it, unless the process died over the key. */
  lemma ClearOrJammed(s: State, t: State, key: Key, input: Input, out: Outcome)
    requires Clear(s, key, input) && Shrank(s, t) && !Concluded(s, key)
    requires Bindable(t, key, input) && Advancing(t, s.record.value) && out != Fail
    requires KeyFate(s, t, s.record.value, out, true)
    requires Concluded(t, key) ==> t.journal[key].phase == Succeeded && Removed(t, key, s.record.value)
    requires out == Ok ==> Concluded(t, key)
    ensures Clear(t, key, input) || (out == Crash && Jammed(t, key))
  {
    hide Shrank, Advancing, FilesRemovable, Cleanable;
    if Cleared(t, s.record.value) {
      StillClear(s, t, key, input);
    } else {
      NowJammed(t, s.record.value, key);
    }
  }

  /** Binding the key changes the journal only. */
  lemma KeyBound(s: State, t: State, key: Key, input: Input)
    requires t == s.(journal := t.journal, acting := t.acting, cleaned := t.cleaned)
    ensures Shrank(s, t) && OnlyOwnGone(s, t)
    ensures s.record.Some? ==> Advancing(t, s.record.value)
    ensures s.record.Some? ==> (Removable(s, s.record.value) <==> Removable(t, s.record.value))
    ensures Clear(s, key, input) && Begins(s.journal, t.journal, key, input) ==> Clear(t, key, input)
  {
    hide Shrank, OnlyOwnGone, Advancing, Removable, Gone;
    BoundShrank(s, t);
    if s.record.Some? {
      SameButJournal(s, t, s.record.value);
    }
  }

  lemma BoundShrank(s: State, t: State)
    requires t == s.(journal := t.journal, acting := t.acting, cleaned := t.cleaned)
    ensures Shrank(s, t) && OnlyOwnGone(s, t)
    ensures s.record.Some? ==> Advancing(t, s.record.value)
  {
    if s.record.Some? {
      CoversItself(t, s.record.value);
    }
  }

  lemma ClearGives(s: State, key: Key, input: Input)
    ensures Clear(s, key, input) ==> Bindable(s, key, input) && (Concluded(s, key) ==> s.journal[key].phase == Succeeded)
  {
  }

  /** Either everything is gone, or nothing has been forgotten. */
  ghost predicate Decided(s: State, key: Key, given: Record) {
    if Concluded(s, key) && s.journal[key].phase == Succeeded then Removed(s, key, given) else Advancing(s, given)
  }

  /** `removeOperation`, for `Remove` and `Recover`. Success: no record and no plan, and the entry of
      the key has succeeded. A removal that a caller started over on a record ends either with
      everything gone or with nothing forgotten, and takes no container but the one that the record
      names. Without errors from outside, a workspace that was clear to go is removed unless the
      process dies, and then it still is clear to go. A key whose removal is over deletes record and
      plan again, whatever they belong to by then: it changes nothing if and only if there are none. */
  method RemoveOperation(w: World, key: Key, command: Command) returns (out: Outcome)
    requires w.Valid() && w.s.acting.None? && (command.Remove? || command.Recover?)
    modifies w
    ensures w.Went(out) && w.s.acting.None?
    ensures out == Ok ==> w.s.record.None? && w.s.plan.None?
    ensures out == Ok ==>
      Concluded(w.s, key) && w.s.journal[key] == w.s.journal[key].(input := CommandInput(command), phase := Succeeded)
    ensures Concluded(old(w.s), key) ==>
      w.s == old(w.s).(record := w.s.record, plan := w.s.plan, stale := w.s.stale) && w.s.record in {old(w.s).record, None}
    ensures Concluded(old(w.s), key) && old(w.s).record.None? && old(w.s).plan.None? ==> w.s == old(w.s)
    ensures Concluded(old(w.s), key) && old(w.s).journal[key].phase == Failed ==> w.s == old(w.s) && out != Ok
    ensures Concluded(old(w.s), key) && out == Ok ==>
      (w.s == old(w.s) <==> old(w.s).record.None? && old(w.s).plan.None?)
    ensures Shrank(old(w.s), w.s) && OnlyOwnGone(old(w.s), w.s) && OthersKept(old(w.s).journal, w.s.journal, key)
    ensures old(w.s).record.Some? && !Concluded(old(w.s), key) ==> Decided(w.s, key, old(w.s).record.value)
    ensures out == Ok && old(w.s).record.Some? && !Concluded(old(w.s), key) ==>
      (NoneLeft(w.s) <==> AllNamed(old(w.s), old(w.s).record.value))
    ensures w.reliable && Clear(old(w.s), key, CommandInput(command)) ==>
      out != Fail && (Clear(w.s, key, CommandInput(command)) || (out == Crash && Jammed(w.s, key)))
    ensures !Concluded(old(w.s), key) && old(w.s).record.Some? ==>
      KeyFate(old(w.s), w.s, old(w.s).record.value, out, w.reliable)
    ensures Jammed(old(w.s), key) ==> out != Ok && Jammed(w.s, key)
    ensures Strikes(w) && StrikesUnder(old(w.s), key, CommandInput(command)) ==>
      out == Crash && Stuck(w.s, old(w.s).record.value)
  {
    hide Chain, Good, Shrinking, Covered, Narrower, Gone, Removable, Shrank, Advancing, Removed, Clear, Spared,
      NoneLeft, AllNamed, KeyFate, StrikesUnder, Stuck, Jammed;
    out := RemoveMutate(w, key, command);
    if out == Ok {
      ghost var t := w.s;
      out := Forget(w, key);
      Forgotten(old(w.s), t, w.s, key, CommandInput(command), out, w.reliable);
    }
    if Jammed(old(w.s), key) {
      StaysJammed(old(w.s), w.s, key, out, w.reliable);
    }
  }

  /** A removal under a key that has not succeeded, started when the pinned key is lost, fails and leaves it so. */
  lemma StaysJammed(s: State, t: State, key: Key, out: Outcome, reliable: bool)
    requires Jammed(s, key) && Shrank(s, t)
    requires Concluded(s, key) && s.journal[key].phase == Failed ==> t == s && out != Ok
    requires s.record.Some? && !Concluded(s, key) ==>
      Decided(t, key, s.record.value) && KeyFate(s, t, s.record.value, out, reliable)
    ensures Jammed(t, key) && out != Ok
  {
    hide Shrank, Decided;
    if !Concluded(s, key) {
      DecidedJammed(t, s.record.value, key);
    }
  }

  /** What the removal achieved stays when the files go. */
  lemma Forgotten(s: State, t: State, u: State, key: Key, input: Input, out: Outcome, reliable: bool)
    requires u == t.(record := u.record, plan := u.plan, stale := u.stale)
    requires u.record in {t.record, None} && u.plan in {t.plan, None}
    requires Concluded(t, key) && t.journal[key].phase == Succeeded && Shrank(s, t) && OnlyOwnGone(s, t)
    requires s.record.Some? && !Concluded(s, key) ==>
      Removed(t, key, s.record.value) && KeyFate(s, t, s.record.value, Ok, reliable)
    ensures Shrank(s, u) && OnlyOwnGone(s, u) && (Clear(t, key, input) ==> Clear(u, key, input))
    ensures s.record.Some? && !Concluded(s, key) ==>
      && Decided(u, key, s.record.value) && KeyFate(s, u, s.record.value, out, reliable)
      && (NoneLeft(u) <==> AllNamed(s, s.record.value))
  {
    hide Shrank, Spared, Removed, KeyFate, NoneLeft, AllNamed, Gone, Clear;
    ArtifactsGone(s, t, u, key, input);
    ShrankTwice(s, t, u);
    if s.record.Some? && !Concluded(s, key) {
      FateForgot(s, t, u, key, s.record.value, out, reliable);
      RemovedGone(u, key, s.record.value);
      RemovesNamed(s, u, s.record.value);
    }
  }

  lemma RemovedGone(s: State, key: Key, given: Record)
    requires Removed(s, key, given)
    ensures Gone(s, given)
  {
  }

  /** The deletion of the files, in the name of the key whose removal is over. */
  method Forget(w: World, key: Key) returns (out: Outcome)
    requires w.Valid() && w.s.acting.None? && MayForget(w.s.(acting := Some(key)))
    modifies w`s, w`history, w`crashes
    ensures w.Went(out) && w.s == old(w.s).(record := w.s.record, plan := w.s.plan, stale := w.s.stale)
    ensures w.s.record in {old(w.s).record, None} && w.s.plan in {old(w.s).plan, None}
    ensures out == Ok ==> w.s.record.None? && w.s.plan.None?
    ensures out == Fail ==> !w.reliable
    ensures old(w.s).record.None? && old(w.s).plan.None? ==> w.s == old(w.s)
  {
    hide Chain, Good;
    assert !w.s.cleaned by { w.GoodNow(); }
    w.Act(Some(key));
    out := RemoveArtifacts(w);
    w.Act(None);
  }

  lemma ArtifactsGone(s: State, t: State, u: State, key: Key, input: Input)
    requires u == t.(record := u.record, plan := u.plan, stale := u.stale) && u.record in {t.record, None}
    requires Concluded(t, key) && t.journal[key].phase == Succeeded
    ensures s.record.Some? && Removed(t, key, s.record.value) ==> Removed(u, key, s.record.value)
    ensures Clear(t, key, input) ==> Clear(u, key, input)
    ensures u.plan in {t.plan, None} ==> Shrank(t, u)
    ensures OnlyOwnGone(s, t) ==> OnlyOwnGone(s, u)
  {
  }

  /** Removal converges: from any state, however many crashes are still to come, repeating the
      operation with the same key ends with the container, the leases, the known-hosts entry and the
      mounts of the record gone, both trees and both files gone, and the entry succeeded. No container
      made for the record is left if and only if the record named each of them. The one other end needs a
      pinned host key and a crash: the process died between the deletion of that key and that of the
      container, and repeating the removal does not help from there. */
  method RemoveUntilGone(w: World, key: Key, command: Command)
    requires w.Valid() && w.s.acting.None? && w.reliable && (command.Remove? || command.Recover?)
    requires w.s.record.Some? && Clear(w.s, key, CommandInput(command)) && !Concluded(w.s, key)
    modifies w
    ensures w.Valid() && old(w.history) <= w.history
    ensures !Jammed(w.s, key) ==>
      && Removed(w.s, key, old(w.s).record.value) && w.s.record.None? && w.s.plan.None?
      && (NoneLeft(w.s) <==> AllNamed(old(w.s), old(w.s).record.value))
    ensures Jammed(w.s, key) ==>
      && old(w.s).record.value.fingerprint.Some? && w.crashes < old(w.crashes)
      && Advancing(w.s, old(w.s).record.value)
    ensures OnlyOwnGone(old(w.s), w.s)
  {
    hide Chain, Good, Covered, Narrower, Gone, Removable, Clear, Spared, Shrank, Shrinking, NoneLeft, AllNamed,
      Jammed, KeyFate, Decided, Advancing, Removed;
    ghost var given := w.s.record.value;
    AdvancingNow(w.s);
    Nothing(w.s, given);
    var out := Crash;
    while out == Crash
      invariant w.Valid() && old(w.history) <= w.history && w.s.acting.None? && w.crashes <= old(w.crashes)
      invariant Shrank(old(w.s), w.s) && Spared(old(w.s), w.s, given.ref)
      invariant UnderWay(w.s, key, given, CommandInput(command), out)
      invariant Jammed(w.s, key) ==> w.crashes < old(w.crashes) && given.fingerprint.Some?
      decreases w.crashes, out == Crash
    {
      ghost var s := w.s;
      ghost var left := w.crashes;
      out := RemoveOperation(w, key, command);
      OneMoreTry(s, w.s, key, given, CommandInput(command), out);
      ShrankTwice(old(w.s), s, w.s);
      SparedTwice(old(w.s), s, w.s, key, given, CommandInput(command));
    }
    if !Jammed(w.s, key) {
      RemovedGone(w.s, key, given);
      RemovesNamed(old(w.s), w.s, given);
    }
  }

  /** Where a removal that is repeated stands: it is clear to go on, or over, or it is stuck. */
  ghost predicate UnderWay(s: State, key: Key, given: Record, input: Input, out: Outcome) {
    if Jammed(s, key) then out != Ok && Advancing(s, given)
    else
      && out != Fail && Clear(s, key, input)
      && (if Concluded(s, key) then Removed(s, key, given) else Advancing(s, given))
      && (out == Ok ==> Concluded(s, key) && s.record.None? && s.plan.None?)
  }

  lemma AdvancingNow(s: State)
    requires s.record.Some?
    ensures Advancing(s, s.record.value) && (forall key, input :: Clear(s, key, input) && !Concluded(s, key) ==>
      UnderWay(s, key, s.record.value, input, Crash) && !Jammed(s, key))
  {
    CoversItself(s, s.record.value);
    forall key, input | Clear(s, key, input) && !Concluded(s, key)
      ensures UnderWay(s, key, s.record.value, input, Crash) && !Jammed(s, key)
    {
      hide Advancing, FilesRemovable;
    }
  }

  lemma Nothing(s: State, given: Record)
    ensures Shrank(s, s) && Spared(s, s, given.ref)
  {
  }

  lemma SparedTwice(s: State, t: State, u: State, key: Key, given: Record, input: Input)
    requires Spared(s, t, given.ref) && OnlyOwnGone(t, u)
    requires UnderWay(t, key, given, input, Crash) && (Concluded(t, key) ==> u.containers == t.containers)
    ensures Spared(s, u, given.ref)
  {
  }

  /** One more try, whatever it came to. */
  lemma OneMoreTry(s: State, t: State, key: Key, given: Record, input: Input, out: Outcome)
    requires UnderWay(s, key, given, input, Crash) && Shrank(s, t)
    requires Concluded(s, key) ==>
      t == s.(record := t.record, plan := t.plan, stale := t.stale) && t.record in {s.record, None}
    requires Concluded(s, key) && s.journal[key].phase == Failed ==> t == s && out != Ok
    requires s.record.Some? && !Concluded(s, key) ==>
      Decided(t, key, s.record.value) && KeyFate(s, t, s.record.value, out, true)
    requires Clear(s, key, input) ==> out != Fail && (Clear(t, key, input) || (out == Crash && Jammed(t, key)))
    requires out == Ok ==> t.record.None? && t.plan.None? && Concluded(t, key)
    ensures UnderWay(t, key, given, input, out)
    ensures Jammed(t, key) ==> given.fingerprint.Some? && (Jammed(s, key) || out == Crash)
  {
    if Jammed(s, key) {
      JammedTry(s, t, key, given, out);
    } else if Clear(t, key, input) {
      Repeated(s, t, key, given, input);
      ClearNotJammed(t, key, input);
    } else {
      StillAdvancing(s, t, given);
      JammedKey(t, key, given);
    }
  }

  lemma ClearNotJammed(s: State, key: Key, input: Input)
    requires Clear(s, key, input)
    ensures !Jammed(s, key)
  {
    hide FilesRemovable;
  }

  lemma JammedKey(s: State, key: Key, given: Record)
    requires Jammed(s, key) && Advancing(s, given)
    ensures given.fingerprint.Some?
  {
    hide Covered;
  }

  lemma StillAdvancing(s: State, t: State, given: Record)
    requires Advancing(s, given) && Advancing(t, s.record.value) && Shrank(s, t)
    ensures Advancing(t, given)
  {
    var u := t.(journal := s.journal, acting := s.acting, cleaned := s.cleaned);
    StillCovered(s, u, given, s.record.value, t.record.value);
    StillNarrower(given, s.record.value, t.record.value);
  }

  lemma JammedTry(s: State, t: State, key: Key, given: Record, out: Outcome)
    requires Jammed(s, key) && Advancing(s, given) && Shrank(s, t)
    requires Concluded(s, key) ==> t == s && out != Ok
    requires !Concluded(s, key) ==> Decided(t, key, s.record.value) && KeyFate(s, t, s.record.value, out, true)
    ensures Jammed(t, key) && Advancing(t, given) && out != Ok && given.fingerprint.Some?
  {
    hide Shrank, Advancing, Covered, Narrower, Cleared;
    if !Concluded(s, key) {
      NowJammed(t, s.record.value, key);
      StillAdvancing(s, t, given);
    }
    JammedKey(t, key, given);
  }

  lemma Repeated(s: State, t: State, key: Key, given: Record, input: Input)
    requires Clear(s, key, input) && Clear(t, key, input) && Shrank(s, t)
    requires Concluded(s, key) ==>
      && Removed(s, key, given) && Concluded(t, key)
      && t == s.(record := t.record, plan := t.plan, stale := t.stale) && t.record in {s.record, None}
    requires !Concluded(s, key) && s.record.Some? ==> Advancing(s, given) && Decided(t, key, s.record.value)
    ensures Concluded(t, key) ==> Removed(t, key, given)
    ensures !Concluded(t, key) ==> Advancing(t, given)
  {
    if !Concluded(s, key) {
      var u := t.(journal := s.journal, acting := s.acting, cleaned := s.cleaned);
      var r := s.record.value;
      if Concluded(t, key) {
        assert Gone(u, r) && Shrinking(s, u);
        GoneCovered(s, u, given, r);
        assert Gone(t, given);
      } else {
        StillCovered(s, u, given, r, t.record.value);
        StillNarrower(given, r, t.record.value);
      }
    }
  }
}
