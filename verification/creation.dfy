/** Workspace creation: a fresh one, and one resumed after a crash (internal/workspace/docker.go,
    internal/runtime/docker/adapter.go). */
module Creation {
  import opened Options
  import opened Store
  import opened Worlds
  import opened Records
  import opened Overlays
  import opened Journal

  // ---------- What creation may touch ----------

  /** The record and its file of plans, the engine, the mount table and the trees. */
  ghost predicate CreationOnly(s: State, t: State) {
    t == s.(record := t.record, stale := t.stale, trail := t.trail, plan := t.plan, containers := t.containers,
            born := t.born, removing := t.removing,
            mounts := t.mounts, keys := t.keys, runTree := t.runTree, dataTree := t.dataTree, nextId := t.nextId)
    && KeysOrNone(s.keys, t.keys)
  }

  /** The part that deals with the engine: the record and the containers. */
  ghost predicate EngineOnly(s: State, t: State) {
    t == s.(record := t.record, trail := t.trail, containers := t.containers, born := t.born, nextId := t.nextId)
  }

  /** The record's unreleased mounts are as many as the overlays of plan.json, and all in place. */
  ghost predicate MountsAgree(s: State, r: Record) {
    && s.plan.Some?
    && |Live(r.resources, Mount)| == |s.plan.value.toolchains.overlays|
    && MountsInPlace(s.mounts, r.resources)
  }

  ghost predicate MountsInPlace(mounts: map<string, MountId>, resources: seq<Resource>) {
    forall r :: r in Live(resources, Mount) ==>
      r.identity.MountIdentity? && r.identity.point in mounts && mounts[r.identity.point] == r.identity.mountID
  }

  /** The durable record is `r` and waits for its container, which plan.json describes. */
  ghost predicate Awaiting(s: State, r: Record, plan: Plan) {
    && MayAct(s)
    && s.record == Some(r) && r.status == Creating && r.ref.None?
    && s.plan == Some(plan) && plan.subject == r.subject
  }

  // ---------- What can be completed ----------

  /** The name of the container is free, or a stopped container with all four labels of the plan has it. */
  ghost predicate NameUsable(s: State, plan: Plan) {
    forall c :: c in s.containers && s.containers[c].name == ContainerName(s.id) ==>
      !s.containers[c].running && s.containers[c].labels == LabelsFor(plan.subject, plan.nonce)
  }

  /** The container that the record names is ours and stopped; or it is gone, or none is named, and the name
      can be used. */
  ghost predicate RuntimeGood(s: State, r: Record, plan: Plan) {
    if r.ref.Some? && r.ref.value.container in s.containers
    then Matches(r, s.containers[r.ref.value.container]) && !s.containers[r.ref.value.container].running
    else NameUsable(s, plan)
  }

  /** The recorded mounts are as many as the plan has overlays, none is quarantined, and all are in the table. */
  ghost predicate MountsGood(s: State, r: Record, plan: Plan) {
    && |Live(r.resources, Mount)| == |plan.toolchains.overlays| && Unflagged(r)
    && InTable(r.resources, s.mounts)
  }

  /** The plan has overlays and the record no mounts: a resumed creation mounts them again. */
  predicate Remounts(r: Record, plan: Plan) {
    Live(r.resources, Mount) == [] && plan.toolchains.overlays != []
  }

  /** And it can: fallbacks are allowed, and nothing is in the way. */
  ghost predicate MountsRemade(s: State, r: Record, plan: Plan, requireCOW: bool) {
    && Remounts(r, plan) && !requireCOW
    && DistinctMerged(plan.toolchains.overlays) && AllFree(plan.toolchains.overlays, s.mounts)
  }

  /** What was recorded before the plan was can be taken back. */
  ghost predicate Droppable(s: State, r: Record) {
    r.ref.None? && !Stubborn(Live(r.resources, Mount), s.mounts)
  }

  /** An interrupted creation can be resumed: the record is of what is asked for; and nothing was planned and
      what was recorded can be taken back, or plan, trees, mounts and container are as they should be. */
  ghost predicate Resumable(s: State, request: CreateRequest, r: Record) {
    && request.subject == r.subject
    && match s.plan
       case None => Droppable(s, r)
       case Some(plan) =>
         && PlanMatches(request, r, plan) && s.dataTree && RuntimeGood(s, r, plan)
         && (MountsGood(s, r, plan) || MountsRemade(s, r, plan, request.requireCOW))
  }

  /** Every mount on a merged path is one that the record claims. */
  ghost predicate OwnPoints(mounts: map<string, MountId>, r: Record, overlays: seq<Overlay>) {
    forall i :: 0 <= i < |overlays| && overlays[i].merged in mounts ==>
      Claimed(r.resources, overlays[i].merged, mounts[overlays[i].merged])
  }

  /** Before plan.json is there: what was recorded can be taken back, and then nothing is in the way. */
  ghost predicate Early(s: State, r: Record, overlays: seq<Overlay>) {
    s.plan.None? && Droppable(s, r) && !NameTaken(s) && OwnPoints(s.mounts, r, overlays)
  }

  /** After that: plan, trees, mounts and container are as they should be. */
  ghost predicate Late(s: State, r: Record) {
    && s.plan.Some? && s.plan.value.schema == PLAN_SCHEMA && s.plan.value.subject == r.subject && s.dataTree
    && MountsGood(s, r, s.plan.value) && RuntimeGood(s, r, s.plan.value)
  }

  /** A creation of this subject that can begin, go on, or is over. */
  ghost predicate Promising(s: State, subject: Subject, overlays: seq<Overlay>) {
    match s.record
    case None => s.plan.None? && !NameTaken(s) && AllFree(overlays, s.mounts)
    case Some(r) =>
      r.subject == subject && (Completed(s, r) || (r.status == Creating && (Early(s, r, overlays) || Late(s, r))))
  }

  /** A merged path carries a mount that the record of a creation without a plan does not claim: the process
      died after it mounted and before it recorded. */
  ghost predicate Stray(s: State, overlays: seq<Overlay>) {
    && s.record.Some? && s.record.value.status == Creating && s.plan.None?
    && !OwnPoints(s.mounts, s.record.value, overlays)
  }

  ghost predicate Drifts(s: State, subject: Subject, overlays: seq<Overlay>) {
    Promising(s, subject, overlays) || Stray(s, overlays)
  }

  /** The same for a request whose overlays can be mounted. */
  ghost predicate Hopeful(s: State, request: CreateRequest) {
    && CanMount(request.toolchains.overlays, request.requireCOW)
    && Promising(s, request.subject, request.toolchains.overlays)
  }

  /** And nothing is planned or in the way. */
  ghost predicate Beginning(s: State, request: CreateRequest) {
    Hopeful(s, request) && s.plan.None? && AllFree(request.toolchains.overlays, s.mounts)
  }

  ghost predicate Adrift(s: State, request: CreateRequest) {
    Hopeful(s, request) || Stray(s, request.toolchains.overlays)
  }

  /** Overlays that can be mounted, or replaced by their fallbacks. */
  predicate CanMount(overlays: seq<Overlay>, requireCOW: bool) {
    overlays == [] || (!requireCOW && DistinctMerged(overlays))
  }

  /** The first record is saved, and nothing else of the creation is there yet. */
  ghost predicate Blank(s: State, given: Record, plan: Plan) {
    && s.record == Some(given) && given == NewRecord(plan.subject) && s.plan.None? && s.dataTree
    && plan.schema == PLAN_SCHEMA && !NameTaken(s) && AllFree(plan.toolchains.overlays, s.mounts)
  }

  /** How far the recording of mounts and the write of their plan can have come. */
  ghost predicate Recording(s: State, t: State, given: Record, plan: Plan, mounts: seq<Resource>) {
    && t == s.(record := t.record, trail := t.trail, plan := t.plan)
    && ((t.record == s.record && t.plan == s.plan) ||
        (t.record == Some(given.(resources := given.resources + mounts)) && (t.plan == s.plan || t.plan == Some(plan))))
  }

  /** The engine's part of a creation is on its way: the saved record is the given one, but for a reference,
      and is Stopped or can be completed. */
  ghost predicate Underway(s: State, given: Record, plan: Plan) {
    && s.record.Some? && s.plan == Some(plan)
    && var r := s.record.value;
       r == given.(ref := r.ref, status := r.status) &&
       (r.status == Stopped || (r.status == Creating && RuntimeGood(s, r, plan)))
  }

  // ---------- Failing ----------

  /** `quarantineCreate`; the outcome of its save does not matter to the caller. */
  method QuarantineCreate(w: World, given: Record) returns (out: Outcome, r: Record)
    requires w.Valid() && MayAct(w.s) && Sound(w.s, given)
    modifies w
    ensures w.Went(out) && out != Ok
    ensures w.s == old(w.s).(record := w.s.record, trail := w.s.trail)
    ensures r == given.(quarantined := true, status := Error)
    ensures out == Fail && w.reliable ==> w.s.record == Some(r)
  {
    r := given.(quarantined := true).To(Error);
    SoundSavable(w.s, r);
    hide Chain, Good, Savable, Sound;
    out := w.SaveRecord(r);
    out := if out == Ok then Fail else out;
  }

  /** `failCreate`: the mounts go; when one will not, record and mounts are quarantined. */
  method FailCreate(w: World, given: Record, mounts: seq<Resource>) returns (out: Outcome, r: Record)
    requires w.Valid() && MayAct(w.s) && Sound(w.s, given)
    modifies w
    ensures w.Went(out) && out != Ok
    ensures w.s == old(w.s).(record := w.s.record, trail := w.s.trail, mounts := w.s.mounts)
    ensures Untouched(w.s.mounts, old(w.s).mounts)
    ensures out == Fail ==> r.status == Error && r.subject == given.subject && r.ref == given.ref
    ensures out == Fail && r.quarantined == given.quarantined == false ==>
      && Live(r.resources, Mount) == []
      && forall p :: p in w.s.mounts ==> !Claimed(mounts, p, w.s.mounts[p])
    ensures out == Fail && w.reliable ==> w.s.record == Some(r)
    ensures out == Fail && w.reliable && r.quarantined && !given.quarantined ==> Changed(mounts, old(w.s).mounts)
  {
    hide Chain, Good, Savable, Sound, Changed, Claimed, Untouched, Live, MayAct;
    out := Deactivate(w, mounts);
    MountsSound(old(w.s), w.s, given);
    r := given;
    if out != Crash {
      out, r := SaveUnmounted(w, given, out == Ok);
    }
  }

  lemma MountsSound(s: State, t: State, r: Record)
    requires Sound(s, r) && t == s.(mounts := t.mounts)
    ensures Sound(t, r) && MayAct(t) == MayAct(s)
  {
    SoundStays(s, t, r);
  }

  /** The save of a record whose mounts were taken down, or could not be. */
  method SaveUnmounted(w: World, given: Record, gone: bool) returns (out: Outcome, r: Record)
    requires w.Valid() && MayAct(w.s) && Sound(w.s, given)
    modifies w
    ensures w.Went(out) && out != Ok
    ensures w.s == old(w.s).(record := w.s.record, trail := w.s.trail)
    ensures r == given.(resources := r.resources, quarantined := given.quarantined || !gone, status := Error)
    ensures gone ==> Live(r.resources, Mount) == []
    ensures out == Fail && w.reliable ==> w.s.record == Some(r)
  {
    hide Chain, Good, Savable, Sound, MountsAside, Live;
    r := Unmounted(given, gone);
    ErrorSavable(w.s, given, r);
    r := r.To(Error);
    out := w.SaveRecord(r);
    out := if out == Ok then Fail else out;
  }

  /** The record after its mounts were taken down, or could not be. */
  method Unmounted(given: Record, gone: bool) returns (r: Record)
    ensures r == given.(resources := r.resources, quarantined := given.quarantined || !gone)
    ensures MountsAside(given.resources, r.resources) && (gone ==> Live(r.resources, Mount) == [])
  {
    var resources;
    if gone {
      resources := ReleaseAll(given.resources, Mount);
      ReleasedMounts(given.resources);
      LiveReleasedAll(given.resources, Mount, Mount);
    } else {
      resources := QuarantineMounts(given.resources);
    }
    r := given.(resources := resources, quarantined := given.quarantined || !gone);
  }

  lemma ErrorSavable(s: State, given: Record, r: Record)
    requires Sound(s, given) && MountsAside(given.resources, r.resources)
    requires r == given.(resources := r.resources, quarantined := r.quarantined)
    ensures Savable(s, r.To(Error)) && r.To(Error) == r.(status := Error)
  {
    MountsAsideSound(s, given, r.resources);
    SoundSavable(s, r.To(Error));
  }

  // ---------- The engine's `Create` ----------

  /** The container `c` was made for this creation, carries the labels of plan.json and is stopped. */
  ghost predicate Ours(s: State, c: ContainerId, plan: Plan) {
    && c in s.containers && c in s.born
    && s.containers[c].labels == LabelsFor(plan.subject, plan.nonce) && !s.containers[c].running
  }

  /** ContainerCreate, or on a name conflict the adoption of the container that has the name:
      only one with all four labels of the plan, and stopped. */
  method Obtain(w: World, ghost r: Record, plan: Plan) returns (out: Outcome, c: ContainerId, made: bool)
    requires w.Valid() && Awaiting(w.s, r, plan)
    modifies w
    ensures w.Went(out)
    ensures w.s == old(w.s).(containers := w.s.containers, born := w.s.born, nextId := w.s.nextId)
    ensures old(w.s).born <= w.s.born
    ensures out == Ok ==> Ours(w.s, c, plan)
    ensures out == Fail ==> w.s == old(w.s)
    ensures old(w.mishap) != DiesAfterContainer && !NameTaken(old(w.s)) ==> w.Smooth(out)
    ensures w.calm && old(w.mishap) == DiesAfterContainer && !NameTaken(old(w.s)) && old(w.crashes) > 0 ==>
      w.DiedAt(out, WithContainer(old(w.s), LabelsFor(plan.subject, plan.nonce)))
    ensures out == Ok ==> NameUsable(old(w.s), plan)
    ensures out == Fail && w.reliable ==> !NameUsable(old(w.s), plan)
    ensures NameUsable(old(w.s), plan) ==> NameUsable(w.s, plan)
    ensures Awaiting(w.s, r, plan) && (out == Fail ==> Sound(w.s, r))
  {
    hide Chain, Good, NameUsable, NameTaken, Sound, Savable;
    NewName(w.s, plan);
    AwaitingSound(w, r, plan);
    var created;
    c, made := 0, false;
    out, created := w.CreateContainer(LabelsFor(plan.subject, plan.nonce));
    if out == Ok && created.Some? {
      return Ok, created.value, true;
    }
    if out == Ok {
      out, c := ObtainNamed(w, r, plan);
    }
  }

  /** `resumeConflictingCreate`: the container that has the name, if it is the one that was to be made. */
  method ObtainNamed(w: World, ghost r: Record, plan: Plan) returns (out: Outcome, c: ContainerId)
    requires w.Valid() && Awaiting(w.s, r, plan) && NameTaken(w.s)
    modifies w`s, w`history, w`crashes
    ensures w.Went(out) && w.s == old(w.s).(born := w.s.born) && old(w.s).born <= w.s.born
    ensures (out == Ok ==> Ours(w.s, c, plan)) && (out == Fail ==> w.s == old(w.s))
    ensures out == Ok ==> NameUsable(old(w.s), plan)
    ensures out == Fail && w.reliable ==> !NameUsable(old(w.s), plan)
    ensures NameUsable(old(w.s), plan) ==> NameUsable(w.s, plan)
  {
    hide Chain, Good, NameTaken;
    var found;
    c := 0;
    out, found := w.InspectName();
    if out != Ok {
      return;
    }
    SoleName(w.s, found, plan) by { w.GoodNow(); }
    hide NameUsable;
    if found.None? || w.s.containers[found.value].running
      || w.s.containers[found.value].labels != LabelsFor(plan.subject, plan.nonce) {
      return Fail, 0;
    }
    c := found.value;
    w.Adopt(c);
    SameUsable(old(w.s), w.s, plan);
  }

  lemma SameUsable(s: State, t: State, plan: Plan)
    requires t.id == s.id && t.containers == s.containers
    ensures NameUsable(t, plan) == NameUsable(s, plan) && NameTaken(t) == NameTaken(s)
  {
  }

  lemma SoleName(s: State, found: Option<ContainerId>, plan: Plan)
    requires Good(s) && (found.Some? <==> NameTaken(s))
    requires found.Some? ==> found.value in s.containers && s.containers[found.value].name == ContainerName(s.id)
    ensures found.Some? ==> (NameUsable(s, plan) <==>
      !s.containers[found.value].running && s.containers[found.value].labels == LabelsFor(plan.subject, plan.nonce))
  {
  }

  lemma NewName(s: State, plan: Plan)
    ensures !NameTaken(s) ==> NameUsable(s, plan) && NameUsable(WithContainer(s, LabelsFor(plan.subject, plan.nonce)), plan)
  {
  }

  lemma ReferredSavable(s: State, given: Record, plan: Plan, c: ContainerId)
    requires Good(s) && Awaiting(s, given, plan) && Ours(s, c, plan)
    ensures Savable(s, given.(ref := Some(Ref(c, plan.nonce))))
    ensures Sound(s, given.(ref := Some(Ref(c, plan.nonce))))
    ensures Identified(s, c) && Matches(given.(ref := Some(Ref(c, plan.nonce))), s.containers[c])
  {
    SoundNow(s);
  }

  /** The adapter's `Create`: the reference is recorded before the call returns. When that save
      fails, a container it made goes again, and the reference stays in memory. */
  method EngineCreate(w: World, given: Record, plan: Plan) returns (out: Outcome, r: Record)
    requires w.Valid() && Awaiting(w.s, given, plan)
    modifies w
    ensures w.Went(out) && EngineOnly(old(w.s), w.s) && Engined(w.s, out, given, r, plan)
    ensures old(w.mishap) != DiesAfterContainer && !NameTaken(old(w.s)) ==> w.Smooth(out)
    ensures w.calm && old(w.mishap) == DiesAfterContainer && !NameTaken(old(w.s)) && old(w.crashes) > 0 ==>
      w.DiedAt(out, WithContainer(old(w.s), LabelsFor(plan.subject, plan.nonce)))
    ensures out == Ok ==> NameUsable(old(w.s), plan)
    ensures w.reliable && NameUsable(old(w.s), plan) ==> out != Fail && Underway(w.s, given, plan)
  {
    hide Chain, Good, Savable, Sound, NameUsable, NameTaken, Underway, Ours, Identified, Awaiting, EngineOnly, Engined;
    r := given;
    var c, made;
    out, c, made := Obtain(w, given, plan);
    ghost var t := w.s;
    AwaitingUnderway(t, given, plan);
    EngineFrame(old(w.s), t);
    if out == Ok {
      out, r := RecordRef(w, given, plan, c, made);
      StillEngine(old(w.s), t, w.s);
    }
  }

  /** What the engine's `Create` leaves: after success the saved record names the container; after an error it
      is the earlier one, and a reference in memory is to a container of ours or to none. */
  ghost predicate Engined(s: State, out: Outcome, given: Record, r: Record, plan: Plan) {
    && r == given.(ref := r.ref)
    && (out == Ok ==>
          && s.record == Some(r) && r.ref.Some? && r.ref.value.nonce == plan.nonce
          && Ours(s, r.ref.value.container, plan))
    && (out != Crash ==> Sound(s, r) && (out == Fail ==> s.record == Some(given)))
    && (out != Crash && r.ref.Some? && r.ref.value.container in s.containers ==> Identified(s, r.ref.value.container))
  }

  lemma EngineFrame(s: State, t: State)
    requires t == s.(containers := t.containers, born := t.born, nextId := t.nextId)
    ensures EngineOnly(s, t)
  {
  }

  lemma StillEngine(a: State, b: State, c: State)
    requires EngineOnly(a, b) && EngineOnly(b, c)
    ensures EngineOnly(a, c)
  {
  }

  lemma AwaitingUnderway(s: State, r: Record, plan: Plan)
    requires Awaiting(s, r, plan)
    ensures NameUsable(s, plan) ==> Underway(s, r, plan)
    ensures Engined(s, Crash, r, r, plan) && (Sound(s, r) ==> Engined(s, Fail, r, r, plan))
  {
  }

  lemma ReferredUnderway(s: State, t: State, given: Record, plan: Plan, c: ContainerId)
    requires Awaiting(s, given, plan) && Ours(s, c, plan)
    ensures t == s.(record := t.record, trail := t.trail) && t.record in {Some(given), Some(given.(ref := Some(Ref(c, plan.nonce))))} ==>
      (NameUsable(s, plan) ==> Underway(t, given, plan))
  {
  }

  /** The Record callback, and the forced removal when it fails. */
  method RecordRef(w: World, ghost given: Record, plan: Plan, c: ContainerId, made: bool) returns (out: Outcome, r: Record)
    requires w.Valid() && Awaiting(w.s, given, plan) && Ours(w.s, c, plan)
    modifies w
    ensures w.Went(out) && EngineOnly(old(w.s), w.s) && Engined(w.s, out, given, r, plan)
    ensures w.Smooth(out)
    ensures w.reliable ==> out != Fail && (NameUsable(old(w.s), plan) ==> Underway(w.s, given, plan))
  {
    hide Chain, Good, Savable, Sound, Ours, Underway, NameUsable, Engined, EngineOnly, Awaiting;
    AwaitingParts(w.s, given, plan);
    out, r := SaveRef(w, given, plan, c);
    ghost var t := w.s;
    if out == Fail && made {
      out := DropMade(w, given, r, plan, c);
      StillEngine(old(w.s), t, w.s);
    }
  }

  lemma AwaitingParts(s: State, r: Record, plan: Plan)
    requires Awaiting(s, r, plan)
    ensures s.record == Some(r) && MayAct(s)
  {
  }

  /** The save of the reference. */
  method SaveRef(w: World, ghost given: Record, plan: Plan, c: ContainerId) returns (out: Outcome, r: Record)
    requires w.Valid() && Awaiting(w.s, given, plan) && Ours(w.s, c, plan)
    modifies w
    ensures w.Went(out) && w.Smooth(out) && EngineOnly(old(w.s), w.s) && Engined(w.s, out, given, r, plan)
    ensures out == Fail ==> !w.reliable && Awaiting(w.s, given, plan) && Ours(w.s, c, plan)
    ensures r == given.(ref := Some(Ref(c, plan.nonce))) && Sound(w.s, r)
    ensures NameUsable(old(w.s), plan) ==> Underway(w.s, given, plan)
  {
    hide Chain, Good, Savable, Sound, Ours, Underway, NameUsable, Engined, EngineOnly, Identified;
    ReferredSavable(w.s, given, plan, c) by { w.GoodNow(); }
    r := w.s.record.value.(ref := Some(Ref(c, plan.nonce)));
    ghost var t := w.s;
    out := w.SaveRecord(r);
    Referred(t, w.s, given, r, plan, c, out);
  }

  lemma Referred(s: State, t: State, given: Record, r: Record, plan: Plan, c: ContainerId, out: Outcome)
    requires Awaiting(s, given, plan) && Ours(s, c, plan) && Sound(s, r) && r == given.(ref := Some(Ref(c, plan.nonce)))
    requires t == s.(record := t.record, removing := t.removing, trail := t.trail) && t.removing == s.removing
    requires t.record == Some(given) || t.record == Some(r)
    requires (out == Ok ==> t.record == Some(r)) && (out == Fail ==> t.record == Some(given))
    ensures EngineOnly(s, t) && Sound(t, r) && Engined(t, out, given, r, plan) && Ours(t, c, plan)
    ensures out == Fail ==> Awaiting(t, given, plan)
    ensures NameUsable(s, plan) ==> Underway(t, given, plan)
  {
    SoundStays(s, t, r);
    ReferredUnderway(s, t, given, plan, c);
    hide Sound, NameUsable, Underway;
  }

  /** The forced removal of a container that could not be recorded. */
  method DropMade(w: World, ghost given: Record, ghost r: Record, ghost plan: Plan, c: ContainerId) returns (out: Outcome)
    requires w.Valid() && Awaiting(w.s, given, plan) && Ours(w.s, c, plan) && Sound(w.s, r)
    requires r == given.(ref := Some(Ref(c, plan.nonce)))
    modifies w`s, w`history, w`crashes
    ensures w.Went(out) && out != Ok && EngineOnly(old(w.s), w.s) && Engined(w.s, out, given, r, plan)
  {
    hide Chain, Good, Savable, Sound;
    out := w.DeleteContainer(c, true);
    SoundStays(old(w.s), w.s, r);
    out := if out == Ok then Fail else out;
  }

  // Creation only: the frame composes.
  lemma StillCreation(a: State, b: State, c: State)
    requires CreationOnly(a, b) && CreationOnly(b, c)
    ensures CreationOnly(a, c)
  {
  }

  lemma CreationFrame(s: State, t: State)
    requires t == s.(record := t.record, trail := t.trail, containers := t.containers, born := t.born, removing := t.removing,
                     mounts := t.mounts, nextId := t.nextId)
    ensures CreationOnly(s, t)
  {
  }

  lemma Unreferred(w: World, r: Record)
    requires w.Valid() && Sound(w.s, r) && w.s.record.value.status == Creating
    ensures Sound(w.s, r.(ref := None)) && forall c :: MayDelete(w.s, c)
  {
  }

  /** After a failure with a container at hand: delete it and fail, or quarantine. */
  method Discard(w: World, given: Record, drop: bool) returns (out: Outcome, r: Record)
    requires w.Valid() && MayAct(w.s) && Sound(w.s, given) && given.ref.Some?
    requires w.s.record.Some? && w.s.record.value.status == Creating
    requires given.ref.value.container in w.s.containers ==> Identified(w.s, given.ref.value.container)
    modifies w
    ensures w.Went(out) && out != Ok && CreationOnly(old(w.s), w.s)
    ensures out == Fail ==> r.status == Error && r.subject == given.subject
    ensures out == Fail && given.ref.value.container in w.s.containers ==> r.quarantined
  {
    hide Chain, Good, Savable, Sound, Identified, CreationOnly;
    out, r := Delete(w, given, drop);
    if out != Crash {
      ghost var t := w.s;
      out, r := CleanUp(w, r, out == Fail);
      StillCreation(old(w.s), t, w.s);
    }
  }

  /** The deletion, after which the record may forget its container. */
  method Delete(w: World, given: Record, drop: bool) returns (out: Outcome, r: Record)
    requires w.Valid() && MayAct(w.s) && Sound(w.s, given) && given.ref.Some?
    requires w.s.record.Some? && w.s.record.value.status == Creating
    requires given.ref.value.container in w.s.containers ==> Identified(w.s, given.ref.value.container)
    modifies w`s, w`history, w`crashes
    ensures w.Went(out) && CreationOnly(old(w.s), w.s) && w.s == old(w.s).(containers := w.s.containers)
    ensures Sound(w.s, r) && r == given.(ref := r.ref)
    ensures out == Ok ==> given.ref.value.container !in w.s.containers
  {
    hide Chain, Good, Savable, Sound, Identified, CreationOnly, MayAct;
    out := DeleteUnpinned(w, given, given.ref.value.container);
    r := if out == Ok && drop then given.(ref := None) else given;
  }

  /** While a creation is pending no host key is pinned: the container may go, and the record may forget it. */
  method DeleteUnpinned(w: World, ghost r: Record, c: ContainerId) returns (out: Outcome)
    requires w.Valid() && MayAct(w.s) && Sound(w.s, r)
    requires w.s.record.Some? && w.s.record.value.status == Creating
    requires c in w.s.containers ==> Identified(w.s, c)
    modifies w`s, w`history, w`crashes
    ensures w.Went(out) && CreationOnly(old(w.s), w.s) && w.s == old(w.s).(containers := w.s.containers)
    ensures Sound(w.s, r) && Sound(w.s, r.(ref := None))
    ensures out == Ok ==> c !in w.s.containers
  {
    hide Chain, Good, Savable, Sound, Identified, CreationOnly, MayAct, MayDelete;
    Unreferred(w, r);
    out := w.DeleteContainer(c, false);
    FewerSound(old(w.s), w.s, r, c);
  }

  lemma FewerSound(s: State, t: State, r: Record, c: ContainerId)
    requires Sound(s, r) && Sound(s, r.(ref := None))
    requires t == s.(containers := t.containers) && (t.containers == s.containers || t.containers == s.containers - {c})
    ensures Sound(t, r) && Sound(t, r.(ref := None)) && CreationOnly(s, t)
  {
    SoundStays(s, t, r);
    SoundStays(s, t, r.(ref := None));
    CreationFrame(s, t);
  }

  /** What a failed creation ends with: quarantine when the container would not go, and otherwise
      the mounts go too. */
  method CleanUp(w: World, given: Record, stuck: bool) returns (out: Outcome, r: Record)
    requires w.Valid() && MayAct(w.s) && Sound(w.s, given)
    modifies w
    ensures w.Went(out) && out != Ok && CreationOnly(old(w.s), w.s) && w.s.containers == old(w.s).containers
    ensures out == Fail ==> r.status == Error && r.subject == given.subject && (stuck ==> r.quarantined)
  {
    hide Chain, Good, Savable, Sound, CreationOnly;
    if stuck {
      out, r := QuarantineCreate(w, given);
    } else {
      out, r := FailCreate(w, given, Live(given.resources, Mount));
    }
    CreationFrame(old(w.s), w.s);
  }

  lemma AwaitingSound(w: World, r: Record, plan: Plan)
    requires w.Valid() && Awaiting(w.s, r, plan)
    ensures Sound(w.s, r)
  {
    w.GoodNow();
    SoundNow(w.s);
  }

  lemma FinishedSavable(s: State, r: Record, plan: Plan)
    requires Good(s) && Finishing(s, r, plan)
    ensures Savable(s, r) && Identified(s, r.ref.value.container) && Sound(s, r)
    ensures Savable(s, r.To(Stopped)) && r.To(Stopped) == r.(status := Stopped)
  {
    SoundNow(s);
    StoppedSavable(s, r.To(Stopped));
  }

  /** The durable record refers to the container of this creation. */
  ghost predicate Finishing(s: State, r: Record, plan: Plan) {
    && MayAct(s)
    && s.record == Some(r) && r.status == Creating
    && s.plan == Some(plan) && plan.subject == r.subject
    && r.ref.Some? && r.ref.value.nonce == plan.nonce && Ours(s, r.ref.value.container, plan)
  }

  lemma FinishingUnderway(s: State, t: State, given: Record, plan: Plan)
    requires Finishing(s, given, plan)
    ensures t == s.(record := t.record, trail := t.trail) && t.record in {Some(given), Some(given.(status := Stopped))} ==>
      EngineOnly(s, t) && Underway(t, given, plan)
  {
  }

  lemma StillFinishing(s: State, r: Record, plan: Plan)
    requires Finishing(s, r, plan)
    ensures Finishing(Saved(s, r), r, plan)
  {
  }

  /** `createRuntimeLocked`. Success: the durable record is Stopped and names a container that
      carries the plan's labels, and record, plan and mounts are otherwise as they were. */
  method CreateRuntime(w: World, given: Record, plan: Plan) returns (out: Outcome, r: Record)
    requires w.Valid() && Awaiting(w.s, given, plan)
    modifies w
    ensures w.Went(out) && CreationOnly(old(w.s), w.s)
    ensures out == Ok ==> w.s.record == Some(r) && r == given.(ref := r.ref, status := Stopped)
    ensures out == Ok ==> r.ref.Some? && r.ref.value.nonce == plan.nonce
    ensures out == Ok ==> w.s.mounts == old(w.s).mounts && w.s.plan == Some(plan)
    ensures old(w.mishap) != DiesAfterContainer && !NameTaken(old(w.s)) ==> w.Smooth(out)
    ensures w.calm && old(w.mishap) == DiesAfterContainer && !NameTaken(old(w.s)) && old(w.crashes) > 0 ==>
      w.DiedAt(out, WithContainer(old(w.s), LabelsFor(plan.subject, plan.nonce)))
    ensures out == Ok ==> NameUsable(old(w.s), plan)
    ensures w.reliable && NameUsable(old(w.s), plan) ==>
      out != Fail && EngineOnly(old(w.s), w.s) && Underway(w.s, given, plan)
  {
    hide Chain, Good, Savable, Sound, Identified, CreationOnly, NameTaken;
    CreationFrame(w.s, w.s);
    r := given;
    out := w.Try();  // pin the reserved masks
    if out == Ok {
      out, r := CreateAndSettle(w, given, plan);
    } else if out == Fail {
      AwaitingSound(w, given, plan);
      out, r := FailCreate(w, given, Live(given.resources, Mount));
      CreationFrame(old(w.s), w.s);
    }
  }

  method CreateAndSettle(w: World, given: Record, plan: Plan) returns (out: Outcome, r: Record)
    requires w.Valid() && Awaiting(w.s, given, plan)
    modifies w
    ensures w.Went(out) && CreationOnly(old(w.s), w.s)
    ensures out == Ok ==> w.s.record == Some(r) && r == given.(ref := r.ref, status := Stopped)
    ensures out == Ok ==> r.ref.Some? && r.ref.value.nonce == plan.nonce
    ensures out == Ok ==> w.s.mounts == old(w.s).mounts && w.s.plan == Some(plan)
    ensures old(w.mishap) != DiesAfterContainer && !NameTaken(old(w.s)) ==> w.Smooth(out)
    ensures w.calm && old(w.mishap) == DiesAfterContainer && !NameTaken(old(w.s)) && old(w.crashes) > 0 ==>
      w.DiedAt(out, WithContainer(old(w.s), LabelsFor(plan.subject, plan.nonce)))
    ensures out == Ok ==> NameUsable(old(w.s), plan)
    ensures w.reliable && NameUsable(old(w.s), plan) ==>
      out != Fail && EngineOnly(old(w.s), w.s) && Underway(w.s, given, plan)
  {
    hide Chain, Good, Savable, Sound, Identified, CreationOnly, Ours, NameTaken;
    out, r := EngineCreate(w, given, plan);
    CreationFrame(old(w.s), w.s);
    ghost var t := w.s;
    if out == Ok {
      out, r := Settle(w, r, plan);
      StillCreation(old(w.s), t, w.s);
    } else if out == Fail {
      if r.ref.Some? {
        out, r := Discard(w, r, false);
      } else {
        out, r := CleanUp(w, r, false);
      }
      StillCreation(old(w.s), t, w.s);
    }
  }

  /** The rest of `createRuntimeLocked`: check the masks again, save the reference once more, and
      leave Creating. */
  method Settle(w: World, given: Record, plan: Plan) returns (out: Outcome, r: Record)
    requires w.Valid() && Finishing(w.s, given, plan)
    modifies w
    ensures w.Went(out) && CreationOnly(old(w.s), w.s)
    ensures out == Ok ==> w.s.record == Some(r) && r == given.(status := Stopped)
    ensures out == Ok ==> w.s.mounts == old(w.s).mounts && w.s.plan == old(w.s).plan
    ensures w.Smooth(out)
    ensures w.reliable ==> out != Fail && EngineOnly(old(w.s), w.s) && Underway(w.s, given, plan)
  {
    hide Chain, Good, Savable, Sound, Identified, CreationOnly, Ours, Underway;
    FinishedSavable(w.s, given, plan) by { w.GoodNow(); }
    CreationFrame(w.s, w.s);
    FinishingUnderway(w.s, w.s, given, plan);
    r := given;
    out := w.Try();  // validate the reserved masks
    if out == Ok {
      out, r := SaveTwice(w, given, plan);
    } else if out == Fail {
      out, r := Discard(w, given, true);
    }
  }

  method SaveTwice(w: World, given: Record, plan: Plan) returns (out: Outcome, r: Record)
    requires w.Valid() && Finishing(w.s, given, plan)
    modifies w
    ensures w.Went(out) && CreationOnly(old(w.s), w.s)
    ensures out == Ok ==> w.s.record == Some(r) && r == given.(status := Stopped)
    ensures out == Ok ==> w.s.mounts == old(w.s).mounts && w.s.plan == old(w.s).plan
    ensures w.Smooth(out)
    ensures w.reliable ==> out != Fail && EngineOnly(old(w.s), w.s) && Underway(w.s, given, plan)
  {
    hide Chain, Good, Savable, Sound, Identified, CreationOnly, Ours, Underway;
    FinishedSavable(w.s, given, plan) by { w.GoodNow(); }
    StillFinishing(w.s, given, plan);
    r := given;
    out := w.SaveRecord(given);
    CreationFrame(old(w.s), w.s);
    FinishingUnderway(old(w.s), w.s, given, plan);
    if out == Ok {
      ghost var t := w.s;
      out, r := SaveStopped(w, given, plan);
      StillCreation(old(w.s), t, w.s);
    } else if out == Fail {
      out, r := Discard(w, given, false);
    }
  }

  method SaveStopped(w: World, given: Record, plan: Plan) returns (out: Outcome, r: Record)
    requires w.Valid() && Finishing(w.s, given, plan)
    modifies w
    ensures w.Went(out) && w.Smooth(out) && CreationOnly(old(w.s), w.s)
    ensures w.s == old(w.s).(record := w.s.record, trail := w.s.trail)
    ensures out == Ok ==> w.s.record == Some(r) && r == given.(status := Stopped)
    ensures w.reliable ==> out != Fail && EngineOnly(old(w.s), w.s) && Underway(w.s, given, plan)
  {
    hide Chain, Good, Savable, Sound, Identified, CreationOnly, Ours, Underway;
    FinishedSavable(w.s, given, plan) by { w.GoodNow(); }
    r := given.To(Stopped);
    out := w.SaveRecord(r);
    CreationFrame(old(w.s), w.s);
    FinishingUnderway(old(w.s), w.s, given, plan);
  }

  // ---------- Resuming after a crash ----------

  /** A finished creation: the durable record is Stopped, and its mounts are those of the plan.
      That its container exists, is the only one, and is stopped follows (`StoppedLeavesOne`). */
  ghost predicate Completed(s: State, r: Record) {
    s.record == Some(r) && r.status == Stopped && MountsAgree(s, r)
  }

  /** The durable record is `r`, still Creating. */
  ghost predicate Pending(s: State, r: Record) {
    MayAct(s) && s.record == Some(r) && r.status == Creating
  }

  /** `creatingPlanMatches`. */
  predicate PlanMatches(request: CreateRequest, record: Record, plan: Plan) {
    && plan.schema == PLAN_SCHEMA && plan.subject == record.subject
    && request.subject.bootstrapAPI == plan.subject.bootstrapAPI
    && request.subject.imageDigest == plan.subject.imageDigest
  }

  /** Nothing was made for the record; or plan.json was deleted from under what was made. */
  ghost predicate Unmade(s: State) {
    s.stale || forall c :: c in s.born ==> c !in s.containers
  }

  lemma PendingSavable(s: State, r: Record)
    requires Good(s) && Pending(s, r)
    ensures Sound(s, r) && Savable(s, r)
    ensures s.plan.None? ==> Unmade(s)
    ensures Savable(s, r.(ref := None))
  {
    SoundNow(s);
    assert IntentFirst(Saved(s, r.(ref := None)), r.(ref := None));
  }

  ghost method PendingFacts(w: World, r: Record)
    requires w.Valid() && Pending(w.s, r)
    ensures Sound(w.s, r) && Savable(w.s, r)
    ensures w.s.plan.None? ==> Unmade(w.s)
    ensures Savable(w.s, r.(ref := None))
  {
    PendingSavable(w.s, r) by { w.GoodNow(); }
  }

  /** plan.json was never written: nothing was made for it, so planning starts over. */
  method ResumeUnplanned(w: World, given: Record) returns (out: Outcome, r: Record)
    requires w.Valid() && Pending(w.s, given) && w.s.plan.None?
    modifies w
    ensures w.Went(out) && CreationOnly(old(w.s), w.s)
    ensures out == Ok ==> Pending(w.s, r) && w.s.plan.None? && r.ref.None? && r.subject == given.subject
    ensures out == Ok ==> Live(r.resources, Mount) == [] && NoneMounted(w.s, given)
    ensures given.ref.Some? ==> out != Ok && w.s.containers == old(w.s).containers
    ensures given.ref.Some? && out == Fail ==> r.quarantined && r.status == Error
    ensures out == Ok ==> Droppable(old(w.s), given)
    ensures out == Fail && w.reliable ==> !Droppable(old(w.s), given)
    ensures out == Ok ==> StrangersStay(old(w.s), w.s, given)
    ensures w.reliable && Droppable(old(w.s), given) ==> out != Fail && Dropped(old(w.s), w.s, given)
  {
    hide Chain, Good, Savable, Sound, CreationOnly;
    PendingSavable(w.s, given) by { w.GoodNow(); }
    if given.ref.Some? {
      out, r := CleanUp(w, given, true);
    } else {
      out, r := DropMounts(w, given);
    }
  }

  /** The mounts of an unplanned creation are taken down and released. */
  method DropMounts(w: World, given: Record) returns (out: Outcome, r: Record)
    requires w.Valid() && Pending(w.s, given) && Savable(w.s, given) && Sound(w.s, given)
    modifies w
    ensures w.Went(out) && CreationOnly(old(w.s), w.s)
    ensures out == Ok ==> Pending(w.s, r) && w.s.plan == old(w.s).plan
    ensures out == Ok ==> r == given.(resources := r.resources) && Live(r.resources, Mount) == []
    ensures out == Ok ==> NoneMounted(w.s, given) && StrangersStay(old(w.s), w.s, given)
    ensures out == Ok ==> !Stubborn(Live(given.resources, Mount), old(w.s).mounts)
    ensures out == Fail && w.reliable ==> Stubborn(Live(given.resources, Mount), old(w.s).mounts)
    ensures w.reliable && !Stubborn(Live(given.resources, Mount), old(w.s).mounts) ==> Dropped(old(w.s), w.s, given)
  {
    hide Chain, Good, Savable, Sound, CreationOnly, NoneMounted, NoneClaimed, Live, MayAct, Stubborn, StrangersStay, Dropped;
    r := given;
    var active := Live(given.resources, Mount);
    CreationFrame(w.s, w.s);
    out := Unmount(w, w.s, given, active);
    LiveMounted(old(w.s), w.s, given);
    DroppedMounts(old(w.s), w.s, given);
    if out == Fail || (out == Ok && active != []) {
      ghost var t := w.s;
      out, r := EndDrop(w, old(w.s), given, out == Ok);
      SameMounted(t, w.s, given);
      SameStrangers(old(w.s), t, w.s, given);
    }
  }

  /** The end of that: the mounts are released in the record, or it is quarantined. */
  method EndDrop(w: World, ghost start: State, given: Record, gone: bool) returns (out: Outcome, r: Record)
    requires w.Valid() && MayAct(w.s) && Savable(start, given) && Sound(w.s, given) && given.status == Creating
    requires w.s == start.(mounts := w.s.mounts) && CreationOnly(start, w.s)
    requires gone ==> NoneMounted(w.s, given) && Untouched(w.s.mounts, start.mounts) && start.record == Some(given)
    modifies w
    ensures w.Went(out) && CreationOnly(start, w.s)
    ensures out == Ok ==> gone && Pending(w.s, r) && w.s.plan == start.plan && w.s.mounts == old(w.s).mounts
    ensures out == Ok ==> r == given.(resources := r.resources) && Live(r.resources, Mount) == []
    ensures out == Fail && w.reliable ==> !gone
    ensures gone && out != Fail ==> Dropped(start, w.s, given)
  {
    hide Chain, Good, Savable, Sound, CreationOnly, NoneMounted, Live, Untouched;
    ghost var t := w.s;
    if gone {
      out, r := ReleaseMounts(w, start, given);
      SameMounted(t, w.s, given);
    } else {
      out, r := CleanUp(w, given, true);
      StillCreation(start, t, w.s);
    }
  }

  /** How far that can have come: mounts are gone, and perhaps all of those recorded and the record says so. */
  ghost predicate Dropped(s: State, t: State, given: Record) {
    && t == s.(record := t.record, trail := t.trail, mounts := t.mounts)
    && Untouched(t.mounts, s.mounts)
    && (t.record == Some(given) ||
        (t.record == Some(given.(resources := ReleasedAll(given.resources, Mount))) && NoneMounted(t, given)))
  }

  /** Mounts that the record does not claim are still there. */
  ghost predicate StrangersStay(s: State, t: State, r: Record) {
    forall p :: p in s.mounts && !Claimed(r.resources, p, s.mounts[p]) ==> p in t.mounts
  }

  lemma DroppedMounts(s: State, t: State, given: Record)
    requires s.record == Some(given) && t == s.(mounts := t.mounts) && Untouched(t.mounts, s.mounts)
    ensures Dropped(s, t, given)
  {
  }

  /** No mount that the record claims is in the table. */
  ghost predicate NoneMounted(s: State, r: Record) {
    NoneClaimed(s, r.resources)
  }

  ghost predicate NoneClaimed(s: State, resources: seq<Resource>) {
    forall p :: p in s.mounts ==> !Claimed(resources, p, s.mounts[p])
  }

  lemma SameMounted(s: State, t: State, r: Record)
    ensures t.mounts == s.mounts ==> NoneMounted(s, r) == NoneMounted(t, r)
  {
  }

  lemma SameStrangers(s: State, t: State, u: State, r: Record)
    ensures u.mounts == t.mounts ==> StrangersStay(s, t, r) == StrangersStay(s, u, r)
  {
  }

  lemma LiveMounted(s: State, t: State, r: Record)
    requires forall p :: p in s.mounts && !Claimed(Live(r.resources, Mount), p, s.mounts[p]) ==> p in t.mounts
    ensures NoneClaimed(t, Live(r.resources, Mount)) ==> NoneMounted(t, r)
    ensures StrangersStay(s, t, r)
  {
    ClaimedLive(r.resources);
  }

  lemma ClaimedLive(resources: seq<Resource>)
    ensures forall p, id :: Claimed(Live(resources, Mount), p, id) <==> Claimed(resources, p, id)
  {
    forall p, id ensures Claimed(Live(resources, Mount), p, id) <==> Claimed(resources, p, id) {
      if Claimed(resources, p, id) {
        var x :| x in resources && x.Active(Mount) && x.identity == MountIdentity(p, id);
        LiveMember(resources, Mount, x);
      }
      if Claimed(Live(resources, Mount), p, id) {
        var x :| x in Live(resources, Mount) && x.Active(Mount) && x.identity == MountIdentity(p, id);
        LiveMember(resources, Mount, x);
      }
    }
  }

  /** Takes mounts down on the way of a creation. */
  method Unmount(w: World, ghost start: State, given: Record, mounts: seq<Resource>) returns (out: Outcome)
    requires w.Valid() && MayAct(w.s) && Sound(w.s, given) && CreationOnly(start, w.s)
    modifies w`s, w`history, w`crashes
    ensures w.Went(out) && w.s == old(w.s).(mounts := w.s.mounts)
    ensures CreationOnly(start, w.s) && Sound(w.s, given) && MayAct(w.s)
    ensures out == Ok ==> NoneClaimed(w.s, mounts)
    ensures out == Ok ==> !Stubborn(mounts, old(w.s).mounts)
    ensures out == Fail && w.reliable ==> Stubborn(mounts, old(w.s).mounts)
    ensures Untouched(w.s.mounts, old(w.s).mounts)
    ensures forall p :: p in old(w.s).mounts && !Claimed(mounts, p, old(w.s).mounts[p]) ==> p in w.s.mounts
  {
    hide Chain, Good, Savable, Sound, CreationOnly, MayAct, Claimed, Untouched, Changed, Stubborn;
    out := Deactivate(w, mounts);
    CreationFrame(old(w.s), w.s);
    StillCreation(start, old(w.s), w.s);
    MountsSound(old(w.s), w.s, given);
  }

  lemma ReleasedSavable(start: State, s: State, given: Record)
    requires Savable(start, given) && s == start.(mounts := s.mounts)
    ensures Savable(s, given.(resources := ReleasedAll(given.resources, Mount)))
    ensures Live(ReleasedAll(given.resources, Mount), Mount) == []
  {
    ReleasedMounts(given.resources);
    LiveReleasedAll(given.resources, Mount, Mount);
    MountsAsideSavable(start, given, ReleasedAll(given.resources, Mount));
    var r := given.(resources := ReleasedAll(given.resources, Mount));
    assert IntentFirst(Saved(s, r), r);
  }

  method ReleaseMounts(w: World, ghost start: State, given: Record) returns (out: Outcome, r: Record)
    requires w.Valid() && MayAct(w.s) && Savable(start, given) && w.s == start.(mounts := w.s.mounts)
    requires given.status == Creating
    modifies w
    ensures w.Went(out) && CreationOnly(start, w.s)
    ensures out == Ok ==> w.s == old(w.s).(record := Some(r), trail := w.s.trail) && Pending(w.s, r)
    ensures r == given.(resources := r.resources) && Live(r.resources, Mount) == []
    ensures out == Fail ==> !w.reliable
    ensures w.s == old(w.s).(record := w.s.record, trail := w.s.trail)
    ensures w.s.record in {old(w.s).record, Some(given.(resources := ReleasedAll(given.resources, Mount)))}
  {
    hide Chain, Good, Savable, ReleasedAll, Live;
    var released := ReleaseAll(given.resources, Mount);
    ReleasedSavable(start, w.s, given);
    r := given.(resources := released);
    out := w.SaveRecord(r);
  }

  /** The durable record is `r`, still Creating, and plan.json is `plan`, for the same subject. */
  ghost predicate Planned(s: State, r: Record, plan: Plan) {
    Pending(s, r) && s.plan == Some(plan) && plan.subject == r.subject
  }

  lemma WithMounts(s: State, t: State, r: Record, added: seq<Resource>)
    requires Savable(s, r) && r.status == Creating && t == s.(mounts := t.mounts, nextId := t.nextId)
    requires forall x :: x in added ==> x.Active(Mount)
    ensures Savable(t, r.(resources := r.resources + added)) && Sound(t, r.(resources := r.resources + added))
    ensures Live(r.resources + added, Mount) == Live(r.resources, Mount) + added
  {
    assert forall i :: |r.resources| <= i < |r.resources + added| ==> (r.resources + added)[i] in added;
    MountsAsideSavable(s, r, r.resources + added);
    var after := r.(resources := r.resources + added);
    assert IntentFirst(Saved(t, after), after);
    LiveConcat(r.resources, added, Mount);
    AllLive(added);
  }

  lemma {:induction false} AllLive(resources: seq<Resource>)
    requires forall x :: x in resources ==> x.Active(Mount)
    ensures Live(resources, Mount) == resources
  {
    if resources != [] {
      AllLive(resources[1..]);
    }
  }

  /** Saves the freshly mounted overlays in the record; when that fails they are unmounted. */
  method RecordMounts(w: World, ghost start: State, given: Record, added: seq<Resource>) returns (out: Outcome, r: Record)
    requires w.Valid() && MayAct(w.s) && Savable(start, given) && given.status == Creating
    requires w.s == start.(mounts := w.s.mounts, nextId := w.s.nextId)
    requires forall x :: x in added ==> x.Active(Mount)
    modifies w
    ensures w.Went(out) && CreationOnly(start, w.s)
    ensures out == Ok ==> w.s == old(w.s).(record := Some(r), trail := w.s.trail)
    ensures out == Ok ==> r == given.(resources := given.resources + added) && Sound(w.s, r)
    ensures out == Ok ==> Live(r.resources, Mount) == Live(given.resources, Mount) + added
    ensures w.Smooth(out)
    ensures out == Fail ==> !w.reliable
    ensures w.reliable || out == Ok ==> Noted(old(w.s), w.s, given, added)
  {
    hide Chain, Good, Savable, Sound, CreationOnly, Live, Noted, MayAct;
    WithMounts(start, w.s, given, added);
    r := given.(resources := given.resources + added);
    out := w.SaveRecord(r);
    MountsNoted(start, old(w.s), w.s, given, r, added);
    if out == Fail {
      out := UndoMounts(w, start, r, added);
    }
  }

  lemma MountsNoted(start: State, s: State, t: State, given: Record, r: Record, added: seq<Resource>)
    requires s == start.(mounts := s.mounts, nextId := s.nextId) && Sound(s, r) &&
      r == given.(resources := given.resources + added)
    requires t == s.(record := t.record, removing := t.removing, trail := t.trail) && t.removing == s.removing
    requires t.record == s.record || t.record == Some(r)
    ensures CreationOnly(start, t) && Sound(t, r) && Noted(s, t, given, added) && MayAct(t) == MayAct(s)
  {
    SoundStays(s, t, r);
    CreationFrame(start, t);
  }

  method UndoMounts(w: World, ghost start: State, given: Record, added: seq<Resource>) returns (out: Outcome)
    requires w.Valid() && MayAct(w.s) && Sound(w.s, given) && CreationOnly(start, w.s)
    modifies w
    ensures w.Went(out) && CreationOnly(start, w.s) && out != Ok
  {
    hide Chain, Good, Savable, Sound, CreationOnly, MayAct, Claimed;
    out := Unmount(w, start, given, added);
    if out == Fail {
      ghost var t := w.s;
      var r;
      out, r := CleanUp(w, given, true);
      StillCreation(start, t, w.s);
    }
    out := if out == Ok then Fail else out;
  }

  /** The plan asks for the integrations that the creating key binds, and every container made so
      far carries its labels: it may become plan.json. */
  ghost predicate Plannable(s: State, plan: Plan) {
    && Bound(s) && plan.integrations == Kinds(s)
    && (s.stale || forall c :: c in s.born && c in s.containers ==>
          s.containers[c].labels == LabelsFor(plan.subject, plan.nonce))
  }

  method WritePlan(w: World, given: Record, plan: Plan, mounts: seq<Resource>) returns (out: Outcome)
    requires w.Valid() && Pending(w.s, given) && Sound(w.s, given)
    requires plan.subject == given.subject && Plannable(w.s, plan)
    modifies w
    ensures w.Went(out) && CreationOnly(old(w.s), w.s)
    ensures out == Ok ==> Planned(w.s, given, plan) && w.s == old(w.s).(plan := Some(plan))
    ensures w.Smooth(out)
    ensures out == Fail ==> !w.reliable
    ensures w.reliable || out == Ok ==> JustPlanned(old(w.s), w.s, plan)
  {
    hide Chain, Good, Savable, Sound, CreationOnly;
    out := w.SetPlan(plan);
    JustPlan(old(w.s), w.s);
    if out == Fail {
      var r;
      out, r := FailCreate(w, given, mounts);
      CreationFrame(old(w.s), w.s);
    }
  }

  lemma JustPlan(s: State, t: State)
    requires t == s.(plan := t.plan)
    ensures CreationOnly(s, t)
  {
  }

  lemma PairedAgree(before: map<string, MountId>, after: map<string, MountId>, overlays: seq<Overlay>, resources: seq<Resource>)
    requires Paired(before, after, overlays, resources)
    ensures forall x :: x in resources ==> x.Active(Mount)
    ensures Live(resources, Mount) == resources && MountsInPlace(after, resources)
  {
    AllLive(resources);
  }

  /** Records the mounts that were just made, then writes the plan they belong to. */
  method RecordAndPlan(w: World, ghost start: State, given: Record, plan: Plan, mounts: seq<Resource>)
    returns (out: Outcome, r: Record)
    requires w.Valid() && Pending(start, given) && Savable(start, given)
    requires w.s == start.(mounts := w.s.mounts, nextId := w.s.nextId)
    requires plan.subject == given.subject && Plannable(start, plan)
    requires Live(given.resources, Mount) == []
    requires Paired(start.mounts, w.s.mounts, plan.toolchains.overlays, mounts)
    modifies w
    ensures w.Went(out) && CreationOnly(start, w.s)
    ensures out == Ok ==> Planned(w.s, r, plan) && r == given.(resources := given.resources + mounts) && MountsAgree(w.s, r)
    ensures out == Ok ==> w.s.containers == old(w.s).containers
    ensures w.Smooth(out)
    ensures out == Fail ==> !w.reliable
    ensures out == Ok ==> MountsGood(w.s, r, plan)
    ensures w.reliable || out == Ok ==> Recording(old(w.s), w.s, given, plan, mounts)
  {
    hide Chain, Good, Savable, Sound, CreationOnly, Live, Paired, Plannable, MountsInPlace, MountsAgree, MountsGood,
      Recording, Noted, JustPlanned;
    PairedAgree(start.mounts, w.s.mounts, plan.toolchains.overlays, mounts);
    out, r := RecordMounts(w, start, given, mounts);
    ghost var t := w.s;
    if out == Ok {
      SamePlannable(start, t, plan, plan);
      PairedGood(start.mounts, t, r, plan, mounts);
      out := PlanRecorded(w, old(w.s), given, r, plan, mounts);
      StillCreation(start, t, w.s);
    } else if w.reliable {
      NotedOnly(old(w.s), t, given, plan, mounts);
    }
  }

  /** The write of the plan, once its mounts are recorded. */
  method PlanRecorded(w: World, ghost before: State, ghost given: Record, r: Record, plan: Plan, mounts: seq<Resource>)
    returns (out: Outcome)
    requires w.Valid() && Pending(w.s, r) && Sound(w.s, r) && plan.subject == r.subject && Plannable(w.s, plan)
    requires MountsGood(w.s, r, plan) && Noted(before, w.s, given, mounts)
    requires r == given.(resources := given.resources + mounts)
    modifies w
    ensures w.Went(out) && CreationOnly(old(w.s), w.s) && w.Smooth(out) && (out == Fail ==> !w.reliable)
    ensures out == Ok ==> Planned(w.s, r, plan) && MountsAgree(w.s, r) && MountsGood(w.s, r, plan)
    ensures out == Ok ==> w.s.containers == old(w.s).containers
    ensures w.reliable || out == Ok ==> Recording(before, w.s, given, plan, mounts)
  {
    hide Chain, Good, Savable, Sound, CreationOnly, Live, Plannable, MountsInPlace, MountsAgree, MountsGood, Recording, Noted,
      JustPlanned;
    ghost var t := w.s;
    out := WritePlan(w, r, plan, mounts);
    PlannedGood(t, w.s, r, plan);
    if w.reliable || out == Ok {
      NotedPlanned(before, t, w.s, given, plan, mounts);
    }
  }

  /** The record has the new mounts, or not yet. */
  ghost predicate Noted(s: State, t: State, given: Record, mounts: seq<Resource>) {
    && t == s.(record := t.record, trail := t.trail)
    && (t.record == s.record || t.record == Some(given.(resources := given.resources + mounts)))
  }

  ghost predicate JustPlanned(s: State, t: State, plan: Plan) {
    t == s.(plan := t.plan) && (t.plan == s.plan || t.plan == Some(plan))
  }

  lemma NotedOnly(s: State, t: State, given: Record, plan: Plan, mounts: seq<Resource>)
    requires Noted(s, t, given, mounts)
    ensures Recording(s, t, given, plan, mounts)
  {
  }

  lemma NotedPlanned(s: State, t: State, u: State, given: Record, plan: Plan, mounts: seq<Resource>)
    requires Noted(s, t, given, mounts) && t.record == Some(given.(resources := given.resources + mounts))
    requires JustPlanned(t, u, plan)
    ensures Recording(s, u, given, plan, mounts)
  {
  }

  /** The mounts of an activation that were recorded agree with the plan they are for. */
  lemma PairedGood(before: map<string, MountId>, s: State, r: Record, plan: Plan, mounts: seq<Resource>)
    requires Paired(before, s.mounts, plan.toolchains.overlays, mounts) && Live(r.resources, Mount) == [] + mounts
    ensures MountsGood(s, r, plan)
  {
    forall x | x in r.resources && x.Active(Mount)
      ensures x.identity.point in s.mounts && s.mounts[x.identity.point] == x.identity.mountID
    {
      LiveMember(r.resources, Mount, x);
    }
  }

  lemma PlannedGood(s: State, t: State, r: Record, plan: Plan)
    requires MountsGood(s, r, plan)
    ensures t == s.(plan := Some(plan)) ==> MountsGood(t, r, plan) && MountsAgree(t, r)
  {
    forall x | x in Live(r.resources, Mount)
      ensures x.identity.MountIdentity? && x.identity.point in s.mounts && s.mounts[x.identity.point] == x.identity.mountID
    {
      LiveMember(r.resources, Mount, x);
    }
  }

  /** Mounts the overlays of a plan and writes the plan; a failed activation is quarantined. */
  method ActivateAndPlan(w: World, given: Record, plan: Plan, requireCOW: bool) returns (out: Outcome, r: Record, kept: Plan)
    requires w.Valid() && Pending(w.s, given) && Sound(w.s, given) && Savable(w.s, given)
    requires plan.subject == given.subject && Plannable(w.s, plan)
    requires Live(given.resources, Mount) == []
    modifies w
    ensures w.Went(out) && CreationOnly(old(w.s), w.s)
    ensures out == Ok ==> Fitted(old(w.s), w.s, given, r, plan, kept)
    ensures plan.toolchains.overlays == [] ==> w.Smooth(out) && (out == Ok ==> r == given && kept == plan)
    ensures out == Fail && w.reliable && !requireCOW && DistinctMerged(plan.toolchains.overlays) ==>
      !AllFree(plan.toolchains.overlays, old(w.s).mounts)
    ensures w.reliable && Blank(old(w.s), given, plan) && CanMount(plan.toolchains.overlays, requireCOW) ==>
      out != Fail && Drifts(w.s, plan.subject, plan.toolchains.overlays) && (out == Ok ==> Late(w.s, r))
    ensures MountStrikes(w) && FirstFree(plan.toolchains.overlays, old(w.s).mounts) ==>
      w.DiedAt(out, WithMount(old(w.s), plan.toolchains.overlays[0].merged))
  {
    hide Chain, Good, Savable, Sound, CreationOnly, Live, Paired, Settled, Plannable, MountsAgree, MountsGood, AllFree, Blank,
      Drifts, Late, Recording, CanMount, Fitted, MayAct;
    BlankFree(w.s, given, plan, requireCOW);
    var toolchains, mounts;
    out, toolchains, mounts := ActivateOrFlag(w, given, plan.toolchains, requireCOW);
    kept, r := plan.(toolchains := toolchains), given;
    BlankDrifts(old(w.s), w.s, given, plan);
    if out == Ok {
      SamePlannable(old(w.s), old(w.s), plan, kept);
      out, r := RecordPlanned(w, old(w.s), given, plan, kept, mounts);
    }
  }

  /** The record has mounts for the plan that is saved: the given one but for overlays that were dropped; no
      merged path was taken before. */
  ghost predicate Fitted(s: State, t: State, given: Record, r: Record, plan: Plan, kept: Plan) {
    && Planned(t, r, kept) && r == given.(resources := r.resources) && MountsAgree(t, r) && MountsGood(t, r, kept)
    && kept == plan.(toolchains := kept.toolchains) && t.containers == s.containers
    && Settled(plan.toolchains, |plan.toolchains.overlays|, kept.toolchains.overlays, kept.toolchains.mounts)
    && AllFree(plan.toolchains.overlays, s.mounts)
  }

  /** Records the mounts and writes the plan, and what that is for the creation as a whole. */
  method RecordPlanned(w: World, ghost start: State, given: Record, ghost plan: Plan, kept: Plan, mounts: seq<Resource>)
    returns (out: Outcome, r: Record)
    requires w.Valid() && Pending(start, given) && Savable(start, given) && MountsOnly(start, w.s)
    requires kept == plan.(toolchains := kept.toolchains) && kept.subject == given.subject && Plannable(start, kept)
    requires Live(given.resources, Mount) == []
    requires Paired(start.mounts, w.s.mounts, kept.toolchains.overlays, mounts)
    requires Settled(plan.toolchains, |plan.toolchains.overlays|, kept.toolchains.overlays, kept.toolchains.mounts)
    requires AllFree(plan.toolchains.overlays, start.mounts)
    modifies w
    ensures w.Went(out) && CreationOnly(start, w.s) && w.Smooth(out) && (out == Fail ==> !w.reliable)
    ensures out == Ok ==> Fitted(start, w.s, given, r, plan, kept) && r == given.(resources := given.resources + mounts)
    ensures w.reliable && Blank(start, given, plan) ==>
      Drifts(w.s, plan.subject, plan.toolchains.overlays) && (out == Ok ==> Late(w.s, r))
  {
    hide Chain, Good, Savable, Sound, CreationOnly, Live, Paired, Plannable, MountsAgree, MountsGood, Blank, Drifts, Late,
      Recording, Settled, AllFree;
    out, r := RecordAndPlan(w, start, given, kept, mounts);
    RecordedDrifts(start, old(w.s), w.s, given, plan, kept, mounts);
    RecordedLate(start, old(w.s), w.s, given, r, plan, kept, mounts);
  }

  lemma BlankFree(s: State, given: Record, plan: Plan, requireCOW: bool)
    ensures Blank(s, given, plan) ==> AllFree(plan.toolchains.overlays, s.mounts)
    ensures CanMount(plan.toolchains.overlays, requireCOW) && !requireCOW ==> DistinctMerged(plan.toolchains.overlays)
  {
  }

  lemma BlankDrifts(s: State, t: State, given: Record, plan: Plan)
    ensures Blank(s, given, plan) && MountsOnly(s, t) ==> Drifts(t, plan.subject, plan.toolchains.overlays)
  {
  }

  lemma RecordedLate(s: State, m: State, t: State, given: Record, r: Record, plan: Plan, kept: Plan, mounts: seq<Resource>)
    requires kept == plan.(toolchains := kept.toolchains)
    requires MountsOnly(s, m)
    ensures Blank(s, given, plan) && Recording(m, t, given, kept, mounts) && t.plan == Some(kept) ==>
      (r == given.(resources := r.resources) && MountsGood(t, r, kept) ==> Late(t, r))
  {
  }

  lemma RecordedDrifts(s: State, m: State, t: State, given: Record, plan: Plan, kept: Plan, mounts: seq<Resource>)
    requires kept == plan.(toolchains := kept.toolchains)
    requires MountsOnly(s, m) && Paired(s.mounts, m.mounts, kept.toolchains.overlays, mounts)
    ensures Blank(s, given, plan) && Recording(m, t, given, kept, mounts) ==>
      Drifts(t, plan.subject, plan.toolchains.overlays)
  {
    if Blank(s, given, plan) && Recording(m, t, given, kept, mounts) {
      BlankDrifts(s, m, given, plan);
      if t.record != m.record {
        RecordedOwn(s, m, t, given, plan, kept, mounts);
      } else {
        BlankDrifts(s, t.(record := m.record, trail := s.trail), given, plan);
      }
    }
  }

  lemma RecordedOwn(s: State, m: State, t: State, given: Record, plan: Plan, kept: Plan, mounts: seq<Resource>)
    requires kept == plan.(toolchains := kept.toolchains) && Blank(s, given, plan)
    requires MountsOnly(s, m) && Paired(s.mounts, m.mounts, kept.toolchains.overlays, mounts)
    requires Recording(m, t, given, kept, mounts) && t.record != m.record
    ensures Promising(t, plan.subject, plan.toolchains.overlays)
  {
    hide MountsGood, Stubborn, NameTaken;
    var r := t.record.value;
    assert given.resources + mounts == mounts;
    PairedAgree(s.mounts, m.mounts, kept.toolchains.overlays, mounts);
    PairedGood(s.mounts, t, r, kept, mounts);
    PairedFirm(s.mounts, t.mounts, kept.toolchains.overlays, mounts);
    NewName(t, kept);
    PairedOwn(s.mounts, t.mounts, kept.toolchains.overlays, mounts, r, plan.toolchains.overlays);
    SameUsable(s, t, kept);
  }

  lemma PairedFirm(before: map<string, MountId>, after: map<string, MountId>, overlays: seq<Overlay>, resources: seq<Resource>)
    requires Paired(before, after, overlays, resources)
    ensures !Stubborn(resources, after)
  {
  }

  lemma PairedOwn(before: map<string, MountId>, after: map<string, MountId>, kept: seq<Overlay>, resources: seq<Resource>,
                  r: Record, overlays: seq<Overlay>)
    requires Paired(before, after, kept, resources) && r.resources == resources && AllFree(overlays, before)
    ensures OwnPoints(after, r, overlays)
  {
    forall i | 0 <= i < |overlays| && overlays[i].merged in after
      ensures Claimed(resources, overlays[i].merged, after[overlays[i].merged])
    {
      var k :| 0 <= k < |kept| && kept[k].merged == overlays[i].merged;
      assert resources[k] in resources;
    }
  }

  /** `Activate`, and the quarantine of the record when it fails. */
  method ActivateOrFlag(w: World, given: Record, toolchains: Toolchains, requireCOW: bool)
    returns (out: Outcome, kept: Toolchains, mounts: seq<Resource>)
    requires w.Valid() && MayAct(w.s) && Sound(w.s, given)
    modifies w
    ensures w.Went(out) && CreationOnly(old(w.s), w.s)
    ensures out == Ok ==>
      && MountsOnly(old(w.s), w.s) && Paired(old(w.s).mounts, w.s.mounts, kept.overlays, mounts)
      && Settled(toolchains, |toolchains.overlays|, kept.overlays, kept.mounts)
    ensures toolchains.overlays == [] ==> w.Smooth(out) && (out == Ok ==> kept == toolchains && mounts == [])
    ensures out == Ok ==> AllFree(toolchains.overlays, old(w.s).mounts)
    ensures out == Fail && w.reliable && !requireCOW && DistinctMerged(toolchains.overlays) ==>
      !AllFree(toolchains.overlays, old(w.s).mounts)
    ensures w.reliable && CanMount(toolchains.overlays, requireCOW) && AllFree(toolchains.overlays, old(w.s).mounts) ==>
      out != Fail && MountsOnly(old(w.s), w.s)
    ensures MountStrikes(w) && FirstFree(toolchains.overlays, old(w.s).mounts) ==>
      w.DiedAt(out, WithMount(old(w.s), toolchains.overlays[0].merged))
  {
    hide Chain, Good, Savable, Sound, CreationOnly, Paired, Settled, Untouched;
    var clean;
    out, kept, mounts, clean := Activate(w, toolchains, requireCOW);
    CreationFrame(old(w.s), w.s);
    ghost var t := w.s;
    if out == Fail {
      SoundStays(old(w.s), w.s, given);
      var r;
      out, r := CleanUp(w, given, true);
      StillCreation(old(w.s), t, w.s);
    }
  }

  lemma SamePlannable(s: State, t: State, plan: Plan, kept: Plan)
    requires Plannable(s, plan) && kept == plan.(toolchains := kept.toolchains)
    requires t == s.(record := t.record, trail := t.trail, mounts := t.mounts, nextId := t.nextId)
    ensures Plannable(t, kept)
  {
  }

  lemma PlannedPlannable(s: State, r: Record, plan: Plan)
    requires Good(s) && Planned(s, r, plan)
    ensures Plannable(s, plan) && Sound(s, r) && Savable(s, r) && Pending(s, r) && MayAct(s) && plan.subject == r.subject
  {
    SoundNow(s);
  }

  /** No unreleased mount of the record is quarantined. */
  ghost predicate Unflagged(r: Record) {
    forall x :: x in Live(r.resources, Mount) ==> !x.quarantined
  }

  /** The recorded mounts must be unquarantined and in place. */
  method CheckMounts(w: World, given: Record) returns (out: Outcome)
    requires w.Valid() && MayAct(w.s) && Sound(w.s, given)
    modifies w
    ensures w.Went(out) && CreationOnly(old(w.s), w.s)
    ensures out == Ok ==> w.s == old(w.s) && MountsInPlace(w.s.mounts, given.resources) && Unflagged(given)
    ensures out == Ok ==> InTable(given.resources, w.s.mounts)
    ensures w.reliable && InTable(given.resources, old(w.s).mounts) && Unflagged(given) ==> out != Fail && w.s == old(w.s)
  {
    hide Chain, Good, Savable, Sound, CreationOnly, Live;
    CreationFrame(w.s, w.s);
    var active := Live(given.resources, Mount);
    var quarantined := exists x :: x in active && x.quarantined;
    if !quarantined {
      out := ValidateResources(w, given.resources);
    }
    if quarantined || out == Fail {
      var r;
      out, r := CleanUp(w, given, true);
    }
  }

  /** The mounts of an interrupted creation whose plan was written: as many as the plan has
      overlays and all in place, or mounted now if there are none. */
  method ResumeMounts(w: World, given: Record, plan: Plan, requireCOW: bool) returns (out: Outcome, r: Record, kept: Plan)
    requires w.Valid() && Planned(w.s, given, plan)
    modifies w
    ensures w.Went(out) && CreationOnly(old(w.s), w.s)
    ensures out == Ok ==>
      Planned(w.s, r, kept) && r == given.(resources := r.resources) && MountsAgree(w.s, r) && Unflagged(r)
    ensures out == Ok ==> kept == plan.(toolchains := kept.toolchains) && w.s.containers == old(w.s).containers
    ensures out == Ok && !Remounts(given, plan) ==> MountsGood(old(w.s), given, plan)
    ensures w.reliable && MountsGood(old(w.s), given, plan) ==>
      out != Fail && w.s == old(w.s) && (out == Ok ==> r == given && kept == plan)
    ensures w.reliable && MountsRemade(old(w.s), given, plan, requireCOW) ==> out != Fail
  {
    hide Chain, Good, Savable, Sound, CreationOnly, Live, Plannable, MountsInPlace, MountsAgree, Settled, Planned,
      Pending, Unflagged, MayAct;
    PlannedPlannable(w.s, given, plan) by { w.GoodNow(); }
    CreationFrame(w.s, w.s);
    out, r, kept := Ok, given, plan;
    var active := Live(given.resources, Mount);
    if |active| != |plan.toolchains.overlays| {
      if active != [] {
        out, r := CleanUp(w, given, true);
      } else {
        out, r, kept := ActivateAndPlan(w, given, plan, requireCOW);
      }
    }
    if out == Ok {
      ghost var t := w.s;
      out := CheckResumed(w, r, kept);
      StillCreation(old(w.s), t, w.s);
    }
  }

  method CheckResumed(w: World, given: Record, plan: Plan) returns (out: Outcome)
    requires w.Valid() && Planned(w.s, given, plan)
    requires |Live(given.resources, Mount)| == |plan.toolchains.overlays| || MountsAgree(w.s, given)
    modifies w
    ensures w.Went(out) && CreationOnly(old(w.s), w.s)
    ensures out == Ok ==> w.s == old(w.s) && MountsAgree(w.s, given) && Unflagged(given)
    ensures out == Ok ==> MountsGood(old(w.s), given, plan)
    ensures w.reliable && MountsGood(old(w.s), given, plan) ==> out != Fail && w.s == old(w.s)
  {
    hide Chain, Good, Savable, Sound, CreationOnly, Live, Plannable, MountsInPlace;
    PlannedPlannable(w.s, given, plan) by { w.GoodNow(); }
    out := CheckMounts(w, given);
  }

  lemma FoundSavable(s: State, r: Record, plan: Plan)
    requires Good(s) && Planned(s, r, plan) && r.ref.Some? && r.ref.value.container in s.containers
    requires Matches(r, s.containers[r.ref.value.container]) && !s.containers[r.ref.value.container].running
    ensures Savable(s, r.To(Stopped)) && r.To(Stopped) == r.(status := Stopped)
  {
    SoundNow(s);
    StoppedSavable(s, r.To(Stopped));
  }

  /** The runtime half of a resumed creation: a recorded container must be ours and stopped; a
      reference whose container is gone is dropped; without a reference one is created. */
  method ResumeRuntime(w: World, given: Record, plan: Plan) returns (out: Outcome, r: Record)
    requires w.Valid() && Planned(w.s, given, plan) && MountsAgree(w.s, given)
    modifies w
    ensures w.Went(out) && CreationOnly(old(w.s), w.s)
    ensures out == Ok ==> r.subject == given.subject && Completed(w.s, r)
    ensures Runs(old(w.s), given) ==> out != Ok && w.s.containers == old(w.s).containers
    ensures Runs(old(w.s), given) && out == Fail && w.reliable ==> r.quarantined && r.status == Error
    ensures out == Ok ==> RuntimeGood(old(w.s), given, plan)
    ensures w.reliable && RuntimeGood(old(w.s), given, plan) ==>
      out != Fail && EngineOnly(old(w.s), w.s) && Underway(w.s, given, plan)
  {
    hide Chain, Good, Savable, Sound, CreationOnly, Live, MountsInPlace, Underway, NameUsable;
    CreationFrame(w.s, w.s);
    PlannedUnderway(w.s, w.s, given, given.(status := Stopped), plan);
    r := given;
    if given.ref.None? {
      out, r := CreateRuntime(w, given, plan);
      return;
    }
    var found;
    out, found := w.Inspect(given.ref.value.container);
    if out != Ok {
      return;
    }
    if found.Some? {
      out, r := ResumeFound(w, given, plan, found.value);
    } else {
      out, r := ResumeLost(w, given, plan);
    }
  }

  method ResumeFound(w: World, given: Record, plan: Plan, container: Container) returns (out: Outcome, r: Record)
    requires w.Valid() && Planned(w.s, given, plan) && MountsAgree(w.s, given)
    requires given.ref.Some? && given.ref.value.container in w.s.containers
    requires container == w.s.containers[given.ref.value.container]
    modifies w
    ensures w.Went(out) && CreationOnly(old(w.s), w.s)
    ensures out == Ok ==> r.subject == given.subject && Completed(w.s, r)
    ensures container.running ==> out != Ok && w.s.containers == old(w.s).containers
    ensures container.running && out == Fail ==> r.quarantined && r.status == Error
    ensures out == Ok ==> RuntimeGood(old(w.s), given, plan)
    ensures w.reliable && RuntimeGood(old(w.s), given, plan) ==>
      out != Fail && EngineOnly(old(w.s), w.s) && Underway(w.s, given, plan)
  {
    hide Chain, Good, Savable, Sound, CreationOnly, Live, MountsInPlace, Plannable, Underway;
    PlannedPlannable(w.s, given, plan) by { w.GoodNow(); }
    if !Matches(given, container) || container.running {
      out, r := CleanUp(w, given, true);
      return;
    }
    FoundSavable(w.s, given, plan) by { w.GoodNow(); }
    r := given.To(Stopped);
    out := w.SaveRecord(r);
    CreationFrame(old(w.s), w.s);
    PlannedUnderway(old(w.s), w.s, given, r, plan);
  }

  method ResumeLost(w: World, given: Record, plan: Plan) returns (out: Outcome, r: Record)
    requires w.Valid() && Planned(w.s, given, plan) && MountsAgree(w.s, given)
    requires given.ref.Some? && given.ref.value.container !in w.s.containers
    modifies w
    ensures w.Went(out) && CreationOnly(old(w.s), w.s)
    ensures out == Ok ==> r.subject == given.subject && Completed(w.s, r)
    ensures out == Ok ==> RuntimeGood(old(w.s), given, plan)
    ensures w.reliable && RuntimeGood(old(w.s), given, plan) ==>
      out != Fail && EngineOnly(old(w.s), w.s) && Underway(w.s, given, plan)
  {
    hide Chain, Good, Savable, Sound, CreationOnly, Live, MountsInPlace, Underway, NameUsable, EngineOnly, MountsAgree,
      RuntimeGood;
    out, r := DropRef(w, given, plan);
    ghost var t := w.s;
    if out == Ok {
      ghost var mid := r;
      out, r := CreateRuntime(w, r, plan);
      CompletedNow(t, w.s, mid, r);
      StillCreation(old(w.s), t, w.s);
      StillUnderway(old(w.s), t, w.s, given, plan);
    }
  }

  /** The save of a record whose container is gone, without the reference. */
  method DropRef(w: World, given: Record, ghost plan: Plan) returns (out: Outcome, r: Record)
    requires w.Valid() && Planned(w.s, given, plan) && given.ref.Some? && given.ref.value.container !in w.s.containers
    modifies w
    ensures w.Went(out) && CreationOnly(old(w.s), w.s) && EngineOnly(old(w.s), w.s) && r == given.(ref := None)
    ensures w.s.mounts == old(w.s).mounts && w.s.plan == old(w.s).plan
    ensures out == Ok ==> Awaiting(w.s, r, plan) && (NameUsable(w.s, plan) <==> RuntimeGood(old(w.s), given, plan))
    ensures w.reliable ==> out != Fail
    ensures RuntimeGood(old(w.s), given, plan) ==> Underway(w.s, given, plan) || out == Fail
    ensures MountsAgree(old(w.s), given) ==> MountsAgree(w.s, r)
  {
    hide Chain, Good, Savable, Sound, CreationOnly, Live, MountsInPlace, Underway, NameUsable;
    PendingSavable(w.s, given) by { w.GoodNow(); }
    r := given.(ref := None);
    out := w.SaveRecord(r);
    CreationFrame(old(w.s), w.s);
    PlannedUnderway(old(w.s), w.s, given, r, plan);
  }

  lemma CompletedNow(s: State, t: State, given: Record, r: Record)
    requires MountsAgree(s, given)
    ensures t.plan == s.plan && t.mounts == s.mounts && t.record == Some(r) ==>
      (r == given.(ref := r.ref, status := Stopped) ==> Completed(t, r))
  {
  }

  /** The save that gave the container up, or that ended the creation. */
  lemma PlannedUnderway(s: State, t: State, given: Record, r: Record, plan: Plan)
    requires Planned(s, given, plan) && t == s.(record := t.record, trail := t.trail) && t.record in {Some(given), Some(r)}
    requires r == given.(status := Stopped) ||
      (r == given.(ref := None) && given.ref.Some? && given.ref.value.container !in s.containers)
    ensures EngineOnly(s, t) && NameUsable(t, plan) == NameUsable(s, plan)
    ensures RuntimeGood(s, given, plan) ==> Underway(t, given, plan)
  {
  }

  lemma StillUnderway(a: State, b: State, c: State, given: Record, plan: Plan)
    requires EngineOnly(a, b)
    ensures EngineOnly(b, c) ==> EngineOnly(a, c)
    ensures Underway(c, given.(ref := None), plan) ==> Underway(c, given, plan)
  {
  }

  /** `resumeCreatingLocked`. `complete` says that creation is over; otherwise planning starts anew
      on a record without container, plan and mounts. */
  method ResumeCreating(w: World, request: CreateRequest, given: Record) returns (out: Outcome, complete: bool, r: Record)
    requires w.Valid() && Pending(w.s, given)
    modifies w
    ensures w.Went(out) && CreationOnly(old(w.s), w.s)
    ensures out == Ok ==> r.subject == given.subject == request.subject
    ensures out == Ok && complete ==> Completed(w.s, r)
    ensures out == Ok && !complete ==> Pending(w.s, r) && w.s.plan.None? && r.ref.None?
    ensures out == Ok && !complete ==> Live(r.resources, Mount) == []
    ensures out == Ok && !(old(w.s).plan.Some? && Remounts(given, old(w.s).plan.value)) ==>
      Resumable(old(w.s), request, given)
    ensures out == Fail && w.reliable ==> !Resumable(old(w.s), request, given)
    ensures w.reliable && Hopeful(old(w.s), request) ==> out != Fail && Hopeful(w.s, request)
    ensures w.reliable && Hopeful(old(w.s), request) && out == Ok && !complete ==> Beginning(w.s, request)
    ensures out == Ok && !complete && Stray(old(w.s), request.toolchains.overlays) ==>
      !AllFree(request.toolchains.overlays, w.s.mounts)
    ensures out == Ok && complete ==> old(w.s).plan.Some?
  {
    hide Chain, Good, Savable, Sound, CreationOnly, Live, MountsInPlace, MountsAgree, RuntimeGood, MountsGood, MountsRemade,
      Droppable, Remounts;
    PendingSavable(w.s, given) by { w.GoodNow(); }
    CreationFrame(w.s, w.s);
    complete, r := true, given;
    if request.subject != given.subject {  // validateCreatingRecord
      out, r := CleanUp(w, given, true);
      return;
    }
    out := w.Try();  // read plan.json
    if out != Ok {
      return;
    }
    if w.s.plan.None? {
      complete := false;
      out, r := ResumeUnplanned(w, given);
      UnplannedHopeful(w, old(w.s), given, request, out);
    } else if !PlanMatches(request, given, w.s.plan.value) {
      out, r := CleanUp(w, given, true);
    } else {
      out, r := ResumePlanned(w, request, given, w.s.plan.value);
      PlannedHopeful(old(w.s), w.s, given, request, w.reliable, out);
    }
  }

  lemma UnplannedHopeful(w: World, s: State, given: Record, request: CreateRequest, out: Outcome)
    requires s.record == Some(given) && given.status == Creating && s.plan.None?
    requires w.reliable && Droppable(s, given) ==> out != Fail && Dropped(s, w.s, given)
    requires out == Ok ==> NoneMounted(w.s, given) && StrangersStay(s, w.s, given)
    ensures w.reliable && Hopeful(s, request) ==>
      out != Fail && Hopeful(w.s, request) && (out == Ok ==> Beginning(w.s, request))
    ensures out == Ok && Stray(s, request.toolchains.overlays) ==> !AllFree(request.toolchains.overlays, w.s.mounts)
  {
    hide Dropped, Hopeful, Beginning, NoneMounted, StrangersStay, Stray, AllFree, Droppable;
    if w.reliable && Hopeful(s, request) {
      HopefulParts(s, given, request);
      DroppedHopeful(s, w.s, given, request);
    }
    if out == Ok && Stray(s, request.toolchains.overlays) {
      StrayStays(s, w.s, given, request.toolchains.overlays);
    }
  }

  lemma PlannedHopeful(s: State, t: State, given: Record, request: CreateRequest, reliable: bool, out: Outcome)
    requires s.record == Some(given) && given.status == Creating && s.plan.Some?
    requires reliable && s.dataTree && RuntimeGood(s, given, s.plan.value) && MountsGood(s, given, s.plan.value) ==>
      out != Fail && EngineOnly(s, t) && Underway(t, given, s.plan.value)
    ensures reliable && Hopeful(s, request) ==> out != Fail && Hopeful(t, request)
  {
    hide Hopeful, EngineOnly, Underway, RuntimeGood, MountsGood;
    if reliable && Hopeful(s, request) {
      HopefulParts(s, given, request);
      UnderwayHopeful(s, t, given, s.plan.value, request);
    }
  }

  /** The bootstrap files are checked first: they are in the data tree, and they agree with plan and
      request whenever they are there, because the operation key binds both. */
  method ResumePlanned(w: World, request: CreateRequest, given: Record, plan: Plan) returns (out: Outcome, r: Record)
    requires w.Valid() && Planned(w.s, given, plan)
    modifies w
    ensures w.Went(out) && CreationOnly(old(w.s), w.s)
    ensures out == Ok ==> r.subject == given.subject && Completed(w.s, r)
    ensures out == Ok ==> old(w.s).dataTree && RuntimeGood(old(w.s), given, plan)
    ensures out == Ok && !Remounts(given, plan) ==> MountsGood(old(w.s), given, plan)
    ensures out == Fail && w.reliable && old(w.s).dataTree && RuntimeGood(old(w.s), given, plan) ==>
      !MountsGood(old(w.s), given, plan) && !MountsRemade(old(w.s), given, plan, request.requireCOW)
    ensures w.reliable && old(w.s).dataTree && RuntimeGood(old(w.s), given, plan) && MountsGood(old(w.s), given, plan) ==>
      out != Fail && EngineOnly(old(w.s), w.s) && Underway(w.s, given, plan)
  {
    hide Chain, Good, Savable, Sound, CreationOnly, Live, MountsInPlace, Plannable, MountsAgree, RuntimeGood, MountsGood,
      MountsRemade;
    PlannedPlannable(w.s, given, plan) by { w.GoodNow(); }
    CreationFrame(w.s, w.s);
    r := given;
    out := w.Try();
    if out == Crash {
      return;
    }
    if out == Fail || !w.s.dataTree {
      out, r := CleanUp(w, given, true);
    } else {
      out, r := ResumeChecked(w, request, given, plan);
    }
  }

  /** The mounts, and then the container. */
  method ResumeChecked(w: World, request: CreateRequest, given: Record, plan: Plan) returns (out: Outcome, r: Record)
    requires w.Valid() && Planned(w.s, given, plan)
    modifies w
    ensures w.Went(out) && CreationOnly(old(w.s), w.s)
    ensures out == Ok ==> r.subject == given.subject && Completed(w.s, r) && RuntimeGood(old(w.s), given, plan)
    ensures out == Ok && !Remounts(given, plan) ==> MountsGood(old(w.s), given, plan)
    ensures out == Fail && w.reliable && RuntimeGood(old(w.s), given, plan) ==>
      !MountsGood(old(w.s), given, plan) && !MountsRemade(old(w.s), given, plan, request.requireCOW)
    ensures w.reliable && RuntimeGood(old(w.s), given, plan) && MountsGood(old(w.s), given, plan) ==>
      out != Fail && EngineOnly(old(w.s), w.s) && Underway(w.s, given, plan)
  {
    hide Chain, Good, Savable, Sound, CreationOnly, Live, MountsInPlace, Plannable, MountsAgree, RuntimeGood, MountsGood,
      MountsRemade, Underway, EngineOnly, Remounts;
    PlannedFrame(w.s, given, plan);
    var kept;
    out, r, kept := ResumeMounts(w, given, plan, request.requireCOW);
    if out == Ok {
      ghost var t := w.s;
      SameRuntime(old(w.s), t, given, r, plan, kept);
      out, r := ResumeRuntime(w, r, kept);
      StillCreation(old(w.s), t, w.s);
    }
  }

  lemma PlannedFrame(s: State, r: Record, plan: Plan)
    requires Planned(s, r, plan)
    ensures EngineOnly(s, s) && (RuntimeGood(s, r, plan) ==> Underway(s, r, plan))
  {
  }

  lemma SameRuntime(s: State, t: State, given: Record, r: Record, plan: Plan, kept: Plan)
    requires t.id == s.id && t.containers == s.containers && r == given.(resources := r.resources)
    requires kept == plan.(toolchains := kept.toolchains)
    ensures RuntimeGood(t, r, kept) == RuntimeGood(s, given, plan)
  {
  }

  /** Taking back what was recorded keeps the promise, and leaves nothing in the way. */
  lemma DroppedHopeful(s: State, t: State, given: Record, request: CreateRequest)
    requires Hopeful(s, request) && s.record == Some(given) && given.status == Creating && s.plan.None?
    requires Dropped(s, t, given)
    ensures Hopeful(t, request)
    ensures NoneMounted(t, given) ==> Beginning(t, request)
  {
    hide CanMount, NameTaken;
    LiveReleasedAll(given.resources, Mount, Mount);
    StubbornShrinks(Live(given.resources, Mount), s.mounts, t.mounts);
    SameUsable(s, t, Planning(request, 0));
  }

  lemma StubbornShrinks(resources: seq<Resource>, had: map<string, MountId>, has: map<string, MountId>)
    requires Untouched(has, had)
    ensures Stubborn(resources, has) ==> Stubborn(resources, had)
  {
    if Stubborn(resources, has) {
      var i :| 0 <= i < |resources| && StubbornAt(resources, has, i);
      assert StubbornAt(resources, had, i);
    }
  }

  /** And so does the engine's part. */
  lemma UnderwayHopeful(s: State, t: State, given: Record, plan: Plan, request: CreateRequest)
    requires Hopeful(s, request) && s.record == Some(given) && given.status == Creating && s.plan == Some(plan)
    requires EngineOnly(s, t) && Underway(t, given, plan)
    ensures Hopeful(t, request)
  {
    hide CanMount, RuntimeGood, InTable;
    MountsGoodAgree(s, t, given, t.record.value, plan);
  }

  lemma MountsGoodAgree(s: State, t: State, given: Record, r: Record, plan: Plan)
    requires MountsGood(s, given, plan) && t.mounts == s.mounts && r.resources == given.resources && t.plan == Some(plan)
    ensures MountsGood(t, r, plan) && MountsAgree(t, r)
  {
    forall x | x in Live(r.resources, Mount)
      ensures x.identity.MountIdentity? && x.identity.point in t.mounts && t.mounts[x.identity.point] == x.identity.mountID
    {
      LiveMember(r.resources, Mount, x);
    }
  }

  lemma HopefulParts(s: State, given: Record, request: CreateRequest)
    requires Hopeful(s, request) && s.record == Some(given) && given.status == Creating
    ensures given.subject == request.subject
    ensures s.plan.None? ==> Droppable(s, given)
    ensures s.plan.Some? ==>
      && PlanMatches(request, given, s.plan.value) && s.dataTree
      && RuntimeGood(s, given, s.plan.value) && MountsGood(s, given, s.plan.value)
  {
  }

  lemma StrayStays(s: State, t: State, given: Record, overlays: seq<Overlay>)
    requires Stray(s, overlays) && s.record == Some(given) && StrangersStay(s, t, given)
    ensures !AllFree(overlays, t.mounts)
  {
  }

  /** What comes before the record keeps the promise. */
  lemma PreparedHopeful(s: State, t: State, request: CreateRequest)
    requires Beginning(s, request)
    requires t.id == s.id && t.containers == s.containers && t.mounts == s.mounts && t.plan == s.plan
    requires t.record == s.record || t.record == Some(NewRecord(request.subject))
    ensures Hopeful(t, request)
  {
    hide CanMount;
  }

  /** A first record. */
  lemma PreparedBlank(s: State, t: State, request: CreateRequest, nonce: Nonce)
    requires Beginning(s, request) && t.dataTree
    requires t.id == s.id && t.containers == s.containers && t.mounts == s.mounts && t.plan == s.plan
    requires t.record == Some(NewRecord(request.subject))
    ensures Blank(t, NewRecord(request.subject), Planning(request, nonce))
    ensures CanMount(request.toolchains.overlays, request.requireCOW)
  {
  }

  // ---------- Creating from scratch ----------

  /** The record a creation starts from. */
  function NewRecord(subject: Subject): Record {
    Record(subject, None, Creating, None, false, SetupResult(false), [], false)
  }

  /** CompilePlan, the persistent storage, the staged seeds and the bootstrap files. */
  method Prepare(w: World, request: CreateRequest) returns (out: Outcome)
    requires w.Valid() && MayAct(w.s)
    modifies w
    ensures w.Went(out) && w.s == old(w.s).(runTree := w.s.runTree, dataTree := w.s.dataTree, keys := w.s.keys)
    ensures KeysOrNone(old(w.s).keys, w.s.keys)
    ensures w.Smooth(out)
    ensures (out == Ok ==> w.s.dataTree) && (out == Fail ==> !w.reliable)
  {
    hide Chain, Good;
    out := w.Try();
    if out == Ok {
      out := w.SetTrees(w.s.runTree || request.integrations != {}, true);
    }
  }

  lemma TreesOnly(s: State, t: State)
    requires t == s.(record := t.record, stale := t.stale, trail := t.trail, removing := t.removing, born := t.born,
                     keys := t.keys, runTree := t.runTree, dataTree := t.dataTree)
    requires KeysOrNone(s.keys, t.keys)
    ensures CreationOnly(s, t)
  {
  }

  lemma ReplannedSavable(s: State, given: Record, r: Record)
    requires Good(s) && Pending(s, given) && s.plan.None?
    requires r == NewRecord(given.subject)
    ensures Savable(s, r)
  {
    SoundNow(s);
    assert IntentFirst(Saved(s, r), r);
  }

  /** The first save of the record, new or over the one of the interrupted creation. */
  method SaveFirst(w: World, existing: Option<Record>, r: Record) returns (out: Outcome)
    requires w.Valid() && MayAct(w.s) && w.s.acting == Some(w.s.id)
    requires w.s.record == existing && r == NewRecord(r.subject) && r.subject.id == w.s.id
    requires existing.Some? ==> Pending(w.s, existing.value) && existing.value.subject == r.subject && w.s.plan.None?
    modifies w
    ensures w.Went(out)
    ensures w.s == old(w.s).(record := w.s.record, stale := w.s.stale, trail := w.s.trail, removing := w.s.removing, born := w.s.born)
    ensures out == Ok ==> w.s.record == Some(r) && Unmade(w.s)
    ensures existing.Some? || old(w.mishap) != DiesAfterFirstSave ==> w.Smooth(out)
    ensures existing.None? && old(w.mishap) == DiesAfterFirstSave && old(w.crashes) > 0 ==>
      w.DiedAt(out, WithNew(old(w.s), r))
    ensures (w.s.record == existing || w.s.record == Some(r)) && (out == Fail ==> !w.reliable)
  {
    if existing.Some? {
      ReplannedSavable(w.s, existing.value, r) by { w.GoodNow(); }
      PendingSavable(w.s, existing.value) by { w.GoodNow(); }
      hide Chain, Good, Savable;
      out := w.SaveRecord(r);
    } else {
      hide Chain, Good, Savable;
      out := w.SaveNewRecord(r);
    }
  }

  /** Removes the trees that were prepared for a workspace whose record was never written. */
  method Unprepare(w: World) returns (out: Outcome)
    requires w.Valid() && MayAct(w.s)
    modifies w
    ensures w.Went(out) && out != Ok && w.s == old(w.s).(runTree := w.s.runTree, dataTree := w.s.dataTree, keys := w.s.keys)
    ensures KeysOrNone(old(w.s).keys, w.s.keys)
    ensures out == Fail && w.reliable ==> !w.s.runTree && !w.s.dataTree
  {
    hide Chain, Good;
    out := w.SetTrees(false, false);
    out := if out == Ok then Fail else out;
  }

  /** The program acts in the name of the creating key, which is bound to this request. */
  ghost predicate Asked(s: State, request: CreateRequest) {
    && MayAct(s) && s.acting == Some(s.id) && request.subject.id == s.id
    && s.id != "" && s.journal[s.id].input == CreateInput(request)
  }

  /** What a creation leaves of its plan and its record: plan.json asks for what was requested, with the
      overlays that could be mounted, and the record is new but for its container and its mounts. */
  ghost predicate Made(s: State, plan: Plan, r: Record) {
    && s.plan.Some? && s.plan.value == plan.(toolchains := s.plan.value.toolchains)
    && r == NewRecord(plan.subject).(ref := r.ref, status := Stopped, resources := r.resources)
    && r.ref.Some? && r.ref.value.nonce == plan.nonce
    && Settled(plan.toolchains, |plan.toolchains.overlays|, s.plan.value.toolchains.overlays, s.plan.value.toolchains.mounts)
    && (plan.toolchains.overlays == [] ==> s.plan.value == plan && r.resources == [])
  }

  function Planning(request: CreateRequest, nonce: Nonce): Plan {
    Plan(PLAN_SCHEMA, request.subject, nonce, request.toolchains, request.integrations, request.settings, request.setup)
  }

  /** A first creation without overlays, with the name of the container free. */
  predicate Undisturbed(s: State, request: CreateRequest) {
    s.record.None? && request.toolchains.overlays == [] && !NameTaken(s)
  }

  /** There is an overlay, and its merged path is free. */
  predicate FirstFree(overlays: seq<Overlay>, mounts: map<string, MountId>) {
    overlays != [] && overlays[0].merged !in mounts
  }

  predicate Unstarted(s: State, request: CreateRequest) {
    s.record.None? && s.plan.None? && FirstFree(request.toolchains.overlays, s.mounts)
  }

  /** The process died over the first mount: it is there, and the record says nothing of it. */
  twostate predicate MountLost(w: World, out: Outcome, request: CreateRequest)
    reads w
  {
    && out == Crash && w.mishap == NoMishap && w.crashes == old(w.crashes) - 1
    && w.s.record == Some(NewRecord(request.subject)) && w.s.plan.None?
    && request.toolchains.overlays != [] && request.toolchains.overlays[0].merged in w.s.mounts
  }

  /** The process died over the first save: there is a new record and nothing else. */
  twostate predicate FirstSaved(w: World, out: Outcome, r: Record)
    reads w
  {
    && out == Crash && w.mishap == NoMishap && w.crashes == old(w.crashes) - 1
    && w.s.record == Some(r) && w.s.containers == old(w.s).containers && w.s.plan == old(w.s).plan
  }

  /** The process died over the new container: it exists, and the record does not name it. */
  twostate predicate Orphaned(w: World, out: Outcome, r: Record)
    reads w
  {
    && out == Crash && w.mishap == NoMishap && w.crashes == old(w.crashes) - 1
    && w.s.record == Some(r) && exists c :: c in w.s.born && c in w.s.containers
  }

  /** Plans, saves the record, mounts, writes the plan, and creates the container. */
  method CreateFromScratch(w: World, request: CreateRequest, existing: Option<Record>) returns (out: Outcome, r: Record)
    requires w.Valid() && Asked(w.s, request) && w.s.record == existing
    requires existing.Some? ==>
      Pending(w.s, existing.value) && existing.value.subject == request.subject && w.s.plan.None?
    modifies w
    ensures w.Went(out) && CreationOnly(old(w.s), w.s)
    ensures out == Ok ==> r.subject == request.subject && Completed(w.s, r)
    ensures out == Ok ==> exists nonce :: Made(w.s, Planning(request, nonce), r)
    ensures Undisturbed(old(w.s), request) && old(w.mishap) !in {DiesAfterFirstSave, DiesAfterContainer} ==> w.Smooth(out)
    ensures w.calm && Undisturbed(old(w.s), request) && old(w.crashes) > 0 ==>
      && (old(w.mishap) == DiesAfterFirstSave ==> FirstSaved(w, out, NewRecord(request.subject)))
      && (old(w.mishap) == DiesAfterContainer ==> Orphaned(w, out, NewRecord(request.subject)))
    ensures out == Ok ==> AllFree(request.toolchains.overlays, old(w.s).mounts)
    ensures w.reliable && Beginning(old(w.s), request) ==> out != Fail && Adrift(w.s, request)
    ensures MountStrikes(w) && existing.None? && old(w.s).plan.None? && FirstFree(request.toolchains.overlays, old(w.s).mounts) ==>
      MountLost(w, out, request)
  {
    hide Chain, Good, Savable, Sound, Live, MountsInPlace, MountsAgree, Settled, Made, NameTaken, CreationOnly, Completed,
      Beginning, Adrift, Hopeful, AllFree, FirstFree, Unmade, KindsFit;
    r := NewRecord(request.subject);
    out := PrepareAndSave(w, request, existing);
    ghost var t := w.s;
    SameNames(old(w.s), t);
    SameAsked(old(w.s), t, request);
    BeginningHopeful(old(w.s), t, request);
    if out == Ok {
      out, r := CreateRequested(w, old(w.s), request);
      StillCreation(old(w.s), t, w.s);
    }
  }

  lemma BeginningHopeful(s: State, t: State, request: CreateRequest)
    requires t.id == s.id && t.containers == s.containers && t.mounts == s.mounts && t.plan == s.plan
    requires t.record == s.record || t.record == Some(NewRecord(request.subject))
    ensures Beginning(s, request) ==> Adrift(t, request)
  {
    if Beginning(s, request) {
      PreparedHopeful(s, t, request);
    }
  }

  /** The rest, once the first record is saved; `start` is the state before that. */
  method CreateRequested(w: World, ghost start: State, request: CreateRequest) returns (out: Outcome, r: Record)
    requires w.Valid() && Asked(w.s, request) && w.s.record == Some(NewRecord(request.subject)) && Unmade(w.s) && w.s.dataTree
    requires Sound(w.s, NewRecord(request.subject)) && Savable(w.s, NewRecord(request.subject))
    requires w.s.id == start.id && w.s.containers == start.containers && w.s.mounts == start.mounts && w.s.plan == start.plan
    modifies w
    ensures w.Went(out) && CreationOnly(old(w.s), w.s)
    ensures out == Ok ==>
      r.subject == request.subject && Completed(w.s, r) && AllFree(request.toolchains.overlays, start.mounts)
    ensures out == Ok ==> exists nonce :: Made(w.s, Planning(request, nonce), r)
    ensures request.toolchains.overlays == [] && !NameTaken(start) && old(w.mishap) != DiesAfterContainer ==> w.Smooth(out)
    ensures w.calm && request.toolchains.overlays == [] && !NameTaken(start) && old(w.crashes) > 0 ==>
      (old(w.mishap) == DiesAfterContainer ==> Orphaned(w, out, NewRecord(request.subject)))
    ensures w.reliable && Beginning(start, request) ==> out != Fail && Adrift(w.s, request)
    ensures MountStrikes(w) && start.plan.None? && FirstFree(request.toolchains.overlays, start.mounts) ==>
      MountLost(w, out, request)
  {
    hide Chain, Good, Savable, Sound, Live, MountsInPlace, MountsAgree, Settled, Made, NameTaken, CreationOnly, Completed,
      Beginning, Adrift, Hopeful, AllFree, Unmade, Blank, Drifts, CanMount;
    var nonce: Nonce := *;
    SameUsable(start, w.s, Planning(request, nonce));
    RequestedBlank(start, w.s, request, nonce);
    out, r := CreateRest(w, NewRecord(request.subject), Planning(request, nonce), request.requireCOW);
    RequestedAdrift(start, w.s, request);
  }

  lemma RequestedBlank(s: State, t: State, request: CreateRequest, nonce: Nonce)
    requires t.id == s.id && t.containers == s.containers && t.mounts == s.mounts && t.plan == s.plan && t.dataTree
    requires t.record == Some(NewRecord(request.subject))
    ensures Beginning(s, request) ==>
      && Blank(t, NewRecord(request.subject), Planning(request, nonce))
      && CanMount(request.toolchains.overlays, request.requireCOW)
  {
    if Beginning(s, request) {
      PreparedBlank(s, t, request, nonce);
    }
  }

  lemma RequestedAdrift(s: State, t: State, request: CreateRequest)
    ensures Beginning(s, request) && Drifts(t, request.subject, request.toolchains.overlays) ==> Adrift(t, request)
  {
  }

  lemma SameAsked(s: State, t: State, request: CreateRequest)
    requires CreationOnly(s, t)
    ensures t.id == s.id && Asked(t, request) == Asked(s, request)
  {
  }

  /** What comes before the record is there; when its first save fails the new trees go again. */
  method PrepareAndSave(w: World, request: CreateRequest, existing: Option<Record>) returns (out: Outcome)
    requires w.Valid() && Asked(w.s, request) && w.s.record == existing
    requires existing.Some? ==>
      Pending(w.s, existing.value) && existing.value.subject == request.subject && w.s.plan.None?
    modifies w
    ensures w.Went(out) && CreationOnly(old(w.s), w.s) && w.s.plan == old(w.s).plan && w.s.containers == old(w.s).containers
    ensures out == Ok ==> w.s.record == Some(NewRecord(request.subject)) && Unmade(w.s)
    ensures existing.Some? || old(w.mishap) != DiesAfterFirstSave ==> w.Smooth(out)
    ensures w.calm && existing.None? && old(w.mishap) == DiesAfterFirstSave && old(w.crashes) > 0 ==>
      FirstSaved(w, out, NewRecord(request.subject))
    ensures out == Ok ==> Sound(w.s, NewRecord(request.subject)) && Savable(w.s, NewRecord(request.subject))
    ensures (out == Ok ==> w.s.dataTree) && (out == Fail ==> !w.reliable)
    ensures w.s.record == existing || w.s.record == Some(NewRecord(request.subject))
    ensures w.s.mounts == old(w.s).mounts
  {
    hide Chain, Good, Savable, Sound, CreationOnly, Unmade, Asked, FirstSaved, MayAct;
    out := PrepareOrUndo(w, request, existing);
    if out == Ok {
      PendingFacts(w, NewRecord(request.subject));
    }
  }

  method PrepareOrUndo(w: World, request: CreateRequest, existing: Option<Record>) returns (out: Outcome)
    requires w.Valid() && Asked(w.s, request) && w.s.record == existing
    requires existing.Some? ==>
      Pending(w.s, existing.value) && existing.value.subject == request.subject && w.s.plan.None?
    modifies w
    ensures w.Went(out) && CreationOnly(old(w.s), w.s) && w.s.plan == old(w.s).plan && w.s.containers == old(w.s).containers
    ensures out == Ok ==> Pending(w.s, NewRecord(request.subject)) && Unmade(w.s)
    ensures existing.Some? || old(w.mishap) != DiesAfterFirstSave ==> w.Smooth(out)
    ensures w.calm && existing.None? && old(w.mishap) == DiesAfterFirstSave && old(w.crashes) > 0 ==>
      FirstSaved(w, out, NewRecord(request.subject))
    ensures (out == Ok ==> w.s.dataTree) && (out == Fail ==> !w.reliable)
    ensures w.s.record == existing || w.s.record == Some(NewRecord(request.subject))
    ensures w.s.mounts == old(w.s).mounts
  {
    hide Chain, Good, Savable, Sound, CreationOnly, Unmade;
    out := PrepareSave(w, request, existing);
    if out == Fail && existing.None? {
      out := Unprepare(w);
    }
    TreesOnly(old(w.s), w.s);
  }

  method PrepareSave(w: World, request: CreateRequest, existing: Option<Record>) returns (out: Outcome)
    requires w.Valid() && Asked(w.s, request) && w.s.record == existing
    requires existing.Some? ==>
      Pending(w.s, existing.value) && existing.value.subject == request.subject && w.s.plan.None?
    modifies w
    ensures w.Went(out) && MayAct(w.s)
    ensures w.s == old(w.s).(record := w.s.record, stale := w.s.stale, trail := w.s.trail, removing := w.s.removing, born := w.s.born,
                             keys := w.s.keys, runTree := w.s.runTree, dataTree := w.s.dataTree)
    ensures KeysOrNone(old(w.s).keys, w.s.keys)
    ensures out == Ok ==> w.s.record == Some(NewRecord(request.subject)) && Unmade(w.s)
    ensures existing.Some? || old(w.mishap) != DiesAfterFirstSave ==> w.Smooth(out)
    ensures w.calm && existing.None? && old(w.mishap) == DiesAfterFirstSave && old(w.crashes) > 0 ==>
      FirstSaved(w, out, NewRecord(request.subject))
    ensures (out == Ok ==> w.s.dataTree) && (out == Fail ==> !w.reliable)
    ensures w.s.record == existing || w.s.record == Some(NewRecord(request.subject))
  {
    hide Chain, Good, Savable, Sound, Unmade;
    out := Prepare(w, request);
    if out == Ok {
      out := SaveFirst(w, existing, NewRecord(request.subject));
    }
  }

  method CreateRest(w: World, given: Record, plan: Plan, requireCOW: bool) returns (out: Outcome, r: Record)
    requires w.Valid() && Pending(w.s, given) && given == NewRecord(plan.subject) && Sound(w.s, given) && Savable(w.s, given)
    requires Unmade(w.s) && Bound(w.s) && plan.integrations == Kinds(w.s)
    modifies w
    ensures w.Went(out) && CreationOnly(old(w.s), w.s)
    ensures out == Ok ==> r.subject == plan.subject && Completed(w.s, r) && Made(w.s, plan, r)
    ensures plan.toolchains.overlays == [] && !NameTaken(old(w.s)) && old(w.mishap) != DiesAfterContainer ==> w.Smooth(out)
    ensures w.calm && plan.toolchains.overlays == [] && !NameTaken(old(w.s)) && old(w.crashes) > 0 ==>
      (old(w.mishap) == DiesAfterContainer ==> Orphaned(w, out, given))
    ensures out == Ok ==> AllFree(plan.toolchains.overlays, old(w.s).mounts)
    ensures w.reliable && Blank(old(w.s), given, plan) && CanMount(plan.toolchains.overlays, requireCOW) ==>
      out != Fail && Drifts(w.s, plan.subject, plan.toolchains.overlays)
    ensures MountStrikes(w) && FirstFree(plan.toolchains.overlays, old(w.s).mounts) ==>
      w.DiedAt(out, WithMount(old(w.s), plan.toolchains.overlays[0].merged))
  {
    hide Chain, Good, Savable, Sound, Live, MountsInPlace, CreationOnly, Plannable, Settled, NameTaken, Blank, Drifts, Late,
      AllFree, FirstFree, CanMount, WithMount, Fitted, Completed, Made, NewRecord, Unmade;
    NewPlannable(w.s, given, plan);
    var kept;
    out, r, kept := ActivateAndPlan(w, given, plan, requireCOW);
    if out == Ok {
      ghost var t := w.s;
      FittedFree(old(w.s), t, given, r, plan, kept);
      out, r := CreateFitted(w, old(w.s), given, r, plan, kept);
      StillCreation(old(w.s), t, w.s);
    }
  }

  lemma NewPlannable(s: State, given: Record, plan: Plan)
    requires Unmade(s) && Bound(s) && plan.integrations == Kinds(s) && given == NewRecord(plan.subject)
    ensures Plannable(s, plan) && Live(given.resources, Mount) == [] && plan.subject == given.subject
  {
  }

  lemma FittedFree(s: State, t: State, given: Record, r: Record, plan: Plan, kept: Plan)
    requires Fitted(s, t, given, r, plan, kept)
    ensures AllFree(plan.toolchains.overlays, s.mounts)
    ensures FirstFree(plan.toolchains.overlays, s.mounts) <==> plan.toolchains.overlays != []
  {
  }

  /** The container, once mounts and plan are there. */
  method CreateFitted(w: World, ghost start: State, ghost given: Record, fitted: Record, ghost plan: Plan, kept: Plan)
    returns (out: Outcome, r: Record)
    requires w.Valid() && Fitted(start, w.s, given, fitted, plan, kept) && given == NewRecord(plan.subject)
    requires CreationOnly(start, w.s) && (plan.toolchains.overlays == [] ==> fitted == given && kept == plan)
    modifies w
    ensures w.Went(out) && CreationOnly(old(w.s), w.s)
    ensures out == Ok ==> r.subject == plan.subject && Completed(w.s, r) && Made(w.s, plan, r)
    ensures !NameTaken(start) && old(w.mishap) != DiesAfterContainer ==> w.Smooth(out)
    ensures w.calm && plan.toolchains.overlays == [] && !NameTaken(start) && old(w.crashes) > 0 ==>
      (old(w.mishap) == DiesAfterContainer ==> Orphaned(w, out, given))
    ensures w.reliable && Late(old(w.s), fitted) ==> out != Fail && Drifts(w.s, plan.subject, plan.toolchains.overlays)
  {
    hide Chain, Good, Savable, Sound, CreationOnly, NameTaken, Drifts, Late, Underway, EngineOnly, NameUsable, Fitted,
      Completed, Made, Awaiting, NewRecord;
    FittedParts(start, w.s, given, fitted, plan, kept);
    SameNames(start, w.s);
    LateUsable(w.s, fitted, kept);
    out, r := CreateRuntime(w, fitted, kept);
    OneMore(old(w.s), LabelsFor(kept.subject, kept.nonce));
    assert w.DiedAt(out, WithContainer(old(w.s), LabelsFor(kept.subject, kept.nonce))) ==> Orphaned(w, out, fitted);
    LateDrifts(old(w.s), w.s, fitted, kept, plan.toolchains.overlays);
    if out == Ok {
      FittedMade(start, old(w.s), w.s, given, fitted, r, plan, kept);
    }
  }

  lemma FittedParts(s: State, t: State, given: Record, r: Record, plan: Plan, kept: Plan)
    requires Fitted(s, t, given, r, plan, kept) && given == NewRecord(plan.subject)
    ensures Awaiting(t, r, kept) && t.containers == s.containers && t.plan == Some(kept) && t.record == Some(r)
    ensures r.status == Creating && r.ref.None? && r.subject == plan.subject && AllFree(plan.toolchains.overlays, s.mounts)
    ensures kept.subject == plan.subject && kept.nonce == plan.nonce
  {
  }

  lemma FittedMade(s: State, t: State, u: State, given: Record, fitted: Record, r: Record, plan: Plan, kept: Plan)
    requires Fitted(s, t, given, fitted, plan, kept) && given == NewRecord(plan.subject)
    requires u.record == Some(r) && r == fitted.(ref := r.ref, status := Stopped) && u.mounts == t.mounts &&
      u.plan == Some(kept)
    requires r.ref.Some? && r.ref.value.nonce == kept.nonce
    requires plan.toolchains.overlays == [] ==> fitted == given && kept == plan
    ensures r.subject == plan.subject && Completed(u, r) && Made(u, plan, r)
  {
  }

  lemma LateUsable(s: State, r: Record, plan: Plan)
    requires s.plan == Some(plan) && r.ref.None?
    ensures Late(s, r) ==> NameUsable(s, plan)
  {
  }

  lemma LateDrifts(s: State, t: State, r: Record, plan: Plan, overlays: seq<Overlay>)
    requires s.record == Some(r) && r.status == Creating && s.plan == Some(plan)
    ensures Late(s, r) && EngineOnly(s, t) && Underway(t, r, plan) ==> Drifts(t, r.subject, overlays)
  {
    if Late(s, r) && EngineOnly(s, t) && Underway(t, r, plan) {
      hide RuntimeGood, InTable;
      MountsGoodAgree(s, t, r, t.record.value, plan);
    }
  }

  lemma SameNames(s: State, t: State)
    requires CreationOnly(s, t)
    ensures t.containers == s.containers ==> NameTaken(t) == NameTaken(s)
  {
  }

  lemma OneMore(s: State, labels: Labels)
    ensures var t := WithContainer(s, labels);
      t.record == s.record && s.nextId in t.born && s.nextId in t.containers && exists c :: c in t.born && c in t.containers
  {
  }

  // ---------- The operation ----------

  /** What a Stopped record stands for in every reachable state: of the containers made for it one is
      left, the one it names, with its labels and stopped; and no SSH socket is booked. */
  lemma StoppedLeavesOne(s: State)
    requires Good(s) && s.record.Some? && s.record.value.status == Stopped
    ensures var r := s.record.value;
      && r.ref.Some? && r.ref.value.container in s.containers
      && Matches(r, s.containers[r.ref.value.container])
      && !s.containers[r.ref.value.container].running
      && (set c | c in s.born && c in s.containers) == {r.ref.value.container}
      && r.LiveOf(SshSocket) == []
  {
    var d := s.record.value.ref.value.container;
    forall c | c in s.born && c in s.containers
      ensures c == d
    {
      SoleContainer(s, c, d);
    }
    assert d in s.born && d in s.containers;
  }

  /** In every reachable state, crash points included, a container made for a workspace that is
      Creating carries the nonce of the saved plan.json, and at most one such container exists. */
  lemma {:induction false} CreatingContainersArePlanned(history: seq<State>, i: nat)
    requires Chain(history) && i < |history|
    requires history[i].record.Some? && history[i].record.value.status == Creating && !history[i].stale
    ensures forall c :: c in history[i].born && c in history[i].containers ==>
      && history[i].plan.Some? && !history[i].containers[c].running
      && history[i].containers[c].labels == LabelsFor(history[i].plan.value.subject, history[i].plan.value.nonce)
    ensures var own := history[i].born * history[i].containers.Keys;
      forall c, d :: (c in own && d in own) ==> c == d
  {
    ChainAt(history, i);
    var s := history[i];
    assert Nursery(s, s.record.value) && IntentFirst(s, s.record.value);
    forall c, d | c in s.born && d in s.born && c in s.containers && d in s.containers
      ensures c == d
    {
      SoleContainer(s, c, d);
    }
  }

  predicate Creatable(s: State) {
    s.record.None? || s.record.value.status == Creating
  }

  /** The body of `Create` once its key is bound. */
  method CreateBegun(w: World, request: CreateRequest) returns (out: Outcome, r: Option<Record>)
    requires w.Valid() && Asked(w.s, request)
    modifies w
    ensures w.Went(out) && CreationOnly(old(w.s), w.s)
    ensures out == Ok ==> r.Some? && w.s.record == r && r.value.status == Stopped
    ensures out == Ok && Creatable(old(w.s)) ==>
      r.value.subject == request.subject && Completed(w.s, r.value)
    ensures out == Ok && old(w.s).record.None? ==> exists nonce :: Made(w.s, Planning(request, nonce), r.value)
    ensures Undisturbed(old(w.s), request) && old(w.mishap) !in {DiesAfterFirstSave, DiesAfterContainer} ==> w.Smooth(out)
    ensures w.calm && Undisturbed(old(w.s), request) && old(w.crashes) > 0 ==>
      && (old(w.mishap) == DiesAfterFirstSave ==> FirstSaved(w, out, NewRecord(request.subject)))
      && (old(w.mishap) == DiesAfterContainer ==> Orphaned(w, out, NewRecord(request.subject)))
    ensures out == Ok ==> !Stray(old(w.s), request.toolchains.overlays)
    ensures w.reliable && Hopeful(old(w.s), request) ==> out != Fail && Adrift(w.s, request)
    ensures w.reliable && Hopeful(old(w.s), request) && out == Ok ==>
      Completed(w.s, r.value) && r.value.subject == request.subject
    ensures MountStrikes(w) && Unstarted(old(w.s), request) ==> MountLost(w, out, request)
  {
    hide Chain, Good, CreationOnly, MountsAgree, Made, NameTaken;
    CreationFrame(w.s, w.s);
    r := w.s.record;
    out := w.Try();  // load the record
    if out != Ok {
      return;
    }
    if r.None? {
      var made;
      out, made := CreateFromScratch(w, request, None);
      r := Some(made);
    } else if r.value.status == Creating {
      var made;
      out, made := ResumeOrRestart(w, request, r.value);
      r := Some(made);
    } else if r.value.status != Stopped {
      out := Fail;
    }
  }

  method ResumeOrRestart(w: World, request: CreateRequest, given: Record) returns (out: Outcome, r: Record)
    requires w.Valid() && Pending(w.s, given) && Asked(w.s, request)
    modifies w
    ensures w.Went(out) && CreationOnly(old(w.s), w.s)
    ensures out == Ok ==> r.subject == request.subject && Completed(w.s, r)
    ensures out == Ok ==> !Stray(old(w.s), request.toolchains.overlays)
    ensures w.reliable && Hopeful(old(w.s), request) ==> out != Fail && Adrift(w.s, request)
  {
    hide Chain, Good, MountsAgree, Made;
    var complete;
    out, complete, r := ResumeCreating(w, request, given);
    if out == Ok && !complete {
      ghost var t := w.s;
      hide CreationOnly;
      out, r := CreateFromScratch(w, request, Some(r));
      StillCreation(old(w.s), t, w.s);
    }
  }

  /** The creation under its running entry, and the end of that entry. */
  method CreateEntered(w: World, key: Key, request: CreateRequest) returns (out: Outcome, r: Option<Record>)
    requires w.Valid() && Asked(w.s, request) && key == w.s.id
    modifies w
    ensures w.Went(out) && w.s.acting.None? && OthersKept(old(w.s).journal, w.s.journal, key)
    ensures out == Ok ==>
      && r.Some? && w.s.record == r && r.value.status == Stopped
      && Concluded(w.s, key) && w.s.journal[key] == Operation(CreateInput(request), Succeeded, r)
    ensures out == Ok && Creatable(old(w.s)) ==> r.value.subject == request.subject && Completed(w.s, r.value)
    ensures out == Ok && old(w.s).record.None? ==> exists nonce :: Made(w.s, Planning(request, nonce), r.value)
    ensures out == Fail && w.reliable ==> Concluded(w.s, key) && w.s.journal[key].phase == Failed
    ensures Undisturbed(old(w.s), request) && old(w.mishap) !in {DiesAfterFirstSave, DiesAfterContainer} ==> w.Smooth(out)
    ensures w.calm && Undisturbed(old(w.s), request) && old(w.crashes) > 0 ==>
      && (old(w.mishap) == DiesAfterFirstSave ==>
            FirstSaved(w, out, NewRecord(request.subject)) && First(w.s.(record := None), key, request))
      && (old(w.mishap) == DiesAfterContainer ==>
            Orphaned(w, out, NewRecord(request.subject)) && !Concluded(w.s, key))
    ensures out == Ok ==> !Stray(old(w.s), request.toolchains.overlays)
    ensures w.reliable && Hopeful(old(w.s), request) ==>
      out != Fail && Adrift(w.s, request) && (Concluded(w.s, key) ==> MadeUnder(w.s, key, request))
    ensures Bindable(w.s, key, CreateInput(request))
    ensures MountStrikes(w) && Unstarted(old(w.s), request) ==> MountLost(w, out, request) && !Concluded(w.s, key)
  {
    hide Chain, Good, Live, MountsInPlace, Made, Completed, CreationOnly, NameTaken, Hopeful, Adrift, Stray, Promising;
    out, r := CreateBegun(w, request);
    ghost var t := w.s;
    CreationKeeps(old(w.s), t);
    out := Conclude(w, key, out, r);
    StillCompleted(t, w.s);
    StillAdrift(t, w.s, request);
  }

  /** The journal has no part in that. */
  lemma StillAdrift(s: State, t: State, request: CreateRequest)
    requires t == s.(journal := t.journal, acting := t.acting, cleaned := t.cleaned)
    ensures Adrift(t, request) == Adrift(s, request) && Hopeful(t, request) == Hopeful(s, request)
    ensures Stray(t, request.toolchains.overlays) == Stray(s, request.toolchains.overlays)
  {
    hide Live, Stubborn, InTable, CanMount;
  }

  /** The creation under this key is over, and the record is what it left. */
  ghost predicate MadeUnder(s: State, key: Key, request: CreateRequest) {
    && key in s.journal && s.journal[key].phase == Succeeded && s.journal[key].result == s.record
    && s.record.Some? && s.record.value.subject == request.subject && Completed(s, s.record.value)
  }

  /** The key may be used for this creation, which is not over and can be completed. */
  ghost predicate Retriable(s: State, key: Key, request: CreateRequest) {
    !Concluded(s, key) && Bindable(s, key, CreateInput(request)) && Hopeful(s, request)
  }

  lemma CreationKeeps(s: State, t: State)
    requires CreationOnly(s, t)
    ensures t.journal == s.journal && t.acting == s.acting && t.id == s.id
    ensures t.containers == s.containers ==> NameTaken(t) == NameTaken(s)
  {
  }

  lemma StillCompleted(s: State, t: State)
    requires t == s.(journal := t.journal, acting := t.acting, cleaned := t.cleaned)
    ensures forall r :: Completed(s, r) ==> Completed(t, r)
    ensures forall plan, r :: Made(s, plan, r) ==> Made(t, plan, r)
    ensures NameTaken(t.(record := None)) == NameTaken(s) == NameTaken(t)
  {
  }

  /** `Create`. A concluded key is replayed without effect. Otherwise, whatever crashes and retries
      came before, the first success leaves the durable record Stopped, with everything
      `StoppedLeavesOne` says, and its mounts agreeing with plan.json; a creation that found no record
      also leaves what `Made` says. The last clauses say that some runs exist. */
  method Create(w: World, key: Key, request: CreateRequest) returns (out: Outcome, r: Option<Record>)
    requires w.Valid() && w.s.acting.None?
    requires key == w.s.id && request.subject.id == w.s.id
    modifies w
    ensures w.Went(out) && w.s.acting.None?
    ensures Concluded(old(w.s), key) ==>
      && w.s == old(w.s)
      && (out == Ok ==> w.s.journal[key].phase == Succeeded && r == w.s.journal[key].result)
    ensures Concluded(old(w.s), key) && Bindable(old(w.s), key, CreateInput(request)) && w.reliable && out != Crash ==>
      r == w.s.journal[key].result && (out == Ok <==> w.s.journal[key].phase == Succeeded)
    ensures out == Ok ==> Concluded(w.s, key) && w.s.journal[key].input == CreateInput(request)
    ensures out == Ok && !Concluded(old(w.s), key) ==>
      && r.Some? && w.s.record == r && r.value.status == Stopped
      && w.s.journal[key].phase == Succeeded && w.s.journal[key].result == r
    ensures out == Ok && !Concluded(old(w.s), key) && Creatable(old(w.s)) ==>
      r.value.subject == request.subject && Completed(w.s, r.value)
    ensures out == Ok && !Concluded(old(w.s), key) && old(w.s).record.None? ==>
      exists nonce :: Made(w.s, Planning(request, nonce), r.value)
    ensures out == Fail && w.reliable && !Concluded(old(w.s), key) && Bindable(old(w.s), key, CreateInput(request)) ==>
      Concluded(w.s, key) && w.s.journal[key].phase == Failed
    ensures OthersKept(old(w.s).journal, w.s.journal, key)
    ensures First(old(w.s), key, request) && old(w.mishap) !in {DiesAfterFirstSave, DiesAfterContainer} ==> w.Smooth(out)
    ensures w.calm && First(old(w.s), key, request) && old(w.crashes) > 0 ==>
      && (old(w.mishap) == DiesAfterFirstSave ==>
            FirstSaved(w, out, NewRecord(request.subject)) && First(w.s.(record := None), key, request))
      && (old(w.mishap) == DiesAfterContainer ==>
            Orphaned(w, out, NewRecord(request.subject)) && !Concluded(w.s, key))
    ensures out == Ok && !Concluded(old(w.s), key) ==> !Stray(old(w.s), request.toolchains.overlays)
    ensures w.reliable && Retriable(old(w.s), key, request) ==>
      out != Fail && Adrift(w.s, request) && (Concluded(w.s, key) ==> MadeUnder(w.s, key, request))
    ensures Bindable(old(w.s), key, CreateInput(request)) ==> Bindable(w.s, key, CreateInput(request))
    ensures MountStrikes(w) && Unstarted(old(w.s), request) ==>
      (!Concluded(old(w.s), key) && Bindable(old(w.s), key, CreateInput(request)) ==>
         MountLost(w, out, request) && !Concluded(w.s, key))
  {
    hide Chain, Good, Live, MountsInPlace, Made, Completed, CreationOnly, NameTaken, Hopeful, Adrift, Stray, Promising,
      MadeUnder, NewRecord;
    HopefulAdrift(w.s, request);
    var begun;
    r := None;
    out, begun := BeginOperation(w, key, CreateInput(request));
    StillCompleted(old(w.s), w.s);
    StillAdrift(old(w.s), w.s, request);
    if out != Ok {
      return;
    }
    if begun.Replay? {
      r := begun.result;
      out := if begun.phase == Failed then Fail else Ok;
      return;
    }
    out, r := CreateEntered(w, key, request);
  }

  lemma HopefulAdrift(s: State, request: CreateRequest)
    ensures Hopeful(s, request) ==> Adrift(s, request)
  {
  }

  lemma HopefulNotStray(s: State, request: CreateRequest)
    requires Hopeful(s, request)
    ensures !Stray(s, request.toolchains.overlays)
  {
  }

  lemma AdriftNow(s: State, key: Key, request: CreateRequest)
    ensures Adrift(s, request) && !Stray(s, request.toolchains.overlays) ==> Hopeful(s, request)
    ensures MadeUnder(s, key, request) ==>
      && !Stray(s, request.toolchains.overlays) && s.record.value.status == Stopped
      && key in s.journal && s.journal[key].phase == Succeeded
  {
  }

  lemma StrayHasOverlays(s: State, overlays: seq<Overlay>)
    ensures Stray(s, overlays) ==> overlays != []
  {
  }

  /** Some state since `from` had a stray mount. */
  ghost predicate WasStray(history: seq<State>, from: nat, overlays: seq<Overlay>) {
    exists i :: from <= i < |history| && Stray(history[i], overlays)
  }

  lemma StillStray(before: seq<State>, after: seq<State>, from: nat, overlays: seq<Overlay>)
    requires before <= after
    ensures WasStray(before, from, overlays) ==> WasStray(after, from, overlays)
  {
    if WasStray(before, from, overlays) {
      var i :| from <= i < |before| && Stray(before[i], overlays);
      assert after[i] == before[i];
    }
  }

  lemma StrayNow(w: World, from: nat, overlays: seq<Overlay>)
    requires w.Valid() && from < |w.history| && Stray(w.s, overlays)
    ensures WasStray(w.history, from, overlays) && overlays != []
  {
    StrayHasOverlays(w.s, overlays);
    assert w.history[|w.history| - 1] == w.s;
  }

  lemma HasHistory(w: World)
    requires w.Valid()
    ensures w.history != []
  {
  }

  /** Creation converges: from nothing, from any point at which an earlier try died, or from its end, and
      however many crashes are still to come, repeating it with its key ends with a Stopped record of what was
      asked for, and with the key concluded. The one other end needs overlays and a crash: the process died
      after it had mounted one and before the record said so. From there the next try does not succeed
      (`Create`). */
  method CreateUntilDone(w: World, key: Key, request: CreateRequest) returns (out: Outcome)
    requires w.Valid() && w.s.acting.None? && w.reliable && key == w.s.id && request.subject.id == w.s.id
    requires Retriable(w.s, key, request)
    modifies w
    ensures w.Valid() && old(w.history) <= w.history && out != Crash && old(w.history) != []
    ensures
      || (out == Ok && MadeUnder(w.s, key, request) && w.s.record.value.status == Stopped)
      || (WasStray(w.history, |old(w.history)| - 1, request.toolchains.overlays)
          && request.toolchains.overlays != [] && w.crashes < old(w.crashes))
  {
    hide Chain, Good, Made, Completed, Stray, Adrift, Hopeful, MadeUnder, WasStray;
    HopefulNotStray(w.s, request);
    HasHistory(w);
    ghost var from, lost := |w.history| - 1, false;
    out := Crash;
    while out == Crash
      invariant w.Valid() && old(w.history) <= w.history && w.s.acting.None? && w.s.id == old(w.s).id
      invariant w.crashes <= old(w.crashes)
      invariant lost ==>
        && WasStray(w.history, from, request.toolchains.overlays)
        && request.toolchains.overlays != [] && w.crashes < old(w.crashes)
      invariant !lost ==> if Concluded(w.s, key) then MadeUnder(w.s, key, request) && Bindable(w.s, key, CreateInput(request))
        else Retriable(w.s, key, request) && out == Crash
      invariant !lost ==> out != Fail
      decreases w.crashes, out == Crash
    {
      ghost var before := w.history;
      var r;
      out, r := Create(w, key, request);
      StillStray(before, w.history, from, request.toolchains.overlays);
      AdriftNow(w.s, key, request);
      if !lost && Stray(w.s, request.toolchains.overlays) {
        StrayNow(w, from, request.toolchains.overlays);
        lost := true;
      }
    }
    AdriftNow(w.s, key, request);
  }

  /** The creating key is not concluded, and nothing stands against a first creation. */
  predicate First(s: State, key: Key, request: CreateRequest) {
    Undisturbed(s, request) && !Concluded(s, key) && Bindable(s, key, CreateInput(request))
  }
}
