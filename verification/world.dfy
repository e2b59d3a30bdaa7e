/** Everything one workspace touches outside the process: its durable files, the container
    engine, the mount table, the host service's leases. Each method of `World` is one atomic
    step that may succeed, fail without effect, or be the last thing the process does. */
module Worlds {
  import opened Options
  import opened Store

  // ---------- Plans and operation inputs ----------

  datatype Overlay = Overlay(target: string, merged: string, fallback: string)

  datatype BindMount = BindMount(source: string, target: string)

  datatype Toolchains = Toolchains(overlays: seq<Overlay>, mounts: seq<BindMount>, fallbacks: seq<string>)

  datatype SetupMode = Once | Always | Manual | Unknown

  datatype Plan = Plan(
    schema: nat, subject: Subject, nonce: Nonce, toolchains: Toolchains,
    integrations: set<LeaseKind>, settings: string, setup: SetupMode)

  /** `WorkspacePlanSchemaVersion`. */
  const PLAN_SCHEMA := 2

  /** The bootstrap API this build of the program supports. */
  const BOOTSTRAP_API := "v1alpha1"

  datatype CreateRequest = CreateRequest(
    subject: Subject, authorizedKey: string, toolchains: Toolchains, requireCOW: bool,
    integrations: set<LeaseKind>, settings: string, setup: SetupMode)

  datatype Command = Start | Stop(timeout: nat) | Restart(timeout: nat) | Rotate | Remove | Recover

  /** Operation name and body digest in one: digests are taken to be injective. */
  datatype Input = CreateInput(request: CreateRequest) | CommandInput(command: Command)

  // ---------- The container engine ----------

  datatype Labels = Labels(ownerUID: nat, workspace: string, manifest: string, nonce: Nonce)

  datatype Container = Container(name: string, labels: Labels, running: bool)

  function LabelsFor(subject: Subject, nonce: Nonce): Labels {
    Labels(subject.ownerUID, subject.id, subject.manifest, nonce)
  }

  function ContainerName(id: string): string {
    "cohotfs-" + id
  }

  /** `validateRuntimeIdentity`: the four labels of the container are those of the record. */
  predicate Matches(record: Record, container: Container) {
    record.ref.Some? && container.labels == LabelsFor(record.subject, record.ref.value.nonce)
  }

  // ---------- The host service, as one workspace sees it ----------

  /** The idempotency key is `nonce:kind`; the digest covers the whole request. */
  datatype LeaseRequest = LeaseRequest(nonce: Nonce, kind: LeaseKind, parameters: string)

  predicate SameKey(a: LeaseRequest, b: LeaseRequest) {
    a.nonce == b.nonce && a.kind == b.kind
  }

  // ---------- The state ----------

  /** What the calls of a setup have come to: a command succeeded in the running container; the save of
      Ready after it failed; the container was stopped then; and Ready was saved all the same. Any
      other save, and any start of the container, goes back to Plain. */
  datatype Trail = Plain | Ran | Missed | Halted | Lost

  predicate Down(trail: Trail) {
    trail == Halted || trail == Lost
  }

  /** The SSH host key of the workspace: the files that its system directory keeps between starts, and
      what the running container shows, which is what the files were when it started. `minted` is a
      history variable: every key that was ever generated. */
  datatype HostKeys = HostKeys(file: Option<Fingerprint>, shown: Fingerprint, minted: set<Fingerprint>)

  /** Some fields are history variables that the program does not have: `born` holds the containers
      created or adopted since the current record was first written; `removing` says that removal of
      that record has begun; `stale` says that plan.json was deleted under a record that is being
      created; `trail` follows the calls of a setup, and `runs` counts the setup commands that succeeded;
      `cleaned` says that the operation in progress deleted the pinned host key. `acting` is the journal
      key in whose name the program acts. */
  datatype State = State(
    id: string,
    record: Option<Record>,
    plan: Option<Plan>,
    journal: map<Key, Operation<Input>>,
    acting: Option<Key>,
    containers: map<ContainerId, Container>,
    born: set<ContainerId>,
    removing: bool,
    stale: bool,
    trail: Trail,
    runs: nat,
    cleaned: bool,
    host: map<LeaseId, LeaseRequest>,
    mounts: map<string, MountId>,
    knownHosts: Option<Fingerprint>,
    keys: HostKeys,
    runTree: bool,
    dataTree: bool,
    nextId: nat)

  // ---------- What holds in every state, crash points included ----------

  ghost predicate UniqueNames(containers: map<ContainerId, Container>) {
    forall a, b :: a in containers && b in containers && containers[a].name == containers[b].name ==> a == b
  }

  // Engine, kernel and host IDs are never reused.
  ghost predicate Bounded(s: State) {
    && (forall c :: c in s.containers ==> c < s.nextId)
    && (forall c :: c in s.born ==> c < s.nextId)
    && (forall p :: p in s.mounts ==> s.mounts[p] < s.nextId)
    && (forall l :: l in s.host ==> l < s.nextId)
  }

  ghost predicate OwnNames(s: State) {
    forall c :: c in s.born && c in s.containers ==> s.containers[c].name == ContainerName(s.id)
  }

  /** Write-ahead intent: a container of this workspace runs only under a recorded status
      other than Creating and Stopped. */
  ghost predicate IntentFirst(s: State, r: Record) {
    forall c :: c in s.born && c in s.containers && s.containers[c].running ==>
      r.status != Creating && r.status != Stopped && !Down(s.trail)
  }

  /** A record is Ready over a container that does not run only at the end of that trail. */
  ghost predicate ReadyRuns(s: State, r: Record) {
    && (s.trail == Lost ==> r.status == Ready)
    && (r.status == Ready && r.ref.Some? && r.ref.value.container in s.containers ==>
          s.containers[r.ref.value.container].running || s.trail == Lost)
  }

  /** Every status between a finished creation and removal has its own container behind it. */
  ghost predicate Anchored(s: State, r: Record) {
    r.status in {Starting, Setup, Ready, SetupFailed, Stopping, Stopped} ==>
      && r.ref.Some?
      && r.ref.value.container in s.containers
      && Matches(r, s.containers[r.ref.value.container])
  }

  /** The container that the record names was made for it, and if it still exists carries its labels. */
  ghost predicate OwnReference(s: State, r: Record) {
    r.ref.Some? ==>
      && r.ref.value.container in s.born
      && (r.ref.value.container in s.containers ==> Matches(r, s.containers[r.ref.value.container]))
  }

  /** While creation is pending, every container made for it carries the labels of plan.json. */
  ghost predicate Nursery(s: State, r: Record) {
    r.status == Creating && !s.stale ==>
      forall c :: c in s.born && c in s.containers ==>
        s.plan.Some? && s.containers[c].labels == LabelsFor(s.plan.value.subject, s.plan.value.nonce)
  }

  ghost predicate SocketsBooked(r: Record) {
    && |r.LiveOf(SshSocket)| <= 1
    && (r.status in {Stopped, Creating} ==> r.LiveOf(SshSocket) == [])
  }

  /** The fingerprint and the known-hosts entry go together until removal begins. */
  ghost predicate HostKeyBooked(removing: bool, r: Record) {
    && |r.LiveOf(KnownHosts)| <= 1
    && (r.LiveOf(KnownHosts) != [] ==> r.fingerprint.Some?)
    && (!removing && r.fingerprint.Some? ==> r.LiveOf(KnownHosts) != [])
  }

  ghost predicate KeysMinted(keys: HostKeys) {
    keys.shown in keys.minted && (keys.file.Some? ==> keys.file.value in keys.minted)
  }

  /** A pinned key is one that a container showed. */
  ghost predicate PinMinted(s: State, r: Record) {
    r.fingerprint.Some? ==> r.fingerprint.value in s.keys.minted
  }

  /** No lease is recorded twice without having been released in between. */
  ghost predicate LeasesDistinct(resources: seq<Resource>) {
    forall i, j :: 0 <= i < j < |resources| && resources[i].Active(HostLease) && resources[j].Active(HostLease) ==>
      resources[i].identity.lease != resources[j].identity.lease
  }

  ghost predicate NoLeases(resources: seq<Resource>) {
    forall i :: 0 <= i < |resources| ==> !resources[i].Active(HostLease)
  }

  /** The key that creates the workspace is bound to a creation. */
  predicate Bound(s: State) {
    s.id in s.journal && s.journal[s.id].input.CreateInput?
  }

  /** The integrations of the workspace, as the creating key binds them. */
  function Kinds(s: State): set<LeaseKind> {
    if Bound(s) then s.journal[s.id].input.request.integrations else {}
  }

  /** A workspace without integrations records no lease. */
  ghost predicate LeasesFit(s: State, r: Record) {
    Kinds(s) == {} ==> NoLeases(r.resources)
  }

  /** Plan and host know the integrations of the workspace and no others. */
  ghost predicate KindsFit(s: State) {
    && (s.plan.Some? ==> Bound(s) && s.plan.value.integrations == Kinds(s))
    && (forall l :: l in s.host ==> s.host[l].kind in Kinds(s))
  }

  ghost predicate GoodRecord(s: State, r: Record) {
    && r.subject.id == s.id
    && OwnReference(s, r)
    && (r.status == Removing ==> s.removing)
    && (s.removing ==> r.status != Creating)
    && IntentFirst(s, r)
    && Anchored(s, r)
    && Nursery(s, r)
    && SocketsBooked(r)
    && HostKeyBooked(s.removing, r)
    && PinMinted(s, r)
    && (r.status == Creating ==> r.fingerprint.None?)
    && LeasesDistinct(r.resources)
    && LeasesFit(s, r)
    && ReadyRuns(s, r)
  }

  /** A lease listens on the one socket its kind has in the workspace's run directory. */
  ghost predicate SocketsExclusive(host: map<LeaseId, LeaseRequest>) {
    forall a, b :: a in host && b in host && host[a].kind == host[b].kind ==> a == b
  }

  ghost predicate Good(s: State) {
    && UniqueNames(s.containers)
    && SocketsExclusive(s.host)
    && Bounded(s)
    && OwnNames(s)
    && KindsFit(s)
    && KeysMinted(s.keys)
    && (s.cleaned ==> s.acting.Some?)
    && (s.record.Some? ==> GoodRecord(s, s.record.value))
  }

  // ---------- What holds between consecutive states ----------

  /** The durable files identify container `c` as this workspace's: all four labels are those of
      the record, with the nonce of its container reference or of plan.json. */
  ghost predicate Identified(s: State, c: ContainerId)
    requires c in s.containers
  {
    && s.record.Some?
    && (var labels, record := s.containers[c].labels, s.record.value;
        || Matches(record, s.containers[c])
        || (s.plan.Some? && labels == LabelsFor(record.subject, s.plan.value.nonce)))
  }

  /** No step starts, stops or deletes a container the durable files do not identify,
      and none changes a name or a label. */
  ghost predicate ContainersGuarded(s: State, t: State) {
    forall c :: c in s.containers ==>
      || (c in t.containers && t.containers[c] == s.containers[c])
      || (&& Identified(s, c)
          && (c in t.containers ==> t.containers[c] == s.containers[c].(running := t.containers[c].running)))
  }

  /** The operation in progress may act: it has no journal entry, or its entry is running. */
  ghost predicate MayAct(s: State) {
    s.acting.Some? ==> s.acting.value in s.journal && s.journal[s.acting.value].phase == Running
  }

  /** The input of a key that ends by deleting the files of the workspace. */
  predicate Forgetful(input: Input) {
    input.CommandInput? && (input.command.Remove? || input.command.Recover?)
  }

  /** A removal that is over, and may delete the files that described the workspace. */
  ghost predicate MayForget(s: State) {
    && s.acting.Some? && s.acting.value in s.journal
    && s.journal[s.acting.value].phase == Succeeded && Forgetful(s.journal[s.acting.value].input)
  }

  /** Nothing changed but that workspace.json or plan.json may be gone. */
  ghost predicate Forgets(s: State, t: State) {
    && t == s.(record := t.record, plan := t.plan, stale := t.stale)
    && t.record in {s.record, None} && t.plan in {s.plan, None}
  }

  /** A step in the name of a key that changes anything but the journal is taken while the entry of
      that key is running; or the key is that of a finished removal, and the step deletes a file. */
  ghost predicate EffectJournalled(s: State, t: State) {
    t.(journal := s.journal, acting := s.acting, cleaned := s.cleaned) != s ==>
      MayAct(s) || (MayForget(s) && Forgets(s, t))
  }

  /** plan.json disappears from under a creation only in the name of a finished removal. */
  ghost predicate StaleByForgetting(s: State, t: State) {
    t.stale && !s.stale ==> MayForget(s) && Bereaves(s) && t == s.(plan := None, stale := true)
  }

  /** A new container has the labels of the plan that is saved at that moment. */
  ghost predicate Births(s: State, t: State) {
    forall c :: c in t.containers && c !in s.containers ==>
      s.plan.Some? && t.containers[c].labels == LabelsFor(s.plan.value.subject, s.plan.value.nonce)
  }

  /** The host key files may be gone; no key was generated. */
  predicate KeysOrNone(before: HostKeys, after: HostKeys) {
    after == before || after == before.(file := None)
  }

  /** A host key that is not in the files any more never comes back to them. */
  ghost predicate KeysFresh(before: HostKeys, after: HostKeys) {
    && before.minted <= after.minted
    && (after.file in {before.file, None} || after.file.value !in before.minted)
  }

  /** The operation in progress is a rotation of the host key. */
  predicate Rotating(s: State) {
    s.acting.Some? && s.acting.value in s.journal && s.journal[s.acting.value].input == CommandInput(Rotate)
  }

  /** The pinned key of the saved record is dropped in the name of a rotation. */
  ghost predicate Unpins(s: State, t: State) {
    && Rotating(s) && s.record.Some? && s.record.value.fingerprint.Some?
    && t.record.Some? && t.record.value.fingerprint.None?
  }

  /** The container that the saved record names exists. */
  predicate Named(s: State) {
    s.record.Some? && s.record.value.ref.Some? && s.record.value.ref.value.container in s.containers
  }

  /** A pinned host key stays in the saved record until a rotation drops it or the record is deleted in
      the name of a finished removal; and the container goes only in an operation that has cleaned it. */
  ghost predicate PinKept(s: State, t: State) {
    s.record.Some? && s.record.value.fingerprint.Some? ==>
      && (t.record.None? ==> MayForget(s))
      && (t.record.Some? ==>
            && t.record.value.ref == s.record.value.ref
            && (t.record.value.fingerprint == s.record.value.fingerprint || Unpins(s, t)))
      && (Named(s) && s.record.value.ref.value.container !in t.containers ==> s.cleaned)
  }

  /** An operation has cleaned when it deleted files that held the pinned key. */
  ghost predicate CleanedMoves(s: State, t: State) {
    t.cleaned ==>
      || s.cleaned
      || (s.record.Some? && (s.record.value.fingerprint.Some? ==> s.keys.file == s.record.value.fingerprint))
  }

  /** No container starts. */
  ghost predicate NoStart(s: State, t: State) {
    forall c :: c in t.containers && t.containers[c].running ==> c in s.containers && s.containers[c].running
  }

  /** Nothing is saved but Ready again over a container that was stopped, and no container starts. */
  ghost predicate Undisturbed(s: State, t: State) {
    && NoStart(s, t)
    && (t.record in {s.record, None} || (s.trail == Lost && s.record.Some? && t.record.Some? && t.record.value.status == Ready))
  }

  /** Each move along the trail is the call it stands for; a mark stays while nothing else is saved and no
      container starts. */
  ghost predicate TrailMoves(s: State, t: State) {
    SetupSucceeds(s, t) || (t.runs == s.runs && Marks(s, t))
  }

  /** A setup command succeeds, in the container of the saved record. */
  ghost predicate SetupSucceeds(s: State, t: State) {
    t == s.(trail := Ran, runs := s.runs + 1) && SavedRuns(s)
  }

  ghost predicate Marks(s: State, t: State) {
    || (t.trail == s.trail && Undisturbed(s, t))
    || t.trail == Plain
    || (t.trail == Missed && s.trail == Ran && t == s.(trail := Missed))
    || (t.trail == Halted && s.trail == Missed && t == s.(trail := Halted, containers := t.containers) && !SavedRuns(t)
          && NoStart(s, t))
    || (t.trail == Lost && s.trail == Halted && t == s.(trail := Lost, record := t.record)
          && s.record.Some? && t.record.Some? && t.record.value.status == Ready)
  }

  /** The container of the saved record runs. */
  predicate SavedRuns(s: State) {
    s.record.Some? && Runs(s, s.record.value)
  }

  predicate Runs(s: State, r: Record) {
    r.ref.Some? && r.ref.value.container in s.containers && s.containers[r.ref.value.container].running
  }

  /** A workspace ID is the digest of the key that created the workspace. Digests are taken to be
      injective, so key and ID are one here: no other operation brings a record into being. */
  ghost predicate BornOfItsKey(s: State, t: State) {
    s.record.None? && t.record.Some? ==> s.acting == Some(s.id)
  }

  ghost predicate Step(s: State, t: State) {
    && t.id == s.id
    && BornOfItsKey(s, t)
    && JournalGrows(s.journal, t.journal)
    && ContainersGuarded(s, t)
    && EffectJournalled(s, t)
    && StaleByForgetting(s, t)
    && Births(s, t)
    && KeysFresh(s.keys, t.keys)
    && TrailMoves(s, t)
    && PinKept(s, t)
    && CleanedMoves(s, t)
  }

  /** A history: every state is good, and every step between neighbours is allowed. */
  ghost predicate Chain(history: seq<State>) {
    && history != []
    && Good(history[|history| - 1])
    && (|history| > 1 ==>
          && Chain(history[..|history| - 1])
          && Step(history[|history| - 2], history[|history| - 1]))
  }

  function Last(history: seq<State>): State
    requires history != []
  {
    history[|history| - 1]
  }

  lemma {:induction false} ChainPrefix(history: seq<State>, n: nat)
    requires Chain(history) && 0 < n <= |history|
    ensures Chain(history[..n])
  {
    if n == |history| {
      assert history[..n] == history;
    } else {
      ChainPrefix(history[..|history| - 1], n);
      assert history[..|history| - 1][..n] == history[..n];
    }
  }

  lemma {:induction false} ChainAt(history: seq<State>, i: nat)
    requires Chain(history) && i < |history|
    ensures Good(history[i])
    ensures i > 0 ==> Step(history[i - 1], history[i])
  {
    ChainPrefix(history, i + 1);
  }

  /** The state after `SaveWorkspace(r)`. */
  function Saved(s: State, r: Record): State {
    s.(record := Some(r), removing := s.removing || r.status == Removing,
       trail := if r.status == Ready && Down(s.trail) then Lost else Plain)
  }

  /** The state after that save failed. */
  function Unsaved(s: State, r: Record): State {
    if r.status == Ready && s.trail == Ran then s.(trail := Missed) else s
  }

  /** A copy of the record in memory has the pinned key of the saved one, unless a rotation dropped it. */
  ghost predicate PinCarried(s: State, r: Record) {
    s.record.Some? && s.record.value.fingerprint.Some? ==>
      && r.ref == s.record.value.ref
      && (r.fingerprint == s.record.value.fingerprint || (r.fingerprint.None? && Rotating(s)))
  }

  /** The in-memory record may be saved now: that would leave a good state. */
  ghost predicate Savable(s: State, r: Record) {
    && s.record.Some?
    && s.record.value.subject == r.subject
    && PinCarried(s, r)
    && GoodRecord(Saved(s, r), r)
  }

  // ---------- Each kind of step extends a history ----------

  lemma Extend(history: seq<State>, t: State)
    requires Chain(history) && Good(t) && Step(Last(history), t)
    ensures Chain(history + [t])
  {
    assert (history + [t])[..|history|] == history;
  }

  predicate NameTaken(s: State) {
    exists c :: c in s.containers && s.containers[c].name == ContainerName(s.id)
  }

  lemma BirthStep(history: seq<State>, s: State, labels: Labels)
    requires Chain(history) && s == Last(history) && MayAct(s)
    requires s.record.Some? && s.record.value.status == Creating
    requires s.plan.Some? && labels == LabelsFor(s.plan.value.subject, s.plan.value.nonce)
    requires !NameTaken(s)
    ensures Chain(history + [WithContainer(s, labels)])
    ensures s.nextId !in s.containers
  {
    BirthGood(s, labels);
    hide Good;
    Extend(history, WithContainer(s, labels));
  }

  lemma BirthGood(s: State, labels: Labels)
    requires Good(s) && s.record.Some? && s.record.value.status == Creating && !NameTaken(s)
    requires s.plan.Some? && labels == LabelsFor(s.plan.value.subject, s.plan.value.nonce)
    ensures Good(WithContainer(s, labels)) && s.nextId !in s.containers
  {
    var t := WithContainer(s, labels);
    assert forall c :: c in t.containers ==> c == s.nextId || (c in s.containers && t.containers[c] == s.containers[c]);
    assert GoodRecord(t, s.record.value);
  }

  lemma AdoptStep(history: seq<State>, s: State, c: ContainerId)
    requires Chain(history) && s == Last(history) && MayAct(s)
    requires c in s.containers && s.containers[c].name == ContainerName(s.id) && !s.containers[c].running
    requires s.record.Some? && s.record.value.status == Creating
    requires s.plan.Some? && s.containers[c].labels == LabelsFor(s.plan.value.subject, s.plan.value.nonce)
    ensures Chain(history + [s.(born := s.born + {c})])
  {
    assert GoodRecord(s.(born := s.born + {c}), s.record.value);
    Extend(history, s.(born := s.born + {c}));
  }

  /** Starting or stopping the container of the record keeps everything but what is said of what runs. */
  lemma RunningGood(s: State, t: State, c: ContainerId, running: bool)
    requires Good(s) && s.record.Some? && c in s.containers && Identified(s, c)
    requires t == s.(containers := s.containers[c := s.containers[c].(running := running)], trail := t.trail, keys := t.keys)
    requires KeysMinted(t.keys) && s.keys.minted <= t.keys.minted
    requires IntentFirst(t, t.record.value) && ReadyRuns(t, t.record.value)
    ensures Good(t) && ContainersGuarded(s, t) && Births(s, t)
  {
    hide LeasesDistinct, SocketsBooked, HostKeyBooked, NoLeases, IntentFirst, ReadyRuns, SocketsExclusive;
    OnlyRunning(s, t, c, running);
    hide Anchored, OwnReference, Nursery;
    assert GoodRecord(t, t.record.value);
  }

  lemma OnlyRunning(s: State, t: State, c: ContainerId, running: bool)
    requires c in s.containers && s.record.Some?
    requires t == s.(containers := s.containers[c := s.containers[c].(running := running)], trail := t.trail, keys := t.keys)
    ensures forall a :: a in t.containers <==> a in s.containers
    ensures forall a :: a in s.containers ==>
      && t.containers[a].name == s.containers[a].name && t.containers[a].labels == s.containers[a].labels
      && (a != c ==> t.containers[a] == s.containers[a])
    ensures Anchored(s, s.record.value) ==> Anchored(t, s.record.value)
    ensures OwnReference(s, s.record.value) ==> OwnReference(t, s.record.value)
    ensures Nursery(s, s.record.value) ==> Nursery(t, s.record.value)
  {
  }

  lemma StartStep(history: seq<State>, s: State, c: ContainerId, key: Fingerprint)
    requires Chain(history) && s == Last(history) && MayAct(s)
    requires s.record.Some? && s.record.value.ref.Some? && s.record.value.ref.value.container == c
    requires c in s.containers && Identified(s, c)
    requires s.record.value.status != Creating && s.record.value.status != Stopped && key !in s.keys.minted
    ensures Chain(history + [WithStarted(s, c, key)])
  {
    var t := WithStarted(s, c, key);
    RunningGood(s, t, c, true);
    hide Good;
    Extend(history, t);
  }

  lemma StoppedIntent(s: State, t: State, c: ContainerId)
    requires Good(s) && s.record.Some? && s.record.value.ref.Some? && s.record.value.ref.value.container == c
    requires c in s.containers && t == WithStopped(s, c)
    ensures IntentFirst(t, t.record.value)
  {
    forall d | d in t.born && d in t.containers ensures !t.containers[d].running {
      assert s.containers[d].name == s.containers[c].name;
    }
  }

  lemma StopStep(history: seq<State>, s: State, c: ContainerId)
    requires Chain(history) && s == Last(history) && MayAct(s)
    requires s.record.Some? && s.record.value.ref.Some? && s.record.value.ref.value.container == c
    requires c in s.containers ==> Identified(s, c)
    requires s.record.value.status == Ready ==> s.trail == Lost
    ensures Chain(history + [WithStopped(s, c)])
  {
    hide Good, GoodRecord, Identified, ContainersGuarded, Births, MayForget;
    StopGood(s, c);
    Extend(history, WithStopped(s, c));
  }

  lemma StopGood(s: State, c: ContainerId)
    requires Good(s) && s.record.Some? && s.record.value.ref.Some? && s.record.value.ref.value.container == c
    requires c in s.containers ==> Identified(s, c)
    requires s.record.value.status == Ready ==> s.trail == Lost
    ensures Good(WithStopped(s, c)) && ContainersGuarded(s, WithStopped(s, c)) && Births(s, WithStopped(s, c))
  {
    var t := WithStopped(s, c);
    if c in s.containers {
      StoppedIntent(s, t, c);
      RunningGood(s, t, c, false);
    }
  }

  /** A container whose host key is pinned goes only in an operation that has cleaned it. */
  predicate MayDelete(s: State, c: ContainerId) {
    Named(s) && s.record.value.fingerprint.Some? && s.record.value.ref.value.container == c ==> s.cleaned
  }

  lemma DeathStep(history: seq<State>, s: State, c: ContainerId)
    requires Chain(history) && s == Last(history) && MayAct(s)
    requires c in s.containers ==> Identified(s, c)
    requires s.record.Some? && s.record.value.status in {Creating, Removing}
    requires MayDelete(s, c)
    ensures Chain(history + [WithoutContainer(s, c)])
  {
    DeathGood(s, c);
    hide Good;
    Extend(history, WithoutContainer(s, c));
  }

  lemma DeathGood(s: State, c: ContainerId)
    requires Good(s) && s.record.Some? && s.record.value.status in {Creating, Removing}
    ensures Good(WithoutContainer(s, c))
  {
    var t := WithoutContainer(s, c);
    assert forall a :: a in t.containers ==> a in s.containers && t.containers[a] == s.containers[a];
    assert GoodRecord(t, t.record.value);
  }

  /** A step outside the engine, the record and the plan. */
  lemma QuietStep(history: seq<State>, s: State, t: State)
    requires Chain(history) && s == Last(history)
    requires t == s.(journal := t.journal, acting := t.acting, cleaned := t.cleaned, host := t.host, mounts := t.mounts, keys := t.keys,
                     knownHosts := t.knownHosts, runTree := t.runTree, dataTree := t.dataTree, nextId := t.nextId)
    requires JournalGrows(s.journal, t.journal) && Bounded(t) && SocketsExclusive(t.host)
    requires forall l :: l in t.host ==> (l in s.host && t.host[l] == s.host[l]) || t.host[l].kind in Kinds(s)
    requires KeysOrNone(s.keys, t.keys) && StaysClean(s, t)
    requires MayAct(s) || t == s.(journal := t.journal, acting := t.acting, cleaned := t.cleaned)
    ensures Chain(history + [t])
  {
    if s.record.Some? {
      assert GoodRecord(t, s.record.value);
    }
    Extend(history, t);
  }

  lemma MountStep(history: seq<State>, s: State, point: string)
    requires Chain(history) && s == Last(history) && MayAct(s)
    ensures Chain(history + [WithMount(s, point)])
  {
    QuietStep(history, s, WithMount(s, point));
  }

  lemma UnmountStep(history: seq<State>, s: State, point: string)
    requires Chain(history) && s == Last(history) && MayAct(s)
    ensures Chain(history + [s.(mounts := s.mounts - {point})])
  {
    QuietStep(history, s, s.(mounts := s.mounts - {point}));
  }

  lemma LeaseStep(history: seq<State>, s: State, request: LeaseRequest)
    requires Chain(history) && s == Last(history) && MayAct(s)
    requires request.kind in Kinds(s)
    requires forall l :: l in s.host ==> s.host[l].kind != request.kind
    ensures Chain(history + [WithLease(s, request)]) && s.nextId !in s.host
  {
    QuietStep(history, s, WithLease(s, request));
  }

  lemma UnleaseStep(history: seq<State>, s: State, leases: set<LeaseId>)
    requires Chain(history) && s == Last(history) && MayAct(s)
    ensures Chain(history + [s.(host := s.host - leases)])
  {
    QuietStep(history, s, s.(host := s.host - leases));
  }

  /** Nothing was cleaned, or in the name of the same operation, or the pinned key is in the files. */
  ghost predicate StaysClean(s: State, t: State) {
    t.cleaned ==> (s.cleaned && t.acting == s.acting) || (t.acting.Some? && CleanedMoves(s, t))
  }

  /** Files outside the engine's reach, the journal, and whose turn it is. */
  lemma FileStep(history: seq<State>, s: State, t: State)
    requires Chain(history) && s == Last(history)
    requires t == s.(journal := t.journal, acting := t.acting, cleaned := t.cleaned, knownHosts := t.knownHosts, keys := t.keys,
                     runTree := t.runTree, dataTree := t.dataTree)
    requires JournalGrows(s.journal, t.journal) && KeysOrNone(s.keys, t.keys)
    requires StaysClean(s, t)
    requires MayAct(s) || t == s.(journal := t.journal, acting := t.acting, cleaned := t.cleaned)
    ensures Chain(history + [t])
  {
    QuietStep(history, s, t);
  }

  lemma CleanStep(history: seq<State>, s: State, expected: Option<Fingerprint>)
    requires Chain(history) && s == Last(history) && MayAct(s) && expected in {None, s.keys.file}
    requires expected.Some? ==> s.acting.Some? && s.record.Some? && s.record.value.fingerprint in {None, expected}
    ensures Chain(history + [WithoutKey(s, expected)])
  {
    FileStep(history, s, WithoutKey(s, expected));
  }

  lemma PlanStep(history: seq<State>, s: State, plan: Plan)
    requires Chain(history) && s == Last(history) && MayAct(s)
    requires s.record.Some? ==> Nursery(s.(plan := Some(plan)), s.record.value)
    requires Bound(s) && plan.integrations == Kinds(s)
    ensures Chain(history + [s.(plan := Some(plan))])
  {
    var t := s.(plan := Some(plan));
    if s.record.Some? {
      assert GoodRecord(t, s.record.value);
    }
    Extend(history, t);
  }

  lemma PlanGoneStep(history: seq<State>, s: State)
    requires Chain(history) && s == Last(history) && MayForget(s)
    ensures Chain(history + [WithoutPlan(s)])
  {
    PlanGoneGood(s);
    hide Good;
    Extend(history, WithoutPlan(s));
  }

  lemma PlanGoneGood(s: State)
    requires Good(s)
    ensures Good(WithoutPlan(s))
  {
    if s.record.Some? {
      assert GoodRecord(WithoutPlan(s), s.record.value);
    }
  }

  lemma RanStep(history: seq<State>, s: State)
    requires Chain(history) && s == Last(history) && MayAct(s) && SavedRuns(s)
    ensures Chain(history + [s.(trail := Ran, runs := s.runs + 1)])
  {
    hide Good, Marks, GoodRecord, MayForget, Identified;
    RanGood(s);
    Extend(history, s.(trail := Ran, runs := s.runs + 1));
  }

  lemma RanGood(s: State)
    requires Good(s) && SavedRuns(s)
    ensures Good(s.(trail := Ran, runs := s.runs + 1))
  {
    assert GoodRecord(s.(trail := Ran, runs := s.runs + 1), s.record.value);
  }

  lemma MissStep(history: seq<State>, s: State)
    requires Chain(history) && s == Last(history) && MayAct(s) && s.trail == Ran
    ensures Chain(history + [s.(trail := Missed)])
  {
    var t := s.(trail := Missed);
    if s.record.Some? {
      assert GoodRecord(t, s.record.value);
    }
    Extend(history, t);
  }

  lemma SavedFrame(s: State, r: Record)
    ensures Saved(s, r) == s.(record := Some(r), removing := s.removing || r.status == Removing, trail := Saved(s, r).trail)
    ensures Unsaved(s, r) == s.(trail := Unsaved(s, r).trail)
  {
  }

  lemma SaveStep(history: seq<State>, s: State, r: Record)
    requires Chain(history) && s == Last(history) && MayAct(s) && Savable(s, r)
    ensures Chain(history + [Saved(s, r)])
  {
    Extend(history, Saved(s, r));
  }

  lemma NewStep(history: seq<State>, s: State, r: Record)
    requires Chain(history) && s == Last(history) && MayAct(s)
    requires s.acting == Some(s.id)
    requires s.record.None? && r.subject.id == s.id && r.status == Creating && r.ref.None?
    requires r.resources == [] && r.fingerprint.None?
    ensures Chain(history + [WithNew(s, r)])
  {
    assert GoodRecord(WithNew(s, r), r);
    Extend(history, WithNew(s, r));
  }

  lemma ForgetStep(history: seq<State>, s: State)
    requires Chain(history) && s == Last(history) && MayForget(s)
    ensures Chain(history + [s.(record := None)])
  {
    Extend(history, s.(record := None));
  }

  /** One thing that is bound to go wrong in a world where nothing else does. It is among what may
      happen in any world, and serves to show that some runs exist. */
  datatype Mishap =
    | NoMishap
    | DiesAfterFirstSave    // the process dies right after the first save of a record
    | DiesAfterContainer    // and right after the engine made a container
    | LosesReady            // a save of a Ready record fails
    | DiesAfterKeys         // the process dies right after the host key was deleted
    | DiesAfterMount        // or right after an overlay was mounted

  class World {
    var s: State
    ghost var history: seq<State>
    var crashes: nat       // how often the process may still die
    const reliable: bool   // no call returns an error
    const calm: bool       // nothing goes wrong but the mishap
    var mishap: Mishap     // that is still to come

    ghost predicate Valid()
      reads this
    {
      Chain(history) && s == Last(history)
    }

    lemma GoodNow()
      requires Valid()
      ensures Good(s)
    {
    }

    /** What every step and every operation keeps: the history only grew, it still satisfies
        every invariant, and a crash used up one of the finitely many. */
    twostate predicate Went(out: Outcome)
      reads this
    {
      && Valid()
      && old(history) <= history
      && crashes <= old(crashes)
      && (out == Crash ==> crashes < old(crashes))
      && (old(mishap) == NoMishap ==> mishap == NoMishap)
      && s.id == old(s.id)
    }

    /** A call, or an operation, to which nothing happens in a calm world. */
    twostate predicate Smooth(out: Outcome)
      reads this
    {
      calm ==> out == Ok && mishap == old(mishap) && crashes == old(crashes)
    }

    /** The mishap struck: the process died over this state. */
    twostate predicate DiedAt(out: Outcome, t: State)
      reads this
    {
      out == Crash && s == t && mishap == NoMishap && crashes == old(crashes) - 1
    }

    constructor (initial: State, crashes: nat, reliable: bool, calm: bool, mishap: Mishap)
      requires Good(initial)
      ensures Valid() && s == initial && history == [initial]
      ensures this.crashes == crashes && this.reliable == reliable && this.calm == calm && this.mishap == mishap
    {
      this.s := initial;
      this.history := [initial];
      this.crashes, this.reliable := crashes, reliable;
      this.calm, this.mishap := calm, mishap;
      new;
      assert Chain([initial]);
    }

    /** One atomic change of state. */
    method Advance(t: State)
      requires Valid()
      requires Chain(history + [t])
      modifies this`s, this`history
      ensures Valid() && s == t && history == old(history) + [t]
    {
      hide Chain;
      s := t;
      history := history + [t];
    }

    /** How the next call ends, and whether it had its effect: a failed call had none. */
    method Fate() returns (out: Outcome, effect: bool)
      modifies this`crashes
      ensures crashes <= old(crashes)
      ensures out == Crash ==> crashes < old(crashes)
      ensures out == Ok ==> effect
      ensures out == Fail ==> !effect && !reliable
      ensures calm ==> out == Ok && crashes == old(crashes)
    {
      var dies: bool := *;
      var fails: bool := *;
      if dies && crashes > 0 && !calm {
        out := Crash;
        effect := *;
        crashes := crashes - 1;
      } else if fails && !reliable && !calm {
        out, effect := Fail, false;
      } else {
        out, effect := Ok, true;
      }
    }

    /** One call whose effect is the step to `t`. */
    method Perform(t: State) returns (out: Outcome)
      requires Valid() && t.id == s.id
      requires Chain(history + [t])
      modifies this`s, this`history, this`crashes
      ensures Went(out) && Smooth(out)
      ensures out == Ok ==> s == t
      ensures out == Fail ==> s == old(s) && !reliable
      ensures out == Crash ==> s == t || s == old(s)
    {
      hide Chain;
      var effect;
      out, effect := Fate();
      if effect {
        Advance(t);
      }
    }

    /** A call that changes nothing the model keeps: reading a file, running a probe, checking the
        reserved masks. */
    method Try() returns (out: Outcome)
      requires Valid()
      modifies this`crashes
      ensures Went(out) && Smooth(out)
      ensures reliable ==> out != Fail
    {
      hide Chain;
      var effect;
      out, effect := Fate();
    }

    /** A call the other side refuses. */
    method Refuse() returns (out: Outcome)
      requires Valid()
      modifies this`crashes
      ensures Went(out) && out != Ok
    {
      hide Chain;
      out := Try();
      out := if out == Ok then Fail else out;
    }

    // ---------- Durable files ----------

    /** A failure of the save after a successful setup command leaves its mark on the trail. */
    method SaveRecord(r: Record) returns (out: Outcome)
      requires Valid() && MayAct(s)
      requires Savable(s, r)
      modifies this
      ensures Went(out)
      ensures s == old(s).(record := s.record, removing := s.removing, trail := s.trail)
      ensures out == Ok ==> s == Saved(old(s), r)
      ensures out == Fail ==> s == Unsaved(old(s), r) && !reliable
      ensures out == Crash ==> s in {Saved(old(s), r), old(s)}
      ensures s.record in {old(s).record, Some(r)}
      ensures s.removing == old(s).removing || (s.removing && r.status == Removing)
      ensures old(mishap) == LosesReady && !reliable && r.status == Ready ==>
        out == Fail && mishap == NoMishap && crashes == old(crashes)
      ensures !(old(mishap) == LosesReady && !reliable && r.status == Ready) ==> Smooth(out)
    {
      hide Chain, Savable, Saved, Unsaved;
      SavedFrame(s, r);
      if mishap == LosesReady && !reliable && r.status == Ready {
        mishap := NoMishap;
        out := Fail;
      } else {
        SaveStep(history, s, r);
        out := Perform(Saved(s, r));
      }
      if out == Fail {
        Miss(r);
      }
    }

    method Miss(r: Record)
      requires Valid() && MayAct(s)
      modifies this`s, this`history
      ensures Valid() && s == Unsaved(old(s), r) && old(history) <= history
    {
      hide Chain;
      if r.status == Ready && s.trail == Ran {
        MissStep(history, s);
        Advance(s.(trail := Missed));
      }
    }

    /** The first save of a new record: nothing made for an earlier one counts as its own. */
    method SaveNewRecord(r: Record) returns (out: Outcome)
      requires Valid() && MayAct(s) && s.acting == Some(s.id)
      requires s.record.None? && r.subject.id == s.id && r.status == Creating && r.ref.None?
      requires r.resources == [] && r.fingerprint.None?
      modifies this
      ensures Went(out)
      ensures out == Ok ==> s == WithNew(old(s), r)
      ensures out == Fail ==> s == old(s) && !reliable
      ensures out == Crash ==> s in {WithNew(old(s), r), old(s)}
      ensures s == old(s).(record := s.record, removing := s.removing, born := s.born, stale := s.stale, trail := s.trail)
      ensures s.record in {Some(r), None}
      ensures old(mishap) == DiesAfterFirstSave && old(crashes) > 0 ==>
        DiedAt(out, WithNew(old(s), r))
      ensures old(mishap) != DiesAfterFirstSave ==> Smooth(out)
    {
      hide Chain;
      NewStep(history, s, r);
      if mishap == DiesAfterFirstSave && crashes > 0 {
        Advance(WithNew(s, r));
        mishap, crashes := NoMishap, crashes - 1;
        return Crash;
      }
      out := Perform(WithNew(s, r));
    }

    /** Writes plan.json. */
    method SetPlan(plan: Plan) returns (out: Outcome)
      requires Valid() && MayAct(s)
      requires s.record.Some? ==> Nursery(s.(plan := Some(plan)), s.record.value)
      requires Bound(s) && plan.integrations == Kinds(s)
      modifies this`s, this`history, this`crashes
      ensures Went(out) && Smooth(out)
      ensures out == Ok ==> s == old(s).(plan := Some(plan))
      ensures out == Fail ==> s == old(s) && !reliable
      ensures s == old(s).(plan := s.plan) && s.plan in {Some(plan), old(s).plan}
    {
      hide Chain;
      PlanStep(history, s, plan);
      out := Perform(s.(plan := Some(plan)));
    }

    /** Deletes plan.json, whatever it belongs to. */
    method RemovePlanFile() returns (out: Outcome)
      requires Valid() && MayForget(s)
      modifies this`s, this`history, this`crashes
      ensures Went(out) && Smooth(out)
      ensures out == Ok ==> s == WithoutPlan(old(s))
      ensures out == Fail ==> s == old(s) && !reliable
      ensures out == Crash ==> s in {WithoutPlan(old(s)), old(s)}
    {
      hide Chain;
      PlanGoneStep(history, s);
      out := Perform(WithoutPlan(s));
    }

    /** Deletes workspace.json, whatever it says. */
    method RemoveRecordFile() returns (out: Outcome)
      requires Valid() && MayForget(s)
      modifies this`s, this`history, this`crashes
      ensures Went(out) && Smooth(out)
      ensures out == Ok ==> s == old(s).(record := None)
      ensures out == Fail ==> s == old(s) && !reliable
      ensures s == old(s).(record := s.record) && s.record in {None, old(s).record}
    {
      hide Chain;
      ForgetStep(history, s);
      out := Perform(s.(record := None));
    }

    /** A command of the setup succeeded in the container: a mark on the trail, and no effect. */
    method CommandSucceeded()
      requires Valid() && MayAct(s) && SavedRuns(s)
      modifies this`s, this`history
      ensures Valid() && s == old(s).(trail := Ran, runs := old(s).runs + 1) && old(history) <= history
    {
      hide Chain;
      RanStep(history, s);
      Advance(s.(trail := Ran, runs := s.runs + 1));
    }

    /** Creates (`present`) or removes the run tree and the data tree of the workspace. */
    method SetTrees(runTree: bool, dataTree: bool) returns (out: Outcome)
      requires Valid() && MayAct(s)
      modifies this`s, this`history, this`crashes
      ensures Went(out) && Smooth(out)
      ensures out == Ok ==> s == WithTrees(old(s), runTree, dataTree)
      ensures out == Fail ==> s == old(s) && !reliable
      ensures s == old(s).(runTree := s.runTree, dataTree := s.dataTree, keys := s.keys)
      ensures KeysOrNone(old(s).keys, s.keys)
      ensures s.runTree in {runTree, old(s).runTree} && s.dataTree in {dataTree, old(s).dataTree}
    {
      hide Chain;
      FileStep(history, s, WithTrees(s, runTree, dataTree));
      out := Perform(WithTrees(s, runTree, dataTree));
    }

    /** A command in the container deletes the files of its host key: any key, or only `expected`. */
    method RemoveKeyFiles(expected: Option<Fingerprint>) returns (out: Outcome)
      requires Valid() && MayAct(s)
      requires expected.Some? ==> s.acting.Some? && s.record.Some? && s.record.value.fingerprint in {None, expected}
      modifies this
      ensures Went(out)
      ensures out == Ok ==> s == WithoutKey(old(s), expected) && expected in {None, old(s).keys.file}
      ensures out == Fail ==> s == old(s) && (!reliable || expected !in {None, s.keys.file})
      ensures s == old(s) || (s == WithoutKey(old(s), expected) && expected in {None, old(s).keys.file})
      ensures expected in {None, old(s).keys.file} && old(mishap) != DiesAfterKeys ==> Smooth(out)
      ensures expected in {None, old(s).keys.file} && old(mishap) == DiesAfterKeys && old(crashes) > 0 ==>
        DiedAt(out, WithoutKey(old(s), expected))
    {
      hide Chain, MayAct, Good, WithoutKey;
      if expected !in {None, s.keys.file} {
        out := Refuse();
        return;
      }
      CleanStep(history, s, expected);
      var t := WithoutKey(s, expected);
      if mishap == DiesAfterKeys && crashes > 0 {
        Advance(t);
        mishap, crashes := NoMishap, crashes - 1;
        return Crash;
      }
      out := Perform(t);
    }

    /** Writes (`Some`) or removes (`None`) the known-hosts file of the workspace. */
    method SetKnownHosts(line: Option<Fingerprint>) returns (out: Outcome)
      requires Valid() && MayAct(s)
      modifies this`s, this`history, this`crashes
      ensures Went(out) && Smooth(out)
      ensures out == Ok ==> s == old(s).(knownHosts := line)
      ensures out == Fail ==> s == old(s) && !reliable
      ensures s == old(s).(knownHosts := s.knownHosts) && s.knownHosts in {line, old(s).knownHosts}
    {
      hide Chain;
      FileStep(history, s, s.(knownHosts := line));
      out := Perform(s.(knownHosts := line));
    }

    /** `saveJournal`. */
    method SaveJournal(journal: map<Key, Operation<Input>>) returns (out: Outcome)
      requires Valid()
      requires JournalGrows(s.journal, journal)
      modifies this`s, this`history, this`crashes
      ensures Went(out) && Smooth(out)
      ensures out == Ok ==> s == old(s).(journal := journal)
      ensures out == Fail ==> s == old(s) && !reliable
      ensures s == old(s).(journal := s.journal) && s.journal in {journal, old(s).journal}
    {
      hide Chain;
      FileStep(history, s, s.(journal := journal));
      out := Perform(s.(journal := journal));
    }

    /** Which journal entry the effects that follow belong to; no effect of its own. */
    method Act(key: Option<Key>)
      requires Valid()
      modifies this`s, this`history
      ensures Valid() && s == old(s).(acting := key, cleaned := false) && old(history) <= history
    {
      hide Chain;
      FileStep(history, s, s.(acting := key, cleaned := false));
      Advance(s.(acting := key, cleaned := false));
    }

    // ---------- The container engine ----------

    /** ContainerCreate: a name that is taken is a conflict and changes nothing. */
    method CreateContainer(labels: Labels) returns (out: Outcome, created: Option<ContainerId>)
      requires Valid() && MayAct(s)
      requires s.record.Some? && s.record.value.status == Creating
      requires s.plan.Some? && labels == LabelsFor(s.plan.value.subject, s.plan.value.nonce)
      modifies this
      ensures Went(out)
      ensures out == Fail ==> s == old(s) && !reliable
      ensures out != Ok ==> created.None?
      ensures out == Ok && created.None? ==> s == old(s) && NameTaken(s)
      ensures out == Ok && created.Some? ==>
        !NameTaken(old(s)) && s == WithContainer(old(s), labels) && created.value == old(s.nextId)
      ensures out == Crash ==> s == old(s) || (!NameTaken(old(s)) && s == WithContainer(old(s), labels))
      ensures s == old(s).(containers := s.containers, born := s.born, nextId := s.nextId) && old(s).born <= s.born
      ensures forall c :: c in old(s).containers ==> c in s.containers && s.containers[c] == old(s).containers[c]
      ensures old(mishap) != DiesAfterContainer ==> Smooth(out) && (calm && !old(NameTaken(s)) ==> created.Some?)
      ensures old(mishap) == DiesAfterContainer && old(crashes) > 0 && !old(NameTaken(s)) ==>
        DiedAt(out, WithContainer(old(s), labels))
    {
      hide Chain, Good, MayAct;
      created := None;
      if NameTaken(s) {
        out := Try();
        return;
      }
      BirthStep(history, s, labels);
      if mishap == DiesAfterContainer && crashes > 0 {
        Advance(WithContainer(s, labels));
        mishap, crashes := NoMishap, crashes - 1;
        return Crash, None;
      }
      var c := s.nextId;
      out := Perform(WithContainer(s, labels));
      created := if out == Ok then Some(c) else None;
    }

    /** Adoption is a change of the history variable only: the container is already there. */
    method Adopt(c: ContainerId)
      requires Valid() && MayAct(s)
      requires c in s.containers && s.containers[c].name == ContainerName(s.id) && !s.containers[c].running
      requires s.record.Some? && s.record.value.status == Creating
      requires s.plan.Some? && s.containers[c].labels == LabelsFor(s.plan.value.subject, s.plan.value.nonce)
      modifies this`s, this`history
      ensures Valid() && s == old(s).(born := old(s).born + {c}) && old(history) <= history
    {
      hide Chain;
      AdoptStep(history, s, c);
      Advance(s.(born := s.born + {c}));
    }

    /** ContainerInspect by name: what resumeConflictingCreate looks at. */
    method InspectName() returns (out: Outcome, found: Option<ContainerId>)
      requires Valid()
      modifies this`crashes
      ensures Went(out)
      ensures reliable ==> out != Fail
      ensures out == Ok ==> (found.Some? <==> NameTaken(s))
      ensures out == Ok && found.Some? ==>
        found.value in s.containers && s.containers[found.value].name == ContainerName(s.id)
    {
      hide Chain;
      out := Try();
      found := None;
      if out == Ok {
        if c :| c in s.containers && s.containers[c].name == ContainerName(s.id) {
          found := Some(c);
        }
      }
    }

    /** `Inspect`: nothing found is not an error. */
    method Inspect(c: ContainerId) returns (out: Outcome, found: Option<Container>)
      requires Valid()
      modifies this`crashes
      ensures Went(out) && Smooth(out)
      ensures reliable ==> out != Fail
      ensures out == Ok ==> found == if c in s.containers then Some(s.containers[c]) else None
    {
      hide Chain;
      out := Try();
      found := if c in s.containers then Some(s.containers[c]) else None;
    }

    /** `Start` of the container the record names. */
    method StartContainer(c: ContainerId) returns (out: Outcome)
      requires Valid() && MayAct(s)
      requires s.record.Some? && s.record.value.ref.Some? && s.record.value.ref.value.container == c
      requires s.record.value.status != Creating && s.record.value.status != Stopped
      requires c in s.containers && Matches(s.record.value, s.containers[c])
      modifies this`s, this`history, this`crashes
      ensures Went(out) && Smooth(out)
      ensures s == old(s).(containers := s.containers, trail := s.trail, keys := s.keys)
      ensures out == Ok ==> s == WithRunning(old(s), c, true).(trail := Plain, keys := s.keys)
      ensures out == Ok ==> KeysStarted(old(s).keys, s.keys)
      ensures out == Fail ==> s == old(s) && !reliable
      ensures s.containers in {old(s).containers, WithRunning(old(s), c, true).containers}
      ensures s == old(s) || KeysStarted(old(s).keys, s.keys)
    {
      hide Chain;
      ghost var another := AnotherKey(s.keys.minted);
      var key: Fingerprint :| key !in s.keys.minted;
      StartStep(history, s, c, key);
      out := Perform(WithStarted(s, c, key));
    }

    /** `Stop`: a container that is gone or already stopped is not an error. */
    method StopContainer(c: ContainerId) returns (out: Outcome)
      requires Valid() && MayAct(s)
      requires s.record.Some? && s.record.value.ref.Some? && s.record.value.ref.value.container == c
      requires c in s.containers ==> Identified(s, c)
      requires s.record.value.status == Ready ==> s.trail == Lost
      modifies this`s, this`history, this`crashes
      ensures Went(out) && Smooth(out)
      ensures s == old(s).(containers := s.containers, trail := s.trail)
      ensures out == Ok ==> s == WithStopped(old(s), c)
      ensures out == Fail ==> s == old(s) && !reliable
      ensures out == Crash ==> s in {WithStopped(old(s), c), old(s)}
      ensures s.containers in {old(s).containers, WithRunning(old(s), c, false).containers}
    {
      hide Chain;
      StopStep(history, s, c);
      out := Perform(WithStopped(s, c));
    }

    /** `Delete` (no force): an error while the container runs, nothing to do when it is gone.
        The adapter's forced removal of a container it just created is `force`. */
    method DeleteContainer(c: ContainerId, force: bool) returns (out: Outcome)
      requires Valid() && MayAct(s)
      requires c in s.containers ==> Identified(s, c)
      requires s.record.Some? && s.record.value.status in {Creating, Removing}
      requires MayDelete(s, c)
      modifies this`s, this`history, this`crashes
      ensures Went(out)
      ensures out == Ok ==> s == WithoutContainer(old(s), c)
      ensures out == Fail ==> s == old(s)
      ensures out == Fail ==> !reliable || (c in s.containers && s.containers[c].running && !force)
      ensures s == old(s).(containers := s.containers)
      ensures s.containers == old(s).containers || s.containers == old(s).containers - {c}
    {
      hide Chain;
      if c in s.containers && s.containers[c].running && !force {
        out := Refuse();
        return;
      }
      DeathStep(history, s, c);
      out := Perform(WithoutContainer(s, c));
    }

    // ---------- The mount table ----------

    /** `mountKernelOverlay`: refused when the mount point is taken, and it may be where the kernel does not
        have OverlayFS, which is no error of a call. */
    method MountOverlay(point: string) returns (out: Outcome)
      requires Valid() && MayAct(s)
      modifies this
      ensures Went(out)
      ensures s == old(s) || (out != Fail && point !in old(s).mounts && s == WithMount(old(s), point))
      ensures out == Ok ==> point !in old(s).mounts && s == WithMount(old(s), point)
      ensures point !in old(s).mounts && old(mishap) == DiesAfterMount && calm && old(crashes) > 0 ==>
        DiedAt(out, WithMount(old(s), point))
    {
      hide Chain, Good, MayAct, WithMount;
      var unavailable: bool := *;
      if point in s.mounts || (unavailable && !calm) {
        out := Refuse();
        return;
      }
      MountStep(history, s, point);
      var t := WithMount(s, point);
      if mishap == DiesAfterMount && calm && crashes > 0 {
        Advance(t);
        mishap, crashes := NoMishap, crashes - 1;
        return Crash;
      }
      out := Perform(t);
    }

    method Unmount(point: string) returns (out: Outcome)
      requires Valid() && MayAct(s)
      modifies this`s, this`history, this`crashes
      ensures Went(out) && Smooth(out)
      ensures s == old(s).(mounts := s.mounts)
      ensures out == Ok ==> s.mounts == old(s).mounts - {point}
      ensures out == Fail ==> s == old(s) && !reliable
      ensures s.mounts == old(s).mounts || s.mounts == old(s).mounts - {point}
    {
      hide Chain;
      UnmountStep(history, s, point);
      out := Perform(s.(mounts := s.mounts - {point}));
    }

    // ---------- The host service ----------

    /** `Acquire`: the lease that already answers to this idempotency key, or a new one. A lease of
        another request under the same key, or on the same socket, is refused. */
    method AcquireLease(request: LeaseRequest) returns (out: Outcome, lease: LeaseId)
      requires Valid() && MayAct(s) && request.kind in Kinds(s)
      modifies this`s, this`history, this`crashes
      ensures Went(out)
      ensures out == Ok ==> lease in s.host && s.host[lease] == request
      ensures s == old(s).(host := s.host, nextId := s.nextId)
      ensures forall l :: l in old(s).host ==> l in s.host && s.host[l] == old(s).host[l]
      ensures out == Ok ==> forall l :: l in s.host && l !in old(s).host ==> l == lease
      ensures out == Fail ==> s == old(s) && (reliable ==> Blocked(s.host, request))
    {
      hide Chain, MayAct, Good, Kinds;
      if l :| l in s.host && s.host[l].kind == request.kind {
        lease := l;
        if s.host[l] == request {
          out := Try();
        } else {
          out := Refuse();
        }
        return;
      }
      lease := s.nextId;
      LeaseStep(history, s, request);
      out := Perform(WithLease(s, request));
    }

    /** `Release`: an unknown lease is an error. */
    method ReleaseLease(lease: LeaseId) returns (out: Outcome)
      requires Valid() && MayAct(s)
      modifies this`s, this`history, this`crashes
      ensures Went(out)
      ensures s == old(s).(host := s.host)
      ensures out == Ok ==> lease in old(s).host && s.host == old(s).host - {lease}
      ensures out == Fail ==> s == old(s) && (!reliable || lease !in s.host)
      ensures s.host in {old(s).host, old(s).host - {lease}}
    {
      hide Chain;
      if lease !in s.host {
        out := Refuse();
        return;
      }
      UnleaseStep(history, s, {lease});
      out := Perform(s.(host := s.host - {lease}));
    }

    /** The host service went down and came back between two operations: its start-up cleanup drops
        every lease the previous process held. */
    method HostRestart()
      requires Valid() && s.acting.None?
      modifies this`s, this`history
      ensures Valid() && s == old(s).(host := map[]) && old(history) <= history
    {
      hide Chain;
      UnleaseStep(history, s, s.host.Keys);
      assert s.host - s.host.Keys == map[];
      Advance(s.(host := map[]));
    }
  }

  /** The host has a lease on the socket of this request, and for another one. */
  ghost predicate Blocked(host: map<LeaseId, LeaseRequest>, request: LeaseRequest) {
    exists l :: l in host && host[l].kind == request.kind && host[l] != request
  }

  // ---------- The states those steps lead to ----------

  function WithContainer(s: State, labels: Labels): State {
    s.(containers := s.containers[s.nextId := Container(ContainerName(s.id), labels, false)],
       born := s.born + {s.nextId}, nextId := s.nextId + 1)
  }

  function WithRunning(s: State, c: ContainerId, running: bool): State {
    if c in s.containers then s.(containers := s.containers[c := s.containers[c].(running := running)]) else s
  }

  /** The container of the record was started: it shows the key of the files, or generates one. */
  function WithStarted(s: State, c: ContainerId, key: Fingerprint): State {
    WithRunning(s, c, true).(trail := Plain, keys :=
      if s.keys.file.Some? then s.keys.(shown := s.keys.file.value)
      else HostKeys(Some(key), key, s.keys.minted + {key}))
  }

  lemma {:induction false} AnotherKey(minted: set<Fingerprint>) returns (key: Fingerprint)
    ensures forall k :: k in minted ==> k < key
    ensures key !in minted
    decreases |minted|
  {
    key := 0;
    if minted != {} {
      var k :| k in minted;
      key := AnotherKey(minted - {k});
      assert forall j :: j in minted ==> j == k || j in minted - {k};
      key := if k < key then key else k + 1;
    }
  }

  /** What a start does to the host key: the files keep it, and a missing one is new. */
  ghost predicate KeysStarted(before: HostKeys, after: HostKeys) {
    && after.file == Some(after.shown) && before.minted <= after.minted
    && (if before.file.Some? then after.file == before.file else after.shown !in before.minted)
  }

  /** The files of the host key are gone: any key, or the one that was expected. */
  function WithoutKey(s: State, expected: Option<Fingerprint>): (t: State)
    ensures t.id == s.id
  {
    s.(keys := s.keys.(file := None), cleaned := s.cleaned || expected.Some?)
  }

  /** The trees are there or not; the host key files are in the data tree. */
  function WithTrees(s: State, runTree: bool, dataTree: bool): State {
    s.(runTree := runTree, dataTree := dataTree,
       keys := if s.dataTree && dataTree then s.keys else s.keys.(file := None))
  }

  /** The container of the record is stopped; after a missed save that is the next mark on the trail. */
  function WithStopped(s: State, c: ContainerId): State {
    if c !in s.containers then s
    else WithRunning(s, c, false).(trail := if s.trail == Missed then Halted else s.trail)
  }

  /** The first record of a life of the workspace. */
  function WithNew(s: State, r: Record): State {
    s.(record := Some(r), removing := false, born := {}, stale := false, trail := Plain)
  }

  /** plan.json is deleted from under a container of a creation. */
  predicate Bereaves(s: State) {
    s.record.Some? && s.record.value.status == Creating && exists c :: c in s.born && c in s.containers
  }

  function WithoutPlan(s: State): State {
    s.(plan := None, stale := s.stale || Bereaves(s))
  }

  function WithoutContainer(s: State, c: ContainerId): State {
    s.(containers := s.containers - {c})
  }

  function WithMount(s: State, point: string): (t: State)
    ensures t.id == s.id
  {
    s.(mounts := s.mounts[point := s.nextId], nextId := s.nextId + 1)
  }

  function WithLease(s: State, request: LeaseRequest): State {
    s.(host := s.host[s.nextId := request], nextId := s.nextId + 1)
  }
}
