/** Five runs of the program, from nothing, that end where its documentation does not lead one to
    expect. The worlds are calm: apart from one mishap every call works. */
module Witnesses {
  import opened Options
  import opened Store
  import opened Worlds
  import opened Journal
  import opened Lifecycle
  import opened Operations
  import Creation
  import Removal

  /** A workspace ID with nothing to it yet, and a request to create it without overlays. */
  predicate Fresh(id: string, request: CreateRequest) {
    id != "" && request.subject.id == id && request.toolchains.overlays == []
  }

  function Empty(id: string): State {
    Nothing(id, map[], map[], 0)
  }

  lemma PassesNow(w: World)
    requires w.Valid()
    ensures w.s in w.history && w.history != []
  {
    assert w.history[|w.history| - 1] == w.s;
  }

  lemma StartsClear(id: string, request: CreateRequest)
    requires Fresh(id, request)
    ensures Good(Empty(id)) && Creation.First(Empty(id), id, request)
  {
  }

  /** A record that names nothing can be removed, with a key that was never used. */
  lemma NewIsClear(s: State, key: Key, input: Input, subject: Subject)
    requires s.record == Some(Creation.NewRecord(subject)) && key != "" && key !in s.journal
    ensures Removal.Clear(s, key, input)
  {
  }

  /** A removed workspace without containers can be created again with its creating key. */
  lemma FirstAgain(s: State, t: State, id: string, request: CreateRequest)
    requires Creation.First(s.(record := None), id, request)
    requires Removal.Shrank(s, t) && t.record.None? && s.containers == map[]
    requires (id in s.journal <==> id in t.journal) && (id in s.journal ==> t.journal[id] == s.journal[id])
    ensures Creation.First(t, id, request)
  {
  }

  // ---------- A removal key that is used again ----------

  /** The process died over the first save of the record, and nothing more can go wrong. */
  ghost predicate Broken(w: World, id: string, request: CreateRequest)
    reads w
  {
    && w.Valid() && w.s.acting.None? && w.calm && w.reliable && w.crashes == 0 && w.mishap == NoMishap && w.s.id == id
    && w.s.record == Some(Creation.NewRecord(request.subject)) && w.s.containers == map[]
    && w.s.journal.Keys <= {id} && Creation.First(w.s.(record := None), id, request)
  }

  method DieOverFirstSave(id: string, request: CreateRequest) returns (w: World)
    requires Fresh(id, request)
    ensures fresh(w) && Broken(w, id, request) && w.history != [] && w.history[0] == Empty(id)
  {
    hide Chain, Good, Creation.First, Creation.Made, Creation.Completed;
    StartsClear(id, request);
    w := new World(Empty(id), 1, true, true, DiesAfterFirstSave);
    var out, r := Creation.Create(w, id, request);
  }

  /** The workspace is gone, and the removal under `key` is over. */
  ghost predicate GoneUnder(w: World, id: string, key: Key, request: CreateRequest)
    reads w
  {
    && w.Valid() && w.s.acting.None? && w.calm && w.reliable && w.crashes == 0 && w.mishap == NoMishap && w.s.id == id
    && Creation.First(w.s, id, request) && OverUnder(w.s, key)
  }

  predicate OverUnder(s: State, key: Key) {
    key in s.journal && s.journal[key].phase == Succeeded && s.journal[key].input == CommandInput(Remove)
  }

  method RemoveBroken(w: World, id: string, key: Key, request: CreateRequest)
    requires Fresh(id, request) && key != "" && key != id && Broken(w, id, request)
    modifies w
    ensures GoneUnder(w, id, key, request) && old(w.history) <= w.history
  {
    hide Chain, Good, Removal.Shrank, Removal.Clear, Creation.First, Removal.Decided, Removal.NoneLeft, Removal.AllNamed;
    NewIsClear(w.s, key, CommandInput(Remove), request.subject);
    var out := Removal.RemoveOperation(w, key, Remove);
    FirstAgain(old(w.s), w.s, id, request);
  }

  method MakeAgain(w: World, id: string, key: Key, request: CreateRequest)
    requires Fresh(id, request) && key != "" && key != id && GoneUnder(w, id, key, request)
    modifies w
    ensures w.Valid() && w.s.acting.None? && w.reliable && w.crashes == 0 && OverUnder(w.s, key) && w.s.id == id
    ensures old(w.history) <= w.history && w.s.record.Some? && w.s.record.value.status == Stopped
  {
    hide Chain, Good, Creation.Made, Creation.Completed;
    UnfoldFirst(w.s, id, request);
    hide Creation.First;
    var out, r := Creation.Create(w, id, request);
  }

  lemma UnfoldFirst(s: State, id: string, request: CreateRequest)
    requires Creation.First(s, id, request)
    ensures !Concluded(s, id) && s.record.None?
  {
  }

  /** The creation dies after its first save; a removal under `key` succeeds; the creating key makes the
      workspace after all; and the removal is asked for again under the same key. What that deletes is
      the record and the plan of a live workspace. Its container stays, and no file names it. */
  method ReplayDeletesLive(id: string, key: Key, request: CreateRequest) returns (w: World, ghost live: State)
    requires Fresh(id, request) && key != "" && key != id
    ensures fresh(w) && w.Valid() && w.history != [] && w.history[0] == Empty(id) && live in w.history
    ensures live.record.Some? && live.record.value.status == Stopped && live.record.value.ref.Some?
    ensures live.record.value.ref.value.container in live.containers
    ensures w.s == live.(record := None, plan := None, stale := w.s.stale)
  {
    hide Chain, Good, Broken, GoneUnder;
    w := DieOverFirstSave(id, request);
    RemoveBroken(w, id, key, request);
    MakeAgain(w, id, key, request);
    PassesNow(w);
    live := w.s;
    Creation.StoppedLeavesOne(live) by { w.GoodNow(); }
    DeleteAgain(w, key);
  }

  method DeleteAgain(w: World, key: Key)
    requires w.Valid() && w.s.acting.None? && w.reliable && w.crashes == 0 && OverUnder(w.s, key) && key != ""
    modifies w
    ensures w.Valid() && old(w.history) <= w.history && w.s == old(w.s).(record := None, plan := None, stale := w.s.stale)
  {
    hide Chain, Good, Removal.Shrank, Removal.Decided, Removal.NoneLeft, Removal.AllNamed;
    var out := Removal.RemoveOperation(w, key, Remove);
  }

  // ---------- A container that no record names ----------

  /** The creation dies after the engine made the container and before the record names it; the removal
      that follows succeeds; and the container is still there. */
  method RemovalLeavesContainer(id: string, key: Key, request: CreateRequest)
    returns (w: World, ghost c: ContainerId)
    requires Fresh(id, request) && key != "" && key != id
    ensures fresh(w) && w.Valid() && w.history != [] && w.history[0] == Empty(id)
    ensures w.s.record.None? && w.s.plan.None? && OverUnder(w.s, key)
    ensures c in w.s.born && c in w.s.containers
  {
    hide Chain, Good, Creation.Made, Creation.Completed, Creation.First, Removal.Clear, Removal.Decided, Removal.Shrank;
    StartsClear(id, request);
    w := new World(Empty(id), 1, true, true, DiesAfterContainer);
    var out, r := Creation.Create(w, id, request);
    NewIsClear(w.s, key, CommandInput(Remove), request.subject);
    ghost var orphan :| orphan in w.s.born && orphan in w.s.containers;
    out := Removal.RemoveOperation(w, key, Remove);
    c :| c in w.s.born && c in w.s.containers;
  }

  // ---------- A creation that cannot be retried ----------

  /** The creation dies after it mounted its first overlay and before the record says so. The retry with the
      same key finds the merged path taken and fails, and so the key is concluded for good. */
  method CreationGetsStuck(id: string, request: CreateRequest) returns (w: World, ghost stray: State)
    requires id != "" && request.subject.id == id && request.toolchains.overlays != []
    ensures fresh(w) && w.Valid() && w.history != [] && w.history[0] == Empty(id)
    ensures stray in w.history && Creation.Stray(stray, request.toolchains.overlays)
    ensures Concluded(w.s, id) && w.s.journal[id].phase == Failed
  {
    hide Chain, Good, Creation.Made, Creation.Completed, Creation.First, Creation.Adrift, Creation.Hopeful;
    EmptyGood(id, request);
    w := new World(Empty(id), 1, true, true, DiesAfterMount);
    var out, r := Creation.Create(w, id, request);
    MountStray(w.s, request);
    PassesNow(w);
    stray := w.s;
    hide Creation.Stray;
    out, r := Creation.Create(w, id, request);
  }

  lemma EmptyGood(id: string, request: CreateRequest)
    ensures Good(Empty(id)) && (request.toolchains.overlays != [] ==> Creation.Unstarted(Empty(id), request))
  {
  }

  lemma MountStray(s: State, request: CreateRequest)
    requires s.record == Some(Creation.NewRecord(request.subject)) && s.plan.None?
    requires request.toolchains.overlays != [] && request.toolchains.overlays[0].merged in s.mounts
    ensures Creation.Stray(s, request.toolchains.overlays)
  {
  }

  // ---------- Ready over a stopped container ----------

  /** The setup of a first start succeeds, the save of Ready fails, and the saves and calls after it
      work: the saved status is Ready, and the container does not run. */
  method ReadyOverStopped(id: string, key: Key, request: CreateRequest) returns (w: World)
    requires Fresh(id, request) && key != "" && key != id
    requires request.integrations == {} && request.setup == Once && request.subject.bootstrapAPI == BOOTSTRAP_API
    ensures fresh(w) && w.Valid() && w.history != [] && w.history[0] == Empty(id)
    ensures w.s.record.Some? && w.s.record.value.status == Ready && !SavedRuns(w.s)
  {
    hide Chain, Good, Creation.Made, SimpleStart, IdleStart, ShowsKey;
    w := CreatedCalmly(id, request, 0, false, LosesReady);
    SimpleNow(w.s, request);
    var out, r := Mutate(w, key, Start);
    LostIsReady(w.s) by { w.GoodNow(); }
  }

  lemma SimpleNow(s: State, request: CreateRequest)
    requires s.record.Some? && exists nonce :: Creation.Made(s, Creation.Planning(request, nonce), s.record.value)
    requires request.toolchains.overlays == [] && request.subject.id == s.id
    requires request.integrations == {} && request.setup == Once && request.subject.bootstrapAPI == BOOTSTRAP_API
    ensures SimpleStart(s)
  {
  }

  lemma LostIsReady(s: State)
    requires Good(s) && s.record.Some? && s.trail == Lost
    ensures s.record.value.status == Ready && !SavedRuns(s)
  {
  }

  // ---------- A removal that gets stuck ----------

  /** A workspace is created and started; its removal dies right after the host key was deleted in the
      container. `Removal.RemoveOperation` promises of a state that is `Jammed` that the next removal fails and
      leaves it so, and `Runs.LostUntilRotated` that nothing but a rotation makes up for the lost key. */
  method RemovalGetsStuck(id: string, start: Key, key: Key, request: CreateRequest) returns (w: World)
    requires Fresh(id, request) && key != "" && start != "" && id != start && id != key && start != key
    requires request.integrations == {} && request.setup == Manual && request.subject.bootstrapAPI == BOOTSTRAP_API
    ensures fresh(w) && w.Valid() && w.history != [] && w.history[0] == Empty(id)
    ensures w.s.acting.None? && Removal.Jammed(w.s, key)
  {
    hide Chain, Good, Removal.Shrank, Removal.Clear, Removal.Decided, Removal.KeyFate, Removal.Jammed, Removal.StrikesUnder;
    w := StartedCalmly(id, start, key, request);
    UnfoldStrikes(w.s, key);
    ghost var given := w.s.record.value;
    var out := Removal.RemoveOperation(w, key, Remove);
    Removal.DecidedJammed(w.s, given, key);
  }

  lemma UnfoldStrikes(s: State, key: Key)
    requires Removal.StrikesUnder(s, key, CommandInput(Remove))
    ensures s.record.Some? && !Concluded(s, key)
  {
  }

  /** The workspace serves, and its removal under `key` can begin. */
  method StartedCalmly(id: string, start: Key, key: Key, request: CreateRequest) returns (w: World)
    requires Fresh(id, request) && key != "" && start != "" && id != start && id != key && start != key
    requires request.integrations == {} && request.setup == Manual && request.subject.bootstrapAPI == BOOTSTRAP_API
    ensures fresh(w) && w.Valid() && w.history != [] && w.history[0] == Empty(id) && w.s.acting.None?
    ensures w.calm && w.reliable && w.crashes == 1 && w.mishap == DiesAfterKeys
    ensures Removal.StrikesUnder(w.s, key, CommandInput(Remove))
  {
    hide Chain, Good, Creation.Made, IdleStart, ShowsKey, Serving, Removal.StrikesUnder, OthersKept, SavedRuns;
    w := CreatedCalmly(id, request, 1, true, DiesAfterKeys);
    IdleNow(w.s, request) by { w.GoodNow(); }
    ghost var t := w.s;
    var out, r := Mutate(w, start, Start);
    StrikesNow(t, w.s, r.value, id, start, key);
  }

  /** The workspace was created, in a world whose mishap is still to come. */
  method CreatedCalmly(id: string, request: CreateRequest, crashes: nat, reliable: bool, mishap: Mishap) returns (w: World)
    requires Fresh(id, request) && mishap !in {DiesAfterFirstSave, DiesAfterContainer}
    ensures fresh(w) && w.Valid() && w.history != [] && w.history[0] == Empty(id) && w.s.acting.None? && w.s.id == id
    ensures w.calm && w.reliable == reliable && w.crashes == crashes && w.mishap == mishap
    ensures w.s.record.Some? && w.s.journal.Keys <= {id}
    ensures exists nonce :: Creation.Made(w.s, Creation.Planning(request, nonce), w.s.record.value)
  {
    hide Chain, Good, Creation.Completed, Creation.First, Creation.Made;
    StartsClear(id, request);
    w := new World(Empty(id), crashes, reliable, true, mishap);
    var out, r := Creation.Create(w, id, request);
  }

  lemma IdleNow(s: State, request: CreateRequest)
    requires Good(s) && s.record.Some?
    requires exists nonce :: Creation.Made(s, Creation.Planning(request, nonce), s.record.value)
    requires request.toolchains.overlays == [] && request.subject.id == s.id
    requires request.integrations == {} && request.setup == Manual && request.subject.bootstrapAPI == BOOTSTRAP_API
    ensures IdleStart(s) && !SavedRuns(s)
  {
    assert IntentFirst(s, s.record.value) && OwnReference(s, s.record.value);
  }

  lemma StrikesNow(s: State, t: State, r: Record, id: string, start: Key, key: Key)
    requires s.record.Some? && !SavedRuns(s) && ShowsKey(s, t, s.record.value) && Serving(t, r)
    requires key !in s.journal && OthersKept(s.journal, t.journal, start) && key != start && key != ""
    ensures Removal.StrikesUnder(t, key, CommandInput(Remove))
  {
  }
}
