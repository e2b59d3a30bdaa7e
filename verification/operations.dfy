/** The journalled commands, and runs of arbitrarily many of them (internal/workspace/docker.go). */
module Operations {
  import opened Options
  import opened Store
  import opened Worlds
  import opened Journal
  import opened LeaseClient
  import opened Lifecycle
  import Creation
  import Removal
  import Reconcile

  /** What a command that succeeded has achieved. */
  ghost predicate Achieved(command: Command, s: State, r: Record) {
    match command
    case Start => Serving(s, r)
    case Restart(_) => Serving(s, r)
    case Rotate => Serving(s, r)
    case Stop(_) => s.record == Some(r) && r.status == Stopped && forall l :: !Held(r.resources, l)
    case Remove => true
    case Recover => true
  }

  /** The commands that `mutateWorkspace` runs on their own; removal has `RemoveOperation`. */
  predicate Ordinary(command: Command) {
    !command.Remove? && !command.Recover?
  }

  /** The body of a command. */
  method Perform(w: World, given: Record, command: Command) returns (out: Outcome, r: Record)
    requires w.Valid() && MayAct(w.s) && w.s.record == Some(given) && Ordinary(command) && (command.Rotate? ==> Rotating(w.s))
    modifies w
    ensures w.Went(out) && LifeOnly(old(w.s), w.s)
    ensures out == Ok ==> Achieved(command, w.s, r)
    ensures command.Start? && Loses(w) && Simple(old(w.s), given) ==> LostReady(w, out)
    ensures command.Start? && old(w.mishap) != LosesReady && Idle(old(w.s), given) ==> w.Smooth(out)
    ensures command.Start? && out == Ok ==> KeyShown(old(w.s), w.s, given, Runs(old(w.s), given))
  {
    hide Chain, Good, LifeOnly, Serving;
    if command.Start? {
      out, r := StartLocked(w, given);
    } else if command.Stop? {
      out, r := StopLocked(w, given);
    } else if command.Restart? {
      out, r := RestartLocked(w, given);
    } else {
      out, r := RotateLocked(w, given);
    }
  }

  lemma LifeJournal(s: State, t: State)
    requires LifeOnly(s, t)
    ensures t.journal == s.journal && t.acting == s.acting && t.id == s.id && t.plan == s.plan
  {
  }

  lemma StillAchieved(command: Command, s: State, t: State, r: Record)
    requires Achieved(command, s, r) && t == s.(journal := t.journal, acting := t.acting, cleaned := t.cleaned)
    ensures Achieved(command, t, r)
  {
  }

  predicate SimpleStart(s: State) {
    s.record.Some? && Simple(s, s.record.value)
  }

  /** The host key after a start: the pinned one, and the one of the files if the container did not run. */
  ghost predicate ShowsKey(s: State, t: State, given: Record) {
    KeyShown(s, t, given, Runs(s, given))
  }

  predicate IdleStart(s: State) {
    s.record.Some? && Idle(s, s.record.value)
  }

  /** Loads the record and runs the command on it. */
  method PerformLoaded(w: World, command: Command) returns (out: Outcome, r: Option<Record>)
    requires w.Valid() && MayAct(w.s) && Ordinary(command) && (command.Rotate? ==> Rotating(w.s))
    modifies w
    ensures w.Went(out) && w.s.journal == old(w.s).journal && w.s.acting == old(w.s).acting
    ensures out == Ok ==> r.Some? && Achieved(command, w.s, r.value)
    ensures command.Start? && Loses(w) && SimpleStart(old(w.s)) ==> LostReady(w, out)
    ensures command.Start? && old(w.mishap) != LosesReady && IdleStart(old(w.s)) ==> w.Smooth(out)
    ensures command.Start? && out == Ok ==> old(w.s).record.Some? && ShowsKey(old(w.s), w.s, old(w.s).record.value)
  {
    hide Chain, Good, LifeOnly, Achieved;
    r := w.s.record;
    out := w.Try();  // load the record
    if out == Ok && r.None? {
      out := Fail;
    }
    if out == Ok {
      var after;
      out, after := Perform(w, r.value, command);
      LifeJournal(old(w.s), w.s);
      r := Some(after);
    }
  }

  /** `mutateWorkspace`. A concluded key returns the stored outcome and touches nothing; any other use
      of a key runs the command at most until its entry is finished, and success means `Achieved`. */
  method Mutate(w: World, key: Key, command: Command) returns (out: Outcome, r: Option<Record>)
    requires w.Valid() && w.s.acting.None? && Ordinary(command)
    modifies w
    ensures w.Went(out) && w.s.acting.None?
    ensures Concluded(old(w.s), key) ==>
      w.s == old(w.s) && (out == Ok ==> w.s.journal[key].phase == Succeeded && r == w.s.journal[key].result)
    ensures Concluded(old(w.s), key) && Bindable(old(w.s), key, CommandInput(command)) && w.reliable && out != Crash ==>
      r == w.s.journal[key].result && (out == Ok <==> w.s.journal[key].phase == Succeeded)
    ensures out == Ok ==> Concluded(w.s, key) && w.s.journal[key].input == CommandInput(command)
    ensures out == Ok && !Concluded(old(w.s), key) ==>
      && r.Some? && Achieved(command, w.s, r.value)
      && w.s.journal[key] == Operation(CommandInput(command), Succeeded, r)
    ensures out == Fail && w.reliable && !Concluded(old(w.s), key) && Bindable(old(w.s), key, CommandInput(command)) ==>
      Concluded(w.s, key) && w.s.journal[key].phase == Failed
    ensures command.Start? && Loses(w) && SimpleStart(old(w.s)) ==>
      (!Concluded(old(w.s), key) && Bindable(old(w.s), key, CommandInput(command)) ==> LostReady(w, out))
    ensures command.Start? && old(w.mishap) != LosesReady && IdleStart(old(w.s)) ==>
      (!Concluded(old(w.s), key) && Bindable(old(w.s), key, CommandInput(command)) ==> w.Smooth(out))
    ensures command.Start? && out == Ok && !Concluded(old(w.s), key) ==>
      old(w.s).record.Some? && ShowsKey(old(w.s), w.s, old(w.s).record.value)
    ensures OthersKept(old(w.s).journal, w.s.journal, key)
  {
    hide Chain, Good, Achieved, ShowsKey, SimpleStart, IdleStart;
    var begun;
    r := None;
    out, begun := BeginOperation(w, key, CommandInput(command));
    SameStart(old(w.s), w.s);
    ghost var begins := w.s;
    if out != Ok {
      return;
    }
    if begun.Replay? {
      r := begun.result;
      out := if begun.phase == Failed then Fail else Ok;
      return;
    }
    out, r := MutateEntered(w, key, command);
    if out == Ok && command.Start? {
      SameShown(old(w.s), begins, w.s, w.s);
    }
  }

  /** The command under its running entry, and the end of that entry. */
  method MutateEntered(w: World, key: Key, command: Command) returns (out: Outcome, r: Option<Record>)
    requires w.Valid() && MayAct(w.s) && w.s.acting == Some(key) && Ordinary(command)
    requires w.s.journal[key].input == CommandInput(command)
    modifies w
    ensures w.Went(out) && w.s.acting.None? && OthersKept(old(w.s).journal, w.s.journal, key)
    ensures out == Ok ==>
      && r.Some? && Achieved(command, w.s, r.value)
      && Concluded(w.s, key) && w.s.journal[key] == Operation(CommandInput(command), Succeeded, r)
    ensures out == Fail && w.reliable ==> Concluded(w.s, key) && w.s.journal[key].phase == Failed
    ensures command.Start? && Loses(w) && SimpleStart(old(w.s)) ==> LostReady(w, out)
    ensures command.Start? && old(w.mishap) != LosesReady && IdleStart(old(w.s)) ==> w.Smooth(out)
    ensures command.Start? && out == Ok ==> old(w.s).record.Some? && ShowsKey(old(w.s), w.s, old(w.s).record.value)
  {
    hide Chain, Good, Achieved, ShowsKey, SimpleStart, IdleStart;
    out, r := PerformLoaded(w, command);
    ghost var t := w.s;
    out := Conclude(w, key, out, r);
    if out == Ok {
      StillAchieved(command, t, w.s, r.value);
      if command.Start? {
        SameShown(old(w.s), old(w.s), t, w.s);
      }
    }
  }

  /** A start does not look at the journal. */
  lemma SameStart(s: State, t: State)
    requires t == s.(journal := t.journal, acting := t.acting, cleaned := t.cleaned)
    ensures SimpleStart(t) == SimpleStart(s) && IdleStart(t) == IdleStart(s)
  {
  }

  lemma SameShown(s: State, t: State, u: State, v: State)
    requires t == s.(journal := t.journal, acting := t.acting, cleaned := t.cleaned)
    requires v == u.(journal := v.journal, acting := v.acting, cleaned := v.cleaned)
    requires t.record.Some? && ShowsKey(t, u, t.record.value)
    ensures ShowsKey(s, v, s.record.value)
  {
  }

  // ---------- Runs ----------

  /** Something that happens to a workspace. Any of it may die anywhere, and then the next follows. */
  datatype Event =
    | CreateEvent(request: CreateRequest)
    | CommandEvent(key: Key, command: Command)
    | SetupEvent(mode: SetupMode, force: bool)
    | ReconcileEvent    // of all workspaces
    | RecoverEvent      // of this one, before its recovery is confirmed
    | HostRestartEvent

  /** The event is about this workspace: its ID is the one that the request of a creation is for. */
  predicate Concerns(event: Event, id: string) {
    event.CreateEvent? ==> event.request.subject.id == id
  }

  method Happen(w: World, event: Event)
    requires w.Valid() && w.s.acting.None? && Concerns(event, w.s.id)
    modifies w
    ensures w.Valid() && old(w.history) <= w.history && w.s.acting.None? && w.s.id == old(w.s).id
  {
    hide Chain, Good;
    var out, r;
    if event.CreateEvent? {
      out, r := Creation.Create(w, w.s.id, event.request);
    } else if event.CommandEvent? && Ordinary(event.command) {
      out, r := Mutate(w, event.key, event.command);
    } else if event.CommandEvent? {
      out := Removal.RemoveOperation(w, event.key, event.command);
    } else if event.SetupEvent? {
      out, r := SetupRun(w, event.mode, event.force);
      w.Act(None);
    } else if event.ReconcileEvent? {
      out := Reconcile.ReconcileListed(w);
    } else if event.RecoverEvent? {
      out := Reconcile.ReconcileLoaded(w);
    } else {
      w.HostRestart();
    }
  }

  /** Every run, of any length, over any events, with crashes and errors anywhere in them, extends the
      history, and a history satisfies all that `Chain` and the lemmas of module Runs say. */
  method Run(w: World, script: seq<Event>)
    requires w.Valid() && w.s.acting.None?
    requires forall i :: 0 <= i < |script| ==> Concerns(script[i], w.s.id)
    modifies w
    ensures w.Valid() && old(w.history) <= w.history && w.s.acting.None?
  {
    hide Chain, Good;
    for index := 0 to |script|
      invariant w.Valid() && old(w.history) <= w.history && w.s.acting.None? && w.s.id == old(w.s).id
    {
      Happen(w, script[index]);
    }
  }

  /** Nothing of this workspace yet: other containers may exist, and mounts, but no lease. */
  function Nothing(id: string, containers: map<ContainerId, Container>, mounts: map<string, MountId>, nextId: nat): State {
    State(id, None, None, map[], None, containers, {}, false, false, Trail.Plain, 0, false, map[], mounts, None,
          HostKeys(None, 0, {0}), false, false, nextId)
  }

  /** Runs from the beginning. */
  method RunFromNothing(id: string, containers: map<ContainerId, Container>, mounts: map<string, MountId>, nextId: nat,
                        crashes: nat, reliable: bool, calm: bool, mishap: Mishap, script: seq<Event>)
    returns (w: World)
    requires UniqueNames(containers)
    requires (forall c :: c in containers ==> c < nextId) && forall p :: p in mounts ==> mounts[p] < nextId
    requires forall i :: 0 <= i < |script| ==> Concerns(script[i], id)
    ensures w.Valid() && fresh(w) && w.history[0] == Nothing(id, containers, mounts, nextId)
  {
    w := new World(Nothing(id, containers, mounts, nextId), crashes, reliable, calm, mishap);
    hide Chain, Good;
    Run(w, script);
  }
}
