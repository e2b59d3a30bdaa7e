/** What holds of every history, and so of every run: the safety properties of the whole program. */
module Runs {
  import opened Options
  import opened Store
  import opened Worlds
  import opened Journal
  import Removal

  // ---------- The journal ----------

  /** Once a key is bound its input never changes, and once its entry is finished nothing of it does. */
  lemma {:induction false} EntryKept(history: seq<State>, i: nat, j: nat, key: Key)
    requires Chain(history) && i <= j < |history| && key in history[i].journal
    ensures key in history[j].journal && Continues(history[i].journal[key], history[j].journal[key])
    decreases j
  {
    if i < j {
      EntryKept(history, i, j - 1, key);
      ChainAt(history, j);
    }
  }

  /** After a key is concluded, a step taken in its name changes nothing but the journal; unless it is the
      key of a removal that succeeded: then the record and the plan may go, and nothing else. */
  lemma {:induction false} NoEffectOnceConcluded(history: seq<State>, i: nat, j: nat, key: Key)
    requires Chain(history) && i < j < |history| && Concluded(history[i], key)
    requires history[j - 1].acting == Some(key)
    ensures var s, t, entry := history[j - 1], history[j], history[i].journal[key];
      || t == s.(journal := t.journal, acting := t.acting, cleaned := t.cleaned)
      || (entry.phase == Succeeded && Forgetful(entry.input)
          && t == s.(record := t.record, plan := t.plan, stale := t.stale)
          && t.record in {s.record, None} && t.plan in {s.plan, None})
    ensures key in history[j].journal && history[j].journal[key] == history[i].journal[key]
  {
    hide Good;
    EntryKept(history, i, j - 1, key);
    EntryKept(history, i, j, key);
    ChainAt(history, j);
  }

  /** A workspace whose creation is concluded and whose record is gone never comes back. */
  lemma {:induction false} NeverReborn(history: seq<State>, i: nat, j: nat)
    requires Chain(history) && i <= j < |history|
    requires Concluded(history[i], history[i].id) && history[i].record.None?
    ensures history[j].record.None? && history[j].id == history[i].id
    decreases j
  {
    hide Chain, Good, ContainersGuarded, Births, StaleByForgetting, KeysFresh, TrailMoves, PinKept, CleanedMoves;
    if i < j {
      NeverReborn(history, i, j - 1);
      EntryKept(history, i, j - 1, history[i].id);
      ChainAt(history, j);
    }
  }

  // ---------- Containers ----------

  /** The durable files never identify container `c` as this workspace's. */
  ghost predicate NeverIdentified(history: seq<State>, c: ContainerId) {
    forall i :: 0 <= i < |history| && c in history[i].containers ==> !Identified(history[i], c)
  }

  /** Identity-gated destruction: a container that record and plan never identify is neither started,
      nor stopped, nor deleted, in any run. */
  lemma {:induction false} ForeignContainerUntouched(history: seq<State>, i: nat, j: nat, c: ContainerId)
    requires Chain(history) && i <= j < |history| && c in history[i].containers
    requires NeverIdentified(history, c)
    ensures c in history[j].containers && history[j].containers[c] == history[i].containers[c]
    decreases j
  {
    hide Chain, Good, Identified, EffectJournalled, Births, StaleByForgetting, KeysFresh, TrailMoves, PinKept, CleanedMoves;
    if i < j {
      ForeignContainerUntouched(history, i, j - 1, c);
      ChainAt(history, j);
    }
  }

  /** Labels and name of a container never change while it exists. */
  lemma {:induction false} LabelsConstant(history: seq<State>, i: nat, j: nat, c: ContainerId)
    requires Chain(history) && i <= j < |history|
    requires forall k :: i <= k <= j ==> c in history[k].containers
    ensures history[j].containers[c].labels == history[i].containers[c].labels
    ensures history[j].containers[c].name == history[i].containers[c].name
    decreases j
  {
    hide Chain, Good, EffectJournalled, Births, StaleByForgetting, KeysFresh, TrailMoves, PinKept, CleanedMoves;
    if i < j {
      LabelsConstant(history, i, j - 1, c);
      ChainAt(history, j);
    }
  }

  /** Destruction is gated at every single step: the container that a step stops, starts or deletes
      carries the four labels of the record that is saved at that moment, with the nonce of its
      reference or of plan.json. */
  lemma {:induction false} DestroyedWasIdentified(history: seq<State>, j: nat, c: ContainerId)
    requires Chain(history) && 0 < j < |history| && c in history[j - 1].containers
    requires c !in history[j].containers || history[j].containers[c] != history[j - 1].containers[c]
    ensures history[j - 1].record.Some?
    ensures var labels, record := history[j - 1].containers[c].labels, history[j - 1].record.value;
      && labels.ownerUID == record.subject.ownerUID && labels.workspace == record.subject.id
      && labels.manifest == record.subject.manifest
      && ((record.ref.Some? && labels.nonce == record.ref.value.nonce) ||
          (history[j - 1].plan.Some? && labels.nonce == history[j - 1].plan.value.nonce))
  {
    hide Good;
    ChainAt(history, j);
  }

  /** Every container that the program made carries the labels of the plan.json that was saved when it
      was made. */
  lemma {:induction false} MadeByPlan(history: seq<State>, j: nat, c: ContainerId)
    requires Chain(history) && j < |history| && c in history[j].containers && c !in history[0].containers
    ensures exists i :: 0 <= i < j && PlannedAs(history[i], history[j].containers[c].labels)
    decreases j
  {
    ChainAt(history, j);
    if c in history[j - 1].containers {
      MadeByPlan(history, j - 1, c);
    } else {
      assert PlannedAs(history[j - 1], history[j].containers[c].labels);
    }
  }

  /** These are the labels of the saved plan. */
  ghost predicate PlannedAs(s: State, labels: Labels) {
    s.plan.Some? && labels == LabelsFor(s.plan.value.subject, s.plan.value.nonce)
  }

  /** plan.json is deleted from under a container of a creation only in the name of a key whose
      removal has succeeded before: by using that key again. */
  lemma {:induction false} StaleByReplay(history: seq<State>, j: nat)
    requires Chain(history) && 0 < j < |history| && history[j].stale && !history[j - 1].stale
    ensures var s := history[j - 1];
      && s.acting.Some? && s.acting.value in s.journal
      && s.journal[s.acting.value].phase == Succeeded && Forgetful(s.journal[s.acting.value].input)
      && s.record.Some? && s.record.value.status == Creating && history[j] == s.(plan := None, stale := true)
  {
    hide Good;
    ChainAt(history, j);
  }

  /** A host key that is gone from the files never comes back to them. */
  lemma {:induction false} KeyStaysLost(history: seq<State>, i: nat, j: nat, key: Fingerprint)
    requires Chain(history) && i <= j < |history|
    requires key in history[i].keys.minted && history[i].keys.file != Some(key)
    ensures key in history[j].keys.minted && history[j].keys.file != Some(key)
    decreases j
  {
    if i < j {
      KeyStaysLost(history, i, j - 1, key);
      ChainAt(history, j);
    }
  }

  /** The host key that the saved record pins is lost, and its container is there. */
  predicate KeyLost(s: State) {
    s.record.Some? && Removal.Stuck(s, s.record.value)
  }

  /** The record goes in the name of a finished removal, as by using its key again. */
  ghost predicate Forgotten(s: State, t: State) {
    MayForget(s) && s.record.Some? && t.record.None?
  }

  /** Once the pinned key is lost no removal can finish: at every later point of every run the record, its
      pinned key and its container are there and the key is lost, until a rotation drops it or the key of
      another finished removal deletes the record. */
  lemma {:induction false} LostUntilRotated(history: seq<State>, i: nat, j: nat)
    requires Chain(history) && i <= j < |history| && KeyLost(history[i]) && history[i].acting.None?
    ensures
      || (KeyLost(history[j]) && SamePin(history[i], history[j]))
      || (exists k :: i <= k < j && (Unpins(history[k], history[k + 1]) || Forgotten(history[k], history[k + 1])))
  {
    LostSince(history, i, j);
  }

  predicate SamePin(s: State, t: State) {
    && s.record.Some? && t.record.Some?
    && t.record.value.fingerprint == s.record.value.fingerprint && t.record.value.ref == s.record.value.ref
  }

  lemma {:induction false} LostSince(history: seq<State>, i: nat, j: nat)
    requires Chain(history) && i <= j < |history| && KeyLost(history[i]) && history[i].acting.None?
    ensures
      || (KeyLost(history[j]) && SamePin(history[i], history[j]) && !history[j].cleaned)
      || (exists k :: i <= k < j && (Unpins(history[k], history[k + 1]) || Forgotten(history[k], history[k + 1])))
    decreases j
  {
    hide Chain, Good, Step, KeyLost, SamePin, Unpins, Forgotten;
    ChainAt(history, j);
    if i == j {
      LostNow(history[i]);
    } else {
      LostSince(history, i, j - 1);
      ChainAt(history, j - 1);
      if KeyLost(history[j - 1]) && SamePin(history[i], history[j - 1]) && !history[j - 1].cleaned
        && !Unpins(history[j - 1], history[j]) && !Forgotten(history[j - 1], history[j]) {
        StaysLost(history[j - 1], history[j]);
        StillSame(history[i], history[j - 1], history[j]);
      }
    }
  }

  lemma LostNow(s: State)
    requires Good(s) && s.acting.None? && KeyLost(s)
    ensures SamePin(s, s) && !s.cleaned
  {
  }

  lemma StillSame(s: State, t: State, u: State)
    requires SamePin(s, t) && SamePin(t, u)
    ensures SamePin(s, u)
  {
  }

  lemma StaysLost(s: State, t: State)
    requires Good(s) && Step(s, t) && KeyLost(s) && !s.cleaned && !Unpins(s, t) && !Forgotten(s, t)
    ensures KeyLost(t) && SamePin(s, t) && !t.cleaned
  {
    assert PinMinted(s, s.record.value);
    hide Good;
    Removal.StaysStuck(s, t, s.record.value);
  }

  // ---------- How often a setup ran ----------

  /** The steps from `i` to `j` at which one did. */
  ghost function Successes(history: seq<State>, i: nat, j: nat): nat
    requires i <= j < |history|
    decreases j
  {
    if i == j then 0
    else Successes(history, i, j - 1) + if SetupSucceeds(history[j - 1], history[j]) then 1 else 0
  }

  /** `runs`, in which the contracts of start and setup are stated, counts exactly those steps of a history. */
  lemma {:induction false} RunsCountsSuccesses(history: seq<State>, i: nat, j: nat)
    requires Chain(history) && i <= j < |history|
    ensures history[j].runs == history[i].runs + Successes(history, i, j)
    decreases j
  {
    hide Chain, Good, SetupSucceeds, Step;
    if i < j {
      RunsCountsSuccesses(history, i, j - 1);
      ChainAt(history, j);
      TrailMoved(history[j - 1], history[j]);
      RunCounted(history[j - 1], history[j]);
    }
  }

  lemma RunCounted(s: State, t: State)
    requires TrailMoves(s, t)
    ensures t.runs == s.runs + if SetupSucceeds(s, t) then 1 else 0
  {
    hide Marks;
  }

  // ---------- Ready and what runs ----------

  /** The trail has this mark from `d` on, and `d` is the step that set it. */
  ghost predicate Since(history: seq<State>, d: nat, j: nat, mark: Trail) {
    && 0 < d <= j < |history| && history[d - 1].trail != mark
    && forall k :: d <= k <= j ==> history[k].trail == mark
  }

  lemma {:induction false} MarkedSince(history: seq<State>, j: nat, mark: Trail) returns (d: nat)
    requires j < |history| && history[0].trail == Plain && history[j].trail == mark != Plain
    ensures Since(history, d, j, mark)
  {
    d := j;
    if history[j - 1].trail == mark {
      d := MarkedSince(history, j - 1, mark);
    }
  }

  /** How a Ready record is saved over a stopped container: a command succeeded in the running container
      at step `a`, the save of its result failed at `b`, the container was stopped at `c`, and at `d`
      Ready was saved all the same. From `a` on no container was started, up to `d` nothing was saved, and
      since then nothing but Ready. */
  ghost predicate LosesReadiness(history: seq<State>, j: nat, a: nat, b: nat, c: nat, d: nat) {
    && 0 < a < b < c < d <= j < |history|
    && Since(history, a, b - 1, Ran) && Since(history, b, c - 1, Missed)
    && Since(history, c, d - 1, Halted) && Since(history, d, j, Lost)
    && SavedRuns(history[a - 1]) && history[a] == history[a - 1].(trail := Ran, runs := history[a].runs)
    && history[b] == history[b - 1].(trail := Missed)
    && history[c] == history[c - 1].(trail := Halted, containers := history[c].containers) && !SavedRuns(history[c])
    && history[d] == history[d - 1].(trail := Lost, record := history[d].record)
    && (forall k :: a <= k <= j ==> NoStart(history[k - 1], history[k]))
    && (forall k :: a <= k < d ==> history[k].record == history[a - 1].record)
    && (forall k :: d <= k <= j ==> history[k].record.Some? && history[k].record.value.status == Ready)
  }

  /** Under a mark nothing is saved, but Ready again under the last one, and nothing is started. */
  lemma {:induction false} MarkedQuiet(history: seq<State>, d: nat, j: nat, mark: Trail)
    requires Chain(history) && Since(history, d, j, mark) && mark != Plain && history[j].record.Some?
    ensures forall k :: d < k <= j ==> NoStart(history[k - 1], history[k])
    ensures forall k :: d <= k <= j ==> history[k].record.Some? && (mark != Lost ==> history[k].record == history[j].record)
    decreases j
  {
    hide Chain, Good, Step, NoStart, TrailMoves;
    if d < j {
      ChainAt(history, j);
      TrailMoved(history[j - 1], history[j]);
      MarkStays(history[j - 1], history[j]);
      StillSince(history, d, j, mark);
      MarkedQuiet(history, d, j - 1, mark);
    }
  }

  lemma StillSince(history: seq<State>, d: nat, j: nat, mark: Trail)
    requires Since(history, d, j, mark) && d < j
    ensures Since(history, d, j - 1, mark) && history[j - 1].trail == history[j].trail == mark
  {
  }

  lemma MarkStays(s: State, t: State)
    requires TrailMoves(s, t) && t.trail == s.trail != Plain && t.record.Some?
    ensures NoStart(s, t) && s.record.Some? && (t.trail != Lost ==> t.record == s.record)
  {
    hide Marks, SetupSucceeds, NoStart;
    if SetupSucceeds(s, t) {
      SuccessStays(s, t);
    } else {
      OtherStays(s, t);
    }
  }

  lemma SuccessStays(s: State, t: State)
    requires SetupSucceeds(s, t)
    ensures NoStart(s, t) && t.record == s.record
  {
  }

  lemma OtherStays(s: State, t: State)
    requires Marks(s, t) && t.trail == s.trail != Plain && t.record.Some?
    ensures NoStart(s, t) && s.record.Some? && (t.trail != Lost ==> t.record == s.record)
  {
  }

  lemma TrailMoved(s: State, t: State)
    requires Step(s, t)
    ensures TrailMoves(s, t)
  {
    hide BornOfItsKey, JournalGrows, ContainersGuarded, EffectJournalled, StaleByForgetting, Births, KeysFresh,
      PinKept, CleanedMoves, TrailMoves;
  }

  lemma {:induction false} LostStaysReady(history: seq<State>, d: nat, j: nat)
    requires Chain(history) && Since(history, d, j, Lost) && forall k :: d <= k <= j ==> history[k].record.Some?
    ensures forall k :: d <= k <= j ==> history[k].record.Some? && history[k].record.value.status == Ready
  {
    forall k | d <= k <= j ensures history[k].record.Some? && history[k].record.value.status == Ready {
      ChainAt(history, k);
      assert ReadyRuns(history[k], history[k].record.value);
    }
  }

  /** In every reachable state with a saved Ready record, its container does not run if and only if the
      run came there in that one way. */
  lemma {:induction false} ReadyStopsIff(history: seq<State>, j: nat)
    requires Chain(history) && j < |history| && history[0].trail == Plain
    requires history[j].record.Some? && history[j].record.value.status == Ready
    ensures !SavedRuns(history[j]) <==> exists a, b, c, d :: LosesReadiness(history, j, a, b, c, d)
  {
    hide Good, Chain, LosesReadiness, SavedRuns;
    ChainAt(history, j);
    ReadyStopsNow(history[j]);
    if history[j].trail == Lost {
      var a, b, c, d := LostPath(history, j);
    } else {
      forall a, b, c, d ensures !LosesReadiness(history, j, a, b, c, d) {
        if LosesReadiness(history, j, a, b, c, d) {
          EndsLost(history, j, a, b, c, d);
        }
      }
    }
  }

  lemma EndsLost(history: seq<State>, j: nat, a: nat, b: nat, c: nat, d: nat)
    requires LosesReadiness(history, j, a, b, c, d)
    ensures history[j].trail == Lost
  {
  }

  lemma LostPath(history: seq<State>, j: nat) returns (a: nat, b: nat, c: nat, d: nat)
    requires Chain(history) && j < |history| && history[0].trail == Plain && history[j].trail == Lost
    requires history[j].record.Some?
    ensures LosesReadiness(history, j, a, b, c, d)
  {
    hide Good, Chain, NoStart;
    d := Marked(history, j, Lost);
    LostStaysReady(history, d, j);
    c := Marked(history, d - 1, Halted);
    b := Marked(history, c - 1, Missed);
    a := Marked(history, b - 1, Ran);
  }

  /** The step that set the mark is the call it stands for, and it stays while all is quiet. */
  lemma Marked(history: seq<State>, j: nat, mark: Trail) returns (d: nat)
    requires Chain(history) && j < |history| && history[0].trail == Plain && history[j].trail == mark != Plain
    requires history[j].record.Some?
    ensures Since(history, d, j, mark) && SetBy(history[d - 1], history[d], mark)
    ensures forall k :: d <= k <= j ==> NoStart(history[k - 1], history[k]) && history[k].record.Some?
    ensures mark != Lost ==> forall k :: d <= k <= j ==> history[k].record == history[d - 1].record
  {
    hide Good, Chain, NoStart, Step, TrailMoves, SetBy;
    d := MarkedSince(history, j, mark);
    MarkedQuiet(history, d, j, mark);
    ChainAt(history, d);
    TrailMoved(history[d - 1], history[d]);
    MarkSet(history[d - 1], history[d]);
  }

  /** The call that the mark stands for. */
  ghost predicate SetBy(s: State, t: State, mark: Trail) {
    match mark
    case Plain => true
    case Ran => t == s.(trail := Ran, runs := t.runs) && SavedRuns(s)
    case Missed => s.trail == Ran && t == s.(trail := Missed)
    case Halted => s.trail == Missed && t == s.(trail := Halted, containers := t.containers) && !SavedRuns(t)
    case Lost => s.trail == Halted && t == s.(trail := Lost, record := t.record) && s.record.Some?
  }

  lemma MarkSet(s: State, t: State)
    requires TrailMoves(s, t) && t.trail != s.trail && t.trail != Plain
    ensures SetBy(s, t, t.trail) && NoStart(s, t) && (t.trail != Lost ==> t.record == s.record)
  {
  }

  lemma ReadyStopsNow(s: State)
    requires Good(s) && s.record.Some? && s.record.value.status == Ready
    ensures !SavedRuns(s) <==> s.trail == Lost
  {
    assert IntentFirst(s, s.record.value) && Anchored(s, s.record.value) && OwnReference(s, s.record.value);
  }

  // ---------- The record ----------

  /** Write-ahead intent, at every crash point of every run: a container made for the record runs
      only if the saved status is neither Creating nor Stopped. */
  lemma {:induction false} RunsOnlyByIntent(history: seq<State>, i: nat, c: ContainerId)
    requires Chain(history) && i < |history| && history[i].record.Some?
    requires c in history[i].born && c in history[i].containers && history[i].containers[c].running
    ensures history[i].record.value.status != Creating && history[i].record.value.status != Stopped
  {
    ChainAt(history, i);
    assert IntentFirst(history[i], history[i].record.value);
  }

  /** Bookkeeping, at every crash point: at most one unreleased socket, none when Stopped; until
      removal begins the fingerprint is set exactly when one known-hosts entry is unreleased; and no
      lease is recorded twice. */
  lemma {:induction false} BookkeepingHolds(history: seq<State>, i: nat)
    requires Chain(history) && i < |history| && history[i].record.Some?
    ensures var r := history[i].record.value;
      && |r.LiveOf(SshSocket)| <= 1
      && (r.status == Stopped ==> r.LiveOf(SshSocket) == [])
      && |r.LiveOf(KnownHosts)| <= 1
      && (!history[i].removing ==> (r.fingerprint.Some? <==> |r.LiveOf(KnownHosts)| == 1))
      && LeasesDistinct(r.resources)
  {
    ChainAt(history, i);
    assert HostKeyBooked(history[i].removing, history[i].record.value);
  }
}
