/** Reconciling a record with what is really there (internal/workspace/service.go). */
module Reconcile {
  import opened Options
  import opened Store
  import opened Worlds
  import opened Records
  import Overlays

  /** What `validateExternalResource` finds: the recorded object, nothing, or something else. */
  datatype Verdict = Matched | Missing | Mismatched

  /** `ReconcileReport`; entries of the record are named by their index, the container by `runtime`. */
  datatype Report = Report(runtime: Option<Verdict>, matched: seq<nat>, missing: seq<nat>, quarantined: seq<nat>)
  {
    predicate Clean() {
      quarantined == [] && runtime != Some(Mismatched)
    }
  }

  predicate Ascending(indexes: seq<nat>, bound: nat) {
    && (forall i :: 0 <= i < |indexes| ==> indexes[i] < bound)
    && (forall i, j :: 0 <= i < j < |indexes| ==> indexes[i] < indexes[j])
  }

  /** Of the first `n` entries each unreleased one is in exactly one of the lists, once, and flagged
      exactly when that is the list of quarantined ones; released entries are in none and unchanged. */
  ghost predicate Partitioned(given: seq<Resource>, after: seq<Resource>, report: Report, n: nat)
    requires n <= |given|
  {
    && |after| == |given|
    && Ascending(report.matched, n) && Ascending(report.missing, n) && Ascending(report.quarantined, n)
    && (forall i :: 0 <= i < |given| ==> after[i] == given[i].(quarantined := after[i].quarantined))
    && (forall i :: n <= i < |given| ==> after[i] == given[i])
    && (forall i :: 0 <= i < n ==> Placed(given[i], after[i], report, i))
  }

  ghost predicate Placed(given: Resource, after: Resource, report: Report, i: nat) {
    if given.released then
      after == given && i !in report.matched && i !in report.missing && i !in report.quarantined
    else
      && (after.quarantined <==> i in report.quarantined)
      && (i in report.matched ==> i !in report.missing && i !in report.quarantined)
      && (i in report.missing ==> i !in report.quarantined)
      && (i in report.matched || i in report.missing || i in report.quarantined)
  }

  function Entered(report: Report, i: nat, verdict: Verdict): Report {
    match verdict
    case Matched => report.(matched := report.matched + [i])
    case Missing => report.(missing := report.missing + [i])
    case Mismatched => report.(quarantined := report.quarantined + [i])
  }

  lemma PartitionGrows(given: seq<Resource>, before: seq<Resource>, report: Report, n: nat, verdict: Verdict)
    requires n < |given| && Partitioned(given, before, report, n) && !given[n].released
    ensures Partitioned(given, before[n := given[n].(quarantined := verdict == Mismatched)], Entered(report, n, verdict), n + 1)
  {
    var after := before[n := given[n].(quarantined := verdict == Mismatched)];
    var entered := Entered(report, n, verdict);
    assert n in entered.matched + entered.missing + entered.quarantined;
    forall i | 0 <= i < n ensures Placed(given[i], after[i], entered, i) {
      assert Placed(given[i], before[i], report, i);
    }
  }

  lemma PartitionSkips(given: seq<Resource>, after: seq<Resource>, report: Report, n: nat)
    requires n < |given| && Partitioned(given, after, report, n) && given[n].released
    ensures Partitioned(given, after, report, n + 1)
  {
  }

  // ---------- Saving what was found ----------

  /** The record with other quarantine flags, and perhaps in Error. */
  ghost predicate FlagsOnly(given: Record, r: Record) {
    && r == given.(status := r.status, quarantined := r.quarantined, resources := r.resources)
    && (r.status == given.status || r.status == Error)
    && |r.resources| == |given.resources|
    && forall i :: 0 <= i < |given.resources| ==>
         r.resources[i] == given.resources[i].(quarantined := r.resources[i].quarantined)
  }

  lemma {:induction false} FlagsLive(a: seq<Resource>, b: seq<Resource>, kind: Kind)
    requires |a| == |b| && forall i :: 0 <= i < |a| ==> b[i] == a[i].(quarantined := b[i].quarantined)
    ensures |Live(b, kind)| == |Live(a, kind)|
  {
    if a != [] {
      FlagsLive(a[1..], b[1..], kind);
    }
  }

  lemma FlagsSavable(s: State, given: Record, r: Record)
    requires Good(s) && s.record == Some(given) && FlagsOnly(given, r)
    ensures Savable(s, r)
  {
    hide Live;
    FlagsLive(given.resources, r.resources, SshSocket);
    FlagsLive(given.resources, r.resources, KnownHosts);
    SoundNow(s);
    assert Sound(s, r);
    if r.status == Error {
      SoundSavable(s, r);
    } else {
      SameStatusSavable(s, given, r);
    }
  }

  lemma SameStatusSavable(s: State, given: Record, r: Record)
    requires Good(s) && s.record == Some(given) && Sound(s, r)
    requires r == given.(quarantined := r.quarantined, resources := r.resources)
    requires |r.LiveOf(SshSocket)| == |given.LiveOf(SshSocket)|
    ensures Savable(s, r)
  {
    assert IntentFirst(Saved(s, r), r);
  }

  // ---------- The reconciliation ----------

  /** The mount or the known-hosts line is there as recorded. */
  predicate Present(s: State, identity: Identity) {
    match identity
    case MountIdentity(point, id) => point in s.mounts && s.mounts[point] == id
    case KnownHostIdentity(line) => s.knownHosts == Some(line)
    case SocketIdentity(_) => true
    case LeaseIdentity(_, _) => true
  }

  predicate Absent(s: State, identity: Identity) {
    match identity
    case MountIdentity(point, id) => point !in s.mounts
    case KnownHostIdentity(line) => s.knownHosts.None?
    case SocketIdentity(_) => true
    case LeaseIdentity(_, _) => true
  }

  /** The report says of no entry that it matched or is missing when it is not so. */
  ghost predicate Truthful(s: State, given: seq<Resource>, report: Report) {
    && (forall i :: i in report.matched ==> i < |given| && Present(s, given[i].identity))
    && (forall i :: i in report.missing ==> i < |given| && Absent(s, given[i].identity))
  }

  /** A mount or a known-hosts line: what can be looked up here. */
  predicate Checked(identity: Identity) {
    identity.MountIdentity? || identity.KnownHostIdentity?
  }

  /** Of the first `n` entries, those that can be looked up are in the list where they belong. */
  ghost predicate Exactly(s: State, given: seq<Resource>, report: Report, n: nat)
    requires n <= |given|
  {
    forall i :: 0 <= i < n && !given[i].released && Checked(given[i].identity) ==>
      (i in report.matched <==> Present(s, given[i].identity)) && (i in report.missing <==> Absent(s, given[i].identity))
  }

  lemma ExactGrows(s: State, given: seq<Resource>, after: seq<Resource>, report: Report, n: nat, verdict: Verdict)
    requires n < |given| && Partitioned(given, after, report, n) && !given[n].released && Exactly(s, given, report, n)
    requires Checked(given[n].identity) ==>
      (verdict == Matched <==> Present(s, given[n].identity)) && (verdict == Missing <==> Absent(s, given[n].identity))
    ensures Exactly(s, given, Entered(report, n, verdict), n + 1)
  {
  }

  lemma ExactSkips(s: State, given: seq<Resource>, report: Report, n: nat)
    requires n < |given| && given[n].released && Exactly(s, given, report, n)
    ensures Exactly(s, given, report, n + 1)
  {
  }

  lemma TruthGrows(s: State, given: seq<Resource>, report: Report, n: nat, verdict: Verdict)
    requires n < |given| && Truthful(s, given, report)
    requires verdict == Matched ==> Present(s, given[n].identity)
    requires verdict == Missing ==> Absent(s, given[n].identity)
    ensures Truthful(s, given, Entered(report, n, verdict))
  {
  }

  /** `validateExternalResource`. What becomes of sockets is up to the environment. */
  method Examine(w: World, resource: Resource) returns (out: Outcome, verdict: Verdict)
    requires w.Valid()
    modifies w
    ensures w.Went(out) && w.s == old(w.s) && out != Fail
    ensures out == Ok && verdict == Matched ==> Present(w.s, resource.identity)
    ensures out == Ok && verdict == Missing ==> Absent(w.s, resource.identity)
    ensures out == Ok && w.reliable && Checked(resource.identity) ==>
      (verdict == Matched <==> Present(w.s, resource.identity)) && (verdict == Missing <==> Absent(w.s, resource.identity))
  {
    hide Chain, Good;
    out := w.Try();
    if out == Fail {
      return Ok, Mismatched;
    }
    if resource.identity.MountIdentity? {
      verdict := if resource.identity.point !in w.s.mounts then Missing
                 else if w.s.mounts[resource.identity.point] == resource.identity.mountID then Matched else Mismatched;
    } else if resource.identity.KnownHostIdentity? {
      verdict := if w.s.knownHosts.None? then Missing
                 else if w.s.knownHosts == Some(resource.identity.line) then Matched else Mismatched;
    } else {
      verdict := *;
    }
  }

  /** The loop over the entries of the record. */
  method ExamineAll(w: World, given: seq<Resource>, runtime: Option<Verdict>)
    returns (out: Outcome, after: seq<Resource>, report: Report)
    requires w.Valid()
    modifies w
    ensures w.Went(out) && w.s == old(w.s) && out != Fail
    ensures out == Ok ==> Partitioned(given, after, report, |given|) && report.runtime == runtime
    ensures out == Ok ==> Truthful(w.s, given, report)
    ensures out == Ok && w.reliable ==> Exactly(w.s, given, report, |given|)
  {
    hide Chain, Good, Partitioned;
    after, report := given, Report(runtime, [], [], []);
    PartitionStarts(given, runtime);
    assert Truthful(w.s, given, report) && Exactly(w.s, given, report, 0);
    hide Truthful, Exactly, Present, Absent;
    for index := 0 to |given|
      invariant w.Went(Ok) && w.s == old(w.s)
      invariant Partitioned(given, after, report, index) && report.runtime == runtime
      invariant Truthful(w.s, given, report)
      invariant w.reliable ==> Exactly(w.s, given, report, index)
    {
      EntryAhead(given, after, report, index);
      if given[index].released {
        PartitionSkips(given, after, report, index);
        if w.reliable {
          ExactSkips(w.s, given, report, index);
        }
        continue;
      }
      var verdict;
      out, verdict := Examine(w, after[index]);
      if out == Crash {
        return;
      }
      if w.reliable {
        ExactGrows(w.s, given, after, report, index, verdict);
      }
      PartitionGrows(given, after, report, index, verdict);
      TruthGrows(w.s, given, report, index, verdict);
      after := after[index := after[index].(quarantined := verdict == Mismatched)];
      report := Entered(report, index, verdict);
    }
    out := Ok;
  }

  lemma PartitionStarts(given: seq<Resource>, runtime: Option<Verdict>)
    ensures Partitioned(given, given, Report(runtime, [], [], []), 0)
  {
  }

  lemma EntryAhead(given: seq<Resource>, after: seq<Resource>, report: Report, n: nat)
    requires n < |given| && Partitioned(given, after, report, n)
    ensures |after| == |given| && after[n] == given[n]
  {
  }

  ghost predicate ContainerGone(s: State, r: Record) {
    r.ref.Some? && r.ref.value.container !in s.containers
  }

  /** The container of the record, if it has one. */
  method ExamineRuntime(w: World, given: Record) returns (out: Outcome, verdict: Option<Verdict>)
    requires w.Valid()
    modifies w
    ensures w.Went(out) && w.s == old(w.s) && (w.reliable ==> out != Fail)
    ensures out == Ok ==> (verdict.Some? <==> given.ref.Some?)
    ensures out == Ok && verdict == Some(Matched) ==>
      given.ref.value.container in w.s.containers && Matches(given, w.s.containers[given.ref.value.container])
    ensures out == Ok ==> (verdict == Some(Missing) <==> ContainerGone(w.s, given))
  {
    hide Chain, Good;
    verdict := None;
    out := Ok;
    if given.ref.Some? {
      var found;
      out, found := w.Inspect(given.ref.value.container);
      verdict := Some(if found.None? then Missing else if Matches(given, found.value) then Matched else Mismatched);
    }
  }

  /** The record after a reconciliation that found `report`. */
  function Reconciled(given: Record, after: seq<Resource>, report: Report): (r: Record)
    ensures r.quarantined <==> !report.Clean()
    ensures r == given.(status := r.status, quarantined := r.quarantined, resources := after)
    ensures r.status == given.status || r.status == Error
  {
    var lost := report.runtime == Some(Missing) && !Terminal(given.status) && given.status != Removing;
    var r := given.(resources := after, quarantined := !report.Clean());
    if lost || !report.Clean() then r.To(Error) else r
  }

  lemma ReconciledFlags(given: Record, after: seq<Resource>, report: Report)
    requires Partitioned(given.resources, after, report, |given.resources|)
    ensures FlagsOnly(given, Reconciled(given, after, report))
  {
  }

  /** The status after a clean reconciliation: Error when the container is gone under a record that is neither
      settled nor being removed. */
  ghost function StatusAfter(s: State, r: Record): Status {
    if ContainerGone(s, r) && !Terminal(r.status) && r.status != Removing then Error else r.status
  }

  /** `reconcileLocked`. The report partitions the unreleased entries and agrees with their flags. It
      succeeds exactly on a clean report, and then the saved record is not quarantined. */
  method ReconcileLocked(w: World, given: Record) returns (out: Outcome, r: Record, report: Report)
    requires w.Valid() && MayAct(w.s) && w.s.record == Some(given)
    modifies w
    ensures w.Went(out) && w.s == old(w.s).(record := w.s.record, trail := w.s.trail, removing := w.s.removing)
    ensures w.s.record.Some? && FlagsOnly(given, w.s.record.value)
    ensures out == Ok ==>
      && report.Clean() && w.s.record == Some(r) && !r.quarantined
      && Partitioned(given.resources, r.resources, report, |given.resources|)
      && Truthful(w.s, given.resources, report)
    ensures out == Ok ==> r.status == StatusAfter(old(w.s), given)
    ensures out == Fail && w.reliable ==> r.status == Error
    ensures out == Ok && w.reliable ==> Exactly(old(w.s), given.resources, report, |given.resources|)
    ensures out == Fail && w.s.record == Some(r) && r != given ==>
      Partitioned(given.resources, r.resources, report, |given.resources|) && (r.quarantined <==> !report.Clean())
    ensures out == Fail && w.reliable ==> !report.Clean() && w.s.record == Some(r) && r.quarantined
  {
    hide Chain, Good, Savable, Partitioned, FlagsOnly;
    FlagsRefl(given);
    var runtime, after;
    r, report := given, Report(None, [], [], []);
    out, runtime := ExamineRuntime(w, given);
    if out != Ok {
      return;
    }
    out, after, report := ExamineAll(w, given.resources, runtime);
    if out == Ok {
      ghost var s := w.s;
      out, r := SaveFindings(w, given, after, report);
      StillTruthful(s, w.s, given.resources, report);
    }
  }

  method SaveFindings(w: World, given: Record, after: seq<Resource>, report: Report) returns (out: Outcome, r: Record)
    requires w.Valid() && MayAct(w.s) && w.s.record == Some(given)
    requires Partitioned(given.resources, after, report, |given.resources|)
    modifies w
    ensures w.Went(out) && w.s == old(w.s).(record := w.s.record, trail := w.s.trail, removing := w.s.removing)
    ensures w.s.record.Some? && FlagsOnly(given, w.s.record.value)
    ensures r == Reconciled(given, after, report)
    ensures out == Ok ==> report.Clean() && w.s.record == Some(r)
    ensures out == Fail && w.reliable ==> !report.Clean() && w.s.record == Some(r)
  {
    hide Chain, Good, Savable, Partitioned, FlagsOnly, Reconciled;
    ReconciledFlags(given, after, report);
    r := Reconciled(given, after, report);
    out := SaveFlags(w, given, r);
    if out == Ok && !report.Clean() {
      out := Fail;
    }
  }

  /** Saves the record if anything changed. */
  method SaveFlags(w: World, given: Record, r: Record) returns (out: Outcome)
    requires w.Valid() && MayAct(w.s) && w.s.record == Some(given) && FlagsOnly(given, r)
    modifies w
    ensures w.Went(out) && w.s == old(w.s).(record := w.s.record, trail := w.s.trail, removing := w.s.removing)
    ensures w.s.record.Some? && FlagsOnly(given, w.s.record.value)
    ensures out == Ok ==> w.s.record == Some(r)
    ensures out == Fail ==> !w.reliable
  {
    hide Chain, Good, Savable, FlagsOnly;
    FlagsRefl(given);
    out := Ok;
    if r != given {
      FlagsSavable(w.s, given, r) by { w.GoodNow(); }
      out := w.SaveRecord(r);
    }
  }

  lemma FlagsRefl(r: Record)
    ensures FlagsOnly(r, r)
  {
  }

  lemma StillTruthful(s: State, t: State, given: seq<Resource>, report: Report)
    requires t.mounts == s.mounts && t.knownHosts == s.knownHosts
    ensures Truthful(s, given, report) ==> Truthful(t, given, report)
  {
  }

  /** `Reconcile` of one workspace, whatever its status. */
  method ReconcileLoaded(w: World) returns (out: Outcome)
    requires w.Valid() && w.s.acting.None?
    modifies w
    ensures w.Went(out) && w.s.acting.None?
    ensures w.s == old(w.s).(record := w.s.record, trail := w.s.trail, removing := w.s.removing)
    ensures old(w.s).record.Some? ==> w.s.record.Some? && FlagsOnly(old(w.s).record.value, w.s.record.value)
    ensures old(w.s).record.None? ==> w.s.record.None? && out != Ok
    ensures out == Ok ==> w.s.record.Some? && !w.s.record.value.quarantined
    ensures out == Fail && w.reliable && w.s.record.Some? ==> w.s.record.value.quarantined
  {
    hide Chain, Good, FlagsOnly, Partitioned, Truthful;
    out := w.Try();  // load the record
    if out == Ok && w.s.record.None? {
      out := Fail;
    }
    if w.s.record.Some? {
      FlagsRefl(w.s.record.value);
    }
    if out == Ok {
      var r, report;
      out, r, report := ReconcileLocked(w, w.s.record.value);
    }
  }

  // ---------- All workspaces ----------

  /** The saved record of the workspace is quarantined. */
  predicate Quarantined(s: State) {
    s.record.Some? && s.record.value.quarantined
  }

  /** `ReconcileAll` over the listed workspaces, none of which anyone else changes meanwhile: it
      returns no error only if none of them is left quarantined. */
  method ReconcileAll(worlds: seq<World>) returns (out: Outcome)
    requires forall i, j :: 0 <= i < j < |worlds| ==> worlds[i] != worlds[j]
    requires forall w :: w in worlds ==> w.Valid() && w.s.acting.None?
    modifies set w | w in worlds
    ensures forall w :: w in worlds ==> w.Valid() && old(w.history) <= w.history
    ensures out == Ok ==> forall w :: w in worlds ==> !Quarantined(w.s)
  {
    hide Chain, Good;
    for index := 0 to |worlds|
      invariant forall w :: w in worlds ==> w.Valid() && w.s.acting.None? && old(w.history) <= w.history
      invariant forall i :: 0 <= i < index ==> !Quarantined(worlds[i].s)
    {
      var w := worlds[index];
      out := ReconcileListed(w);
      if out != Ok {
        return;
      }
    }
    out := Ok;
  }

  /** One listed workspace: a settled one is only asked for its flag, any other is reconciled. */
  method ReconcileListed(w: World) returns (out: Outcome)
    requires w.Valid() && w.s.acting.None?
    modifies w
    ensures w.Went(out) && w.s.acting.None?
    ensures out == Ok ==> !Quarantined(w.s)
  {
    hide Chain, Good, FlagsOnly, Partitioned, Truthful;
    if w.s.record.None? {
      return Ok;
    }
    var record := w.s.record.value;
    if Terminal(record.status) {
      return if record.quarantined then Fail else Ok;
    }
    var r, report;
    out, r, report := ReconcileLocked(w, record);
  }
}
