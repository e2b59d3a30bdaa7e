/** When a copy of the record held in memory may be saved, and what touching its mounts keeps. */
module Records {
  import opened Options
  import opened Store
  import opened Worlds

  /** What every in-memory copy of the record satisfies, whatever its status. */
  ghost predicate Sound(s: State, r: Record) {
    && s.record.Some? && s.record.value.subject == r.subject && r.subject.id == s.id
    && PinCarried(s, r)
    && OwnReference(s, r)
    && |r.LiveOf(SshSocket)| <= 1
    && HostKeyBooked(s.removing, r)
    && PinMinted(s, r)
    && LeasesDistinct(r.resources)
    && LeasesFit(s, r)
  }

  lemma SoundNow(s: State)
    requires Good(s) && s.record.Some?
    ensures Sound(s, s.record.value) && Savable(s, s.record.value)
    ensures s.record.value.subject.id == s.id
  {
    assert IntentFirst(Saved(s, s.record.value), s.record.value);
  }

  /** Soundness depends on little of the state. */
  lemma SoundStays(s: State, t: State, r: Record)
    requires Sound(s, r)
    requires t.id == s.id && t.journal == s.journal && t.acting == s.acting && s.born <= t.born && (s.removing ==> t.removing)
    requires s.keys.minted <= t.keys.minted
    requires forall c :: c in s.born && c in t.containers ==>
      c in s.containers && t.containers[c].labels == s.containers[c].labels
    requires t.record == s.record || (t.record.Some? && t.record.value.subject == r.subject && PinCarried(t, r))
    ensures Sound(t, r)
  {
  }

  lemma SoundSavable(s: State, r: Record)
    requires Sound(s, r)
    requires r.status == Error || r.status == Removing
    ensures Savable(s, r)
  {
    hide LeasesDistinct, NoLeases, Live;
  }

  /** A status with a container behind it. */
  lemma BackedSavable(s: State, r: Record)
    requires Sound(s, r)
    requires r.status in {Starting, Setup, SetupFailed, Stopping} && Anchored(s, r)
    ensures Savable(s, r)
  {
    hide LeasesDistinct, NoLeases, Live;
  }

  /** Ready may be saved over a running container, and at the end of the trail. */
  lemma ReadySavable(s: State, r: Record)
    requires Good(s) && Sound(s, r)
    requires r.status == Ready && Anchored(s, r) && (Runs(s, r) || Down(s.trail))
    ensures Savable(s, r)
  {
    assert IntentFirst(s, s.record.value);
  }

  lemma StoppedSavable(s: State, r: Record)
    requires Good(s) && Sound(s, r)
    requires r.status == Stopped && Anchored(s, r) && !s.containers[r.ref.value.container].running
    requires r.LiveOf(SshSocket) == []
    ensures Savable(s, r)
  {
    forall c | c in s.born && c in s.containers
      ensures !s.containers[c].running
    {
      SoleContainer(s, c, r.ref.value.container);
    }
  }

  /** The engine never holds two containers that were made for one life of the record. */
  lemma SoleContainer(s: State, c: ContainerId, d: ContainerId)
    requires Good(s) && c in s.born && d in s.born && c in s.containers && d in s.containers
    ensures c == d
  {
  }

  // ---------- Mount entries ----------

  /** Entries of other kinds are as they were; mounts may have changed and more may follow. */
  ghost predicate MountsAside(before: seq<Resource>, after: seq<Resource>) {
    && |before| <= |after|
    && (forall i :: 0 <= i < |before| ==>
          if before[i].Kind() == Mount then after[i].Kind() == Mount else after[i] == before[i])
    && (forall i :: |before| <= i < |after| ==> after[i].Kind() == Mount)
  }

  lemma {:induction false} OnlyMountsLive(resources: seq<Resource>, kind: Kind)
    requires kind != Mount && forall r :: r in resources ==> r.Kind() == Mount
    ensures Live(resources, kind) == []
  {
    if resources != [] {
      OnlyMountsLive(resources[1..], kind);
    }
  }

  lemma {:induction false} MountsAsideLive(before: seq<Resource>, after: seq<Resource>, kind: Kind)
    requires MountsAside(before, after) && kind != Mount
    ensures Live(after, kind) == Live(before, kind)
  {
    if before == [] {
      OnlyMountsLive(after, kind);
    } else {
      MountsAsideLive(before[1..], after[1..], kind);
    }
  }

  lemma MountsAsideSound(s: State, r: Record, after: seq<Resource>)
    requires Sound(s, r) && MountsAside(r.resources, after)
    ensures Sound(s, r.(resources := after))
  {
    MountsAsideLive(r.resources, after, SshSocket);
    MountsAsideLive(r.resources, after, KnownHosts);
  }

  lemma MountsAsideSavable(s: State, r: Record, after: seq<Resource>)
    requires Savable(s, r) && MountsAside(r.resources, after)
    ensures Savable(s, r.(resources := after))
  {
    MountsAsideLive(r.resources, after, SshSocket);
    MountsAsideLive(r.resources, after, KnownHosts);
    assert IntentFirst(Saved(s, r.(resources := after)), r.(resources := after));
  }

  lemma ReleasedMounts(resources: seq<Resource>)
    ensures MountsAside(resources, ReleasedAll(resources, Mount))
  {
  }

  /** Unreleased mounts get the quarantine flag after a failed unmount. */
  method QuarantineMounts(resources: seq<Resource>) returns (r: seq<Resource>)
    ensures |r| == |resources| && MountsAside(resources, r)
    ensures forall i :: 0 <= i < |resources| ==>
      r[i] == if resources[i].Active(Mount) then resources[i].(quarantined := true) else resources[i]
  {
    r := resources;
    for index := 0 to |resources|
      invariant |r| == |resources|
      invariant forall i :: 0 <= i < index ==>
        r[i] == if resources[i].Active(Mount) then resources[i].(quarantined := true) else resources[i]
      invariant forall i :: index <= i < |resources| ==> r[i] == resources[i]
    {
      if r[index].Active(Mount) {
        r := r[index := r[index].(quarantined := true)];
      }
    }
  }
}
