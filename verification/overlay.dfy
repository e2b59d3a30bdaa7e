/** Copy-on-write toolchain mounts: all of them, or each one's fallback, or none
    (internal/toolchain/overlay_linux.go). */
module Overlays {
  import opened Options
  import opened Store
  import opened Worlds

  /** `resources` holds an unreleased record of exactly this mount. */
  ghost predicate Claimed(resources: seq<Resource>, point: string, id: MountId) {
    exists r :: r in resources && r.Active(Mount) && r.identity == MountIdentity(point, id)
  }

  /** Everything in `before` is still mounted, unchanged, in `after`. */
  ghost predicate Untouched(before: map<string, MountId>, after: map<string, MountId>) {
    forall p :: p in before ==> p in after && after[p] == before[p]
  }

  /** Only the mount table and the ID counter may differ. */
  ghost predicate MountsOnly(s: State, t: State) {
    t == s.(mounts := t.mounts, nextId := t.nextId)
  }

  /** The resources pair with the overlays in order, each recording a mount on its merged path
      that is in `after` and was not in `before`; `after` holds nothing else that is new. */
  ghost predicate Paired(before: map<string, MountId>, after: map<string, MountId>,
                         overlays: seq<Overlay>, resources: seq<Resource>) {
    && |resources| == |overlays|
    && Untouched(before, after)
    && (forall i :: 0 <= i < |overlays| ==>
          && overlays[i].merged in after && overlays[i].merged !in before
          && resources[i] == Acquired(MountIdentity(overlays[i].merged, after[overlays[i].merged])))
    && (forall p :: p in after && p !in before ==> exists i :: 0 <= i < |overlays| && overlays[i].merged == p)
  }

  /** The mount bound to a target takes its files from `source`. */
  predicate Sourced(mounts: seq<BindMount>, target: string, source: string) {
    forall m :: m in mounts && m.target == target ==> m.source == source
  }

  predicate DistinctTargets(overlays: seq<Overlay>) {
    forall i, j :: 0 <= i < j < |overlays| ==> overlays[i].target != overlays[j].target
  }

  predicate DistinctMountTargets(mounts: seq<BindMount>) {
    forall i, j :: 0 <= i < j < |mounts| ==> mounts[i].target != mounts[j].target
  }

  /** The first mount with the target. */
  predicate FirstWith(mounts: seq<BindMount>, target: string, i: nat)
    requires i < |mounts|
  {
    mounts[i].target == target && forall j :: 0 <= j < i ==> mounts[j].target != target
  }

  /** `reconcile.FindMount`: reading the mount table may fail. */
  method FindMount(w: World, point: string) returns (out: Outcome, found: Option<MountId>)
    requires w.Valid()
    modifies w`crashes
    ensures w.Went(out) && w.Smooth(out)
    ensures w.reliable ==> out != Fail
    ensures out == Ok ==> found == if point in w.s.mounts then Some(w.s.mounts[point]) else None
  {
    out := w.Try();
    found := if point in w.s.mounts then Some(w.s.mounts[point]) else None;
  }

  /** Only the first mount with the target is redirected; every other one stays. */
  method ReplaceMountSource(mounts: seq<BindMount>, target: string, source: string) returns (r: seq<BindMount>)
    ensures |r| == |mounts|
    ensures forall i :: 0 <= i < |mounts| ==> r[i].target == mounts[i].target
    ensures forall i :: 0 <= i < |mounts| && mounts[i].target != target ==> r[i] == mounts[i]
    ensures DistinctMountTargets(mounts) ==> Sourced(r, target, source)
    ensures (forall i :: 0 <= i < |mounts| ==> mounts[i].target != target) ==> r == mounts
    ensures forall i :: 0 <= i < |mounts| && FirstWith(mounts, target, i) ==> r == mounts[i := BindMount(source, target)]
  {
    r := mounts;
    for index := 0 to |mounts|
      invariant r == mounts
      invariant forall i :: 0 <= i < index ==> mounts[i].target != target
    {
      if r[index].target == target {
        r := r[index := BindMount(source, target)];
        return;
      }
    }
  }

  /** A recorded mount point carries another mount than the recorded one. */
  ghost predicate Changed(resources: seq<Resource>, mounts: map<string, MountId>) {
    exists r :: r in resources && r.Active(Mount) && r.identity.point in mounts && mounts[r.identity.point] != r.identity.mountID
  }

  /** One recorded mount: gone already, taken down, or another mount that is left alone. */
  method UnmountRecorded(w: World, resource: Resource) returns (out: Outcome)
    requires w.Valid() && MayAct(w.s) && resource.Active(Mount)
    modifies w`s, w`history, w`crashes
    ensures w.Went(out) && w.s == old(w.s).(mounts := w.s.mounts)
    ensures var point, id := resource.identity.point, resource.identity.mountID;
      && (w.s.mounts == old(w.s).mounts
          || (point in old(w.s).mounts && old(w.s).mounts[point] == id && w.s.mounts == old(w.s).mounts - {point}))
      && (out == Ok ==> point !in w.s.mounts && (point in old(w.s).mounts ==> old(w.s).mounts[point] == id))
      && (out == Fail && w.reliable ==> point in w.s.mounts && point in old(w.s).mounts && old(w.s).mounts[point] != id)
  {
    hide Chain;
    var found;
    out, found := FindMount(w, resource.identity.point);
    if out == Ok && found.Some? {
      if found.value == resource.identity.mountID {
        out := w.Unmount(resource.identity.point);
      } else {
        out := Fail;
      }
    }
  }

  /** A recorded mount point carries another mount than the recorded one, and no later entry records that. */
  ghost predicate Stubborn(resources: seq<Resource>, mounts: map<string, MountId>) {
    exists i :: 0 <= i < |resources| && StubbornAt(resources, mounts, i)
  }

  ghost predicate StubbornAt(resources: seq<Resource>, mounts: map<string, MountId>, i: nat)
    requires i < |resources|
  {
    && resources[i].Active(Mount)
    && var point := resources[i].identity.point;
       point in mounts && mounts[point] != resources[i].identity.mountID && !Claimed(resources[i + 1..], point, mounts[point])
  }

  /** The entries from `n` on were dealt with: the mounts they claim are gone, and no others; none of them
      was stubborn unless one `failed`. */
  ghost predicate TakenDown(resources: seq<Resource>, n: nat, had: map<string, MountId>, has: map<string, MountId>,
    failed: bool)
    requires n <= |resources|
  {
    && (forall p :: p in had ==> (p in has <==> !Claimed(resources[n..], p, had[p])))
    && (failed <==> exists i :: n <= i < |resources| && StubbornAt(resources, had, i))
  }

  /** Only mounts that the resources claim are gone, and none has come. */
  ghost predicate ClaimedGone(resources: seq<Resource>, had: map<string, MountId>, has: map<string, MountId>) {
    && Untouched(has, had)
    && forall p :: p in had && p !in has ==> Claimed(resources, p, had[p])
  }

  lemma Gone(resources: seq<Resource>, had: map<string, MountId>, has: map<string, MountId>)
    requires ClaimedGone(resources, had, has)
    ensures Untouched(has, had) && forall p :: p in had && !Claimed(resources, p, had[p]) ==> p in has
  {
  }

  lemma StillClaimedGone(resources: seq<Resource>, a: map<string, MountId>, b: map<string, MountId>, c: map<string, MountId>)
    requires ClaimedGone(resources, a, b) && ClaimedGone(resources, b, c)
    ensures ClaimedGone(resources, a, c) && Untouched(b, a)
  {
  }

  lemma ClaimedFrom(resources: seq<Resource>, n: nat, p: string, id: MountId)
    requires n < |resources|
    ensures Claimed(resources[n..], p, id) <==>
      Claimed(resources[n + 1..], p, id) || (resources[n].Active(Mount) && resources[n].identity == MountIdentity(p, id))
  {
    assert resources[n..] == [resources[n]] + resources[n + 1..];
  }

  lemma NoneTakenDown(resources: seq<Resource>, mounts: map<string, MountId>)
    ensures TakenDown(resources, |resources|, mounts, mounts, false) && ClaimedGone(resources, mounts, mounts)
  {
    assert resources[|resources|..] == [];
  }

  lemma SkipsOne(resources: seq<Resource>, n: nat, had: map<string, MountId>, has: map<string, MountId>, failed: bool)
    requires n < |resources| && !resources[n].Active(Mount) && TakenDown(resources, n + 1, had, has, failed)
    ensures TakenDown(resources, n, had, has, failed)
  {
    forall p | p in had ensures p in has <==> !Claimed(resources[n..], p, had[p]) {
      ClaimedFrom(resources, n, p, had[p]);
    }
  }

  /** One more entry: its mount is gone now, or it is another one that stays. */
  lemma TakesOne(resources: seq<Resource>, n: nat, had: map<string, MountId>, before: map<string, MountId>,
                 has: map<string, MountId>, failed: bool, stays: bool)
    requires n < |resources| && resources[n].Active(Mount) && TakenDown(resources, n + 1, had, before, failed)
    requires Untouched(before, had) && Untouched(has, before)
    requires var point, id := resources[n].identity.point, resources[n].identity.mountID;
      && (stays <==> point in before && before[point] != id)
      && (forall p :: p in before && p != point ==> p in has)
      && (point in has <==> stays)
    ensures TakenDown(resources, n, had, has, failed || stays)
  {
    forall p | p in had ensures p in has <==> !Claimed(resources[n..], p, had[p]) {
      ClaimedFrom(resources, n, p, had[p]);
    }
    assert stays <==> StubbornAt(resources, had, n);
  }

  lemma AllTakenDown(resources: seq<Resource>, had: map<string, MountId>, has: map<string, MountId>, failed: bool)
    requires TakenDown(resources, 0, had, has, failed) && Untouched(has, had)
    ensures failed <==> Stubborn(resources, had)
    ensures forall p :: p in has ==> !Claimed(resources, p, has[p])
    ensures failed ==> Changed(resources, had)
  {
    assert resources[0..] == resources;
    if failed {
      var i :| 0 <= i < |resources| && StubbornAt(resources, had, i);
      assert resources[i] in resources;
    }
  }

  /** `Deactivate` walks the recorded mounts backwards and goes on after a failure. It unmounts
      nothing that the resources do not record, and when it reports success none of them is left. Without
      call errors it fails exactly on a mount that is not the recorded one. */
  method Deactivate(w: World, resources: seq<Resource>) returns (out: Outcome)
    requires w.Valid() && MayAct(w.s)
    modifies w`s, w`history, w`crashes
    ensures w.Went(out) && w.s == old(w.s).(mounts := w.s.mounts)
    ensures Untouched(w.s.mounts, old(w.s).mounts)
    ensures forall p :: p in old(w.s).mounts && !Claimed(resources, p, old(w.s).mounts[p]) ==> p in w.s.mounts
    ensures out == Ok ==> forall p :: p in w.s.mounts ==> !Claimed(resources, p, w.s.mounts[p])
    ensures out == Ok ==> !Stubborn(resources, old(w.s).mounts)
    ensures out == Fail && w.reliable ==> Stubborn(resources, old(w.s).mounts) && Changed(resources, old(w.s).mounts)
  {
    hide Chain, Good, MayAct, TakenDown, Stubborn, Changed, Claimed, Untouched, ClaimedGone;
    NoneTakenDown(resources, w.s.mounts);
    var failed := false;
    var index := |resources|;
    while index > 0
      invariant 0 <= index <= |resources|
      invariant w.Went(Ok) && w.s == old(w.s).(mounts := w.s.mounts) && MayAct(w.s)
      invariant ClaimedGone(resources, old(w.s).mounts, w.s.mounts)
      invariant w.reliable || !failed ==> TakenDown(resources, index, old(w.s).mounts, w.s.mounts, failed)
    {
      index := index - 1;
      out := Ok;
      ghost var table := w.s.mounts;
      if resources[index].Active(Mount) {
        out := UnmountEntry(w, resources, index);
        StillClaimedGone(resources, old(w.s).mounts, table, w.s.mounts);
        if out == Crash {
          Gone(resources, old(w.s).mounts, w.s.mounts);
          return;
        }
      }
      if w.reliable || !(failed || out == Fail) {
        if resources[index].Active(Mount) {
          TakesOne(resources, index, old(w.s).mounts, table, w.s.mounts, failed, out == Fail);
        } else {
          SkipsOne(resources, index, old(w.s).mounts, w.s.mounts, failed);
        }
      }
      failed := failed || out == Fail;
    }
    Gone(resources, old(w.s).mounts, w.s.mounts);
    if w.reliable || !failed {
      AllTakenDown(resources, old(w.s).mounts, w.s.mounts, failed);
    }
    out := if failed then Fail else Ok;
  }

  /** One entry of the loop. */
  method UnmountEntry(w: World, resources: seq<Resource>, index: nat) returns (out: Outcome)
    requires w.Valid() && MayAct(w.s) && index < |resources| && resources[index].Active(Mount)
    modifies w`s, w`history, w`crashes
    ensures w.Went(out) && w.s == old(w.s).(mounts := w.s.mounts) && MayAct(w.s)
    ensures ClaimedGone(resources, old(w.s).mounts, w.s.mounts) && Untouched(w.s.mounts, old(w.s).mounts)
    ensures var point, id := resources[index].identity.point, resources[index].identity.mountID;
      && (forall p :: p in old(w.s).mounts && p != point ==> p in w.s.mounts)
      && (out == Ok ==> point !in w.s.mounts && (point in old(w.s).mounts ==> old(w.s).mounts[point] == id))
      && (out == Fail && w.reliable ==> point in w.s.mounts && point in old(w.s).mounts && old(w.s).mounts[point] != id)
  {
    hide Chain, Good;
    assert Claimed(resources, resources[index].identity.point, resources[index].identity.mountID);
    out := UnmountRecorded(w, resources[index]);
  }

  /** Every unreleased recorded mount is the one in the table. */
  ghost predicate InTable(resources: seq<Resource>, mounts: map<string, MountId>) {
    forall r :: r in resources && r.Active(Mount) ==>
      r.identity.point in mounts && mounts[r.identity.point] == r.identity.mountID
  }

  /** `ValidateResources`: it succeeds exactly if every recorded mount is the one in the table. */
  method ValidateResources(w: World, resources: seq<Resource>) returns (out: Outcome)
    requires w.Valid()
    modifies w`crashes
    ensures w.Went(out)
    ensures Live(resources, Mount) == [] ==> w.Smooth(out)
    ensures out == Ok ==> InTable(resources, w.s.mounts)
    ensures out == Fail && w.reliable ==> !InTable(resources, w.s.mounts)
    ensures out == Ok ==> forall r :: r in Live(resources, Mount) ==>
      r.identity.MountIdentity? && r.identity.point in w.s.mounts && w.s.mounts[r.identity.point] == r.identity.mountID
  {
    assert InTable(resources[..0], w.s.mounts);
    hide Chain, InTable, Live;
    for index := 0 to |resources|
      invariant w.Went(Ok) && (Live(resources, Mount) == [] ==> w.crashes == old(w.crashes))
      invariant InTable(resources[..index], w.s.mounts)
    {
      if resources[index].Active(Mount) {
        LiveMember(resources, Mount, resources[index]);
        var found;
        out, found := FindMount(w, resources[index].identity.point);
        if out != Ok {
          return;
        }
        if found != Some(resources[index].identity.mountID) {
          NotInTable(resources, index, w.s.mounts);
          out := Fail;
          return;
        }
      }
      TableGrows(resources, index, w.s.mounts);
    }
    LiveInTable(resources, w.s.mounts);
    out := Ok;
  }

  lemma NotInTable(resources: seq<Resource>, n: nat, mounts: map<string, MountId>)
    requires n < |resources| && resources[n].Active(Mount)
    requires resources[n].identity.point !in mounts || mounts[resources[n].identity.point] != resources[n].identity.mountID
    ensures !InTable(resources, mounts)
  {
    assert resources[n] in resources;
  }

  lemma TableGrows(resources: seq<Resource>, n: nat, mounts: map<string, MountId>)
    requires n < |resources| && InTable(resources[..n], mounts)
    requires resources[n].Active(Mount) ==>
      resources[n].identity.point in mounts && mounts[resources[n].identity.point] == resources[n].identity.mountID
    ensures InTable(resources[..n + 1], mounts)
  {
    assert resources[..n + 1] == resources[..n] + [resources[n]];
  }

  lemma LiveInTable(resources: seq<Resource>, mounts: map<string, MountId>)
    requires InTable(resources[..|resources|], mounts)
    ensures InTable(resources, mounts) && forall r :: r in Live(resources, Mount) ==>
      r.identity.MountIdentity? && r.identity.point in mounts && mounts[r.identity.point] == r.identity.mountID
  {
    assert resources[..|resources|] == resources;
    forall r ensures r in Live(resources, Mount) <==> r in resources && r.Active(Mount) {
      LiveMember(resources, Mount, r);
    }
  }

  /** Some of the overlays, in their order. */
  ghost predicate Subsequence(kept: seq<Overlay>, given: seq<Overlay>) {
    if given == [] then kept == []
    else
      var n := |given| - 1;
      || Subsequence(kept, given[..n])
      || (kept != [] && kept[|kept| - 1] == given[n] && Subsequence(kept[..|kept| - 1], given[..n]))
  }

  /** What `Activate` has done to the plan: the kept overlays are a subsequence, and each dropped
      one has its target redirected to its fallback. */
  ghost predicate Settled(given: Toolchains, done: nat, kept: seq<Overlay>, mounts: seq<BindMount>)
    requires done <= |given.overlays|
  {
    && Subsequence(kept, given.overlays[..done])
    && (forall o :: o in kept ==> o in given.overlays[..done])
    && |mounts| == |given.mounts|
    && (forall i :: 0 <= i < |mounts| ==> mounts[i].target == given.mounts[i].target)
    && (DistinctTargets(given.overlays) && DistinctMountTargets(given.mounts) ==>
          && (forall i :: 0 <= i < done && given.overlays[i] !in kept ==>
                Sourced(mounts, given.overlays[i].target, given.overlays[i].fallback))
          && (forall i :: 0 <= i < |mounts| &&
                (forall j :: 0 <= j < done ==> given.overlays[j].target == mounts[i].target ==> given.overlays[j] in kept)
                ==> mounts[i] == given.mounts[i]))
  }

  /** How mounting one overlay went: it is mounted as `id`; it is not and may fall back; the mount
      point is occupied; or a mount that could not be identified could not be taken down either. */
  datatype Attempt = Mounted(id: MountId) | FallsBack | Occupied | Stuck | Died

  /** `mountKernelOverlay` and the identification that follows it, for one overlay. */
  method MountOne(w: World, point: string) returns (attempt: Attempt)
    requires w.Valid() && MayAct(w.s)
    modifies w
    ensures w.Went(if attempt == Died then Crash else Ok) && MountsOnly(old(w.s), w.s)
    ensures Untouched(old(w.s).mounts, w.s.mounts)
    ensures forall p :: p in w.s.mounts && p !in old(w.s).mounts ==> p == point
    ensures attempt.Mounted? ==>
      point !in old(w.s).mounts && w.s.mounts == old(w.s).mounts[point := attempt.id]
    ensures attempt.FallsBack? || attempt.Occupied? ==> w.s.mounts == old(w.s).mounts
    ensures attempt.FallsBack? ==> point !in old(w.s).mounts
    ensures attempt.Occupied? && w.reliable ==> point in old(w.s).mounts
    ensures attempt.Stuck? ==> !w.reliable
    ensures MountStrikes(w) && point !in old(w.s).mounts ==> attempt == Died && w.DiedAt(Crash, WithMount(old(w.s), point))
  {
    hide Chain, Good;
    var out := w.MountOverlay(point);
    if out == Crash {
      attempt := Died;
    } else if out == Fail {
      var found;
      out, found := FindMount(w, point);
      attempt := if out == Crash then Died else if out == Fail || found.Some? then Occupied else FallsBack;
    } else {
      Restored(old(w.s).mounts, point, w.s.mounts[point]);
      attempt := Identify(w, point, old(w.s).mounts);
    }
  }

  /** In a world where nothing else goes wrong, the process dies right after the next mount. */
  twostate predicate MountStrikes(w: World)
    reads w
  {
    w.calm && old(w.mishap) == DiesAfterMount && old(w.crashes) > 0
  }

  lemma Restored(before: map<string, MountId>, point: string, id: MountId)
    requires point !in before
    ensures before[point := id] - {point} == before && Untouched(before, before[point := id])
  {
  }

  /** The identification of a fresh mount; one that cannot be identified is taken down again. */
  method Identify(w: World, point: string, ghost before: map<string, MountId>) returns (attempt: Attempt)
    requires w.Valid() && MayAct(w.s) && point in w.s.mounts && w.s.mounts - {point} == before
    modifies w`s, w`history, w`crashes
    ensures w.Went(if attempt == Died then Crash else Ok) && w.s == old(w.s).(mounts := w.s.mounts)
    ensures w.s.mounts == old(w.s).mounts || w.s.mounts == before
    ensures attempt.Mounted? ==> w.s.mounts == old(w.s).mounts && attempt.id == w.s.mounts[point]
    ensures attempt.FallsBack? ==> w.s.mounts == before
    ensures attempt.Stuck? ==> !w.reliable
    ensures !attempt.Occupied?
  {
    hide Chain, Good, MayAct;
    var out, found := FindMount(w, point);
    if out == Ok && found.Some? {
      return Mounted(found.value);
    }
    attempt := Died;
    if out != Crash {
      attempt := TakeDown(w, point, before);
    }
  }

  method TakeDown(w: World, point: string, ghost before: map<string, MountId>) returns (attempt: Attempt)
    requires w.Valid() && MayAct(w.s) && w.s.mounts - {point} == before
    modifies w`s, w`history, w`crashes
    ensures w.Went(if attempt == Died then Crash else Ok) && w.s == old(w.s).(mounts := w.s.mounts)
    ensures w.s.mounts == old(w.s).mounts || w.s.mounts == before
    ensures attempt == Died || (attempt == Stuck && !w.reliable) || (attempt == FallsBack && w.s.mounts == before)
  {
    hide Chain, Good, MayAct;
    var out := w.Unmount(point);
    attempt := if out == Crash then Died else if out == Fail then Stuck else FallsBack;
  }

  /** The error paths after part of the overlays was mounted: take those down again. */
  method Abandon(w: World, ghost before: map<string, MountId>, ghost overlays: seq<Overlay>,
                 resources: seq<Resource>, stuck: bool)
    returns (out: Outcome, clean: bool)
    requires w.Valid() && MayAct(w.s)
    requires Untouched(before, w.s.mounts)
    requires forall r :: r in resources ==> r.identity.MountIdentity? && r.identity.point !in before
    requires !stuck ==> Paired(before, w.s.mounts, overlays, resources)
    modifies w`s, w`history, w`crashes
    ensures w.Went(out) && MountsOnly(old(w.s), w.s) && out != Ok
    ensures Untouched(before, w.s.mounts)
    ensures out == Fail && clean ==> w.s.mounts == before
    ensures out == Fail && w.reliable && !stuck ==> clean
  {
    hide Chain;
    out := Deactivate(w, resources);
    clean := out == Ok && !stuck;
    out := if out == Ok then Fail else out;
    if clean {
      assert forall i :: 0 <= i < |overlays| ==> resources[i] in resources && resources[i].Active(Mount);
    }
  }

  lemma PairedGrows(before: map<string, MountId>, s: map<string, MountId>, t: map<string, MountId>,
                    overlays: seq<Overlay>, resources: seq<Resource>, next: Overlay, id: MountId)
    requires Paired(before, s, overlays, resources)
    requires next.merged !in s && t == s[next.merged := id]
    ensures Paired(before, t, overlays + [next], resources + [Acquired(MountIdentity(next.merged, id))])
  {
    var all := overlays + [next];
    assert all[|overlays|] == next;
    forall p | p in t && p !in before
      ensures exists i :: 0 <= i < |all| && all[i].merged == p
    {
      if p != next.merged {
        var i :| 0 <= i < |overlays| && overlays[i].merged == p;
        assert all[i].merged == p;
      }
    }
  }

  lemma SettledKeeps(given: Toolchains, done: nat, kept: seq<Overlay>, mounts: seq<BindMount>)
    requires done < |given.overlays| && Settled(given, done, kept, mounts)
    ensures Settled(given, done + 1, kept + [given.overlays[done]], mounts)
  {
    assert given.overlays[..done + 1][..done] == given.overlays[..done];
    assert (kept + [given.overlays[done]])[..|kept|] == kept;
  }

  lemma SettledDrops(given: Toolchains, done: nat, kept: seq<Overlay>, mounts: seq<BindMount>, after: seq<BindMount>)
    requires done < |given.overlays| && Settled(given, done, kept, mounts)
    requires |after| == |mounts|
    requires forall i :: 0 <= i < |mounts| ==> after[i].target == mounts[i].target
    requires forall i :: 0 <= i < |mounts| && mounts[i].target != given.overlays[done].target ==> after[i] == mounts[i]
    requires DistinctMountTargets(mounts) ==> Sourced(after, given.overlays[done].target, given.overlays[done].fallback)
    ensures Settled(given, done + 1, kept, after)
  {
    assert given.overlays[..done + 1][..done] == given.overlays[..done];
    if DistinctTargets(given.overlays) && DistinctMountTargets(given.mounts) {
      assert DistinctMountTargets(mounts);
      assert given.overlays[done] !in given.overlays[..done];
    }
  }

  lemma SettledStart(given: Toolchains)
    ensures Settled(given, 0, [], given.mounts)
  {
  }

  /** Each overlay has a merged path of its own. */
  predicate DistinctMerged(overlays: seq<Overlay>) {
    forall i, j :: 0 <= i < j < |overlays| ==> overlays[i].merged != overlays[j].merged
  }

  /** Nothing is mounted on a merged path. */
  predicate AllFree(overlays: seq<Overlay>, mounts: map<string, MountId>) {
    forall i :: 0 <= i < |overlays| ==> overlays[i].merged !in mounts
  }

  /** `Activate`. It fails on a merged path that is taken; without call errors, with distinct merged paths and
      without `requireCOW`, only then: a mount that does not work is replaced by its fallback. Success: the
      kept overlays and the returned resources pair up in order, and every dropped overlay reads from its
      fallback. Error with every unmount working (`clean`): the mount table is what it was. In every case,
      crashes included, no earlier mount was touched. */
  method Activate(w: World, given: Toolchains, requireCOW: bool)
    returns (out: Outcome, plan: Toolchains, resources: seq<Resource>, clean: bool)
    requires w.Valid() && MayAct(w.s)
    modifies w
    ensures w.Went(out) && MountsOnly(old(w.s), w.s)
    ensures Untouched(old(w.s).mounts, w.s.mounts)
    ensures out == Ok ==> AllFree(given.overlays, old(w.s).mounts)
    ensures out == Fail && w.reliable && !requireCOW && DistinctMerged(given.overlays) ==>
      !AllFree(given.overlays, old(w.s).mounts)
    ensures MountStrikes(w) && given.overlays != [] && given.overlays[0].merged !in old(w.s).mounts ==>
      w.DiedAt(out, WithMount(old(w.s), given.overlays[0].merged))
    ensures out == Ok ==>
      && Paired(old(w.s).mounts, w.s.mounts, plan.overlays, resources)
      && Settled(given, |given.overlays|, plan.overlays, plan.mounts)
      && (requireCOW ==> plan.overlays == given.overlays && plan.mounts == given.mounts)
    ensures out == Fail ==> resources == []
    ensures out == Fail && clean ==> w.s.mounts == old(w.s).mounts
    ensures out == Fail && w.reliable ==> clean
    ensures given.overlays == [] ==>
      && out == Ok && w.s == old(w.s) && w.crashes == old(w.crashes) && w.mishap == old(w.mishap)
      && plan == given && resources == []
  {
    hide Chain, Settled, Paired, Activating, Untouched, AllFree, DistinctMerged;
    plan, resources, clean := given, [], true;
    var active: seq<Overlay> := [];
    ActivatingStart(w.s.mounts, given, requireCOW);
    for index := 0 to |given.overlays|
      invariant w.Went(Ok) && MountsOnly(old(w.s), w.s) && MayAct(w.s)
      invariant Activating(old(w.s).mounts, w.s.mounts, given, index, requireCOW, active, plan, resources)
      invariant index == 0 ==> w.s == old(w.s) && w.crashes == old(w.crashes) && w.mishap == old(w.mishap)
      invariant index > 0 && MountStrikes(w) ==> given.overlays[0].merged in old(w.s).mounts
    {
      ActivatingFacts(old(w.s).mounts, w.s.mounts, given, index, requireCOW, active, plan, resources);
      var overlay := given.overlays[index];
      ghost var table, before := w.s.mounts, plan;
      var attempt := MountOne(w, overlay.merged);
      StillUntouched(old(w.s).mounts, table, w.s.mounts);
      if attempt.Died? {
        out := Crash;
        return;
      }
      if attempt.Mounted? {
        ActivatingMounts(old(w.s).mounts, table, w.s.mounts, given, index, requireCOW, active, plan, resources, attempt.id);
        resources := resources + [Acquired(MountIdentity(overlay.merged, attempt.id))];
        active := active + [overlay];
        continue;
      }
      if requireCOW || !attempt.FallsBack? {
        out, clean := Abandon(w, old(w.s).mounts, active, resources, attempt.Stuck?);
        resources := [];
        return;
      }
      var mounts := ReplaceMountSource(plan.mounts, overlay.target, overlay.fallback);
      plan := plan.(mounts := mounts, fallbacks := plan.fallbacks + [overlay.target]);
      ActivatingFalls(old(w.s).mounts, table, given, index, requireCOW, active, before, plan, resources);
    }
    ActivatingDone(old(w.s).mounts, w.s.mounts, given, requireCOW, active, plan, resources);
    plan := plan.(overlays := active);
    out := Ok;
  }

  /** How far the activation has come. */
  ghost predicate Activating(start: map<string, MountId>, table: map<string, MountId>, given: Toolchains, n: nat,
    requireCOW: bool, active: seq<Overlay>, plan: Toolchains, resources: seq<Resource>) {
    && n <= |given.overlays|
    && Paired(start, table, active, resources)
    && Settled(given, n, active, plan.mounts)
    && (requireCOW ==> active == given.overlays[..n] && plan.mounts == given.mounts)
    && (forall i :: 0 <= i < n ==> given.overlays[i].merged !in start)
    && (forall k :: 0 <= k < |active| ==> active[k] in given.overlays[..n])
    && (n == 0 ==> plan == given && resources == [] && active == [])
  }

  /** The bind mount on the target of this overlay, if there is one, reads from its fallback now. */
  ghost predicate Redirects(mounts: seq<BindMount>, after: seq<BindMount>, overlay: Overlay) {
    && |after| == |mounts|
    && (forall i :: 0 <= i < |mounts| ==> after[i].target == mounts[i].target)
    && (forall i :: 0 <= i < |mounts| && mounts[i].target != overlay.target ==> after[i] == mounts[i])
    && (DistinctMountTargets(mounts) ==> Sourced(after, overlay.target, overlay.fallback))
  }

  lemma ActivatingStart(table: map<string, MountId>, given: Toolchains, requireCOW: bool)
    ensures Activating(table, table, given, 0, requireCOW, [], given, []) && Untouched(table, table)
  {
    SettledStart(given);
  }

  lemma StillUntouched(a: map<string, MountId>, b: map<string, MountId>, c: map<string, MountId>)
    requires Untouched(a, b) && Untouched(b, c)
    ensures Untouched(a, c)
  {
  }

  /** What the next attempt finds in its way was there before, or is a merged path that occurs twice. */
  lemma ActivatingFacts(start: map<string, MountId>, table: map<string, MountId>, given: Toolchains, n: nat, requireCOW: bool,
                        active: seq<Overlay>, plan: Toolchains, resources: seq<Resource>)
    requires Activating(start, table, given, n, requireCOW, active, plan, resources) && n < |given.overlays|
    ensures Untouched(start, table) && Paired(start, table, active, resources)
    ensures forall r :: r in resources ==> r.identity.MountIdentity? && r.identity.point !in start
    ensures given.overlays[n].merged in table && DistinctMerged(given.overlays) ==> !AllFree(given.overlays, start)
    ensures n == 0 ==> (given.overlays[0].merged in table <==> given.overlays[0].merged in start)
    ensures n > 0 ==> given.overlays[0].merged !in start
  {
    hide Settled;
  }

  lemma ActivatingMounts(start: map<string, MountId>, table: map<string, MountId>, after: map<string, MountId>,
                         given: Toolchains, n: nat, requireCOW: bool,
                         active: seq<Overlay>, plan: Toolchains, resources: seq<Resource>, id: MountId)
    requires Activating(start, table, given, n, requireCOW, active, plan, resources) && n < |given.overlays|
    requires var point := given.overlays[n].merged; point !in table && after == table[point := id]
    ensures var overlay := given.overlays[n];
      Activating(start, after, given, n + 1, requireCOW, active + [overlay], plan,
                 resources + [Acquired(MountIdentity(overlay.merged, id))])
  {
    PairedGrows(start, table, after, active, resources, given.overlays[n], id);
    SettledKeeps(given, n, active, plan.mounts);
    assert given.overlays[..n + 1] == given.overlays[..n] + [given.overlays[n]];
    assert given.overlays[n].merged !in start;
    hide Settled, Paired;
  }

  lemma ActivatingFalls(start: map<string, MountId>, table: map<string, MountId>, given: Toolchains, n: nat, requireCOW: bool,
                        active: seq<Overlay>, plan: Toolchains, after: Toolchains, resources: seq<Resource>)
    requires Activating(start, table, given, n, requireCOW, active, plan, resources) && n < |given.overlays| && !requireCOW
    requires given.overlays[n].merged !in table && Redirects(plan.mounts, after.mounts, given.overlays[n])
    ensures Activating(start, table, given, n + 1, requireCOW, active, after, resources)
  {
    SettledDrops(given, n, active, plan.mounts, after.mounts);
    assert given.overlays[..n + 1] == given.overlays[..n] + [given.overlays[n]];
    assert given.overlays[n].merged !in start;
    hide Settled;
  }

  lemma ActivatingDone(start: map<string, MountId>, table: map<string, MountId>, given: Toolchains, requireCOW: bool,
                       active: seq<Overlay>, plan: Toolchains, resources: seq<Resource>)
    requires Activating(start, table, given, |given.overlays|, requireCOW, active, plan, resources)
    ensures Paired(start, table, active, resources) && Settled(given, |given.overlays|, active, plan.mounts)
    ensures AllFree(given.overlays, start) && Untouched(start, table)
    ensures requireCOW ==> active == given.overlays && plan.mounts == given.mounts
    ensures given.overlays == [] ==> plan.(overlays := active) == given && resources == []
  {
  }
}
