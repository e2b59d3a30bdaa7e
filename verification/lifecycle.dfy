/** Start, stop, restart, host-key rotation and the setup leg (internal/workspace/docker.go,
    internal/workspace/ssh_hostkey.go, internal/setup/service.go). */
module Lifecycle {
  import opened Options
  import opened Store
  import opened Worlds
  import opened Records
  import Overlays
  import opened LeaseClient

  // ---------- What these operations may touch ----------

  /** Containers keep their names and labels; none comes or goes. */
  ghost predicate SameContainers(a: map<ContainerId, Container>, b: map<ContainerId, Container>) {
    && a.Keys == b.Keys
    && forall c :: c in a ==> b[c] == a[c].(running := b[c].running)
  }

  ghost predicate LifeOnly(s: State, t: State) {
    && t == s.(record := t.record, trail := t.trail, runs := t.runs, containers := t.containers, host := t.host, knownHosts := t.knownHosts,
               keys := t.keys, removing := t.removing, nextId := t.nextId)
    && SameContainers(s.containers, t.containers) && KeysFresh(s.keys, t.keys)
  }

  lemma StillLife(a: State, b: State, c: State)
    requires LifeOnly(a, b) && LifeOnly(b, c)
    ensures LifeOnly(a, c)
  {
  }

  /** The pinned key on this side and the host key on the other are as they were, and no setup ran. */
  predicate SameHostKey(s: State, t: State) {
    t.knownHosts == s.knownHosts && t.keys == s.keys && t.runs == s.runs
  }

  lemma LifeFrame(s: State, t: State)
    requires t == s.(record := t.record, trail := t.trail, host := t.host, knownHosts := t.knownHosts, removing := t.removing, nextId := t.nextId)
    ensures LifeOnly(s, t)
  {
  }

  lemma LifeRunning(s: State, t: State, c: ContainerId, running: bool)
    requires t == s.(containers := t.containers, trail := t.trail, keys := t.keys) && KeysFresh(s.keys, t.keys)
    requires t.containers in {s.containers, WithRunning(s, c, running).containers}
    ensures LifeOnly(s, t)
  {
  }

  // ---------- A record with its container behind it ----------

  /** The in-memory record `r` and the saved one name the same container, which is there and is ours. */
  ghost predicate Backed(s: State, r: Record) {
    && MayAct(s) && Sound(s, r) && r.ref.Some?
    && s.record.value.ref == r.ref && s.record.value.subject == r.subject
    && s.record.value.fingerprint in {None, r.fingerprint}
    && r.ref.value.container in s.containers && Matches(r, s.containers[r.ref.value.container])
  }

  /** The saved status lets a container be started and stopped. */
  ghost predicate Up(s: State) {
    s.record.Some? && s.record.value.status !in {Creating, Stopped, Ready}
  }

  /** The statuses, Ready aside, that only a record with a container has. */
  predicate Carried(status: Status) {
    status in {Starting, Setup, SetupFailed, Stopping}
  }

  /** The status of `r` is one under which a record with a container may be saved now. */
  ghost predicate Fit(s: State, r: Record) {
    Carried(r.status) || r.status == Error || (r.status == Ready && (Runs(s, r) || Down(s.trail)))
  }

  lemma BackedNow(s: State, r: Record)
    requires Good(s) && MayAct(s) && s.record == Some(r)
    requires r.ref.Some? && r.ref.value.container in s.containers && Matches(r, s.containers[r.ref.value.container])
    ensures Backed(s, r) && Savable(s, r)
    ensures Runs(s, r) && r.status != Ready ==> Up(s)
  {
    SoundNow(s);
  }

  lemma BackedParts(s: State, r: Record)
    requires Backed(s, r)
    ensures MayAct(s) && Sound(s, r) && Anchored(s, r) && Sound(s, r.To(Error)) && r.To(Error) == r.(status := Error)
  {
  }

  lemma CarriedSavable(s: State, r: Record)
    requires Good(s) && Backed(s, r)
    ensures MayAct(s) && (Fit(s, r) ==> Savable(s, r) && r.status != Removing)
    ensures Savable(s, r.To(Error)) && r.To(Error) == r.(status := Error)
  {
    BackedParts(s, r);
    hide Good, Sound, Savable, Backed, LeasesDistinct, Live;
    if Carried(r.status) {
      BackedSavable(s, r);
    } else if Fit(s, r) && r.status == Ready {
      ReadySavable(s, r);
    }
    SoundSavable(s, r.To(Error));
  }

  lemma BackedTarget(s: State, r: Record)
    requires Backed(s, r)
    ensures MayAct(s) && r.ref.Some? && r.ref.value.container in s.containers && Identified(s, r.ref.value.container)
    ensures s.record.Some? && s.record.value.ref == r.ref && Matches(s.record.value, s.containers[r.ref.value.container])
  {
  }

  /** Backing depends on the saved reference and on the container being there. */
  lemma BackedStays(s: State, t: State, r: Record)
    requires Backed(s, r) && LifeOnly(s, t) && (s.removing ==> t.removing)
    requires t.record == s.record ||
      (t.record.Some? && t.record.value.ref == r.ref && t.record.value.subject == r.subject && t.record.value.fingerprint == r.fingerprint)
    ensures Backed(t, r)
  {
  }

  lemma BackedStatus(s: State, r: Record, to: Record)
    requires Backed(s, r) && to == r.(status := to.status, setup := to.setup, tcpForwarding := to.tcpForwarding)
    ensures Backed(s, to)
  {
  }

  lemma BackedHost(s: State, t: State, r: Record, after: Record)
    requires Backed(s, r) && HostOnly(s, t, r) && LeasesOnly(r, after) && Savable(t, after)
    ensures Backed(t, after) && LifeOnly(s, t)
    ensures after == r.(resources := after.resources) && (Up(s) && r.status !in {Creating, Stopped, Ready} ==> Up(t))
    ensures Fit(s, r) ==> Fit(t, after)
  {
  }

  lemma HostLife(s: State, t: State, r: Record)
    requires HostOnly(s, t, r)
    ensures LifeOnly(s, t) && SameHostKey(s, t) && t.containers == s.containers
  {
  }

  // ---------- Releasing leases, stopping, failing ----------

  /** `releaseActiveIntegrationLeases`. */
  method ReleaseActive(w: World, given: Record) returns (out: Outcome, r: Record)
    requires w.Valid() && Backed(w.s, given) && Savable(w.s, given) && (given.status == Removing ==> w.s.removing)
    modifies w
    ensures w.Went(out) && LifeOnly(old(w.s), w.s) && w.s.containers == old(w.s).containers
    ensures out != Crash ==> Backed(w.s, r) && LeasesOnly(given, r) && r == given.(resources := r.resources)
    ensures w.s.record == old(w.s).record || (w.s.record.Some? && LeasesOnly(given, w.s.record.value))
    ensures out == Ok ==> forall l :: !Held(r.resources, l)
    ensures out == Ok ==> w.s.record == Some(r) || (r == given && w.s.record == old(w.s).record)
    ensures SameHostKey(old(w.s), w.s) && (Fit(old(w.s), given) && out != Crash ==> Fit(w.s, r))
    ensures out == Fail ==> !w.reliable
    ensures (forall l :: !Held(given.resources, l)) ==> w.Smooth(out) && w.s == old(w.s) && r == given
    ensures out == Ok ==> HeldGone(old(w.s).host, w.s.host, given.resources)
  {
    hide Chain, Good, Savable, Sound, LeasesOnly, HostOnly, Held, LifeOnly, Backed, Released;
    HostLifeSame(w.s, given);
    MayActBacked(w.s, given);
    r := given;
    if !HasActiveLease(given) {
      NoneActive(given);
      NoneGone(w.s.host, given.resources);
      return Ok, given;
    }
    SomeActive(given);
    out := w.Try();  // reach the host service
    if out != Ok {
      return;
    }
    out, r := ReleaseLeases(w, given);
    if out == Ok {
      AllReleased(given, r, old(w.s).host, w.s.host);
    }
    HostLife(old(w.s), w.s, given);
    Reported(old(w.s), w.s, given);
    if out != Crash {
      BackedHost(old(w.s), w.s, given, r);
    }
  }

  lemma NoneGone(host: map<LeaseId, LeaseRequest>, resources: seq<Resource>)
    requires forall l :: !Held(resources, l)
    ensures HeldGone(host, host, resources)
  {
  }

  lemma NoneActive(r: Record)
    requires !HasActiveLease(r)
    ensures forall l :: !Held(r.resources, l)
  {
  }

  lemma SomeActive(r: Record)
    requires HasActiveLease(r)
    ensures exists l :: Held(r.resources, l)
  {
    var x :| x in r.resources && x.Active(HostLease);
    assert Held(r.resources, x.identity.lease);
  }

  lemma HostLifeSame(s: State, r: Record)
    ensures LifeOnly(s, s) && LeasesOnly(r, r)
  {
  }

  lemma Reported(s: State, t: State, r: Record)
    requires HostOnly(s, t, r)
    ensures t.record == s.record || (t.record.Some? && LeasesOnly(r, t.record.value))
  {
  }

  /** `Stop` of the record's container. */
  method Halt(w: World, r: Record) returns (out: Outcome)
    requires w.Valid() && Backed(w.s, r) && Up(w.s)
    modifies w`s, w`history, w`crashes
    ensures w.Went(out) && w.Smooth(out)
    ensures LifeOnly(old(w.s), w.s) && w.s == old(w.s).(containers := w.s.containers, trail := w.s.trail)
    ensures Backed(w.s, r) && Up(w.s)
    ensures out == Ok ==> !Runs(w.s, r) && (old(w.s).trail == Missed ==> Down(w.s.trail))
    ensures out == Fail ==> w.s == old(w.s) && !w.reliable
  {
    hide Chain, Good, Savable, Sound, LifeOnly, Backed, Identified;
    BackedTarget(w.s, r);
    out := w.StopContainer(r.ref.value.container);
    LifeRunning(old(w.s), w.s, r.ref.value.container, false);
    BackedStays(old(w.s), w.s, r);
  }

  /** The mishap hits the save of this record. */
  twostate predicate Struck(w: World, r: Record)
    reads w
  {
    old(w.mishap) == LosesReady && !w.reliable && r.status == Ready
  }

  /** Saves a record whose container is there. */
  method SaveCarried(w: World, r: Record) returns (out: Outcome)
    requires w.Valid() && Backed(w.s, r) && Fit(w.s, r)
    modifies w
    ensures w.Went(out) && LifeOnly(old(w.s), w.s) && Backed(w.s, r)
    ensures w.s == old(w.s).(record := w.s.record, trail := w.s.trail) && w.s.record in {old(w.s).record, Some(r)}
    ensures out == Ok ==> w.s.record == Some(r) && (r.status == Ready && Down(old(w.s).trail) ==> w.s.trail == Lost)
    ensures out == Fail ==> w.s.record == old(w.s).record && !w.reliable
    ensures out == Fail && r.status == Ready && old(w.s).trail == Ran ==> w.s.trail == Missed
    ensures Struck(w, r) ==> out == Fail && w.mishap == NoMishap && w.crashes == old(w.crashes)
    ensures !Struck(w, r) ==> w.Smooth(out)
  {
    hide Chain, Good, Savable, Sound, LifeOnly, Backed;
    CarriedSavable(w.s, r) by { w.GoodNow(); }
    out := w.SaveRecord(r);
    LifeFrame(old(w.s), w.s);
    BackedStays(old(w.s), w.s, r);
  }

  /** Saves the record with its status moved to Error; whether the save works does not matter. */
  method SaveAsError(w: World, given: Record) returns (out: Outcome, r: Record)
    requires w.Valid() && Backed(w.s, given)
    modifies w
    ensures w.Went(out) && LifeOnly(old(w.s), w.s) && out != Ok
    ensures w.s == old(w.s).(record := w.s.record, trail := w.s.trail)
    ensures r == given.(status := Error) && w.s.record in {old(w.s).record, Some(r)}
    ensures out == Fail && w.reliable ==> w.s.record == Some(r)
  {
    hide Chain, Good, Savable, Sound, LifeOnly, Backed;
    CarriedSavable(w.s, given) by { w.GoodNow(); }
    r := given.To(Error);
    out := w.SaveRecord(r);
    LifeFrame(old(w.s), w.s);
    out := if out == Ok then Fail else out;
  }

  /** `failStarted`, and the path for masks that cannot be pinned under a running container: stop,
      give the leases back, and end in Error. */
  method FailStarted(w: World, given: Record) returns (out: Outcome, r: Record)
    requires w.Valid() && Backed(w.s, given) && (Carried(given.status) || given.status == Error) && Up(w.s)
    modifies w
    ensures w.Went(out) && LifeOnly(old(w.s), w.s) && out != Ok
    ensures out == Fail ==> r.status == Error
    ensures out == Fail && w.reliable ==> !Runs(w.s, r) && w.s.record == Some(r) && forall l :: !Held(r.resources, l)
  {
    hide Chain, Good, Savable, Sound, LifeOnly, Backed, LeasesOnly, Held;
    r := given;
    out := Halt(w, given);
    if out != Crash {
      ghost var t := w.s;
      out, r := GiveUp(w, given);
      StillLife(old(w.s), t, w.s);
      StillHalted(t, w.s, given, r);
    }
  }

  /** Gives the leases back and ends in Error. */
  method GiveUp(w: World, given: Record) returns (out: Outcome, r: Record)
    requires w.Valid() && Backed(w.s, given) && (Carried(given.status) || given.status == Error)
    modifies w
    ensures w.Went(out) && LifeOnly(old(w.s), w.s) && out != Ok && w.s.containers == old(w.s).containers
    ensures out == Fail ==> r.status == Error && r.ref == given.ref
    ensures out == Fail && w.reliable ==> w.s.record == Some(r) && forall l :: !Held(r.resources, l)
  {
    assert Fit(w.s, given);
    hide Chain, Good, Savable, Sound, LifeOnly, Backed, LeasesOnly, Held, Fit;
    CarriedSavable(w.s, given) by { w.GoodNow(); }
    out, r := ReleaseActive(w, given);
    if out != Crash {
      ghost var t := w.s;
      out, r := SaveAsError(w, r);
      StillLife(old(w.s), t, w.s);
    }
  }

  // ---------- The pinned host key and the booked socket ----------

  /** `r` and `after` hold the same leases; only their transport and status may differ. */
  ghost predicate SameLeases(r: Record, after: Record) {
    && after.subject == r.subject && after.ref == r.ref
    && Live(after.resources, HostLease) == Live(r.resources, HostLease)
  }

  lemma StillLeases(a: Record, b: Record, c: Record)
    requires SameLeases(a, b) && SameLeases(b, c)
    ensures SameLeases(a, c)
  {
  }

  lemma HeldLive(a: seq<Resource>, b: seq<Resource>, l: LeaseId)
    requires Live(a, HostLease) == Live(b, HostLease)
    ensures Held(a, l) ==> Held(b, l)
  {
    if Held(a, l) {
      var x :| x in a && x.Active(HostLease) && x.identity.lease == l;
      LiveMember(a, HostLease, x);
      LiveMember(b, HostLease, x);
    }
  }

  lemma AgreementStays(host: map<LeaseId, LeaseRequest>, r: Record, after: Record, requests: seq<LeaseRequest>)
    requires Agreement(host, r.resources, requests) && SameLeases(r, after)
    ensures Agreement(host, after.resources, requests)
  {
    forall l ensures Held(after.resources, l) <==> Held(r.resources, l) {
      HeldLive(r.resources, after.resources, l);
      HeldLive(after.resources, r.resources, l);
    }
  }

  /** The record after a first pin of the host key. */
  function Pinned(r: Record, key: Fingerprint): Record {
    r.(fingerprint := Some(key), resources := r.resources + [Acquired(KnownHostIdentity(key))])
  }

  lemma AppendDistinct(resources: seq<Resource>, added: Resource)
    requires LeasesDistinct(resources) && !added.Active(HostLease)
    ensures LeasesDistinct(resources + [added])
  {
  }

  lemma PinnedBacked(s: State, r: Record, key: Fingerprint)
    requires Backed(s, r) && r.fingerprint.None? && key in s.keys.minted
    ensures Backed(s, Pinned(r, key)) && SameLeases(r, Pinned(r, key))
  {
    hide LeasesDistinct;
    AppendDistinct(r.resources, Acquired(KnownHostIdentity(key)));
    LiveAppend(r.resources, Acquired(KnownHostIdentity(key)), SshSocket);
    LiveAppend(r.resources, Acquired(KnownHostIdentity(key)), KnownHosts);
    LiveAppend(r.resources, Acquired(KnownHostIdentity(key)), HostLease);
  }

  /** The key files hold what the container shows, or will show; and a pinned key is that one, and the one in
      the known-hosts file. */
  predicate KeyFits(s: State, r: Record, running: bool) {
    && (running ==> s.keys.file == Some(s.keys.shown))
    && (r.fingerprint.Some? ==> s.keys.file == r.fingerprint && s.knownHosts == r.fingerprint)
  }

  /** What pinning may change: the record and the known-hosts file. */
  ghost predicate PinOnly(s: State, t: State) {
    && t == s.(record := t.record, trail := t.trail, removing := t.removing, knownHosts := t.knownHosts)
    && LifeOnly(s, t) && (Up(s) ==> Up(t))
  }

  lemma PinOnlySame(s: State)
    ensures PinOnly(s, s)
  {
  }

  /** `pinSSHHostKey`. Success: the fingerprint of the record, the known-hosts file and the key files are
      the key that the container showed; without call errors it comes exactly if they fit. */
  method PinHostKey(w: World, given: Record, key: Fingerprint) returns (out: Outcome, r: Record)
    requires w.Valid() && Backed(w.s, given) && Carried(given.status) && key == w.s.keys.shown && key in w.s.keys.minted
    modifies w
    ensures w.Went(out) && PinOnly(old(w.s), w.s)
    ensures out != Crash ==> Backed(w.s, r) && SameLeases(given, r)
    ensures r == given.(fingerprint := r.fingerprint, resources := r.resources)
    ensures out == Ok ==> r.fingerprint == Some(key) && w.s.knownHosts == Some(key) && w.s.keys.file == Some(key)
    ensures out == Ok && given.fingerprint.Some? ==> r == given && w.s == old(w.s)
    ensures out == Ok ==> KeyFits(old(w.s), given, true)
    ensures out == Fail && w.reliable ==> !KeyFits(old(w.s), given, true)
    ensures KeyFits(old(w.s), given, true) ==> w.Smooth(out)
  {
    hide Chain, Good, Savable, Sound, Backed, PinOnly, SameLeases, KeyFits, Carried;
    LeasesRefl(given);
    PinOnlySame(w.s);
    FitsWhen(w.s, given);
    r := given;
    out := CompareShown(w, given, key);
    if out == Ok {
      out, r := PinShown(w, given, key);
    }
  }

  /** The key that is shown and in the files is compared with the known-hosts file, or pinned. */
  method PinShown(w: World, given: Record, key: Fingerprint) returns (out: Outcome, r: Record)
    requires w.Valid() && Backed(w.s, given) && Carried(given.status) && given.fingerprint in {None, Some(key)}
    requires key in w.s.keys.minted
    modifies w
    ensures w.Went(out) && PinOnly(old(w.s), w.s) && w.s.keys == old(w.s).keys
    ensures out != Crash ==> Backed(w.s, r) && SameLeases(given, r)
    ensures r == given.(fingerprint := r.fingerprint, resources := r.resources)
    ensures out == Ok ==> r.fingerprint == Some(key) && w.s.knownHosts == Some(key)
    ensures out == Ok && given.fingerprint.Some? ==> r == given && w.s == old(w.s)
    ensures out == Fail && w.reliable ==> given.fingerprint.Some? && old(w.s).knownHosts != Some(key)
    ensures given.fingerprint.None? || old(w.s).knownHosts == Some(key) ==> w.Smooth(out)
  {
    hide Chain, Good, Savable, Sound, Backed, LifeOnly, SameLeases, Up, Carried;
    LeasesRefl(given);
    PinOnlySame(w.s);
    r := given;
    if given.fingerprint.Some? {
      out := CompareLine(w, key);
    } else {
      out, r := PinFirst(w, given, key);
    }
  }

  lemma FitsWhen(s: State, r: Record)
    ensures KeyFits(s, r, true) <==>
      && s.keys.file == Some(s.keys.shown) && r.fingerprint in {None, Some(s.keys.shown)}
      && (r.fingerprint.Some? ==> s.knownHosts == Some(s.keys.shown))
  {
  }

  /** The key files must hold this key, and a pinned key must be this one. */
  method CompareShown(w: World, r: Record, key: Fingerprint) returns (out: Outcome)
    requires w.Valid()
    modifies w`crashes
    ensures w.Went(out) && (out == Ok ==> w.s.keys.file == Some(key) && r.fingerprint in {None, Some(key)})
    ensures out == Fail && w.reliable ==> w.s.keys.file != Some(key) || r.fingerprint !in {None, Some(key)}
    ensures w.s.keys.file == Some(key) && r.fingerprint in {None, Some(key)} ==> w.Smooth(out)
  {
    hide Chain, Good;
    out := w.Try();  // read the public key in the container, prepare the directory
    out := if out == Ok && (w.s.keys.file != Some(key) || r.fingerprint !in {None, Some(key)}) then Fail else out;
  }

  /** The known-hosts file must hold this key. */
  method CompareLine(w: World, key: Fingerprint) returns (out: Outcome)
    requires w.Valid()
    modifies w`crashes
    ensures w.Went(out) && (out == Ok ==> w.s.knownHosts == Some(key))
    ensures out == Fail && w.reliable ==> w.s.knownHosts != Some(key)
    ensures w.s.knownHosts == Some(key) ==> w.Smooth(out)
  {
    hide Chain, Good;
    out := w.Try();  // read the file
    out := if out == Ok && w.s.knownHosts != Some(key) then Fail else out;
  }

  method PinFirst(w: World, given: Record, key: Fingerprint) returns (out: Outcome, r: Record)
    requires w.Valid() && Backed(w.s, given) && Carried(given.status) && given.fingerprint.None?
    requires key in w.s.keys.minted
    modifies w
    ensures w.Went(out) && PinOnly(old(w.s), w.s) && w.s.keys == old(w.s).keys
    ensures out != Crash ==> Backed(w.s, r) && SameLeases(given, r)
    ensures r == given.(fingerprint := r.fingerprint, resources := r.resources)
    ensures out == Ok ==> r.fingerprint == Some(key) && w.s.knownHosts == Some(key)
    ensures w.Smooth(out) && (out == Fail ==> !w.reliable)
  {
    hide Chain, Good, Savable, Sound, LifeOnly, Backed, SameLeases, PinOnly, MayAct, Carried;
    BackedNamed(w.s, given);
    LeasesRefl(given);
    r := given;
    out := w.SetKnownHosts(Some(key));
    KnownHostsPin(old(w.s), w.s, given);
    if out == Ok {
      ghost var t := w.s;
      out, r := SavePinned(w, given, key);
      RecordPin(old(w.s), t, w.s);
    }
  }

  lemma BackedNamed(s: State, r: Record)
    requires Backed(s, r)
    ensures MayAct(s)
  {
  }

  lemma KnownHostsPin(s: State, t: State, r: Record)
    requires Backed(s, r) && t == s.(knownHosts := t.knownHosts)
    ensures PinOnly(s, t) && Backed(t, r)
  {
    BackedStays(s, t, r);
  }

  lemma RecordPin(s: State, t: State, u: State)
    requires PinOnly(s, t) && u == t.(record := u.record, trail := u.trail) && LifeOnly(t, u) && (Up(t) ==> Up(u))
    ensures PinOnly(s, u) && u.keys == s.keys && u.knownHosts == t.knownHosts
  {
  }

  method SavePinned(w: World, given: Record, key: Fingerprint) returns (out: Outcome, r: Record)
    requires w.Valid() && Backed(w.s, given) && Carried(given.status) && given.fingerprint.None?
    requires key in w.s.keys.minted
    modifies w
    ensures w.Went(out) && w.Smooth(out) && LifeOnly(old(w.s), w.s) && (out == Fail ==> !w.reliable)
    ensures w.s == old(w.s).(record := w.s.record, trail := w.s.trail)
    ensures Backed(w.s, r) && SameLeases(given, r) && r == given.(fingerprint := Some(key), resources := r.resources)
    ensures Up(old(w.s)) ==> Up(w.s)
  {
    hide Chain, Good, Savable, Sound, LifeOnly, Backed, SameLeases;
    PinnedBacked(w.s, given, key);
    r := Pinned(given, key);
    out := SaveCarried(w, r);
  }

  lemma LeasesRefl(r: Record)
    ensures SameLeases(r, r)
  {
  }

  /** The record after the socket of a start was booked: the one socket it holds. */
  function Booked(r: Record, nonce: Nonce): Record {
    r.(resources := ReleasedAll(r.resources, SshSocket) + [Acquired(SocketIdentity(nonce))])
  }

  function Unbooked(r: Record): Record {
    r.(resources := ReleasedAll(r.resources, SshSocket))
  }

  lemma UnbookedBacked(s: State, r: Record)
    requires Backed(s, r)
    ensures Backed(s, Unbooked(r)) && SameLeases(r, Unbooked(r))
    ensures Unbooked(r).LiveOf(SshSocket) == [] && Unbooked(r).LiveOf(KnownHosts) == r.LiveOf(KnownHosts)
  {
    UnbookedLeases(r.resources);
    hide LeasesDistinct, NoLeases, ReleasedAll;
    LiveReleasedAll(r.resources, SshSocket, SshSocket);
    LiveReleasedAll(r.resources, SshSocket, KnownHosts);
    LiveReleasedAll(r.resources, SshSocket, HostLease);
  }

  lemma UnbookedLeases(resources: seq<Resource>)
    ensures LeasesDistinct(resources) ==> LeasesDistinct(ReleasedAll(resources, SshSocket))
    ensures NoLeases(resources) ==> NoLeases(ReleasedAll(resources, SshSocket))
  {
  }

  lemma BookedBacked(s: State, r: Record, nonce: Nonce)
    requires Backed(s, r)
    ensures Backed(s, Booked(r, nonce)) && SameLeases(r, Booked(r, nonce))
    ensures Booked(r, nonce).LiveOf(SshSocket) == [Acquired(SocketIdentity(nonce))]
  {
    UnbookedBacked(s, r);
    var free := ReleasedAll(r.resources, SshSocket);
    hide LeasesDistinct;
    AppendDistinct(free, Acquired(SocketIdentity(nonce)));
    LiveAppend(free, Acquired(SocketIdentity(nonce)), SshSocket);
    LiveAppend(free, Acquired(SocketIdentity(nonce)), KnownHosts);
    LiveAppend(free, Acquired(SocketIdentity(nonce)), HostLease);
  }

  /** The known-hosts file holds a line that an entry of the record does not describe. */
  ghost predicate ForeignEntry(s: State, resources: seq<Resource>) {
    s.knownHosts.Some? &&
    exists x :: x in resources && x.Active(KnownHosts) && x.identity.line != s.knownHosts.value
  }

  /** `removeSSHHostKey`. Success releases the entry, and the file it named is gone; a file with
      another key is an error and stays. */
  method RemoveHostKey(w: World, given: Record) returns (out: Outcome, r: Record)
    requires w.Valid() && MayAct(w.s)
    modifies w`s, w`history, w`crashes
    ensures w.Went(out) && w.s == old(w.s).(knownHosts := w.s.knownHosts)
    ensures w.s.knownHosts in {old(w.s).knownHosts, None}
    ensures out == Ok ==> r == given.(resources := ReleasedAll(given.resources, KnownHosts))
    ensures out == Ok && given.LiveOf(KnownHosts) != [] ==> w.s.knownHosts.None?
    ensures out == Fail && w.reliable ==> ForeignEntry(old(w.s), given.resources)
    ensures out == Ok && |given.LiveOf(KnownHosts)| <= 1 ==> !ForeignEntry(old(w.s), given.resources)
  {
    hide Chain, Good, EntriesGone, ForeignEntry;
    r := given;
    var resources := given.resources;
    EntriesStart(given.resources, w.s.knownHosts);
    for index := 0 to |given.resources|
      invariant w.Went(Ok) && w.s == old(w.s).(knownHosts := w.s.knownHosts)
      invariant EntriesGone(old(w.s).knownHosts, w.s.knownHosts, given.resources, resources, index)
    {
      EntriesFacts(old(w.s), w.s, given.resources, resources, index);
      if resources[index].Active(KnownHosts) {
        ghost var line := w.s.knownHosts;
        out := RemoveEntry(w, resources[index]);
        if out != Ok {
          return;
        }
        EntryGone(old(w.s).knownHosts, line, given.resources, resources, index);
        resources := resources[index := resources[index].(released := true)];
      } else {
        EntrySkipped(old(w.s).knownHosts, w.s.knownHosts, given.resources, resources, index);
      }
    }
    out, r := Ok, given.(resources := resources);
    EntriesDone(old(w.s), w.s, given.resources, resources);
  }

  /** The first `n` entries have been dealt with: each known-hosts entry among them is released, and the
      line, which is gone if there was one, was described by one of them. */
  ghost predicate EntriesGone(before: Option<Fingerprint>, now: Option<Fingerprint>, given: seq<Resource>,
    after: seq<Resource>, n: nat)
  {
    && n <= |after| == |given| && now in {before, None}
    && (forall i :: 0 <= i < n ==> after[i] == ReleasedAll(given, KnownHosts)[i])
    && (forall i :: n <= i < |given| ==> after[i] == given[i])
    && (now.None? || forall i :: 0 <= i < n ==> !given[i].Active(KnownHosts))
    && (now == before || Names(given, before))
  }

  lemma EntriesStart(given: seq<Resource>, line: Option<Fingerprint>)
    ensures EntriesGone(line, line, given, given, 0)
  {
  }

  lemma EntriesFacts(s: State, t: State, given: seq<Resource>, after: seq<Resource>, n: nat)
    requires EntriesGone(s.knownHosts, t.knownHosts, given, after, n) && n < |given|
    ensures n < |after| && after[n] == given[n] && t.knownHosts in {s.knownHosts, None}
    ensures given[n].Active(KnownHosts) && t.knownHosts.Some? && given[n].identity.line != t.knownHosts.value ==>
      ForeignEntry(s, given)
  {
    assert given[n] in given;
  }

  lemma EntryGone(before: Option<Fingerprint>, line: Option<Fingerprint>, given: seq<Resource>, after: seq<Resource>, n: nat)
    requires n < |given| && EntriesGone(before, line, given, after, n) && given[n].Active(KnownHosts)
    requires line.Some? ==> line == Some(given[n].identity.line)
    ensures EntriesGone(before, None, given, after[n := after[n].(released := true)], n + 1)
  {
    assert given[n] in given;
  }

  lemma EntrySkipped(before: Option<Fingerprint>, line: Option<Fingerprint>, given: seq<Resource>, after: seq<Resource>, n: nat)
    requires n < |given| && EntriesGone(before, line, given, after, n) && !given[n].Active(KnownHosts)
    ensures EntriesGone(before, line, given, after, n + 1)
  {
  }

  lemma EntriesDone(s: State, t: State, given: seq<Resource>, after: seq<Resource>)
    requires EntriesGone(s.knownHosts, t.knownHosts, given, after, |given|)
    ensures after == ReleasedAll(given, KnownHosts) && t.knownHosts in {s.knownHosts, None}
    ensures Live(given, KnownHosts) != [] ==> t.knownHosts.None?
    ensures |Live(given, KnownHosts)| <= 1 ==> !ForeignEntry(s, given)
  {
    if Live(given, KnownHosts) != [] {
      LiveEntry(given);
    }
    SoleEntry(s, t, given);
  }

  /** An unreleased entry describes the line of the file. */
  ghost predicate Names(resources: seq<Resource>, line: Option<Fingerprint>) {
    exists x :: x in resources && x.Active(KnownHosts) && Some(x.identity.line) == line
  }

  /** One entry cannot describe the line and another one. */
  lemma SoleEntry(s: State, t: State, resources: seq<Resource>)
    requires t.knownHosts.None? || forall x :: x in resources ==> !x.Active(KnownHosts)
    requires t.knownHosts == s.knownHosts || Names(resources, s.knownHosts)
    ensures |Live(resources, KnownHosts)| <= 1 ==> !ForeignEntry(s, resources)
  {
    if |Live(resources, KnownHosts)| <= 1 && ForeignEntry(s, resources) {
      var x :| x in resources && x.Active(KnownHosts) && x.identity.line != s.knownHosts.value;
      var y :| y in resources && y.Active(KnownHosts) && Some(y.identity.line) == s.knownHosts;
      LiveMember(resources, KnownHosts, x);
      LiveMember(resources, KnownHosts, y);
    }
  }

  lemma LiveEntry(resources: seq<Resource>)
    requires Live(resources, KnownHosts) != []
    ensures exists i :: 0 <= i < |resources| && resources[i].Active(KnownHosts)
  {
    LiveMember(resources, KnownHosts, Live(resources, KnownHosts)[0]);
  }

  method RemoveEntry(w: World, entry: Resource) returns (out: Outcome)
    requires w.Valid() && MayAct(w.s) && entry.Active(KnownHosts)
    modifies w`s, w`history, w`crashes
    ensures w.Went(out) && w.s == old(w.s).(knownHosts := w.s.knownHosts)
    ensures w.s.knownHosts in {old(w.s).knownHosts, None}
    ensures out == Ok ==> w.s.knownHosts.None? && old(w.s).knownHosts in {None, Some(entry.identity.line)}
    ensures out == Fail && w.reliable ==> old(w.s).knownHosts.Some? && entry.identity.line != old(w.s).knownHosts.value
  {
    hide Chain, Good;
    out := w.Try();  // read the file
    if out == Ok && w.s.knownHosts.Some? {
      if w.s.knownHosts.value != entry.identity.line {
        return Fail;
      }
      out := w.SetKnownHosts(None);
    }
  }

  // ---------- The setup leg ----------

  /** `ShouldRun`; None is the error for a mode it does not know. */
  function ShouldRun(mode: SetupMode, previous: SetupResult, explicit: bool, force: bool): Option<bool> {
    match mode
    case Once => Some(!previous.succeeded || (explicit && force))
    case Always => Some(true)
    case Manual => Some(explicit)
    case Unknown => None
  }

  predicate SetupFrom(status: Status) {
    status in {Ready, Starting, Setup, SetupFailed, Stopped}
  }

  /** Setup and nothing else changed the record. */
  predicate SetupOnly(r: Record, after: Record) {
    after == r.(status := after.status, setup := after.setup)
  }

  /** Exec succeeds only in a running container; a command that ran may still have failed. */
  method Exec(w: World, r: Record) returns (out: Outcome, zero: bool)
    requires w.Valid()
    modifies w`crashes
    ensures w.Went(out)
    ensures out == Ok ==> Runs(w.s, r)
    ensures out != Ok ==> !zero
    ensures Runs(w.s, r) ==> w.Smooth(out) && (w.calm ==> zero)
  {
    hide Chain, Good;
    zero := false;
    out := w.Try();
    if out == Ok {
      if Runs(w.s, r) {
        var succeeds: bool := *;
        zero := succeeds || w.calm;
      } else {
        out := Fail;
      }
    }
  }

  /** Only the saved record changed. */
  ghost predicate RecordOnly(s: State, t: State) {
    t == s.(record := t.record, trail := t.trail, runs := t.runs)
  }

  lemma RecordFrame(s: State, t: State)
    requires t == s.(record := t.record, trail := t.trail, runs := t.runs)
    ensures RecordOnly(s, t) && LifeOnly(s, t)
  {
  }

  lemma StillRecordOnly(a: State, b: State, c: State)
    requires RecordOnly(a, b) && RecordOnly(b, c)
    ensures RecordOnly(a, c) && LifeOnly(a, c)
  {
  }

  /** `RunLocked`. When it fails after a successful command, the record in memory is Ready although
      only Setup was saved: the one way a failed setup leaves that status. */
  method RunLocked(w: World, given: Record, mode: SetupMode, explicit: bool, force: bool) returns (out: Outcome, r: Record)
    requires w.Valid() && (SetupFrom(given.status) ==> Backed(w.s, given))
    modifies w
    ensures w.Went(out) && RecordOnly(old(w.s), w.s)
    ensures out != Crash ==> SetupOnly(given, r) && (SetupFrom(given.status) ==> Backed(w.s, r))
    ensures out == Ok ==> ShouldRun(mode, given.setup, explicit, force).Some?
    ensures out == Ok && ShouldRun(mode, given.setup, explicit, force).value ==>
      w.s.record == Some(r) && r.status == Ready && r.setup.succeeded && Runs(w.s, r)
    ensures out == Ok && !ShouldRun(mode, given.setup, explicit, force).value ==> r == given && w.s == old(w.s)
    ensures out == Fail && r.status == Ready && given.status != Ready ==>
      !w.reliable && w.s.record == Some(given.(status := Setup)) && Runs(w.s, r) && w.s.trail == Missed
    ensures out == Fail ==> Carried(r.status) || r.status == Ready || r == given
    ensures out == Fail && Up(old(w.s)) ==> Up(w.s)
    ensures out == Fail && w.reliable && SetupFrom(given.status) ==>
      (ShouldRun(mode, given.setup, explicit, force) == Some(true) ==> r.status == SetupFailed)
    ensures Loses(w) && SetupFrom(given.status) && Runs(old(w.s), given) ==>
      (ShouldRun(mode, given.setup, explicit, force) == Some(true) ==>
         out == Fail && r.status == Ready && w.mishap == NoMishap)
    ensures out == Ok ==> mode != Unknown
    ensures out == Ok ==> RanOnce(old(w.s), w.s,
      mode == Always || (mode == Once && (!given.setup.succeeded || (explicit && force))) || (mode == Manual && explicit))
  {
    hide Chain, Good, Savable, Sound, LifeOnly, RecordOnly, Backed;
    RecordFrame(w.s, w.s);
    r := given;
    var should := ShouldRun(mode, given.setup, explicit, force);
    if should != Some(true) {
      return if should.None? then Fail else Ok, given;
    }
    if !SetupFrom(given.status) {
      return Fail, given;
    }
    out := w.Try();  // the environment of the managed toolchains
    if out != Ok {
      return;
    }
    out, r := RunSetup(w, given);
  }

  /** The moves into Setup; from the admitted statuses they are all legal. */
  function IntoSetup(given: Record): (r: Record)
    requires SetupFrom(given.status)
    ensures r == given.(status := Setup)
  {
    var r := if given.status == Stopped || given.status == SetupFailed then given.To(Starting) else given;
    if r.status != Setup then r.To(Setup) else r
  }

  method RunSetup(w: World, given: Record) returns (out: Outcome, r: Record)
    requires w.Valid() && Backed(w.s, given)
    requires SetupFrom(given.status)
    modifies w
    ensures w.Went(out) && RecordOnly(old(w.s), w.s)
    ensures out != Crash ==> Backed(w.s, r) && SetupOnly(given, r) && (Carried(r.status) || r.status == Ready)
    ensures out == Ok ==> w.s.record == Some(r) && r.status == Ready && r.setup.succeeded && Runs(w.s, r)
    ensures out == Fail && r.status == Ready ==>
      !w.reliable && w.s.record == Some(given.(status := Setup)) && Runs(w.s, r) && w.s.trail == Missed
    ensures out == Fail && Up(old(w.s)) ==> Up(w.s)
    ensures out == Fail && w.reliable ==> r.status == SetupFailed
    ensures Loses(w) && Runs(old(w.s), given) ==> out == Fail && r.status == Ready && w.mishap == NoMishap
    ensures out == Ok ==> w.s.runs == old(w.s).runs + 1
  {
    hide Chain, Good, Savable, Sound, LifeOnly, RecordOnly, Backed, AfterSetup, Runs;
    r := IntoSetup(given);
    BackedStatus(w.s, given, r);
    ghost var before := r;
    out := SaveCarried(w, r);
    RecordFrame(old(w.s), w.s);
    SameRuns(old(w.s), w.s, given, r);
    if out == Ok {
      ghost var t := w.s;
      var zero;
      out, r, zero := FinishSetup(w, r);
      StillRecordOnly(old(w.s), t, w.s);
      AfterSetupBacked(t, before, zero);
    }
  }

  lemma SameRuns(s: State, t: State, r: Record, after: Record)
    requires t.containers == s.containers && after.ref == r.ref
    ensures Runs(t, after) == Runs(s, r)
  {
  }

  /** In a world where nothing else goes wrong, the next save of a Ready record fails. */
  twostate predicate Loses(w: World)
    reads w
  {
    w.calm && !w.reliable && old(w.mishap) == LosesReady
  }

  /** The command, and the save of what it came to; `zero` says that it succeeded. */
  method FinishSetup(w: World, given: Record) returns (out: Outcome, r: Record, zero: bool)
    requires w.Valid() && Backed(w.s, given) && given.status == Setup && w.s.record == Some(given)
    modifies w
    ensures w.Went(out) && RecordOnly(old(w.s), w.s)
    ensures out != Crash ==> r == AfterSetup(given, zero) && Backed(w.s, r)
    ensures out == Ok ==> zero && w.s.record == Some(r) && Runs(w.s, r)
    ensures out == Fail && zero ==> !w.reliable && w.s.record == Some(given) && Runs(w.s, r) && w.s.trail == Missed
    ensures out == Fail ==> Up(w.s)
    ensures Loses(w) && Runs(old(w.s), given) ==> out == Fail && zero && w.mishap == NoMishap
    ensures out == Ok ==> w.s.runs == old(w.s).runs + 1
  {
    hide Chain, Good, Savable, Sound, LifeOnly, RecordOnly, Backed, AfterSetup, Runs, Up;
    r := given;
    out, zero := RunCommand(w, given);
    if out != Crash {
      ghost var t := w.s;
      out, r := SaveResult(w, given, zero);
      StillRecordOnly(old(w.s), t, w.s);
    }
  }

  /** The command; when it succeeds that leaves its mark. */
  method RunCommand(w: World, given: Record) returns (out: Outcome, zero: bool)
    requires w.Valid() && Backed(w.s, given) && w.s.record == Some(given)
    modifies w`s, w`history, w`crashes
    ensures w.Went(out) && RecordOnly(old(w.s), w.s) && Backed(w.s, given)
    ensures w.s.record == old(w.s).record && (zero ==> w.s.trail == Ran)
    ensures zero ==> out == Ok && Runs(w.s, given)
    ensures Runs(old(w.s), given) ==> w.Smooth(out) && (w.calm ==> zero)
    ensures w.s.runs == old(w.s).runs + (if zero then 1 else 0)
  {
    hide Chain, Good, Savable, Sound, LifeOnly, RecordOnly, Backed, MayAct;
    MayActBacked(w.s, given);
    out, zero := Exec(w, given);
    if zero {
      w.CommandSucceeded();
    }
    RecordFrame(old(w.s), w.s);
    BackedStays(old(w.s), w.s, given);
  }

  method SaveResult(w: World, given: Record, zero: bool) returns (out: Outcome, r: Record)
    requires w.Valid() && Backed(w.s, given) && given.status == Setup && w.s.record == Some(given)
    requires zero ==> Runs(w.s, given) && w.s.trail == Ran
    modifies w
    ensures w.Went(out) && RecordOnly(old(w.s), w.s)
    ensures r == AfterSetup(given, zero) && (out != Crash ==> Backed(w.s, r))
    ensures out == Ok ==> zero && w.s.record == Some(r) && Runs(w.s, r)
    ensures out == Fail && zero ==> !w.reliable && w.s.record == Some(given) && Runs(w.s, r) && w.s.trail == Missed
    ensures out == Fail ==> Up(w.s)
    ensures Loses(w) && zero ==> out == Fail && w.mishap == NoMishap
    ensures w.s.runs == old(w.s).runs
  {
    hide Chain, Good, Savable, Sound, LifeOnly, RecordOnly, Backed, AfterSetup;
    AfterSetupBacked(w.s, given, zero);
    r := AfterSetup(given, zero);
    out := SaveCarried(w, r);
    RecordFrame(old(w.s), w.s);
    out := if out == Ok && !zero then Fail else out;
  }

  function AfterSetup(r: Record, zero: bool): Record {
    r.(setup := SetupResult(zero)).To(if zero then Ready else SetupFailed)
  }

  lemma AfterSetupBacked(s: State, r: Record, zero: bool)
    requires Backed(s, r) && r.status == Setup
    ensures Backed(s, AfterSetup(r, zero))
    ensures AfterSetup(r, zero) == r.(setup := SetupResult(zero), status := if zero then Ready else SetupFailed)
  {
  }

  /** `stopSetupFailed`: the container is stopped and the leases go back; the status stays as setup
      left it unless the container would not stop. */
  method StopSetupFailed(w: World, given: Record) returns (out: Outcome, r: Record)
    requires w.Valid() && Backed(w.s, given) && Up(w.s) && FailedSetup(w.s, given)
    modifies w
    ensures w.Went(out) && LifeOnly(old(w.s), w.s) && out != Ok
    ensures out == Fail ==> r.status == given.status || r.status == Error
    ensures out == Fail && w.reliable ==> !Runs(w.s, r) && w.s.record == Some(r) && r.status == given.status
    ensures out == Fail && w.reliable ==> forall l :: !Held(r.resources, l)
    ensures out == Fail && w.reliable && given.status in {Error, SetupFailed} ==> TakenDown(w.s, r)
    ensures w.calm && old(w.mishap) == NoMishap && given.status == Ready && (forall l :: !Held(given.resources, l)) ==>
      LostReady(w, out)
  {
    hide Chain, Good, Savable, Sound, LifeOnly, Backed, Held, Fit, FailedSetup, Runs;
    var stopped := Halt(w, given);
    if stopped == Crash {
      return Crash, given;
    }
    ghost var t := w.s;
    FailedFit(old(w.s), t, given, stopped == Ok);
    out, r := SettleFailed(w, given, stopped == Ok);
    StillLife(old(w.s), t, w.s);
    StillHalted(t, w.s, given, r);
  }

  lemma StillHalted(s: State, t: State, given: Record, r: Record)
    ensures t.containers == s.containers && r.ref == given.ref ==> Runs(t, r) == Runs(s, given)
  {
  }

  /** Gives the leases back, and saves what the setup came to. */
  method SettleFailed(w: World, given: Record, stopped: bool) returns (out: Outcome, r: Record)
    requires w.Valid() && Backed(w.s, given) && Fit(w.s, given)
    modifies w
    ensures w.Went(out) && LifeOnly(old(w.s), w.s) && out != Ok && w.s.containers == old(w.s).containers
    ensures out == Fail ==> r.ref == given.ref && r.status == if stopped then given.status else Error
    ensures out == Fail && w.reliable ==> w.s.record == Some(r) && forall l :: !Held(r.resources, l)
    ensures w.calm && old(w.mishap) == NoMishap && stopped && given.status == Ready && Down(old(w.s).trail) ==>
      ((forall l :: !Held(given.resources, l)) ==> LostReady(w, out))
  {
    hide Chain, Good, Savable, Sound, LifeOnly, Backed, LeasesOnly, Held, Fit;
    CarriedSavable(w.s, given) by { w.GoodNow(); }
    out, r := ReleaseActive(w, given);
    if out != Crash {
      ghost var t := w.s;
      out, r := SaveStopped(w, r, stopped);
      StillLife(old(w.s), t, w.s);
    }
  }

  /** The last save after a failed setup: the status stays if the container could be stopped. */
  method SaveStopped(w: World, given: Record, stopped: bool) returns (out: Outcome, r: Record)
    requires w.Valid() && Backed(w.s, given) && Fit(w.s, given)
    modifies w
    ensures w.Went(out) && LifeOnly(old(w.s), w.s) && out != Ok
    ensures w.s == old(w.s).(record := w.s.record, trail := w.s.trail)
    ensures out != Crash ==> r == if stopped then given else given.(status := Error)
    ensures out == Fail && w.reliable ==> w.s.record == Some(r)
    ensures w.calm && old(w.mishap) == NoMishap && stopped && given.status == Ready && Down(old(w.s).trail) ==>
      LostReady(w, out)
  {
    hide Chain, Good, Savable, Sound, LifeOnly, Backed, Fit;
    r := given;
    if stopped {
      out := SaveCarried(w, given);
      out := if out == Ok then Fail else out;
    } else {
      out, r := SaveAsError(w, given);
    }
  }

  /** The record after a setup that failed, with the command if not with its save. */
  ghost predicate FailedSetup(s: State, r: Record) {
    Carried(r.status) || r.status == Error || (r.status == Ready && Runs(s, r) && s.trail == Missed)
  }

  lemma FailedFit(s: State, t: State, r: Record, stopped: bool)
    requires FailedSetup(s, r) && t == s.(containers := t.containers, trail := t.trail)
    requires if stopped then (s.trail == Missed ==> Down(t.trail)) else t == s
    ensures Fit(t, r) && (stopped && r.status == Ready ==> Down(t.trail))
  {
  }

  /** Ready is saved over a container that the same start has stopped. */
  predicate LostReady(w: World, out: Outcome)
    reads w
  {
    out == Fail && w.s.record.Some? && w.s.trail == Lost
  }

  // ---------- Start ----------

  /** What a workspace that `startLocked` reports as Ready has: a running container of its own, one
      booked socket with the nonce of its reference, a pinned host key that the known-hosts file and
      the files of the container hold and the container shows, and leases on which the host agrees. */
  ghost predicate Serving(s: State, r: Record) {
    && s.record == Some(r) && r.status == Ready
    && r.ref.Some? && r.ref.value.container in s.containers && Matches(r, s.containers[r.ref.value.container])
    && Runs(s, r)
    && r.LiveOf(SshSocket) == [Acquired(SocketIdentity(r.ref.value.nonce))]
    && r.fingerprint == Some(s.keys.shown) && s.knownHosts == r.fingerprint && s.keys.file == r.fingerprint
    && s.plan.Some? && Integrated(s, r, s.plan.value)
  }

  ghost predicate Integrated(s: State, r: Record, plan: Plan) {
    Agreement(s.host, r.resources, Requests(plan))
  }

  /** What a start that failed leaves when every call works: the container is stopped, the leases are
      given back, and Error or SetupFailed is saved. */
  ghost predicate TakenDown(s: State, r: Record) {
    s.record == Some(r) && r.status in {Error, SetupFailed} && !Runs(s, r) && forall l :: !Held(r.resources, l)
  }

  lemma NoneIntegrated(s: State, r: Record, plan: Plan)
    requires Integrated(s, r, plan) && plan.integrations == {}
    ensures forall l :: !Held(r.resources, l)
  {
    assert Requests(plan) == [];
  }

  /** A start runs the setup command, or does not. */
  predicate Asks(plan: Plan, r: Record) {
    plan.setup == Always || (plan.setup == Once && !r.setup.succeeded)
  }

  predicate Skips(plan: Plan, r: Record) {
    plan.setup == Manual || (plan.setup == Once && r.setup.succeeded)
  }

  /** The same, and the workspace has no integrations. */
  predicate Due(plan: Plan, r: Record) {
    plan.integrations == {} && Asks(plan, r)
  }

  predicate NotDue(plan: Plan, r: Record) {
    plan.integrations == {} && Skips(plan, r)
  }

  /** What a start did about the setup: where it was asked for, the command succeeded exactly once since; and
      otherwise none did, and the result is the one there was. */
  predicate SetupDone(s: State, t: State, plan: Plan, given: Record, r: Record) {
    && plan.setup != Unknown
    && (if Asks(plan, given) then t.runs == s.runs + 1 && r.setup.succeeded else t.runs == s.runs && r.setup == given.setup)
  }

  /** The setup command succeeded once, or not at all. */
  predicate RanOnce(s: State, t: State, ran: bool) {
    t.runs == s.runs + if ran then 1 else 0
  }

  predicate SetupSettled(s: State, t: State, given: Record, r: Record) {
    s.plan.Some? && SetupDone(s, t, s.plan.value, given, r)
  }

  lemma IntegratedStays(s: State, t: State, r: Record, after: Record, plan: Plan)
    requires Integrated(s, r, plan) && t.host == s.host && SameLeases(r, after)
    ensures Integrated(t, after, plan)
  {
    AgreementStays(s.host, r, after, Requests(plan));
  }

  /** A start under way: the record is backed, its container may run, and the leases agree. */
  ghost predicate Launching(s: State, r: Record, plan: Plan) {
    && Backed(s, r) && r.status in {Starting, Setup} && Up(s)
    && s.plan == Some(plan) && Integrated(s, r, plan)
  }

  /** Starts the container unless it runs, and waits until it answers. */
  method BringUp(w: World, r: Record, ghost plan: Plan, running: bool) returns (out: Outcome)
    requires w.Valid() && Launching(w.s, r, plan) && (running ==> Runs(w.s, r))
    modifies w`s, w`history, w`crashes
    ensures w.Went(out) && LifeOnly(old(w.s), w.s) && w.Smooth(out) && (out == Fail ==> !w.reliable)
    ensures w.s == old(w.s).(containers := w.s.containers, trail := w.s.trail, keys := w.s.keys)
    ensures out != Crash ==> Launching(w.s, r, plan)
    ensures out == Ok ==> Runs(w.s, r) && (!running ==> KeysStarted(old(w.s).keys, w.s.keys))
    ensures out == Ok ==> KeyFits(w.s, r, true) == KeyFits(old(w.s), r, running)
  {
    hide Chain, Good, LifeOnly, Launching, Runs, KeyFits, KeysStarted;
    LifeFrame(w.s, w.s);
    out := Ok;
    if !running {
      out := StartLaunched(w, r, plan);
    }
    if out == Ok {
      out := w.Try();  // validate the masks, then poll for readiness
    }
  }

  method StartLaunched(w: World, r: Record, ghost plan: Plan) returns (out: Outcome)
    requires w.Valid() && Launching(w.s, r, plan)
    modifies w`s, w`history, w`crashes
    ensures w.Went(out) && LifeOnly(old(w.s), w.s) && w.Smooth(out) && (out == Fail ==> !w.reliable)
    ensures w.s == old(w.s).(containers := w.s.containers, trail := w.s.trail, keys := w.s.keys) && Launching(w.s, r, plan)
    ensures out == Ok ==> Runs(w.s, r) && KeysStarted(old(w.s).keys, w.s.keys)
    ensures out == Ok ==> KeyFits(w.s, r, true) == KeyFits(old(w.s), r, false)
  {
    hide Chain, Good, Savable, Sound, LifeOnly, Backed, Integrated, Runs, KeyFits, KeysStarted;
    LeasesRefl(r);
    out := StartBacked(w, r);
    IntegratedStays(old(w.s), w.s, r, r, plan);
    BroughtUp(old(w.s), w.s, r);
  }

  /** A start shows the key of the files, or a new one. */
  lemma BroughtUp(s: State, t: State, r: Record)
    requires Backed(s, r) && t.knownHosts == s.knownHosts
    ensures KeysStarted(s.keys, t.keys) ==> KeyFits(t, r, true) == KeyFits(s, r, false)
  {
  }

  method StartBacked(w: World, r: Record) returns (out: Outcome)
    requires w.Valid() && Backed(w.s, r) && Up(w.s)
    modifies w`s, w`history, w`crashes
    ensures w.Went(out) && w.Smooth(out) && LifeOnly(old(w.s), w.s) && Backed(w.s, r)
    ensures w.s == old(w.s).(containers := w.s.containers, trail := w.s.trail, keys := w.s.keys)
    ensures out == Ok ==> Runs(w.s, r) && KeysStarted(old(w.s).keys, w.s.keys)
    ensures out == Fail ==> !w.reliable
  {
    hide Chain, Good, Savable, Sound, LifeOnly, Backed;
    BackedTarget(w.s, r);
    out := w.StartContainer(r.ref.value.container);
    LifeRunning(old(w.s), w.s, r.ref.value.container, true);
    BackedStays(old(w.s), w.s, r);
  }

  /** Host key pinned and one socket booked. */
  ghost predicate Connected(s: State, r: Record) {
    && r.ref.Some? && r.LiveOf(SshSocket) == [Acquired(SocketIdentity(r.ref.value.nonce))]
    && r.fingerprint == Some(s.keys.shown) && s.knownHosts == r.fingerprint && s.keys.file == r.fingerprint
  }

  /** The host key that the container shows, whatever it is, is pinned or compared; then the socket of
      an earlier start is released and this start's is booked. Nothing of the latter is saved yet. */
  method Connect(w: World, given: Record, key: Fingerprint, tcpForwarding: bool) returns (out: Outcome, r: Record)
    requires w.Valid() && Backed(w.s, given) && Carried(given.status) && key == w.s.keys.shown && key in w.s.keys.minted
    modifies w
    ensures w.Went(out) && LifeOnly(old(w.s), w.s)
    ensures w.s == old(w.s).(record := w.s.record, trail := w.s.trail, removing := w.s.removing, knownHosts := w.s.knownHosts)
    ensures out != Crash ==> Backed(w.s, r) && SameLeases(given, r) && r.status == given.status && r.setup == given.setup
    ensures out == Ok ==> Connected(w.s, r) && given.fingerprint in {None, Some(key)}
    ensures Up(old(w.s)) ==> Up(w.s)
    ensures out == Ok ==> KeyFits(old(w.s), given, true)
    ensures out == Fail && w.reliable ==> !KeyFits(old(w.s), given, true)
    ensures KeyFits(old(w.s), given, true) ==> w.Smooth(out)
  {
    hide Chain, Good, Savable, Sound, LifeOnly, Backed, SameLeases;
    r := given.(tcpForwarding := tcpForwarding);
    BackedStatus(w.s, given, r);
    OtherFields(given, r);
    ghost var before := r;
    out, r := PinHostKey(w, r, key);
    if out != Crash {
      StillLeases(given, before, r);
    }
    if out == Ok {
      before := r;
      out, r := BookSocket(w, r);
      StillLeases(given, before, r);
    }
  }

  lemma OtherFields(r: Record, after: Record)
    requires after == r.(tcpForwarding := after.tcpForwarding, status := after.status, setup := after.setup)
    ensures SameLeases(r, after)
  {
  }

  method BookSocket(w: World, given: Record) returns (out: Outcome, r: Record)
    requires w.Valid() && Backed(w.s, given)
    modifies w`crashes
    ensures w.Went(out)
    ensures Backed(w.s, r) && SameLeases(given, r) && r == given.(resources := r.resources)
    ensures out == Ok ==> r.ref.Some? && r.LiveOf(SshSocket) == [Acquired(SocketIdentity(r.ref.value.nonce))]
    ensures w.Smooth(out) && (out == Fail ==> !w.reliable)
  {
    hide Chain, Good, Savable, Sound, LifeOnly, Backed, SameLeases, Identified;
    BackedTarget(w.s, given);
    UnbookedBacked(w.s, given);
    BookedBacked(w.s, given, given.ref.value.nonce);
    var released := ReleaseAll(given.resources, SshSocket);
    r := given.(resources := released);
    out := w.Try();  // inspect the container, read the socket
    if out == Ok {
      r := r.(resources := released + [Acquired(SocketIdentity(given.ref.value.nonce))]);
    }
  }

  /** The end of a start: setup if it is due, and Ready. */
  method SetupLeg(w: World, given: Record, plan: Plan) returns (out: Outcome, r: Record)
    requires w.Valid() && Launching(w.s, given, plan) && Runs(w.s, given) && Connected(w.s, given)
    modifies w
    ensures w.Went(out) && LifeOnly(old(w.s), w.s)
    ensures out == Ok ==> Serving(w.s, r)
    ensures NotDue(plan, given) && old(w.mishap) != LosesReady ==> w.Smooth(out)
    ensures Skips(plan, given) && w.reliable ==> out != Fail
    ensures out == Ok ==> w.s.keys == old(w.s).keys
    ensures out == Fail && w.reliable ==> TakenDown(w.s, r)
    ensures Loses(w) && Due(plan, given) ==> LostReady(w, out)
    ensures out == Ok ==> SetupDone(old(w.s), w.s, plan, given, r)
  {
    hide Chain, Good, Savable, Sound, LifeOnly, Backed, SameLeases, Identified, Integrated, Connected, Serving, Runs;
    r := given;
    var should := ShouldRun(plan.setup, given.setup, false, false);
    if should.None? {
      out, r := FailStarted(w, given);
    } else if should.value {
      out, r := RunAndReady(w, given, plan);
    } else {
      out, r := MakeReady(w, given, plan);
    }
  }

  method MakeReady(w: World, given: Record, plan: Plan) returns (out: Outcome, r: Record)
    requires w.Valid() && Backed(w.s, given) && given.status in {Starting, Setup, Ready}
    requires w.s.plan == Some(plan) && Integrated(w.s, given, plan) && Runs(w.s, given) && Connected(w.s, given)
    modifies w
    ensures w.Went(out) && LifeOnly(old(w.s), w.s)
    ensures out == Ok ==> Serving(w.s, r)
    ensures old(w.mishap) != LosesReady ==> w.Smooth(out)
    ensures out == Ok ==> w.s.keys == old(w.s).keys
    ensures out == Fail ==> !w.reliable
    ensures out == Ok ==> w.s.runs == old(w.s).runs && r == given.(status := Ready)
  {
    r := given.(status := Ready);
    assert given.To(Ready) == r;
    BackedStatus(w.s, given, r);
    assert Fit(w.s, r);
    hide Chain, Good, Savable, Sound, LifeOnly, Backed, Integrated, Connected, Serving, Runs, Fit;
    out := SaveCarried(w, r);
    if out == Ok {
      ServingNow(old(w.s), w.s, given, plan);
    }
  }

  lemma ServingNow(s: State, t: State, r: Record, plan: Plan)
    requires s.plan == Some(plan) && Integrated(s, r, plan) && Runs(s, r) && Connected(s, r)
    requires t == s.(record := Some(r.(status := Ready)), trail := t.trail) && Backed(t, r.(status := Ready))
    ensures Serving(t, r.(status := Ready))
  {
  }

  method RunAndReady(w: World, given: Record, plan: Plan) returns (out: Outcome, r: Record)
    requires w.Valid() && Launching(w.s, given, plan) && Runs(w.s, given) && Connected(w.s, given)
    requires ShouldRun(plan.setup, given.setup, false, false) == Some(true)
    modifies w
    ensures w.Went(out) && LifeOnly(old(w.s), w.s)
    ensures out == Ok ==> Serving(w.s, r)
    ensures out == Ok ==> w.s.keys == old(w.s).keys
    ensures out == Fail && w.reliable ==> TakenDown(w.s, r)
    ensures Loses(w) && Due(plan, given) ==> LostReady(w, out)
    ensures out == Ok ==> SetupDone(old(w.s), w.s, plan, given, r)
  {
    hide Chain, Good, Savable, Sound, LifeOnly, Backed, SameLeases, Identified, Integrated, Connected, Serving, Runs;
    LifeFrame(w.s, w.s);
    r := given;
    out := w.Try();  // setupservice.Validate
    if out == Ok {
      out, r := RunDue(w, given, plan);
    } else if out == Fail {
      out, r := Invalid(w, given);
    }
  }

  /** Setup input that does not validate counts as a failed setup. */
  method Invalid(w: World, given: Record) returns (out: Outcome, r: Record)
    requires w.Valid() && Backed(w.s, given) && given.status in {Starting, Setup} && Up(w.s)
    modifies w
    ensures w.Went(out) && LifeOnly(old(w.s), w.s) && out != Ok
    ensures out == Fail && w.reliable ==> TakenDown(w.s, r)
  {
    r := given.(setup := SetupResult(false), status := SetupFailed);
    assert given.To(Setup).(setup := SetupResult(false)).To(SetupFailed) == r;
    hide Chain, Good, Savable, Sound, LifeOnly, Backed;
    BackedStatus(w.s, given, r);
    out := SaveCarried(w, r);
    if out != Crash {
      ghost var t := w.s;
      out, r := StopSetupFailed(w, r);
      StillLife(old(w.s), t, w.s);
    }
  }

  method RunDue(w: World, given: Record, plan: Plan) returns (out: Outcome, r: Record)
    requires w.Valid() && Launching(w.s, given, plan) && Runs(w.s, given) && Connected(w.s, given)
    requires ShouldRun(plan.setup, given.setup, false, false) == Some(true)
    modifies w
    ensures w.Went(out) && LifeOnly(old(w.s), w.s)
    ensures out == Ok ==> Serving(w.s, r)
    ensures out == Ok ==> w.s.keys == old(w.s).keys
    ensures out == Fail && w.reliable ==> TakenDown(w.s, r)
    ensures Loses(w) && Due(plan, given) ==> LostReady(w, out)
    ensures out == Ok ==> SetupDone(old(w.s), w.s, plan, given, r)
  {
    hide Chain, Good, Savable, Sound, LifeOnly, Backed, SameLeases, Integrated, Connected, Serving, Runs, TakenDown,
      SetupOnly, Held, LostReady, MayAct;
    out, r := RunLocked(w, given, plan.setup, false, false);
    ghost var t := w.s;
    RecordFrame(old(w.s), t);
    if out != Crash {
      SetupKeeps(old(w.s), t, given, r, plan);
      if plan.integrations == {} {
        NoneIntegrated(t, r, plan);
      }
    }
    if out == Ok {
      out, r := MakeReady(w, r, plan);
      StillLife(old(w.s), t, w.s);
    } else if out == Fail {
      out, r := StopSetupFailed(w, r);
      StillLife(old(w.s), t, w.s);
    }
  }

  lemma SetupKeeps(s: State, t: State, r: Record, after: Record, plan: Plan)
    requires Integrated(s, r, plan) && Connected(s, r) && SetupOnly(r, after) &&
      t == s.(record := t.record, trail := t.trail, runs := t.runs)
    ensures Integrated(t, after, plan) && Connected(t, after)
  {
    OtherFields(r, after);
    IntegratedStays(s, t, r, after, plan);
  }

  /** What a start did to the host key: a pinned key is the one that the container shows; and a container
      that did not run shows what its files hold, or a key that never was. */
  ghost predicate KeyShown(s: State, t: State, given: Record, running: bool) {
    && given.fingerprint in {None, Some(t.keys.shown)}
    && (!running ==> KeysStarted(s.keys, t.keys))
  }

  /** From a saved Starting or Setup to Ready, or to the state `failStarted` or `stopSetupFailed` leave. */
  method Launch(w: World, given: Record, plan: Plan, running: bool) returns (out: Outcome, r: Record)
    requires w.Valid() && Launching(w.s, given, plan) && (running ==> Runs(w.s, given))
    modifies w
    ensures w.Went(out) && LifeOnly(old(w.s), w.s)
    ensures out == Ok ==> Serving(w.s, r)
    ensures NotDue(plan, given) && KeyFits(old(w.s), given, running) && old(w.mishap) != LosesReady ==> w.Smooth(out)
    ensures out == Ok ==> KeyShown(old(w.s), w.s, given, running)
    ensures out == Fail && w.reliable ==> TakenDown(w.s, r)
    ensures Loses(w) && Due(plan, given) && KeyFits(old(w.s), given, running) ==> LostReady(w, out)
    ensures out == Ok ==> KeyFits(old(w.s), given, running)
    ensures out == Fail && w.reliable && Skips(plan, given) ==> !KeyFits(old(w.s), given, running)
    ensures out == Ok ==> SetupDone(old(w.s), w.s, plan, given, r)
  {
    hide Chain, Good, Savable, Sound, LifeOnly, Backed, SameLeases, Integrated, Connected, Serving, Runs;
    r := given;
    out := BringUp(w, given, plan, running);
    ghost var t := w.s;
    if out == Ok {
      out, r := ConnectAndSetUp(w, given, plan);
      StillLife(old(w.s), t, w.s);
    } else if out == Fail {
      out, r := FailStarted(w, given);
      StillLife(old(w.s), t, w.s);
    }
  }

  method ConnectAndSetUp(w: World, given: Record, plan: Plan) returns (out: Outcome, r: Record)
    requires w.Valid() && Launching(w.s, given, plan) && Runs(w.s, given)
    modifies w
    ensures w.Went(out) && LifeOnly(old(w.s), w.s)
    ensures out == Ok ==> Serving(w.s, r)
    ensures NotDue(plan, given) && KeyFits(old(w.s), given, true) && old(w.mishap) != LosesReady ==> w.Smooth(out)
    ensures out == Ok ==> given.fingerprint in {None, Some(w.s.keys.shown)}
    ensures out == Ok ==> w.s.keys == old(w.s).keys
    ensures out == Fail && w.reliable ==> TakenDown(w.s, r)
    ensures Loses(w) && Due(plan, given) && KeyFits(old(w.s), given, true) ==> LostReady(w, out)
    ensures out == Ok ==> KeyFits(old(w.s), given, true)
    ensures out == Fail && w.reliable && Skips(plan, given) ==> !KeyFits(old(w.s), given, true)
    ensures out == Ok ==> SetupDone(old(w.s), w.s, plan, given, r)
  {
    hide Chain, Good, Savable, Sound, LifeOnly, Backed, SameLeases, Integrated, Connected, Serving, Runs;
    var tcpForwarding: bool := *;  // that and its host key is what the container answers
    assert KeysMinted(w.s.keys) by { w.GoodNow(); }
    out, r := Connect(w, given, w.s.keys.shown, tcpForwarding);
    ghost var t := w.s;
    if out == Ok {
      ConnectKeeps(old(w.s), t, given, r, plan);
      out, r := SetupLeg(w, r, plan);
      StillLife(old(w.s), t, w.s);
    } else if out == Fail {
      out, r := FailStarted(w, r);
      StillLife(old(w.s), t, w.s);
    }
  }

  lemma ConnectKeeps(s: State, t: State, r: Record, after: Record, plan: Plan)
    requires Launching(s, r, plan) && Runs(s, r) && SameLeases(r, after) && Backed(t, after)
    requires t == s.(record := t.record, trail := t.trail, removing := t.removing, knownHosts := t.knownHosts)
    requires after.status == r.status && Up(t)
    ensures Launching(t, after, plan) && Runs(t, after)
  {
    IntegratedStays(s, t, r, after, plan);
  }

  lemma StoppedThere(s: State, r: Record)
    requires Good(s) && s.record == Some(r)
    ensures r.status == Stopped ==>
      r.ref.Some? && r.ref.value.container in s.containers && Matches(r, s.containers[r.ref.value.container])
  {
  }

  lemma AnchoredBacked(s: State, r: Record)
    requires Good(s) && MayAct(s) && s.record == Some(r)
    requires Carried(r.status) || r.status in {Ready, Stopped}
    ensures Backed(s, r) && Savable(s, r)
  {
    SoundNow(s);
  }

  /** A stopped workspace that holds nothing but its container. */
  predicate Bare(s: State, r: Record) {
    && r.status == Stopped && r.resources == [] && r.fingerprint.None? && r.subject.bootstrapAPI == BOOTSTRAP_API
    && s.plan.Some? && s.plan.value.schema == PLAN_SCHEMA && s.plan.value.subject.id == s.id
  }

  /** With a setup due, or not. */
  predicate Simple(s: State, r: Record) {
    Bare(s, r) && Due(s.plan.value, r)
  }

  predicate Idle(s: State, r: Record) {
    Bare(s, r) && NotDue(s.plan.value, r)
  }

  /** The plan that a start needs. */
  predicate PlanUsable(s: State) {
    s.plan.Some? && s.plan.value.schema == PLAN_SCHEMA && s.plan.value.subject.id == s.id
  }

  /** The container that the record names is there and is ours. */
  predicate Attached(s: State, r: Record) {
    r.ref.Some? && r.ref.value.container in s.containers && Matches(r, s.containers[r.ref.value.container])
  }

  /** What a start asks of mounts, record, container and plan. */
  ghost predicate Gated(s: State, r: Record) {
    && Overlays.InTable(r.resources, s.mounts) && r.subject.bootstrapAPI == BOOTSTRAP_API
    && r.status in {Starting, Setup, Stopped, SetupFailed, Error} && Attached(s, r) && PlanUsable(s)
  }

  /** The checks before a start touches anything: recorded mounts, bootstrap API, status, container
      identity, and plan.json. */
  method StartGate(w: World, given: Record) returns (out: Outcome, running: bool, plan: Option<Plan>)
    requires w.Valid() && MayAct(w.s) && w.s.record == Some(given)
    modifies w`crashes
    ensures w.Went(out)
    ensures Bare(w.s, given) ==> w.Smooth(out)
    ensures out == Ok ==> Gated(w.s, given) && plan.Some? && w.s.plan == plan
    ensures out == Fail && w.reliable ==> !Gated(w.s, given)
    ensures out == Ok ==> Backed(w.s, given) && Savable(w.s, given) && running == Runs(w.s, given) && (running ==> Up(w.s))
  {
    hide Chain, Good, Savable, Sound, Backed, Overlays.InTable;
    StoppedThere(w.s, given) by { w.GoodNow(); }
    running, plan := false, w.s.plan;
    out := Overlays.ValidateResources(w, given.resources);
    if out != Ok {
      return;
    }
    if given.subject.bootstrapAPI != BOOTSTRAP_API || given.status !in {Starting, Setup, Stopped, SetupFailed, Error}
      || given.ref.None? {
      return Fail, running, plan;
    }
    var found;
    out, found := w.Inspect(given.ref.value.container);
    if out != Ok {
      return;
    }
    if found.None? || !Matches(given, found.value) {
      return Fail, running, plan;
    }
    running := found.value.running;
    BackedNow(w.s, given) by { w.GoodNow(); }
    out := w.Try();  // read plan.json
    if out == Ok && (plan.None? || plan.value.schema != PLAN_SCHEMA || plan.value.subject.id != w.s.id) {
      out := Fail;
    }
  }

  /** All that a start can ask for. */
  ghost predicate Startable(s: State, r: Record) {
    Gated(s, r) && KeyFits(s, r, Runs(s, r)) && Unobstructed(s, r)
  }

  /** No lease at the host is in the way of the integrations of the plan. */
  ghost predicate Unobstructed(s: State, r: Record) {
    s.plan.Some? && !Obstructed(s.host, r.resources, s.plan.value)
  }

  /** No setup is due. */
  predicate NothingDue(s: State, r: Record) {
    s.plan.Some? && Skips(s.plan.value, r)
  }

  /** `startLocked`. Success means `Serving`, and only a `Startable` workspace gets there. Without call errors
      every such workspace does that has no setup due. */
  method StartLocked(w: World, given: Record) returns (out: Outcome, r: Record)
    requires w.Valid() && MayAct(w.s) && w.s.record == Some(given)
    modifies w
    ensures w.Went(out) && LifeOnly(old(w.s), w.s)
    ensures out == Ok ==> Serving(w.s, r)
    ensures Idle(old(w.s), given) && old(w.mishap) != LosesReady ==> w.Smooth(out)
    ensures out == Ok ==> KeyShown(old(w.s), w.s, given, Runs(old(w.s), given))
    ensures out == Fail && w.reliable ==> TakenDown(w.s, r) || w.s.containers == old(w.s).containers
    ensures out == Ok ==> Startable(old(w.s), given)
    ensures out == Fail && w.reliable && NothingDue(old(w.s), given) ==> !Startable(old(w.s), given)
    ensures Loses(w) && Simple(old(w.s), given) ==> LostReady(w, out)
    ensures out == Ok ==> SetupSettled(old(w.s), w.s, given, r)
  {
    hide Chain, Good, Savable, Sound, LifeOnly, Backed, Serving, Runs;
    LifeFrame(w.s, w.s);
    var running, plan;
    r := given;
    out, running, plan := StartGate(w, given);
    if out != Ok {
      return;
    }
    out := w.Try();  // pin the reserved masks
    if out == Ok {
      PinnedMinted(w.s, given) by { w.GoodNow(); }
      out, r := StartPinned(w, given, plan.value, running);
    } else if out == Fail && running {
      out, r := FailStarted(w, given);
    }
  }

  lemma PinnedMinted(s: State, r: Record)
    requires Good(s) && s.record == Some(r)
    ensures PinMinted(s, r)
  {
  }

  method StartPinned(w: World, given: Record, plan: Plan, running: bool) returns (out: Outcome, r: Record)
    requires w.Valid() && Backed(w.s, given) && Savable(w.s, given) && w.s.record == Some(given) && w.s.plan == Some(plan)
    requires given.status in {Starting, Setup, Stopped, SetupFailed, Error} && running == Runs(w.s, given)
    modifies w
    ensures w.Went(out) && LifeOnly(old(w.s), w.s)
    ensures out == Ok ==> Serving(w.s, r)
    ensures NotDue(plan, given) && KeyFits(old(w.s), given, running) && old(w.mishap) != LosesReady ==> w.Smooth(out)
    ensures out == Ok ==> KeyShown(old(w.s), w.s, given, running)
    ensures out == Fail && w.reliable ==> TakenDown(w.s, r) || w.s.containers == old(w.s).containers
    ensures Loses(w) && Due(plan, given) && KeyFits(old(w.s), given, running) ==> LostReady(w, out)
    ensures out == Ok ==> KeyFits(old(w.s), given, running) && !Obstructed(old(w.s).host, given.resources, plan)
    ensures out == Fail && w.reliable && Skips(plan, given) ==>
      !KeyFits(old(w.s), given, running) || Obstructed(old(w.s).host, given.resources, plan)
    ensures out == Ok ==> SetupDone(old(w.s), w.s, plan, given, r)
  {
    hide Chain, Good, Savable, Sound, LifeOnly, Backed, Serving, Runs, Integrated, KeyShown, KeyFits, TakenDown,
      KeysFresh, Due, NotDue;
    out, r := AcquireForStart(w, given, plan);
    ghost var t := w.s;
    if out == Ok {
      ghost var taken := r;
      out, r := StartAcquired(w, r, plan, running);
      StillLife(old(w.s), t, w.s);
      SameKeyShown(old(w.s), t, w.s, given, taken, running);
    }
  }

  method AcquireForStart(w: World, given: Record, plan: Plan) returns (out: Outcome, r: Record)
    requires w.Valid() && Backed(w.s, given) && Savable(w.s, given) && w.s.record == Some(given) && w.s.plan == Some(plan)
    requires given.status in {Starting, Setup, Stopped, SetupFailed, Error}
    modifies w
    ensures w.Went(out) && LifeOnly(old(w.s), w.s) && w.s.containers == old(w.s).containers && SameHostKey(old(w.s), w.s)
    ensures out == Ok ==> Backed(w.s, r) && Integrated(w.s, r, plan) && w.s.record == Some(r) && w.s.plan == Some(plan)
    ensures out == Ok ==> r == given.(resources := r.resources) && Runs(w.s, r) == Runs(old(w.s), given)
    ensures out == Ok ==> !Obstructed(old(w.s).host, given.resources, plan) && Skips(plan, r) == Skips(plan, given)
    ensures out == Fail && w.reliable ==> Obstructed(old(w.s).host, given.resources, plan)
    ensures plan.integrations == {} ==> out == Ok && w.mishap == old(w.mishap) && w.crashes == old(w.crashes)
    ensures out == Ok ==> Due(plan, r) == Due(plan, given) && NotDue(plan, r) == NotDue(plan, given)
    ensures Due(plan, given) || NotDue(plan, given) ==> plan.integrations == {}
  {
    hide Chain, Good, Savable, Sound, LifeOnly, Backed, Runs, LeasesOnly, HostOnly, Integrated, Held, Agreement, Due, NotDue;
    ghost var leases;
    MayActBacked(w.s, given);
    DueAlone(plan, given);
    out, r, leases := AcquireLeases(w, given, plan);
    HostLife(old(w.s), w.s, given);
    if out == Ok {
      BackedHost(old(w.s), w.s, given, r);
      LeasesTaken(old(w.s), w.s, given, r, plan);
    }
  }

  lemma DueAlone(plan: Plan, r: Record)
    ensures Due(plan, r) || NotDue(plan, r) ==> plan.integrations == {}
  {
  }

  lemma SameKeyShown(s: State, t: State, u: State, given: Record, r: Record, running: bool)
    requires SameHostKey(s, t) && r.fingerprint == given.fingerprint
    ensures KeyShown(t, u, r, running) ==> KeyShown(s, u, given, running)
    ensures KeyFits(t, r, running) == KeyFits(s, given, running)
  {
  }

  lemma MayActBacked(s: State, r: Record)
    requires Backed(s, r)
    ensures MayAct(s)
  {
  }

  lemma LeasesTaken(s: State, t: State, given: Record, r: Record, plan: Plan)
    requires HostOnly(s, t, given) && LeasesOnly(given, r)
    requires s.plan == Some(plan) && s.record == Some(given)
    requires Agreement(t.host, r.resources, Requests(plan))
    requires plan.integrations != {} ==> t.record == Some(r)
    requires plan.integrations == {} ==> t == s && r == given
    ensures Integrated(t, r, plan) && t.plan == Some(plan) && t.record == Some(r)
    ensures r.status == given.status && Runs(t, r) == Runs(s, given) && t.keys == s.keys
    ensures r.fingerprint == given.fingerprint && Due(plan, r) == Due(plan, given) && NotDue(plan, r) == NotDue(plan, given)
  {
  }

  /** Saves Starting unless the start is a resumed one; when that fails the leases go back. */
  method StartAcquired(w: World, given: Record, plan: Plan, running: bool) returns (out: Outcome, r: Record)
    requires w.Valid() && Backed(w.s, given) && w.s.record == Some(given) && w.s.plan == Some(plan)
    requires given.status in {Starting, Setup, Stopped, SetupFailed, Error} && running == Runs(w.s, given)
    requires Integrated(w.s, given, plan)
    modifies w
    ensures w.Went(out) && LifeOnly(old(w.s), w.s)
    ensures out == Ok ==> Serving(w.s, r)
    ensures NotDue(plan, given) && KeyFits(old(w.s), given, running) && old(w.mishap) != LosesReady ==> w.Smooth(out)
    ensures out == Ok ==> KeyShown(old(w.s), w.s, given, running)
    ensures out == Fail && w.reliable ==> TakenDown(w.s, r)
    ensures Loses(w) && Due(plan, given) && KeyFits(old(w.s), given, running) ==> LostReady(w, out)
    ensures out == Ok ==> KeyFits(old(w.s), given, running)
    ensures out == Fail && w.reliable && Skips(plan, given) ==> !KeyFits(old(w.s), given, running)
    ensures out == Ok ==> SetupDone(old(w.s), w.s, plan, given, r)
  {
    hide Chain, Good, Savable, Sound, LifeOnly, Backed, Serving, Runs, Integrated, SameLeases;
    LeasesRefl(given);
    Resaved(w.s, w.s, given, given, plan);
    if given.status in {Starting, Setup} {
      out, r := Launch(w, given, plan, running);
    } else {
      out, r := MarkAndLaunch(w, given, plan, running);
    }
  }

  method MarkAndLaunch(w: World, given: Record, plan: Plan, running: bool) returns (out: Outcome, r: Record)
    requires w.Valid() && Backed(w.s, given) && w.s.plan == Some(plan)
    requires given.status in {Stopped, SetupFailed, Error} && running == Runs(w.s, given)
    requires Integrated(w.s, given, plan)
    modifies w
    ensures w.Went(out) && LifeOnly(old(w.s), w.s)
    ensures out == Ok ==> Serving(w.s, r)
    ensures NotDue(plan, given) && KeyFits(old(w.s), given, running) && old(w.mishap) != LosesReady ==> w.Smooth(out)
    ensures out == Ok ==> KeyShown(old(w.s), w.s, given, running)
    ensures out == Fail && w.reliable ==> TakenDown(w.s, r)
    ensures Loses(w) && Due(plan, given) && KeyFits(old(w.s), given, running) ==> LostReady(w, out)
    ensures out == Ok ==> KeyFits(old(w.s), given, running)
    ensures out == Fail && w.reliable && Skips(plan, given) ==> !KeyFits(old(w.s), given, running)
    ensures out == Ok ==> SetupDone(old(w.s), w.s, plan, given, r)
  {
    hide Chain, Good, Savable, Sound, LifeOnly, Backed, Serving, Runs, Integrated, SameLeases;
    out, r := MarkStarting(w, given, plan, running);
    ghost var t := w.s;
    if out == Ok {
      out, r := Launch(w, r, plan, running);
      StillLife(old(w.s), t, w.s);
    } else if out == Fail {
      out, r := GiveBack(w, r);
      StillLife(old(w.s), t, w.s);
    }
  }

  /** The save of Starting. */
  method MarkStarting(w: World, given: Record, ghost plan: Plan, ghost running: bool) returns (out: Outcome, r: Record)
    requires w.Valid() && Backed(w.s, given) && w.s.plan == Some(plan)
    requires given.status in {Stopped, SetupFailed, Error} && running == Runs(w.s, given)
    requires Integrated(w.s, given, plan)
    modifies w
    ensures w.Went(out) && w.Smooth(out) && LifeOnly(old(w.s), w.s) && Backed(w.s, r)
    ensures r == given.(status := Starting) && (out == Fail ==> !w.reliable) && SameHostKey(old(w.s), w.s)
    ensures out == Ok ==> Launching(w.s, r, plan) && running == Runs(w.s, r)
  {
    hide Chain, Good, Savable, Sound, LifeOnly, Backed, Runs, Integrated, SameLeases;
    StartIsLegal(given);
    r := given.To(Starting);
    BackedStatus(w.s, given, r);
    OtherFields(given, r);
    out := SaveCarried(w, r);
    Resaved(old(w.s), w.s, given, r, plan);
  }

  lemma StartIsLegal(r: Record)
    requires r.status in {Stopped, SetupFailed, Error}
    ensures r.To(Starting) == r.(status := Starting)
  {
  }

  method GiveBack(w: World, given: Record) returns (out: Outcome, r: Record)
    requires w.Valid() && Backed(w.s, given) && Carried(given.status)
    modifies w
    ensures w.Went(out) && LifeOnly(old(w.s), w.s) && out != Ok
    ensures out == Fail && w.reliable ==> forall l :: !Held(r.resources, l)
  {
    hide Chain, Good, Savable, Sound, LifeOnly, Backed, LeasesOnly, Held;
    CarriedSavable(w.s, given) by { w.GoodNow(); }
    out, r := ReleaseActive(w, given);
    out := if out == Ok then Fail else out;
  }

  lemma Resaved(s: State, t: State, given: Record, r: Record, plan: Plan)
    requires t == s.(record := t.record, trail := t.trail) && SameLeases(given, r) && Integrated(s, given, plan)
    ensures LifeOnly(s, t) && Integrated(t, r, plan) && Runs(t, r) == Runs(s, given)
  {
    IntegratedStays(s, t, given, r, plan);
  }

  // ---------- Stop, restart, rotate ----------

  /** What a stop leaves: the saved record is Stopped, with no lease and no socket, and otherwise
      unchanged; that the container does not run is `IntentFirst`. */
  ghost predicate AtRest(s: State, given: Record, r: Record) {
    && s.record == Some(r) && r.status == Stopped
    && r == given.(status := Stopped, resources := r.resources)
    && r.LiveOf(KnownHosts) == given.LiveOf(KnownHosts) && r.LiveOf(Mount) == given.LiveOf(Mount)
    && forall l :: !Held(r.resources, l)
  }

  lemma StopSavable(s: State, r: Record)
    requires Good(s) && Backed(s, r) && !Runs(s, r) && r.status == Stopping
    ensures Savable(s, Unbooked(r).To(Stopped)) && Unbooked(r).To(Stopped) == Unbooked(r).(status := Stopped)
  {
    UnbookedBacked(s, r);
    StoppedSavable(s, Unbooked(r).To(Stopped));
  }

  lemma AtRestNow(s: State, given: Record, r: Record)
    requires LeasesOnly(given.(status := Stopping), r) && (forall l :: !Held(r.resources, l))
    requires s.record == Some(Unbooked(r).(status := Stopped))
    ensures AtRest(s, given, Unbooked(r).(status := Stopped))
  {
    LiveReleasedAll(r.resources, SshSocket, KnownHosts);
    LiveReleasedAll(r.resources, SshSocket, Mount);
    LiveReleasedAll(r.resources, SshSocket, HostLease);
    forall l ensures !Held(Unbooked(r).resources, l) {
      HeldLive(Unbooked(r).resources, r.resources, l);
    }
  }

  /** The workspace is stopped, or in a status that can be left, with a container that is ours. */
  predicate Stoppable(s: State, r: Record) {
    r.status == Stopped || (Attached(s, r) && CanMove(r.status, Stopping))
  }

  /** `stopLocked`. Without call errors it succeeds exactly if the workspace is `Stoppable`. */
  method StopLocked(w: World, given: Record) returns (out: Outcome, r: Record)
    requires w.Valid() && MayAct(w.s) && w.s.record == Some(given)
    modifies w
    ensures w.Went(out) && LifeOnly(old(w.s), w.s) && SameHostKey(old(w.s), w.s)
    ensures out == Ok ==> AtRest(w.s, given, r)
    ensures out == Ok ==> Stoppable(old(w.s), given)
    ensures out == Fail && w.reliable ==> !Stoppable(old(w.s), given)
    ensures out == Ok ==> HeldGone(old(w.s).host, w.s.host, given.resources)
  {
    hide Chain, Good, Savable, Sound, LifeOnly, Backed, LeasesOnly, AtRest, Runs;
    LifeFrame(w.s, w.s);
    r := given;
    if given.status == Stopped {
      out, r := ReleaseStopped(w, given);
      return;
    }
    out := Fail;
    if given.ref.Some? {
      var found;
      out, found := w.Inspect(given.ref.value.container);
      if out == Ok && (found.None? || !Matches(given, found.value)) {
        out := Fail;
      }
    }
    if out == Ok && CanMove(given.status, Stopping) {
      BackedNow(w.s, given) by { w.GoodNow(); }
      out, r := StopFound(w, given);
    } else if out == Ok {
      out := Fail;
    }
  }

  method ReleaseStopped(w: World, given: Record) returns (out: Outcome, r: Record)
    requires w.Valid() && MayAct(w.s) && w.s.record == Some(given) && given.status == Stopped
    modifies w
    ensures w.Went(out) && LifeOnly(old(w.s), w.s) && SameHostKey(old(w.s), w.s)
    ensures (out == Ok ==> AtRest(w.s, given, r)) && (out == Fail ==> !w.reliable)
    ensures out == Ok ==> HeldGone(old(w.s).host, w.s.host, given.resources)
  {
    hide Chain, Good, Savable, Sound, LifeOnly, Backed, Runs;
    AnchoredBacked(w.s, given) by { w.GoodNow(); }
    out, r := ReleaseActive(w, given);
  }

  /** A container that is ours: note the intent, stop it, give the leases back, and forget the socket. */
  method StopFound(w: World, given: Record) returns (out: Outcome, r: Record)
    requires w.Valid() && Backed(w.s, given) && CanMove(given.status, Stopping) && w.s.record == Some(given)
    modifies w
    ensures w.Went(out) && LifeOnly(old(w.s), w.s) && SameHostKey(old(w.s), w.s)
    ensures (out == Ok ==> AtRest(w.s, given, r)) && (out == Fail ==> !w.reliable)
    ensures out == Ok ==> HeldGone(old(w.s).host, w.s.host, given.resources)
  {
    r := given.(status := Stopping);
    hide Chain, Good, Savable, Sound, LifeOnly, Backed, AtRest, Runs;
    BackedStatus(w.s, given, r);
    if given.status == Stopping {
      out, r := StopMarked(w, given, r);
      return;
    }
    out := SaveCarried(w, r);
    if out == Ok {
      ghost var t := w.s;
      out, r := StopMarked(w, given, r);
      StillLife(old(w.s), t, w.s);
    }
  }

  method StopMarked(w: World, ghost given: Record, before: Record) returns (out: Outcome, r: Record)
    requires w.Valid() && Backed(w.s, before) && before == given.(status := Stopping) && w.s.record == Some(before)
    modifies w
    ensures w.Went(out) && LifeOnly(old(w.s), w.s) && SameHostKey(old(w.s), w.s)
    ensures (out == Ok ==> AtRest(w.s, given, r)) && (out == Fail ==> !w.reliable)
    ensures out == Ok ==> HeldGone(old(w.s).host, w.s.host, given.resources)
  {
    hide Chain, Good, Savable, Sound, LifeOnly, Backed, AtRest, LeasesOnly;
    LifeFrame(w.s, w.s);
    r := before;
    out := HaltRunning(w, before);
    ghost var t := w.s;
    if out == Ok {
      out, r := StopReleased(w, given, before);
      StillLife(old(w.s), t, w.s);
    } else if out == Fail {
      out, r := SaveAsError(w, before);
      StillLife(old(w.s), t, w.s);
    }
  }

  method HaltRunning(w: World, r: Record) returns (out: Outcome)
    requires w.Valid() && Backed(w.s, r) && Up(w.s)
    modifies w`s, w`history, w`crashes
    ensures w.Went(out) && LifeOnly(old(w.s), w.s) && SameHostKey(old(w.s), w.s) && Backed(w.s, r)
    ensures (out == Ok ==> !Runs(w.s, r)) && (out == Fail ==> !w.reliable) && w.s.host == old(w.s).host
  {
    hide Chain, Good, Savable, Sound, LifeOnly, Backed;
    LifeFrame(w.s, w.s);
    out := Ok;
    if Runs(w.s, r) {
      out := Halt(w, r);
    }
  }

  method StopReleased(w: World, ghost given: Record, before: Record) returns (out: Outcome, r: Record)
    requires w.Valid() && Backed(w.s, before) && before == given.(status := Stopping) && !Runs(w.s, before)
    modifies w
    ensures w.Went(out) && LifeOnly(old(w.s), w.s) && SameHostKey(old(w.s), w.s)
    ensures (out == Ok ==> AtRest(w.s, given, r)) && (out == Fail ==> !w.reliable)
    ensures out == Ok ==> HeldGone(old(w.s).host, w.s.host, given.resources)
  {
    hide Chain, Good, Savable, Sound, LifeOnly, Backed, AtRest, LeasesOnly;
    CarriedSavable(w.s, before) by { w.GoodNow(); }
    out, r := ReleaseActive(w, before);
    ghost var t := w.s;
    if out == Ok {
      out, r := SaveAtRest(w, given, r);
      LifeFrame(t, w.s);
      StillLife(old(w.s), t, w.s);
    } else if out == Fail {
      out, r := SaveAsError(w, r);
      StillLife(old(w.s), t, w.s);
    }
  }

  method SaveAtRest(w: World, ghost given: Record, before: Record) returns (out: Outcome, r: Record)
    requires w.Valid() && Backed(w.s, before) && !Runs(w.s, before)
    requires LeasesOnly(given.(status := Stopping), before) && forall l :: !Held(before.resources, l)
    modifies w
    ensures w.Went(out) && w.s == old(w.s).(record := w.s.record, trail := w.s.trail)
    ensures (out == Ok ==> AtRest(w.s, given, r)) && (out == Fail ==> !w.reliable)
  {
    assert before.status == Stopping;
    hide Chain, Good, Savable, Sound, Backed, AtRest, LeasesOnly, ReleasedAll, Held, Runs;
    MayActBacked(w.s, before);
    StopSavable(w.s, before) by { w.GoodNow(); }
    var released := ReleaseAll(before.resources, SshSocket);
    r := before.(resources := released).To(Stopped);
    out := w.SaveRecord(r);
    if out == Ok {
      AtRestNow(w.s, given, before);
    }
  }

  /** At some point from `from` on, the saved record was Stopped. */
  ghost predicate WasStopped(history: seq<State>, from: nat) {
    exists i :: from <= i < |history| && history[i].record.Some? && history[i].record.value.status == Stopped
  }

  /** At some point from `from` on, the saved record had no fingerprint. */
  ghost predicate WasUnpinned(history: seq<State>, from: nat) {
    exists i :: from <= i < |history| && history[i].record.Some? && history[i].record.value.fingerprint.None?
  }

  lemma StillWas(before: seq<State>, after: seq<State>, from: nat)
    requires before <= after
    ensures WasStopped(before, from) ==> WasStopped(after, from)
    ensures WasUnpinned(before, from) ==> WasUnpinned(after, from)
  {
    if WasStopped(before, from) {
      var i :| from <= i < |before| && before[i].record.Some? && before[i].record.value.status == Stopped;
      assert after[i] == before[i];
    }
    if WasUnpinned(before, from) {
      var i :| from <= i < |before| && before[i].record.Some? && before[i].record.value.fingerprint.None?;
      assert after[i] == before[i];
    }
  }

  lemma WasNow(w: World, from: nat)
    requires w.Valid() && from < |w.history| && w.s.record.Some?
    ensures w.s.record.value.status == Stopped ==> WasStopped(w.history, from)
    ensures w.s.record.value.fingerprint.None? ==> WasUnpinned(w.history, from)
  {
    assert w.history[|w.history| - 1] == w.s;
  }

  lemma HistoryNotEmpty(w: World)
    requires w.Valid()
    ensures w.history != []
  {
  }

  /** A start would find all it asks for once the workspace is stopped. */
  ghost predicate StartsStopped(s: State, r: Record) {
    Gated(s, r.(status := Stopped)) && KeyFits(s, r, false) && Unobstructed(s, r)
  }

  ghost predicate Restartable(s: State, r: Record) {
    if r.status == Starting || r.status == Setup then Startable(s, r) else Stoppable(s, r) && StartsStopped(s, r)
  }

  lemma InTableLive(a: seq<Resource>, b: seq<Resource>, mounts: map<string, MountId>)
    requires Live(a, Mount) == Live(b, Mount)
    ensures Overlays.InTable(a, mounts) ==> Overlays.InTable(b, mounts)
  {
    forall x | x in b && x.Active(Mount) && Overlays.InTable(a, mounts)
      ensures x.identity.point in mounts && mounts[x.identity.point] == x.identity.mountID
    {
      LiveMember(b, Mount, x);
      LiveMember(a, Mount, x);
    }
  }

  /** What a start asks for is the same after a stop. */
  lemma GatedAfter(s: State, t: State, given: Record, r: Record)
    requires LifeOnly(s, t) && Live(r.resources, Mount) == Live(given.resources, Mount)
    requires r.status == given.status && r.subject == given.subject && r.ref == given.ref && r.setup == given.setup
    ensures Gated(t, r) == Gated(s, given) && NothingDue(t, r) == NothingDue(s, given)
  {
    InTableLive(r.resources, given.resources, s.mounts);
    InTableLive(given.resources, r.resources, s.mounts);
  }

  lemma UnobstructedAfter(s: State, t: State, given: Record, r: Record)
    requires HeldGone(s.host, t.host, given.resources) && t.plan == s.plan && forall l :: !Held(r.resources, l)
    ensures Unobstructed(t, r) == Unobstructed(s, given)
  {
    if s.plan.Some? {
      ObstructedFreed(s.host, t.host, given.resources, s.plan.value);
    }
  }

  lemma StoppedDown(s: State, r: Record)
    requires Good(s) && s.record == Some(r) && r.status == Stopped
    ensures !Runs(s, r)
  {
  }

  lemma StartableAfter(s: State, t: State, given: Record, r: Record)
    requires LifeOnly(s, t) && SameHostKey(s, t) && AtRest(t, given, r) && !Runs(t, r)
    requires HeldGone(s.host, t.host, given.resources)
    ensures Startable(t, r) == StartsStopped(s, given) && NothingDue(t, r) == NothingDue(s, given) && t.plan == s.plan
  {
    UnobstructedAfter(s, t, given, r);
    GatedAfter(s, t, given.(status := Stopped), r);
  }

  /** The body of `Restart`: a start that was interrupted is resumed, and otherwise stop and start. Without
      call errors and with no setup due, it succeeds exactly if it is `Restartable`. */
  method RestartLocked(w: World, given: Record) returns (out: Outcome, r: Record)
    requires w.Valid() && MayAct(w.s) && w.s.record == Some(given)
    modifies w
    ensures w.Went(out) && LifeOnly(old(w.s), w.s)
    ensures out == Ok ==> Serving(w.s, r) && Restartable(old(w.s), given)
    ensures out == Fail && w.reliable && NothingDue(old(w.s), given) ==> !Restartable(old(w.s), given)
    ensures out == Ok && given.status != Starting && given.status != Setup ==>
      WasStopped(w.history, |old(w.history)| - 1)
    ensures out == Ok ==> SetupSettled(old(w.s), w.s, given, r)
  {
    hide Chain, Good, LifeOnly, Serving, WasStopped, WasUnpinned;
    HistoryNotEmpty(w);
    if given.status == Starting || given.status == Setup {
      out, r := StartLocked(w, given);
    } else {
      out, r := StopAndStart(w, given);
    }
  }

  method StopAndStart(w: World, given: Record) returns (out: Outcome, r: Record)
    requires w.Valid() && MayAct(w.s) && w.s.record == Some(given) && w.history != []
    modifies w
    ensures w.Went(out) && LifeOnly(old(w.s), w.s)
    ensures out == Ok ==> Serving(w.s, r) && WasStopped(w.history, |old(w.history)| - 1)
    ensures out == Ok ==> Stoppable(old(w.s), given) && StartsStopped(old(w.s), given)
    ensures out == Fail && w.reliable && NothingDue(old(w.s), given) ==>
      !(Stoppable(old(w.s), given) && StartsStopped(old(w.s), given))
    ensures out == Ok ==> SetupSettled(old(w.s), w.s, given, r)
  {
    hide Chain, Good, LifeOnly, Serving, WasStopped, WasUnpinned, HeldGone, Unobstructed, SetupSettled, StartsStopped,
      Stoppable, AtRest, MayAct;
    out, r := StopLocked(w, given);
    ghost var t, h := w.s, w.history;
    MayActLife(old(w.s), t);
    RestRecord(t, given, r);
    if out == Ok {
      out, r := StartStopped(w, old(w.s), given, r);
      StillLife(old(w.s), t, w.s);
      EarlierStop(w.history, |h| - 1, |old(w.history)| - 1, out);
    }
  }

  /** The start of a workspace that was just stopped, from what it was before. */
  method StartStopped(w: World, ghost start: State, ghost given: Record, mid: Record) returns (out: Outcome, r: Record)
    requires w.Valid() && MayAct(w.s) && w.s.record == Some(mid) && AtRest(w.s, given, mid)
    requires LifeOnly(start, w.s) && SameHostKey(start, w.s) && HeldGone(start.host, w.s.host, given.resources)
    modifies w
    ensures w.Went(out) && LifeOnly(old(w.s), w.s) && old(w.history) != []
    ensures out == Ok ==> Serving(w.s, r) && StartsStopped(start, given) && SetupSettled(start, w.s, given, r)
    ensures out == Ok ==> WasStopped(w.history, |old(w.history)| - 1)
    ensures out == Fail && w.reliable && NothingDue(start, given) ==> !StartsStopped(start, given)
  {
    hide Chain, Good, LifeOnly, Serving, WasStopped, WasUnpinned, HeldGone, Unobstructed, SetupSettled, Startable,
      StartsStopped, MayAct, Runs;
    HistoryNotEmpty(w);
    StoppedDown(w.s, mid) by { w.GoodNow(); }
    StartableAfter(start, w.s, given, mid);
    WasNow(w, |w.history| - 1);
    out, r := StartLocked(w, mid);
    StillWas(old(w.history), w.history, |old(w.history)| - 1);
    SettledAcross(start, old(w.s), w.s, given, mid, r);
  }

  lemma EarlierStop(history: seq<State>, from: nat, earlier: nat, out: Outcome)
    requires earlier <= from && (out == Ok ==> WasStopped(history, from))
    ensures out == Ok ==> WasStopped(history, earlier)
  {
  }

  lemma RestRecord(s: State, given: Record, r: Record)
    ensures AtRest(s, given, r) ==> s.record == Some(r)
  {
  }

  lemma SettledAcross(s: State, t: State, u: State, given: Record, mid: Record, r: Record)
    requires t.plan == s.plan && t.runs == s.runs && mid.setup == given.setup
    ensures SetupSettled(t, u, mid, r) ==> SetupSettled(s, u, given, r)
  {
  }

  lemma MayActLife(s: State, t: State)
    requires LifeOnly(s, t)
    ensures (MayAct(s) ==> MayAct(t)) && Rotating(t) == Rotating(s)
  {
  }

  /** The record of a stopped workspace after its pinned key was taken back. */
  function Unpinned(r: Record): Record {
    r.(resources := ReleasedAll(r.resources, KnownHosts), fingerprint := None)
  }

  lemma UnpinnedSavable(s: State, t: State, r: Record)
    requires Good(s) && s.record == Some(r) && r.status == Stopped && t == s.(knownHosts := t.knownHosts) && Rotating(s)
    ensures Savable(t, Unpinned(r)) && MayAct(t) == MayAct(s)
  {
    hide Sound, Good;
    SoundNow(s);
    UnpinnedSound(s, r);
    StoppedStill(s, r);
    StoppedSavable(s, Unpinned(r));
    KnownHostsAside(s, t, Unpinned(r));
  }

  lemma StoppedStill(s: State, r: Record)
    requires Good(s) && s.record == Some(r) && r.status == Stopped
    ensures Anchored(s, r) && !s.containers[r.ref.value.container].running && r.LiveOf(SshSocket) == []
  {
  }

  lemma UnpinnedSound(s: State, r: Record)
    requires Sound(s, r) && s.record == Some(r) && Rotating(s)
    ensures Sound(s, Unpinned(r)) && Unpinned(r).LiveOf(SshSocket) == r.LiveOf(SshSocket)
  {
    LiveReleasedAll(r.resources, KnownHosts, SshSocket);
    LiveReleasedAll(r.resources, KnownHosts, KnownHosts);
  }

  lemma KnownHostsAside(s: State, t: State, r: Record)
    requires Savable(s, r) && t == s.(knownHosts := t.knownHosts)
    ensures Savable(t, r)
  {
    assert IntentFirst(Saved(t, r), r);
  }

  /** The known-hosts entry can be taken back, and a start without a pinned key finds what it asks for. */
  ghost predicate Unpinnable(s: State, r: Record) {
    !ForeignEntry(s, r.resources) && Gated(s, r.(status := Stopped)) && Unobstructed(s, r)
  }

  ghost predicate Rotatable(s: State, r: Record) {
    r.status == Ready && Runs(s, r) && Unpinnable(s, r)
  }

  lemma ForeignLive(s: State, a: seq<Resource>, b: seq<Resource>)
    requires Live(a, KnownHosts) == Live(b, KnownHosts)
    ensures ForeignEntry(s, a) ==> ForeignEntry(s, b)
  {
    if ForeignEntry(s, a) {
      var x :| x in a && x.Active(KnownHosts) && x.identity.line != s.knownHosts.value;
      LiveMember(a, KnownHosts, x);
      LiveMember(b, KnownHosts, x);
    }
  }

  lemma UnpinnableAfter(s: State, t: State, given: Record, r: Record)
    requires LifeOnly(s, t) && SameHostKey(s, t) && AtRest(t, given, r)
    requires HeldGone(s.host, t.host, given.resources)
    ensures Unpinnable(t, r) == Unpinnable(s, given) && NothingDue(t, r) == NothingDue(s, given) && t.plan == s.plan
  {
    UnobstructedAfter(s, t, given, r);
    GatedAfter(s, t, given.(status := Stopped), r);
    ForeignLive(s, r.resources, given.resources);
    ForeignLive(s, given.resources, r.resources);
  }

  /** Without a pinned key a stopped workspace can be started if the rest fits. */
  lemma UnpinnedStarts(s: State, t: State, given: Record, r: Record)
    requires given.status == Stopped && LifeOnly(s, t) && r == Unpinned(given) && !Runs(t, r) && t.host == s.host
    ensures Startable(t, r) == (Gated(s, given.(status := Stopped)) && Unobstructed(s, given))
    ensures NothingDue(t, r) == NothingDue(s, given) && t.plan == s.plan
  {
    LiveReleasedAll(given.resources, KnownHosts, Mount);
    LiveReleasedAll(given.resources, KnownHosts, HostLease);
    forall l ensures Held(r.resources, l) <==> Held(given.resources, l) {
      HeldLive(r.resources, given.resources, l);
      HeldLive(given.resources, r.resources, l);
    }
    GatedAfter(s, t, given.(status := Stopped), r);
  }

  /** `rotateSSHHostKeyLocked`. Success: the old key was forgotten durably, and the workspace serves again,
      with a key pinned in record and known-hosts file that there never was before. Without call errors and
      with no setup due, it succeeds exactly if the workspace is `Rotatable`. */
  method RotateLocked(w: World, given: Record) returns (out: Outcome, r: Record)
    requires w.Valid() && MayAct(w.s) && Rotating(w.s) && w.s.record == Some(given)
    modifies w
    ensures w.Went(out) && LifeOnly(old(w.s), w.s)
    ensures out == Ok ==> given.status == Ready && Serving(w.s, r) && WasUnpinned(w.history, |old(w.history)| - 1)
    ensures out == Ok ==> Rotatable(old(w.s), given)
    ensures out == Fail && w.reliable && NothingDue(old(w.s), given) ==> !Rotatable(old(w.s), given)
    ensures out == Ok ==> r.fingerprint.Some? && r.fingerprint.value !in old(w.s).keys.minted
    ensures out == Ok ==> SetupSettled(old(w.s), w.s, given, r)
  {
    hide Chain, Good, LifeOnly, Serving, AtRest, WasStopped, WasUnpinned, Unpinnable, Stoppable, NothingDue, Runs,
      WithoutKey, MayAct, Rotating, SetupSettled;
    HistoryNotEmpty(w);
    LifeFrame(w.s, w.s);
    r := given;
    if given.status != Ready {
      return Fail, given;
    }
    out := DropKeyFiles(w, given, None);
    DroppedLife(old(w.s), w.s, given);
    if out == Ok {
      ghost var t, h := w.s, w.history;
      out, r := StopAndUnpin(w, given);
      StillLife(old(w.s), t, w.s);
      ShowsPinned(w.s, r);
      SettledAcross(old(w.s), t, w.s, given, given, r);
      if out == Ok {
        EarlierFrom(w.history, |h| - 1, |old(w.history)| - 1);
      }
    }
  }

  lemma ShowsPinned(s: State, r: Record)
    ensures Serving(s, r) ==> r.fingerprint == Some(s.keys.shown)
  {
  }

  lemma DroppedLife(s: State, t: State, r: Record)
    requires t == s || t == WithoutKey(s, None)
    ensures LifeOnly(s, t) && t.keys.minted == s.keys.minted && t.record == s.record && t.runs == s.runs && t.plan == s.plan
    ensures MayAct(t) == MayAct(s) && Rotating(t) == Rotating(s) && (t == WithoutKey(s, None) ==> t.keys.file.None?)
    ensures Unpinnable(t, r) == Unpinnable(s, r) && NothingDue(t, r) == NothingDue(s, r)
    ensures r.status == Ready && Unpinnable(s, r) ==> Stoppable(t, r)
  {
  }

  /** Deletes the files of the host key, from inside the container. */
  method DropKeyFiles(w: World, r: Record, expected: Option<Fingerprint>) returns (out: Outcome)
    requires w.Valid() && MayAct(w.s)
    requires expected.Some? ==> w.s.acting.Some? && w.s.record.Some? && w.s.record.value.fingerprint in {None, expected}
    modifies w
    ensures w.Went(out)
    ensures w.s == old(w.s) || (w.s == WithoutKey(old(w.s), expected) && expected in {None, old(w.s).keys.file})
    ensures out == Ok ==> w.s == WithoutKey(old(w.s), expected) && Runs(old(w.s), r)
    ensures out == Fail ==> w.s == old(w.s)
    ensures out == Fail && w.reliable ==> !Runs(w.s, r) || expected !in {None, w.s.keys.file}
    ensures expected !in {None, old(w.s).keys.file} || !Runs(old(w.s), r) ==> out != Ok && w.s == old(w.s)
    ensures Runs(old(w.s), r) && expected in {None, old(w.s).keys.file} && w.calm ==>
      (old(w.mishap) == DiesAfterKeys && old(w.crashes) > 0 ==> out == Crash && w.s == WithoutKey(old(w.s), expected))
  {
    hide Chain, Good, Runs, WithoutKey, MayAct;
    if Runs(w.s, r) {
      out := w.RemoveKeyFiles(expected);
    } else {
      out := w.Refuse();
    }
  }

  method StopAndUnpin(w: World, given: Record) returns (out: Outcome, r: Record)
    requires w.Valid() && MayAct(w.s) && Rotating(w.s) && w.s.record == Some(given) && w.history != []
    modifies w
    ensures w.Went(out) && LifeOnly(old(w.s), w.s)
    ensures out == Ok ==> Serving(w.s, r) && WasUnpinned(w.history, |old(w.history)| - 1)
    ensures out == Ok ==> Stoppable(old(w.s), given) && Unpinnable(old(w.s), given)
    ensures out == Fail && w.reliable && NothingDue(old(w.s), given) ==>
      !(Stoppable(old(w.s), given) && Unpinnable(old(w.s), given))
    ensures out == Ok && old(w.s).keys.file.None? ==> w.s.keys.shown !in old(w.s).keys.minted
    ensures out == Ok ==> SetupSettled(old(w.s), w.s, given, r)
  {
    hide Chain, Good, LifeOnly, Serving, WasStopped, WasUnpinned, HeldGone, Unobstructed, SetupSettled;
    out, r := StopLocked(w, given);
    ghost var t, h := w.s, w.history;
    MayActLife(old(w.s), t);
    if out == Ok {
      ghost var mid := r;
      UnpinnableAfter(old(w.s), t, given, r);
      out, r := UnpinAndStart(w, r);
      StillLife(old(w.s), t, w.s);
      SettledAcross(old(w.s), t, w.s, given, mid, r);
      if out == Ok {
        EarlierFrom(w.history, |h| - 1, |old(w.history)| - 1);
      }
    }
  }

  lemma EarlierFrom(history: seq<State>, from: nat, earlier: nat)
    requires earlier <= from && WasUnpinned(history, from)
    ensures WasUnpinned(history, earlier)
  {
  }

  method UnpinAndStart(w: World, given: Record) returns (out: Outcome, r: Record)
    requires w.Valid() && MayAct(w.s) && Rotating(w.s) && w.s.record == Some(given) && given.status == Stopped &&
      w.history != []
    modifies w
    ensures w.Went(out) && LifeOnly(old(w.s), w.s)
    ensures out == Ok ==> Serving(w.s, r) && WasUnpinned(w.history, |old(w.history)| - 1)
    ensures out == Ok ==> Unpinnable(old(w.s), given)
    ensures out == Fail && w.reliable && NothingDue(old(w.s), given) ==> !Unpinnable(old(w.s), given)
    ensures out == Ok && old(w.s).keys.file.None? ==> w.s.keys.shown !in old(w.s).keys.minted
    ensures out == Ok ==> SetupSettled(old(w.s), w.s, given, r)
  {
    hide Chain, Good, LifeOnly, Serving, WasStopped, WasUnpinned, ForeignEntry, Gated, NothingDue, Unpinned, MayAct, Rotating,
      Unobstructed, SetupSettled;
    out, r := Unpin(w, given);
    ghost var t, h := w.s, w.history;
    UnpinnedLife(old(w.s), t);
    if out == Ok {
      out, r := StartUnpinned(w, old(w.s), given, r);
      StillLife(old(w.s), t, w.s);
      if out == Ok {
        EarlierFrom(w.history, |h| - 1, |old(w.history)| - 1);
      }
    }
  }

  /** The start of a workspace that was stopped and unpinned, from what it was before. */
  method StartUnpinned(w: World, ghost start: State, ghost given: Record, mid: Record) returns (out: Outcome, r: Record)
    requires w.Valid() && MayAct(w.s) && w.s.record == Some(mid) && mid == Unpinned(given) && given.status == Stopped
    requires w.s == start.(record := w.s.record, trail := w.s.trail, removing := w.s.removing, knownHosts := w.s.knownHosts)
    modifies w
    ensures w.Went(out) && LifeOnly(old(w.s), w.s) && old(w.history) != []
    ensures out == Ok ==> Serving(w.s, r) && WasUnpinned(w.history, |old(w.history)| - 1)
    ensures out == Ok ==> Gated(start, given.(status := Stopped)) && Unobstructed(start, given)
    ensures out == Fail && w.reliable && NothingDue(start, given) ==>
      !(Gated(start, given.(status := Stopped)) && Unobstructed(start, given))
    ensures out == Ok && start.keys.file.None? ==> w.s.keys.shown !in start.keys.minted
    ensures out == Ok ==> SetupSettled(start, w.s, given, r)
  {
    hide Chain, Good, LifeOnly, Serving, WasStopped, WasUnpinned, Gated, Startable, NothingDue, Runs, ReleasedAll, MayAct,
      Unobstructed, SetupSettled;
    HistoryNotEmpty(w);
    UnpinnedLife(start, w.s);
    StoppedDown(w.s, mid) by { w.GoodNow(); }
    UnpinnedStarts(start, w.s, given, mid);
    WasNow(w, |w.history| - 1);
    out, r := StartLocked(w, mid);
    StillWas(old(w.history), w.history, |old(w.history)| - 1);
    SettledAcross(start, old(w.s), w.s, given, mid, r);
  }

  lemma UnpinnedLife(s: State, t: State)
    requires t == s.(record := t.record, trail := t.trail, removing := t.removing, knownHosts := t.knownHosts)
    ensures LifeOnly(s, t) && MayAct(t) == MayAct(s) && t.keys == s.keys && t.host == s.host && t.runs == s.runs
  {
  }

  /** Takes the known-hosts entry back and saves the record without a fingerprint. */
  method Unpin(w: World, given: Record) returns (out: Outcome, r: Record)
    requires w.Valid() && MayAct(w.s) && Rotating(w.s) && w.s.record == Some(given) && given.status == Stopped
    modifies w
    ensures w.Went(out) &&
      w.s == old(w.s).(record := w.s.record, trail := w.s.trail, removing := w.s.removing, knownHosts := w.s.knownHosts)
    ensures out == Ok ==> w.s.record == Some(r) && r == Unpinned(given) && !ForeignEntry(old(w.s), given.resources)
    ensures out == Fail && w.reliable ==> ForeignEntry(old(w.s), given.resources)
  {
    hide Chain, Good, Savable, ReleasedAll, ForeignEntry, Rotating, MayAct;
    assert Good(w.s) by { w.GoodNow(); }
    out, r := RemoveHostKey(w, given);
    if out == Ok {
      UnpinnedSavable(old(w.s), w.s, given);
      OneEntry(old(w.s), given);
      r := r.(fingerprint := None);
      out := w.SaveRecord(r);
    }
  }

  lemma OneEntry(s: State, r: Record)
    requires Good(s) && s.record == Some(r)
    ensures |r.LiveOf(KnownHosts)| <= 1
  {
  }

  /** `setup run`: the setup leg on its own, outside the operation journal. */
  method SetupRun(w: World, mode: SetupMode, force: bool) returns (out: Outcome, r: Option<Record>)
    requires w.Valid() && w.s.acting.None?
    modifies w
    ensures w.Went(out) && LifeOnly(old(w.s), w.s)
    ensures out == Ok ==> r.Some? && w.s.record == r && old(w.s).record.Some?
    ensures out == Ok ==> ShouldRun(mode, old(w.s).record.value.setup, true, force).Some?
    ensures out == Ok && ShouldRun(mode, old(w.s).record.value.setup, true, force).value ==>
      r.value.status == Ready && r.value.setup.succeeded && Runs(w.s, r.value)
    ensures out == Ok && !ShouldRun(mode, old(w.s).record.value.setup, true, force).value ==> w.s == old(w.s)
    ensures out == Ok ==> mode != Unknown
    ensures out == Ok ==> RanOnce(old(w.s), w.s,
      mode == Always || mode == Manual || !old(w.s).record.value.setup.succeeded || force)
  {
    hide Chain, Good, LifeOnly, Savable, Backed, Runs;
    LifeFrame(w.s, w.s);
    r := w.s.record;
    out := w.Try();  // load the record
    if out == Ok && r.None? {
      out := Fail;
    }
    if out == Ok {
      if SetupFrom(r.value.status) {
        AnchoredBacked(w.s, r.value) by { w.GoodNow(); }
      }
      var after;
      out, after := RunLocked(w, r.value, mode, true, force);
      RecordFrame(old(w.s), w.s);
      r := Some(after);
    }
  }
}
