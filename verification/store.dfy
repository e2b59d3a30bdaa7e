/** Durable records and the operation journal (internal/state/store.go). */
module Store {
  import opened Options

  type ContainerId = nat
  type Nonce = nat
  type LeaseId = nat
  type MountId = nat
  type Fingerprint = nat
  type Key = string

  // ---------- Status and its transition table ----------

  datatype Status = Creating | Starting | Setup | Ready | SetupFailed | Stopping | Stopped | Removing | Error

  predicate Allowed(from: Status, to: Status) {
    match from
    case Creating => to in {Starting, Stopped, Error, Removing}
    case Starting => to in {Setup, Ready, Stopped, Error}
    case Setup => to in {Ready, SetupFailed, Stopped, Error}
    case Ready => to in {Setup, Stopping, Error}
    case SetupFailed => to in {Starting, Stopping, Removing, Error}
    case Stopping => to in {Stopped, Error}
    case Stopped => to in {Starting, Removing, Error}
    case Removing => to == Error
    case Error => to in {Starting, Stopping, Removing}
  }

  /** `Transition` returns nil: the status already is `to`, or the table has the move. */
  predicate CanMove(from: Status, to: Status) {
    from == to || Allowed(from, to)
  }

  predicate Terminal(status: Status) {
    status in {Ready, SetupFailed, Stopped, Error}
  }

  // ---------- External resources ----------

  datatype LeaseKind = Chrome | GitCredential | AgentSecret

  datatype Kind = Mount | SshSocket | KnownHosts | HostLease

  /** What the record remembers about an object outside it. Only the fields of its kind matter. */
  datatype Identity =
    | MountIdentity(point: string, mountID: MountId)
    | SocketIdentity(nonce: Nonce)
    | KnownHostIdentity(line: Fingerprint)
    | LeaseIdentity(lease: LeaseId, leaseKind: LeaseKind)

  datatype Resource = Resource(identity: Identity, released: bool, quarantined: bool) {
    function Kind(): Kind {
      match identity
      case MountIdentity(_, _) => Mount
      case SocketIdentity(_) => SshSocket
      case KnownHostIdentity(_) => KnownHosts
      case LeaseIdentity(_, _) => HostLease
    }

    predicate Active(kind: Kind) {
      Kind() == kind && !released
    }
  }

  function Acquired(identity: Identity): Resource {
    Resource(identity, false, false)
  }

  /** The resources of one kind that have not been released, in recorded order. */
  function Live(resources: seq<Resource>, kind: Kind): seq<Resource> {
    if resources == [] then []
    else (if resources[0].Active(kind) then [resources[0]] else []) + Live(resources[1..], kind)
  }

  /** The record after every active resource of one kind got its release time. */
  function ReleasedAll(resources: seq<Resource>, kind: Kind): seq<Resource> {
    seq(|resources|, i requires 0 <= i < |resources| =>
      if resources[i].Active(kind) then resources[i].(released := true) else resources[i])
  }

  lemma {:induction false} LiveConcat(a: seq<Resource>, b: seq<Resource>, kind: Kind)
    ensures Live(a + b, kind) == Live(a, kind) + Live(b, kind)
  {
    if a == [] {
      assert a + b == b;
    } else {
      assert (a + b)[1..] == a[1..] + b;
      LiveConcat(a[1..], b, kind);
    }
  }

  lemma LiveAppend(resources: seq<Resource>, added: Resource, kind: Kind)
    ensures Live(resources + [added], kind)
         == Live(resources, kind) + (if added.Active(kind) then [added] else [])
  {
    LiveConcat(resources, [added], kind);
    assert [added][1..] == [];
  }

  /** Changing one entry without touching what is live of `kind` leaves that list alone. */
  lemma {:induction false} LiveUpdate(resources: seq<Resource>, i: nat, changed: Resource, kind: Kind)
    requires i < |resources|
    requires !resources[i].Active(kind) && !changed.Active(kind)
    ensures Live(resources[i := changed], kind) == Live(resources, kind)
  {
    if i == 0 {
      assert resources[i := changed][1..] == resources[1..];
    } else {
      assert resources[i := changed][1..] == resources[1..][i - 1 := changed];
      LiveUpdate(resources[1..], i - 1, changed, kind);
    }
  }

  lemma {:induction false} LiveMember(resources: seq<Resource>, kind: Kind, x: Resource)
    ensures x in Live(resources, kind) <==> x in resources && x.Active(kind)
  {
    if resources != [] {
      assert resources == [resources[0]] + resources[1..];
      LiveMember(resources[1..], kind, x);
    }
  }

  /** Releasing a kind empties its list and leaves every other kind's list alone. */
  lemma {:induction false} LiveReleasedAll(resources: seq<Resource>, released: Kind, kind: Kind)
    ensures Live(ReleasedAll(resources, released), kind)
         == if kind == released then [] else Live(resources, kind)
  {
    if resources != [] {
      assert ReleasedAll(resources, released)[1..] == ReleasedAll(resources[1..], released);
      LiveReleasedAll(resources[1..], released, kind);
    }
  }

  /** The release loop itself: `releaseSSHTransportResources`, and the same loop over mounts
      in `failCreate`, `resumeCreatingLocked` and `removeLocked`. */
  method ReleaseAll(resources: seq<Resource>, kind: Kind) returns (r: seq<Resource>)
    ensures r == ReleasedAll(resources, kind)
  {
    r := resources;
    for index := 0 to |r|
      invariant |r| == |resources|
      invariant r[..index] == ReleasedAll(resources, kind)[..index]
      invariant r[index..] == resources[index..]
    {
      assert r[index] == r[index..][0] == resources[index];
      if r[index].Kind() == kind && !r[index].released {
        r := r[index := r[index].(released := true)];
      }
    }
    assert r == r[..|r|];
  }

  // ---------- Workspace records ----------

  /** The identity a creation is bound to: `validateCreatingRecord` and `creatingPlanMatches`
      compare these fields between request, record and plan. */
  datatype Subject = Subject(
    id: string, name: string, ownerUID: nat, ownerGID: nat, source: string,
    manifest: string, backend: string, imageDigest: string, bootstrapAPI: string)

  /** A container reference; the backend and the ID map of the source are one engine ID here. */
  datatype Ref = Ref(container: ContainerId, nonce: Nonce)

  datatype SetupResult = SetupResult(succeeded: bool)

  datatype Record = Record(
    subject: Subject,
    ref: Option<Ref>,
    status: Status,
    fingerprint: Option<Fingerprint>,
    tcpForwarding: bool,
    setup: SetupResult,
    resources: seq<Resource>,
    quarantined: bool)
  {
    /** `record.Transition(to, now)`, with an illegal move leaving the record as it was. */
    function To(to: Status): Record {
      if CanMove(status, to) then this.(status := to) else this
    }

    function LiveOf(kind: Kind): seq<Resource> {
      Live(resources, kind)
    }
  }

  /** `transitionToRemoving`: the intermediate moves happen in memory only. */
  function TowardsRemoving(status: Status): Status {
    match status
    case Ready => Stopped
    case Stopping => Stopped
    case Creating => Error
    case Starting => Error
    case Setup => Error
    case _ => status
  }

  // Removal can begin from every status, and each in-memory move it makes is in the table.
  lemma RemovalAlwaysLegal(status: Status)
    ensures CanMove(TowardsRemoving(status), Removing)
    ensures status == Ready ==> CanMove(Ready, Stopping) && CanMove(Stopping, Stopped)
    ensures status != Ready ==> CanMove(status, TowardsRemoving(status))
  {
  }

  // Every move to Error whose result the source discards is in the table.
  lemma ErrorAlwaysLegal(status: Status)
    ensures CanMove(status, Error)
  {
  }

  // ---------- The operation journal ----------

  datatype Phase = Running | Succeeded | Failed

  datatype Operation<Input> = Operation(input: Input, phase: Phase, result: Option<Record>)

  /** What may happen to a journal entry: the bound input stays, and a finished entry is frozen. */
  predicate Continues<Input(==)>(before: Operation<Input>, after: Operation<Input>) {
    before.input == after.input && (before.phase != Running ==> before == after)
  }

  ghost predicate JournalGrows<Input(!new)>(before: map<Key, Operation<Input>>, after: map<Key, Operation<Input>>) {
    forall key :: key in before ==> key in after && Continues(before[key], after[key])
  }
}
