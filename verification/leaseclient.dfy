/** The workspace's half of the lease protocol (internal/workspace/integration_host.go). */
module LeaseClient {
  import opened Options
  import opened Store
  import opened Worlds

  /** `integrationLeaseRequests`: one request per enabled integration, in this order. */
  function Requests(plan: Plan): (requests: seq<LeaseRequest>)
    ensures forall k :: k in plan.integrations ==> exists i :: 0 <= i < |requests| && requests[i].kind == k
    ensures forall i :: 0 <= i < |requests| ==> requests[i].kind in plan.integrations && requests[i].nonce == plan.nonce
    ensures forall i, j :: 0 <= i < j < |requests| ==> requests[i].kind != requests[j].kind
    ensures forall i :: 0 <= i < |requests| ==>
      requests[i].parameters == if requests[i].kind == AgentSecret then "" else plan.settings
  {
    var browser := if Chrome in plan.integrations then [LeaseRequest(plan.nonce, Chrome, plan.settings)] else [];
    var git := if GitCredential in plan.integrations then [LeaseRequest(plan.nonce, GitCredential, plan.settings)] else [];
    var agent := if AgentSecret in plan.integrations then [LeaseRequest(plan.nonce, AgentSecret, "")] else [];
    var requests := browser + git + agent;
    assert Chrome in plan.integrations ==> requests[0].kind == Chrome;
    assert GitCredential in plan.integrations ==> requests[|browser|].kind == GitCredential;
    assert AgentSecret in plan.integrations ==> requests[|browser + git|].kind == AgentSecret;
    assert forall k: LeaseKind :: k in plan.integrations ==> k == Chrome || k == GitCredential || k == AgentSecret;
    requests
  }

  /** Another request than this plan makes for the kind: it has another nonce or other parameters. */
  predicate Alien(request: LeaseRequest, plan: Plan) {
    request.kind in plan.integrations &&
    (request.nonce != plan.nonce || request.parameters != (if request.kind == AgentSecret then "" else plan.settings))
  }

  /** A lease that the record does not hold is in the way of an integration of the plan. */
  ghost predicate Obstructed(host: map<LeaseId, LeaseRequest>, resources: seq<Resource>, plan: Plan) {
    exists l :: l in host && !Held(resources, l) && Alien(host[l], plan)
  }

  /** The record holds this lease and has not released it. */
  ghost predicate Held(resources: seq<Resource>, lease: LeaseId) {
    exists x :: x in resources && x.Active(HostLease) && x.identity.lease == lease
  }

  /** `hasActiveIntegrationLease`. */
  predicate HasActiveLease(r: Record) {
    exists x :: x in r.resources && x.Active(HostLease)
  }

  /** The record changed in its host leases only. */
  ghost predicate LeasesOnly(before: Record, after: Record) {
    && after == before.(resources := after.resources)
    && Live(after.resources, Mount) == Live(before.resources, Mount)
    && Live(after.resources, SshSocket) == Live(before.resources, SshSocket)
    && Live(after.resources, KnownHosts) == Live(before.resources, KnownHosts)
  }

  /** What lease handling may change outside: the host's leases, and the saved record, which is
      the earlier one or a copy of the one in memory with other leases. */
  ghost predicate HostOnly(s: State, t: State, r: Record) {
    && t == s.(host := t.host, record := t.record, trail := t.trail, nextId := t.nextId)
    && (t.record != s.record ==> (t.record.Some? && LeasesOnly(r, t.record.value)))
    && (r.status == Ready ==> (Down(t.trail) <==> Down(s.trail)))
  }

  lemma SavableAcross(s: State, t: State, r: Record, after: Record)
    requires Savable(s, r) && HostOnly(s, t, r) && LeasesOnly(r, after)
    requires LeasesDistinct(after.resources) && LeasesFit(s, after)
    requires r.status == Removing ==> s.removing
    ensures Savable(t, after) && HostOnly(s, Saved(t, after), r) && HostOnly(s, Unsaved(t, after), r)
    ensures Saved(t, after) == t.(record := Some(after), trail := Saved(t, after).trail)
    ensures Unsaved(t, after) == t.(trail := Unsaved(t, after).trail)
  {
    hide LeasesDistinct, NoLeases, Live, HostOnly, PinCarried;
    SavedAcross(s, t, r, after);
    var before, now := Saved(s, r), Saved(t, after);
    assert now == before.(host := now.host, record := now.record, trail := now.trail, nextId := now.nextId);
    assert IntentFirst(now, after) && Anchored(now, after) && Nursery(now, after);
  }

  lemma SavedAcross(s: State, t: State, r: Record, after: Record)
    requires Savable(s, r) && HostOnly(s, t, r) && LeasesOnly(r, after)
    requires r.status == Removing ==> s.removing
    ensures HostOnly(s, Saved(t, after), r) && HostOnly(s, Unsaved(t, after), r)
    ensures var before, now := Saved(s, r), Saved(t, after);
      now == before.(host := now.host, record := now.record, nextId := now.nextId)
    ensures Saved(t, after) == t.(record := Some(after), trail := Saved(t, after).trail)
    ensures Unsaved(t, after) == t.(trail := Unsaved(t, after).trail)
    ensures t.record.Some? && t.record.value.subject == r.subject && PinCarried(t, after)
  {
    hide LeasesDistinct, NoLeases, Live, GoodRecord;
  }

  /** Releasing entry `i` of the record. */
  function ReleasedAt(r: Record, i: nat): Record
    requires i < |r.resources|
  {
    r.(resources := r.resources[i := r.resources[i].(released := true)])
  }

  lemma ReleasedAtIsLease(r: Record, i: nat)
    requires i < |r.resources| && r.resources[i].Active(HostLease)
    ensures LeasesOnly(r, ReleasedAt(r, i))
    ensures LeasesDistinct(r.resources) ==>
      && LeasesDistinct(ReleasedAt(r, i).resources)
      && forall l :: Held(ReleasedAt(r, i).resources, l) <==> Held(r.resources, l) && l != r.resources[i].identity.lease
  {
    var after := ReleasedAt(r, i).resources;
    LiveUpdate(r.resources, i, after[i], Mount);
    LiveUpdate(r.resources, i, after[i], SshSocket);
    LiveUpdate(r.resources, i, after[i], KnownHosts);
    if LeasesDistinct(r.resources) {
      forall l ensures Held(after, l) <==> Held(r.resources, l) && l != r.resources[i].identity.lease {
        if Held(r.resources, l) && l != r.resources[i].identity.lease {
          var x :| x in r.resources && x.Active(HostLease) && x.identity.lease == l;
          var j :| 0 <= j < |r.resources| && r.resources[j] == x;
          assert after[j] == x;
        }
      }
    }
  }

  /** From `before` and the host leases `had`, to `after` and `has`: a lease is marked released only
      when the host does not have it, and the host loses only leases the record held and that are
      now marked released. */
  ghost predicate Released(before: Record, after: Record, had: map<LeaseId, LeaseRequest>, has: map<LeaseId, LeaseRequest>) {
    && LeasesOnly(before, after)
    && LeasesDistinct(after.resources)
    && (forall l :: l in has ==> l in had && has[l] == had[l])
    && (forall l :: l in had && l !in has ==> Held(before.resources, l) && !Held(after.resources, l))
    && (forall l :: Held(after.resources, l) ==> Held(before.resources, l))
    && (forall l :: Held(before.resources, l) && !Held(after.resources, l) ==> l !in has)
  }

  /** The host has no lease that it did not have. */
  ghost predicate FewerLeases(had: map<LeaseId, LeaseRequest>, has: map<LeaseId, LeaseRequest>) {
    forall l :: l in has ==> l in had && has[l] == had[l]
  }

  lemma FewerTrans(a: map<LeaseId, LeaseRequest>, b: map<LeaseId, LeaseRequest>, c: map<LeaseId, LeaseRequest>)
    requires FewerLeases(a, b) && FewerLeases(b, c)
    ensures FewerLeases(a, c)
  {
  }

  lemma ReleasedOne(before: Record, r: Record, had: map<LeaseId, LeaseRequest>, has: map<LeaseId, LeaseRequest>, i: nat)
    requires Released(before, r, had, has)
    requires i < |r.resources| && r.resources[i].Active(HostLease)
    ensures Released(before, ReleasedAt(r, i), had, has - {r.resources[i].identity.lease})
    ensures has.Keys <= had.Keys
  {
    ReleasedAtIsLease(r, i);
    assert Held(r.resources, r.resources[i].identity.lease);
  }

  lemma StillAtHost(before: Record, r: Record, had: map<LeaseId, LeaseRequest>, has: map<LeaseId, LeaseRequest>, i: nat)
    requires Released(before, r, had, has)
    requires i < |r.resources| && r.resources[i].Active(HostLease) && r.resources[i].identity.lease in had
    ensures r.resources[i].identity.lease in has
  {
    assert Held(r.resources, r.resources[i].identity.lease);
  }

  lemma ReleasedNone(s: State, r: Record)
    requires Savable(s, r)
    ensures Released(r, r, s.host, s.host)
  {
  }

  lemma ReleasedSavable(s: State, t: State, before: Record, after: Record, has: map<LeaseId, LeaseRequest>)
    requires Savable(s, before) && HostOnly(s, t, before) && Released(before, after, s.host, has)
    requires before.status == Removing ==> s.removing
    ensures Savable(t, after) && LeasesOnly(before, after)
    ensures HostOnly(s, Saved(t, after), before) && HostOnly(s, Unsaved(t, after), before)
    ensures Saved(t, after) == t.(record := Some(after), trail := Saved(t, after).trail)
    ensures Unsaved(t, after) == t.(trail := Unsaved(t, after).trail)
  {
    hide Savable, LeasesOnly, LeasesFit;
    SavableParts(s, before);
    FewerFit(s, before, after);
    SavableAcross(s, t, before, after);
  }

  /** A record that holds no other leases than a fitting one fits. */
  lemma FewerFit(s: State, before: Record, after: Record)
    requires LeasesFit(s, before)
    requires forall l :: Held(after.resources, l) ==> Held(before.resources, l)
    ensures LeasesFit(s, after)
  {
    if Kinds(s) == {} {
      NoneHeld(before.resources);
      forall i | 0 <= i < |after.resources|
        ensures !after.resources[i].Active(HostLease)
      {
        if after.resources[i].Active(HostLease) {
          assert Held(after.resources, after.resources[i].identity.lease);
        }
      }
    }
  }

  lemma NoneHeld(resources: seq<Resource>)
    requires NoLeases(resources)
    ensures forall l :: !Held(resources, l)
  {
  }

  /** One entry of the loop: ask the host unless its list says the lease is gone, then mark it. */
  method ReleaseEntry(w: World, ghost given: Record, ghost had: map<LeaseId, LeaseRequest>, r: Record, index: nat,
                      known: bool, active: set<LeaseId>)
    returns (out: Outcome, after: Record)
    requires w.Valid() && MayAct(w.s)
    requires Released(given, r, had, w.s.host)
    requires known ==> active == had.Keys
    requires index < |r.resources|
    modifies w`s, w`history, w`crashes
    ensures w.Went(out) && w.s == old(w.s).(host := w.s.host) && FewerLeases(old(w.s).host, w.s.host)
    ensures out != Crash ==> Released(given, after, had, w.s.host)
    ensures |after.resources| == |r.resources|
    ensures forall i :: index < i < |r.resources| ==> after.resources[i] == r.resources[i]
    ensures out == Ok ==> !after.resources[index].Active(HostLease)
    ensures out == Fail && known ==> !w.reliable
  {
    hide Chain, Released, Held, LeasesOnly, FewerLeases;
    FewerTrans(w.s.host, w.s.host, w.s.host);
    out, after := Ok, r;
    if r.resources[index].Active(HostLease) {
      var lease := r.resources[index].identity.lease;
      ReleasedOne(given, r, had, w.s.host, index);
      if known && lease in active {
        StillAtHost(given, r, had, w.s.host, index);
      }
      out := GiveBackOne(w, lease, known, active);
      if out == Ok {
        after := ReleasedAt(r, index);
      }
    }
  }

  /** The lease is gone at the host: it is released there, unless the list says that it is gone. */
  method GiveBackOne(w: World, lease: LeaseId, known: bool, active: set<LeaseId>) returns (out: Outcome)
    requires w.Valid() && MayAct(w.s)
    requires known ==> (lease in active <==> lease in w.s.host)
    modifies w`s, w`history, w`crashes
    ensures w.Went(out) && w.s == old(w.s).(host := w.s.host) && FewerLeases(old(w.s).host, w.s.host)
    ensures out == Ok ==> w.s.host == old(w.s).host - {lease}
    ensures out == Fail ==> w.s == old(w.s) && (known ==> !w.reliable)
  {
    hide Chain;
    out := Ok;
    if !known || lease in active {
      out := w.ReleaseLease(lease);
    } else {
      assert w.s.host - {lease} == w.s.host;
    }
  }

  /** The loop of `releaseIntegrationLeases`: backwards over the record, going on after a failure.
      With the host's list at hand (`known`) it does not ask the host for a lease that is gone. */
  method ReleaseHeld(w: World, given: Record, known: bool, active: set<LeaseId>) returns (out: Outcome, r: Record)
    requires w.Valid() && MayAct(w.s) && Savable(w.s, given)
    requires known ==> active == w.s.host.Keys
    modifies w`s, w`history, w`crashes
    ensures w.Went(out) && w.s == old(w.s).(host := w.s.host) && FewerLeases(old(w.s).host, w.s.host)
    ensures out != Crash ==> Released(given, r, old(w.s).host, w.s.host)
    ensures out == Ok ==> forall l :: !Held(r.resources, l)
    ensures out == Fail && known ==> !w.reliable
  {
    hide Chain, Savable, Released, Held, FewerLeases;
    ReleasedNone(w.s, given);
    FewerTrans(w.s.host, w.s.host, w.s.host);
    r := given;
    var failed := false;
    var index := |r.resources|;
    while index > 0
      invariant 0 <= index <= |r.resources|
      invariant w.Went(Ok) && w.s == old(w.s).(host := w.s.host) && FewerLeases(old(w.s).host, w.s.host)
      invariant Released(given, r, old(w.s).host, w.s.host)
      invariant !failed ==> forall i :: index <= i < |r.resources| ==> !r.resources[i].Active(HostLease)
      invariant failed && known ==> !w.reliable
    {
      index := index - 1;
      ghost var has := w.s.host;
      out, r := ReleaseEntry(w, given, old(w.s).host, r, index, known, active);
      FewerTrans(old(w.s).host, has, w.s.host);
      if out == Crash {
        return;
      }
      failed := failed || out == Fail;
    }
    if !failed {
      NoneHeld(r.resources);
    }
    out := if failed then Fail else Ok;
  }

  /** `releaseIntegrationLeases`: success leaves no lease held. */
  method ReleaseLeases(w: World, given: Record) returns (out: Outcome, r: Record)
    requires w.Valid() && MayAct(w.s) && Savable(w.s, given)
    requires given.status == Removing ==> w.s.removing
    modifies w
    ensures w.Went(out) && HostOnly(old(w.s), w.s, given)
    ensures FewerLeases(old(w.s).host, w.s.host) && w.s.nextId == old(w.s).nextId
    ensures out != Crash ==> Released(given, r, old(w.s).host, w.s.host) && Savable(w.s, r) && LeasesOnly(given, r)
    ensures out == Ok ==> forall l :: !Held(r.resources, l)
    ensures out == Ok ==> w.s.record == Some(r) || (r == given && w.s.record == old(w.s).record)
    ensures w.s.record == old(w.s).record
         || (w.s.record.Some? && Released(given, w.s.record.value, old(w.s).host, w.s.host))
    ensures out == Fail ==> !w.reliable
  {
    hide Chain, Savable, LeasesOnly, Released, Held, HostOnly, FewerLeases;
    HostMoves(w.s, given);
    out, r := ReleaseListed(w, given);
    if out != Crash {
      var saved := SaveReleases(w, old(w.s), given, r);
      out := if saved == Ok then out else saved;
    }
  }

  /** Asks the host for its list, and goes through the record without it if there is none. */
  method ReleaseListed(w: World, given: Record) returns (out: Outcome, r: Record)
    requires w.Valid() && MayAct(w.s) && Savable(w.s, given)
    modifies w`s, w`history, w`crashes
    ensures w.Went(out) && w.s == old(w.s).(host := w.s.host) && FewerLeases(old(w.s).host, w.s.host)
    ensures out != Crash ==> Released(given, r, old(w.s).host, w.s.host)
    ensures out == Ok ==> forall l :: !Held(r.resources, l)
    ensures out == Fail ==> !w.reliable
  {
    hide Chain, Savable, Released, Held, FewerLeases;
    FewerTrans(w.s.host, w.s.host, w.s.host);
    var listed := w.Try();
    if listed == Crash {
      return Crash, given;
    }
    out, r := ReleaseHeld(w, given, listed == Ok, if listed == Ok then w.s.host.Keys else {});
  }

  /** Saves what was released, if anything was. */
  method SaveReleases(w: World, ghost start: State, given: Record, r: Record) returns (out: Outcome)
    requires w.Valid() && MayAct(w.s) && Savable(start, given) && w.s == start.(host := w.s.host)
    requires Released(given, r, start.host, w.s.host) && (given.status == Removing ==> start.removing)
    modifies w
    ensures w.Went(out) && HostOnly(start, w.s, given)
    ensures w.s == old(w.s).(record := w.s.record, trail := w.s.trail) && w.s.record in {old(w.s).record, Some(r)}
    ensures Savable(w.s, r) && LeasesOnly(given, r)
    ensures out == Ok ==> w.s.record == Some(r) || (r == given && w.s.record == old(w.s).record)
    ensures out == Fail ==> !w.reliable
    ensures r == given ==> out == Ok && w.s == old(w.s) && w.mishap == old(w.mishap)
  {
    hide Chain, Savable, LeasesOnly, Released, HostOnly, Saved, Unsaved;
    HostMoves(start, given);
    ReleasedSavable(start, w.s, given, r, w.s.host);
    out := Ok;
    if r != given {
      ghost var has := w.s.host;
      out := w.SaveRecord(r);
      ReleasedSavable(start, w.s, given, r, has);
    }
  }

  /** The record holds exactly the leases that the host has for the workspace, and they are one for
      each request and no others. */
  ghost predicate Agreement(host: map<LeaseId, LeaseRequest>, resources: seq<Resource>, requests: seq<LeaseRequest>) {
    && (forall l :: l in host <==> Held(resources, l))
    && (forall l :: l in host ==> host[l] in requests)
    && (forall i :: 0 <= i < |requests| ==> Serves(host, requests[i]))
  }

  ghost predicate Serves(host: map<LeaseId, LeaseRequest>, request: LeaseRequest) {
    exists l :: l in host && host[l] == request
  }

  ghost predicate Requested(requests: seq<LeaseRequest>, kind: LeaseKind) {
    exists i :: 0 <= i < |requests| && requests[i].kind == kind
  }

  /** The first requests have their answers: the record holds exactly these leases, the host has
      them for these requests, and it lost nothing it had. */
  ghost predicate Answered(resources: seq<Resource>, leases: seq<LeaseId>, requests: seq<LeaseRequest>,
                           had: map<LeaseId, LeaseRequest>, has: map<LeaseId, LeaseRequest>) {
    && |leases| <= |requests|
    && (forall i :: 0 <= i < |leases| ==> leases[i] in has && has[leases[i]] == requests[i])
    && (forall l :: Held(resources, l) <==> l in leases)
    && (forall l :: l in had ==> l in has && has[l] == had[l])
    && (forall l :: l in has ==> l in had || l in leases)
  }

  /** Each of these leases is live on both sides, or gone at the host and marked released. */
  ghost predicate Accounted(resources: seq<Resource>, leases: seq<LeaseId>, host: map<LeaseId, LeaseRequest>) {
    forall i :: 0 <= i < |leases| ==> (Held(resources, leases[i]) <==> leases[i] in host)
  }

  /** Only leases of the failed call were given back. */
  ghost predicate RolledBack(had: map<LeaseId, LeaseRequest>, has: map<LeaseId, LeaseRequest>, leases: seq<LeaseId>) {
    && (forall l :: l in has ==> l in had && has[l] == had[l])
    && (forall l :: l in had && l !in has ==> l in leases)
  }

  lemma AppendLease(r: Record, lease: LeaseId, kind: LeaseKind)
    requires LeasesDistinct(r.resources) && !Held(r.resources, lease)
    ensures var after := r.(resources := r.resources + [Acquired(LeaseIdentity(lease, kind))]);
      && LeasesOnly(r, after)
      && LeasesDistinct(after.resources)
      && forall l :: Held(after.resources, l) <==> Held(r.resources, l) || l == lease
  {
    var added := Acquired(LeaseIdentity(lease, kind));
    LiveAppend(r.resources, added, Mount);
    LiveAppend(r.resources, added, SshSocket);
    LiveAppend(r.resources, added, KnownHosts);
    var after := r.resources + [added];
    assert after[|r.resources|] == added;
    forall l ensures Held(after, l) <==> Held(r.resources, l) || l == lease {
      if Held(r.resources, l) {
        var x :| x in r.resources && x.Active(HostLease) && x.identity.lease == l;
        assert x in after;
      }
    }
  }

  /** `markResourceReleased`: the last active entry with this ID. When IDs are distinct it is the
      only one. */
  method MarkReleased(given: Record, lease: LeaseId) returns (r: Record)
    requires LeasesDistinct(given.resources)
    ensures LeasesOnly(given, r) && LeasesDistinct(r.resources)
    ensures forall l :: Held(r.resources, l) <==> Held(given.resources, l) && l != lease
  {
    r := given;
    var index := |r.resources|;
    while index > 0
      invariant 0 <= index <= |r.resources|
      invariant forall i :: index <= i < |r.resources| && r.resources[i].Active(HostLease) ==>
        r.resources[i].identity.lease != lease
    {
      index := index - 1;
      if r.resources[index].Active(HostLease) && r.resources[index].identity.lease == lease {
        ReleasedAtIsLease(r, index);
        return ReleasedAt(r, index);
      }
    }
  }

  /** No lease is held that was not held before. */
  ghost predicate HoldsNoMore(before: seq<Resource>, after: seq<Resource>) {
    forall l :: Held(after, l) ==> Held(before, l)
  }

  /** The loop of `rollbackIntegrationLeases`. */
  method RollbackHeld(w: World, given: Record, leases: seq<LeaseId>) returns (out: Outcome, r: Record)
    requires w.Valid() && MayAct(w.s) && LeasesDistinct(given.resources)
    requires Accounted(given.resources, leases, w.s.host)
    modifies w`s, w`history, w`crashes
    ensures w.Went(out) && w.s == old(w.s).(host := w.s.host)
    ensures out == Ok ==> LeasesOnly(given, r) && LeasesDistinct(r.resources)
    ensures out == Ok ==> Accounted(r.resources, leases, w.s.host) && HoldsNoMore(given.resources, r.resources)
    ensures out != Fail
    ensures RolledBack(old(w.s).host, w.s.host, leases)
  {
    hide Chain, LeasesOnly, Held, LeasesDistinct;
    LeasesOnlyRefl(given);
    r := given;
    var index := |leases|;
    while index > 0
      invariant 0 <= index <= |leases|
      invariant w.Went(Ok) && w.s == old(w.s).(host := w.s.host)
      invariant LeasesOnly(given, r) && LeasesDistinct(r.resources) && HoldsNoMore(given.resources, r.resources)
      invariant Accounted(r.resources, leases, w.s.host)
      invariant RolledBack(old(w.s).host, w.s.host, leases)
    {
      index := index - 1;
      out := w.ReleaseLease(leases[index]);
      if out == Crash {
        return;
      }
      if out == Ok {
        ghost var before := r;
        r := MarkReleased(r, leases[index]);
        LeasesOnlyTrans(given, before, r);
      }
    }
    out := Ok;
  }

  /** `rollbackIntegrationLeases`: whatever fails on the way, host and record still agree on every
      lease of the failed call. */
  method Rollback(w: World, given: Record, leases: seq<LeaseId>) returns (out: Outcome, r: Record)
    requires w.Valid() && MayAct(w.s) && Savable(w.s, given)
    requires given.status == Removing ==> w.s.removing
    requires Accounted(given.resources, leases, w.s.host)
    modifies w
    ensures w.Went(out) && HostOnly(old(w.s), w.s, given) && out != Ok
    ensures out == Fail ==>
      && LeasesOnly(given, r) && Savable(w.s, r)
      && Accounted(r.resources, leases, w.s.host)
      && RolledBack(old(w.s).host, w.s.host, leases)
  {
    hide Chain, Savable, LeasesOnly, Held, LeasesDistinct, LeasesFit, HoldsNoMore, HostOnly;
    SavableParts(w.s, given);
    HostMoves(w.s, given);
    out, r := RollbackHeld(w, given, leases);
    if out == Ok {
      ghost var t := w.s;
      HoldsFit(old(w.s), given, r);
      SavableAcross(old(w.s), t, given, r);
      out := w.SaveRecord(r);
      SavableAcross(old(w.s), w.s, given, r);
      out := if out == Ok then Fail else out;
    }
  }

  lemma HoldsFit(s: State, before: Record, after: Record)
    requires LeasesFit(s, before) && HoldsNoMore(before.resources, after.resources)
    ensures LeasesFit(s, after)
  {
    FewerFit(s, before, after);
  }

  lemma HostOnlyRefl(s: State, r: Record)
    ensures HostOnly(s, s, r)
  {
  }

  lemma HostMoves(s: State, r: Record)
    ensures forall host :: HostOnly(s, s.(host := host), r)
  {
  }

  /** One more answer. It is no lease the record already holds: those answer other kinds. */
  lemma AnsweredOne(r: Record, leases: seq<LeaseId>, requests: seq<LeaseRequest>,
                    had: map<LeaseId, LeaseRequest>, has: map<LeaseId, LeaseRequest>,
                    now: map<LeaseId, LeaseRequest>, lease: LeaseId)
    requires Answered(r.resources, leases, requests, had, has) && |leases| < |requests|
    requires LeasesDistinct(r.resources)
    requires forall i, j :: 0 <= i < j < |requests| ==> requests[i].kind != requests[j].kind
    requires lease in now && now[lease] == requests[|leases|]
    requires forall l :: l in has ==> l in now && now[l] == has[l]
    requires forall l :: l in now && l !in has ==> l == lease
    ensures !Held(r.resources, lease)
    ensures NewIn(had, now, leases + [lease])
    ensures var after := r.(resources := r.resources + [Acquired(LeaseIdentity(lease, requests[|leases|].kind))]);
      && Answered(after.resources, leases + [lease], requests, had, now)
      && Accounted(after.resources, leases + [lease], now)
  {
    assert lease !in leases;
    AppendLease(r, lease, requests[|leases|].kind);
    assert lease in leases + [lease];
  }

  lemma AnsweredAccounts(resources: seq<Resource>, leases: seq<LeaseId>, requests: seq<LeaseRequest>,
                         had: map<LeaseId, LeaseRequest>, has: map<LeaseId, LeaseRequest>)
    requires Answered(resources, leases, requests, had, has)
    ensures Accounted(resources, leases, has)
    ensures NewIn(had, has, leases)
  {
  }

  lemma AllAnswered(resources: seq<Resource>, leases: seq<LeaseId>, requests: seq<LeaseRequest>,
                    had: map<LeaseId, LeaseRequest>, has: map<LeaseId, LeaseRequest>)
    requires Answered(resources, leases, requests, had, has) && |leases| == |requests|
    requires SocketsExclusive(has) && forall l :: l in has ==> Requested(requests, has[l].kind)
    ensures Agreement(has, resources, requests)
  {
    forall l | l in has
      ensures Held(resources, l) && has[l] in requests
    {
      var i :| 0 <= i < |requests| && requests[i].kind == has[l].kind;
      assert leases[i] == l;
    }
    forall i | 0 <= i < |requests|
      ensures Serves(has, requests[i])
    {
      assert leases[i] in has;
    }
  }

  /** Appends the lease to the record and saves it. */
  method RecordLease(w: World, ghost given: Record, before: Record, lease: LeaseId, kind: LeaseKind, ghost start: State)
    returns (out: Outcome, r: Record)
    requires w.Valid() && MayAct(w.s) && Savable(start, given) && given.status != Removing
    requires HostOnly(start, w.s, given) && LeasesOnly(given, before) && LeasesDistinct(before.resources)
    requires !Held(before.resources, lease) && Kinds(start) != {}
    modifies w
    ensures w.Went(out) && HostOnly(start, w.s, given) && w.s.host == old(w.s).host
    ensures r == before.(resources := before.resources + [Acquired(LeaseIdentity(lease, kind))])
    ensures LeasesOnly(given, r) && (out != Crash ==> Savable(w.s, r))
    ensures (out == Ok ==> w.s.record == Some(r)) && (out == Fail ==> !w.reliable)
    ensures MayAct(w.s)
  {
    r := before.(resources := before.resources + [Acquired(LeaseIdentity(lease, kind))]);
    AppendLease(before, lease, kind);
    LeasesOnlyTrans(given, before, r);
    assert LeasesFit(start, r);
    hide Chain, Savable, LeasesOnly, LeasesDistinct, LeasesFit, Saved, Unsaved;
    SavableAcross(start, w.s, given, r);
    out := w.SaveRecord(r);
    SavableAcross(start, w.s, given, r);
  }

  /** The requests are for these kinds. */
  ghost predicate AllWanted(kinds: set<LeaseKind>, requests: seq<LeaseRequest>) {
    forall i :: 0 <= i < |requests| ==> requests[i].kind in kinds
  }

  /** Acquire, record, save. A failure leaves every lease of the call accounted for. */
  method TryOne(w: World, ghost given: Record, before: Record, requests: seq<LeaseRequest>, acquired: seq<LeaseId>,
                ghost start: State)
    returns (out: Outcome, r: Record, leases: seq<LeaseId>)
    requires w.Valid() && MayAct(w.s) && Savable(start, given) && given.status != Removing
    requires HostOnly(start, w.s, given) && LeasesOnly(given, before) && Savable(w.s, before)
    requires |acquired| < |requests|
    requires Answered(before.resources, acquired, requests, start.host, w.s.host)
    requires forall i, j :: 0 <= i < j < |requests| ==> requests[i].kind != requests[j].kind
    requires AllWanted(Kinds(w.s), requests)
    modifies w
    ensures w.Went(out) && HostOnly(start, w.s, given) && MayAct(w.s)
    ensures LeasesOnly(given, r) && (out != Crash ==> Savable(w.s, r))
    ensures out == Fail && w.reliable ==> Blocked(old(w.s).host, requests[|acquired|])
    ensures out == Ok ==> |leases| == |acquired| + 1 && w.s.record == Some(r)
    ensures out == Ok ==> Answered(r.resources, leases, requests, start.host, w.s.host)
    ensures out == Fail ==> Accounted(r.resources, leases, w.s.host) && NewIn(start.host, w.s.host, leases)
  {
    hide Chain, Savable, LeasesOnly, Held, Answered, Accounted, LeasesDistinct, HostOnly, NewIn;
    SavableParts(w.s, before);
    AnsweredAccounts(before.resources, acquired, requests, start.host, w.s.host);
    r, leases := before, acquired;
    ghost var has, t := w.s.host, w.s;
    var lease;
    out, lease := w.AcquireLease(requests[|acquired|]);
    HostMoved(start, t, w.s, given);
    if out == Ok {
      AnsweredOne(before, acquired, requests, start.host, has, w.s.host, lease);
      leases := acquired + [lease];
      out, r := RecordLease(w, given, before, lease, requests[|acquired|].kind, start);
    } else {
      SavableAcross(start, w.s, given, before);
    }
  }

  /** One round of the loop: when acquiring, recording or saving fails, everything is rolled back. */
  method AcquireOne(w: World, ghost given: Record, before: Record, requests: seq<LeaseRequest>, acquired: seq<LeaseId>,
                    ghost start: State)
    returns (out: Outcome, r: Record, leases: seq<LeaseId>)
    requires w.Valid() && MayAct(w.s) && Savable(start, given) && given.status != Removing
    requires HostOnly(start, w.s, given) && LeasesOnly(given, before) && Savable(w.s, before)
    requires |acquired| < |requests|
    requires Answered(before.resources, acquired, requests, start.host, w.s.host)
    requires forall i, j :: 0 <= i < j < |requests| ==> requests[i].kind != requests[j].kind
    requires AllWanted(Kinds(w.s), requests)
    modifies w
    ensures w.Went(out) && HostOnly(start, w.s, given)
    ensures out != Crash ==> LeasesOnly(given, r) && Savable(w.s, r)
    ensures out == Fail && w.reliable ==> Blocked(old(w.s).host, requests[|acquired|])
    ensures out == Ok ==> |leases| == |acquired| + 1 && w.s.record == Some(r)
    ensures out == Ok ==> Answered(r.resources, leases, requests, start.host, w.s.host)
    ensures out == Fail ==> Accounted(r.resources, leases, w.s.host) && NewIn(start.host, w.s.host, leases)
  {
    hide Chain, Savable, LeasesOnly, Held, Answered, Accounted, LeasesDistinct, HostOnly, NewIn;
    out, r, leases := TryOne(w, given, before, requests, acquired, start);
    if out == Fail {
      out, r := RollbackFrom(w, given, r, leases, start);
    }
  }

  /** The host's leases that were not there before are among these. */
  ghost predicate NewIn(had: map<LeaseId, LeaseRequest>, has: map<LeaseId, LeaseRequest>, leases: seq<LeaseId>) {
    forall l :: l in has && l !in had ==> l in leases
  }

  lemma SavableParts(s: State, r: Record)
    requires Savable(s, r)
    ensures LeasesDistinct(r.resources) && LeasesFit(s, r) && s.record.Some?
  {
  }

  method RollbackFrom(w: World, ghost given: Record, before: Record, leases: seq<LeaseId>, ghost start: State)
    returns (out: Outcome, r: Record)
    requires w.Valid() && MayAct(w.s) && Savable(w.s, before) && given.status != Removing
    requires HostOnly(start, w.s, given) && LeasesOnly(given, before)
    requires Accounted(before.resources, leases, w.s.host)
    requires NewIn(start.host, w.s.host, leases)
    modifies w
    ensures w.Went(out) && HostOnly(start, w.s, given) && out != Ok
    ensures out == Fail ==>
      && LeasesOnly(given, r) && Savable(w.s, r)
      && Accounted(r.resources, leases, w.s.host)
      && NewIn(start.host, w.s.host, leases)
  {
    hide Chain, Savable, Held, Accounted;
    ghost var t := w.s;
    out, r := Rollback(w, before, leases);
    HostOnlyTrans(start, t, w.s, given, before);
    if out == Fail {
      LeasesOnlyTrans(given, before, r);
    }
  }

  lemma HostMoved(a: State, b: State, c: State, r: Record)
    requires HostOnly(a, b, r) && c == b.(host := c.host, nextId := c.nextId)
    ensures HostOnly(a, c, r)
  {
  }

  lemma HostOnlyTrans(a: State, b: State, c: State, r: Record, s: Record)
    requires HostOnly(a, b, r) && HostOnly(b, c, s) && LeasesOnly(r, s)
    ensures HostOnly(a, c, r)
  {
  }

  /** The acquiring loop of `acquireIntegrationLeases`, entered with no lease held. */
  method AcquireHeld(w: World, given: Record, requests: seq<LeaseRequest>)
    returns (out: Outcome, r: Record, ghost leases: seq<LeaseId>)
    requires w.Valid() && MayAct(w.s) && Savable(w.s, given) && given.status != Removing
    requires forall l :: !Held(given.resources, l)
    requires forall i, j :: 0 <= i < j < |requests| ==> requests[i].kind != requests[j].kind
    requires AllWanted(Kinds(w.s), requests)
    modifies w
    ensures w.Went(out) && HostOnly(old(w.s), w.s, given)
    ensures out != Crash ==> LeasesOnly(given, r) && Savable(w.s, r)
    ensures out == Ok ==> Answered(r.resources, leases, requests, old(w.s).host, w.s.host) && |leases| == |requests|
    ensures out == Ok ==> w.s.record == if requests == [] then old(w.s).record else Some(r)
    ensures out == Fail ==>
      && Accounted(r.resources, leases, w.s.host)
      && NewIn(old(w.s).host, w.s.host, leases)
    ensures out == Fail && w.reliable ==> AnyBlocked(old(w.s).host, requests)
  {
    LeasesOnlyRefl(given);
    assert Answered(given.resources, [], requests, w.s.host, w.s.host);
    hide Chain, Savable, LeasesOnly, Held, Answered, Accounted, LeasesDistinct, Blocked, AnyBlocked;
    r, leases := given, [];
    var acquired: seq<LeaseId> := [];
    for index := 0 to |requests|
      invariant w.Went(Ok) && HostOnly(old(w.s), w.s, given)
      invariant LeasesOnly(given, r) && Savable(w.s, r) && acquired == leases && |leases| == index
      invariant Answered(r.resources, leases, requests, old(w.s).host, w.s.host)
      invariant w.s.record == if index == 0 then old(w.s).record else Some(r)
    {
      ghost var resources, has := r.resources, w.s.host;
      out, r, acquired := AcquireOne(w, given, r, requests, acquired, old(w.s));
      if out == Fail && w.reliable {
        BlockedBefore(resources, leases, requests, old(w.s).host, has);
      }
      leases := acquired;
      if out != Ok {
        return;
      }
    }
    out := Ok;
  }

  ghost predicate AnyBlocked(host: map<LeaseId, LeaseRequest>, requests: seq<LeaseRequest>) {
    exists i :: 0 <= i < |requests| && Blocked(host, requests[i])
  }

  /** What is in the way of the next request was there before the first one. */
  lemma BlockedBefore(resources: seq<Resource>, leases: seq<LeaseId>, requests: seq<LeaseRequest>,
                      had: map<LeaseId, LeaseRequest>, has: map<LeaseId, LeaseRequest>)
    requires Answered(resources, leases, requests, had, has) && |leases| < |requests|
    requires forall i, j :: 0 <= i < j < |requests| ==> requests[i].kind != requests[j].kind
    requires Blocked(has, requests[|leases|])
    ensures AnyBlocked(had, requests)
  {
    var l :| l in has && has[l].kind == requests[|leases|].kind && has[l] != requests[|leases|];
    assert l !in leases;
    assert Blocked(had, requests[|leases|]);
  }

  /** Nothing was in the way of requests that were all answered. */
  lemma NoneBlocked(resources: seq<Resource>, leases: seq<LeaseId>, requests: seq<LeaseRequest>,
                    had: map<LeaseId, LeaseRequest>, has: map<LeaseId, LeaseRequest>)
    requires Answered(resources, leases, requests, had, has) && |leases| == |requests| && SocketsExclusive(has)
    ensures !AnyBlocked(had, requests)
  {
    forall i | 0 <= i < |requests|
      ensures !Blocked(had, requests[i])
    {
      forall l | l in had && had[l].kind == requests[i].kind
        ensures had[l] == requests[i]
      {
        assert leases[i] in has && l in has;
      }
    }
  }

  lemma BlockedIsAlien(host: map<LeaseId, LeaseRequest>, plan: Plan)
    ensures AnyBlocked(host, Requests(plan)) <==> exists l :: l in host && Alien(host[l], plan)
  {
    var requests := Requests(plan);
    if AnyBlocked(host, requests) {
      var i :| 0 <= i < |requests| && Blocked(host, requests[i]);
      var l :| l in host && host[l].kind == requests[i].kind && host[l] != requests[i];
      assert Alien(host[l], plan);
    }
    if l :| l in host && Alien(host[l], plan) {
      var i :| 0 <= i < |requests| && requests[i].kind == host[l].kind;
      assert Blocked(host, requests[i]);
    }
  }

  /** The host has what it had, less what the record held. */
  ghost predicate HeldGone(had: map<LeaseId, LeaseRequest>, has: map<LeaseId, LeaseRequest>, resources: seq<Resource>) {
    && (forall l :: l in has <==> l in had && !Held(resources, l))
    && (forall l :: l in has ==> has[l] == had[l])
  }

  lemma AllReleased(before: Record, after: Record, had: map<LeaseId, LeaseRequest>, has: map<LeaseId, LeaseRequest>)
    requires Released(before, after, had, has) && forall l :: !Held(after.resources, l)
    ensures HeldGone(had, has, before.resources)
  {
  }

  lemma ObstructedFreed(had: map<LeaseId, LeaseRequest>, has: map<LeaseId, LeaseRequest>, resources: seq<Resource>, plan: Plan)
    requires HeldGone(had, has, resources)
    ensures Obstructed(had, resources, plan) <==> exists l :: l in has && Alien(has[l], plan)
  {
  }

  /** `acquireIntegrationLeases`. Without call errors it succeeds exactly if nothing is in the way. On success
      host and record agree, and a lease the host already had under one of these requests is still the one.
      On failure every lease of the call is live on both sides or on neither. */
  method AcquireLeases(w: World, given: Record, plan: Plan)
    returns (out: Outcome, r: Record, ghost leases: seq<LeaseId>)
    requires w.Valid() && MayAct(w.s) && Savable(w.s, given) && given.status != Removing
    requires w.s.plan == Some(plan)
    modifies w
    ensures w.Went(out) && HostOnly(old(w.s), w.s, given)
    ensures out != Crash ==> LeasesOnly(given, r) && Savable(w.s, r)
    ensures plan.integrations == {} ==>
      out == Ok && w.s == old(w.s) && r == given && w.mishap == old(w.mishap) && w.crashes == old(w.crashes)
    ensures out == Ok ==> Agreement(w.s.host, r.resources, Requests(plan))
    ensures out == Ok && plan.integrations != {} ==>
      && w.s.record == Some(r)
      && (forall l :: l in old(w.s).host && !Held(given.resources, l) ==> l in w.s.host)
    ensures out == Fail ==> Accounted(r.resources, leases, w.s.host) && NewIn(old(w.s).host, w.s.host, leases)
    ensures out == Ok ==> !Obstructed(old(w.s).host, given.resources, plan)
    ensures out == Fail && w.reliable ==> Obstructed(old(w.s).host, given.resources, plan)
  {
    hide Chain, Good, Savable, LeasesOnly, Held, Agreement, AllWanted, HostOnly, Kinds, Alien, Obstructed, HeldGone, Released;
    NoAlien(w.s.host, given.resources, plan);
    leases := [];
    HostOnlyRefl(w.s, given);
    LeasesOnlyRefl(given);
    Wanted(w.s, given, plan) by { w.GoodNow(); }
    if plan.integrations == {} {
      return Ok, given, [];
    }
    out, r := ReleaseLeases(w, given);
    if out == Ok {
      KindsStay(old(w.s), w.s, given);
      LeavesStatus(given, r);
      AllReleased(given, r, old(w.s).host, w.s.host);
      HeldGoneFacts(old(w.s).host, w.s.host, given.resources);
      ObstructedFreed(old(w.s).host, w.s.host, given.resources, plan);
      out, r, leases := AcquireFreed(w, old(w.s), given, r, plan);
    }
  }

  lemma NoAlien(host: map<LeaseId, LeaseRequest>, resources: seq<Resource>, plan: Plan)
    ensures plan.integrations == {} ==> !Obstructed(host, resources, plan)
  {
  }

  lemma HeldGoneFacts(had: map<LeaseId, LeaseRequest>, has: map<LeaseId, LeaseRequest>, resources: seq<Resource>)
    requires HeldGone(had, has, resources)
    ensures forall l :: l in had && !Held(resources, l) ==> l in has
  {
  }

  lemma LeavesStatus(r: Record, after: Record)
    requires LeasesOnly(r, after)
    ensures after.status == r.status
  {
  }

  /** The acquisition, once no lease is held. */
  method AcquireFreed(w: World, ghost start: State, ghost given: Record, free: Record, plan: Plan)
    returns (out: Outcome, r: Record, ghost leases: seq<LeaseId>)
    requires w.Valid() && MayAct(w.s) && Savable(w.s, free) && free.status != Removing
    requires HostOnly(start, w.s, given) && LeasesOnly(given, free) && forall l :: !Held(free.resources, l)
    requires plan.integrations == Kinds(w.s) && AllWanted(Kinds(w.s), Requests(plan)) && plan.integrations != {}
    modifies w
    ensures w.Went(out) && HostOnly(start, w.s, given)
    ensures out != Crash ==> LeasesOnly(given, r) && Savable(w.s, r)
    ensures out == Ok ==> Agreement(w.s.host, r.resources, Requests(plan))
    ensures out == Ok ==> w.s.record == Some(r) && forall l :: l in old(w.s).host ==> l in w.s.host
    ensures out == Fail ==> Accounted(r.resources, leases, w.s.host) && NewIn(old(w.s).host, w.s.host, leases)
    ensures out == Ok ==> !exists l :: l in old(w.s).host && Alien(old(w.s).host[l], plan)
    ensures out == Fail && w.reliable ==> exists l :: l in old(w.s).host && Alien(old(w.s).host[l], plan)
  {
    hide Chain, Savable, LeasesOnly, Held, Agreement, AllWanted, HostOnly, Answered, Kinds, Accounted, NewIn, AnyBlocked,
      Alien;
    BlockedIsAlien(w.s.host, plan);
    var requests := Requests(plan);
    out, r, leases := AcquireHeld(w, free, requests);
    HostOnlyTrans(start, old(w.s), w.s, given, free);
    if out != Crash {
      LeasesOnlyTrans(given, free, r);
    }
    if out == Ok {
      KindsStay(old(w.s), w.s, free);
      Answers(w.s, r.resources, leases, plan, old(w.s).host) by { w.GoodNow(); }
      StillThere(r.resources, leases, requests, old(w.s).host, w.s.host);
      NoneBlocked(r.resources, leases, requests, old(w.s).host, w.s.host) by { w.GoodNow(); }
    }
  }

  lemma StillThere(resources: seq<Resource>, leases: seq<LeaseId>, requests: seq<LeaseRequest>,
                   had: map<LeaseId, LeaseRequest>, has: map<LeaseId, LeaseRequest>)
    requires Answered(resources, leases, requests, had, has) && |leases| == |requests|
    ensures (forall l :: l in had ==> l in has) && (requests != [] ==> leases != [])
  {
  }

  /** The plan asks for the integrations of the workspace; without any, both sides are empty. */
  lemma Wanted(s: State, r: Record, plan: Plan)
    requires Good(s) && s.plan == Some(plan) && Savable(s, r)
    ensures plan.integrations == Kinds(s) && AllWanted(Kinds(s), Requests(plan))
    ensures plan.integrations == {} ==> Agreement(s.host, r.resources, Requests(plan))
  {
    if plan.integrations == {} {
      NoneHeld(r.resources);
    }
  }

  lemma KindsStay(s: State, t: State, r: Record)
    requires HostOnly(s, t, r)
    ensures Kinds(t) == Kinds(s) && MayAct(t) == MayAct(s) && t.plan == s.plan
  {
  }

  lemma Answers(s: State, resources: seq<Resource>, leases: seq<LeaseId>, plan: Plan, had: map<LeaseId, LeaseRequest>)
    requires Good(s) && plan.integrations == Kinds(s)
    requires Answered(resources, leases, Requests(plan), had, s.host) && |leases| == |Requests(plan)|
    ensures Agreement(s.host, resources, Requests(plan))
  {
    AllAnswered(resources, leases, Requests(plan), had, s.host);
  }

  lemma LeasesOnlyRefl(r: Record)
    ensures LeasesOnly(r, r)
  {
  }

  lemma LeasesOnlyTrans(a: Record, b: Record, c: Record)
    requires LeasesOnly(a, b) && LeasesOnly(b, c)
    ensures LeasesOnly(a, c)
  {
  }
}
