/** The host service's half of the lease protocol: handlers that interleave between their locked
    sections, and a lease file (internal/hostservice/server_linux.go, leases_linux.go). */
module HostService {
  import opened Options
  import opened Store
  import opened Worlds

  type ThreadId = nat

  /** A lease request; the digest that the server stores covers all of it. */
  datatype Request = Request(workspace: string, lease: LeaseRequest)

  /** The socket path of a lease: one per workspace and kind. */
  datatype Slot = Slot(workspace: string, kind: LeaseKind)

  function SlotOf(request: Request): Slot {
    Slot(request.workspace, request.lease.kind)
  }

  /** Who listens on a socket: a handler whose lease is not in the table yet, or a lease. */
  datatype Owner = ByThread(thread: ThreadId) | ByLease(lease: LeaseId)

  /** The idempotency key is the same; the rest of the request may differ. */
  predicate SameRequestKey(a: Request, b: Request) {
    a.workspace == b.workspace && SameKey(a.lease, b.lease)
  }

  /** Where a handler is between two of its sections. */
  datatype Thread =
    // handleLease
    | Looking(request: Request)
    | Opening(request: Request)
    | Inserting(request: Request)
    | Undoing(request: Request)
    // handleRelease
    | Finding(workspace: string, lease: LeaseId)
    | Closing(lease: LeaseId)
    | Deleting(lease: LeaseId)
    // drain
    | Snapshotting
    | Draining(rest: seq<LeaseId>)
    | Dropping(lease: LeaseId, rest: seq<LeaseId>)
    | Done(reply: Reply)

  datatype Reply = Granted(lease: LeaseId) | Conflict | Refused | NotFound | Released | Drained

  /** The leases a handler has taken up to give back. */
  function TakenBy(thread: Thread): set<LeaseId> {
    match thread
    case Closing(lease) => {lease}
    case Deleting(lease) => {lease}
    case Draining(rest) => set l | l in rest
    case Dropping(lease, rest) => {lease} + set l | l in rest
    case _ => {}
  }

  /** The socket a handler listens on for a lease that is not in the table. */
  function HeldBy(thread: Thread): Option<Slot> {
    if thread.Inserting? || thread.Undoing? then Some(SlotOf(thread.request)) else None
  }

  /** The state of the service. Three fields are history variables: `closed` holds the leases whose
      Close has run, whatever it returned; `taken` those that a release or a drain has taken up; and
      `kept` those that were acknowledged and not taken up since, with what was acknowledged. */
  datatype Host = Host(
    leases: map<LeaseId, Request>,
    file: map<LeaseId, Request>,
    bound: map<Slot, Owner>,
    threads: map<ThreadId, Thread>,
    nextId: LeaseId,
    closed: set<LeaseId>,
    kept: map<LeaseId, Request>,
    taken: set<LeaseId>)

  /** The durable file covers memory, with the same contents. */
  ghost predicate FileCovers(h: Host) {
    forall l :: l in h.leases ==> l in h.file && h.file[l] == h.leases[l]
  }

  /** A lease that was not closed owns its socket, so no two of them share one; and so does a handler
      between opening a socket and entering its lease. */
  ghost predicate SocketsOwned(h: Host) {
    && (forall l :: l in h.leases && l !in h.closed ==>
          SlotOf(h.leases[l]) in h.bound && h.bound[SlotOf(h.leases[l])] == ByLease(l))
    && (forall t :: t in h.threads && HeldBy(h.threads[t]).Some? ==>
          HeldBy(h.threads[t]).value in h.bound && h.bound[HeldBy(h.threads[t]).value] == ByThread(t))
  }

  /** What was acknowledged and not taken up is in the table, open and unchanged. */
  ghost predicate PromisesKept(h: Host) {
    && (forall l :: l in h.kept ==> l in h.leases && l !in h.closed && h.leases[l] == h.kept[l])
    && (forall t, l :: t in h.threads && l in TakenBy(h.threads[t]) ==> l !in h.kept)
    && (forall l :: l in h.kept ==> l !in h.taken)
  }

  ghost predicate IdsFresh(h: Host) {
    && (forall l :: l in h.leases ==> l < h.nextId)
    && (forall l :: l in h.file ==> l < h.nextId)
    && (forall l :: l in h.closed ==> l < h.nextId)
    && (forall l :: l in h.taken ==> l < h.nextId)
    && (forall t, l :: t in h.threads && l in TakenBy(h.threads[t]) ==> l < h.nextId)
  }

  ghost predicate Inv(h: Host) {
    FileCovers(h) && SocketsOwned(h) && PromisesKept(h) && IdsFresh(h)
  }

  // ---------- The kinds of change, and that each keeps the invariant ----------

  function Moved(h: Host, t: ThreadId, thread: Thread): Host {
    h.(threads := h.threads[t := thread])
  }

  lemma MovedKeeps(h: Host, t: ThreadId, thread: Thread)
    requires Inv(h) && t in h.threads
    requires TakenBy(thread) <= TakenBy(h.threads[t])
    requires HeldBy(thread).None? || HeldBy(thread) == HeldBy(h.threads[t])
    ensures Inv(Moved(h, t, thread))
  {
  }

  lemma OpenedKeeps(h: Host, t: ThreadId, request: Request)
    requires Inv(h) && t in h.threads && SlotOf(request) !in h.bound
    ensures Inv(Moved(h, t, Inserting(request)).(bound := h.bound[SlotOf(request) := ByThread(t)]))
  {
  }

  /** The lease in table and file, and acknowledged. */
  function Inserted(h: Host, t: ThreadId, request: Request): Host {
    var leases := h.leases[h.nextId := request];
    h.(leases := leases, file := leases, bound := h.bound[SlotOf(request) := ByLease(h.nextId)],
       threads := h.threads[t := Done(Granted(h.nextId))], kept := h.kept[h.nextId := request], nextId := h.nextId + 1)
  }

  lemma InsertedSockets(h: Host, t: ThreadId)
    requires SocketsOwned(h) && IdsFresh(h) && t in h.threads && h.threads[t].Inserting?
    ensures SocketsOwned(Inserted(h, t, h.threads[t].request))
  {
    assert HeldBy(h.threads[t]).Some?;
  }

  lemma InsertedPromises(h: Host, t: ThreadId)
    requires PromisesKept(h) && IdsFresh(h) && t in h.threads && h.threads[t].Inserting?
    ensures PromisesKept(Inserted(h, t, h.threads[t].request))
  {
  }

  lemma InsertedKeeps(h: Host, t: ThreadId)
    requires Inv(h) && t in h.threads && h.threads[t].Inserting?
    ensures Inv(Inserted(h, t, h.threads[t].request))
  {
    InsertedSockets(h, t);
    InsertedPromises(h, t);
    hide SocketsOwned, PromisesKept;
  }

  lemma UndoneKeeps(h: Host, t: ThreadId)
    requires Inv(h) && t in h.threads && h.threads[t].Undoing?
    ensures Inv(Moved(h, t, Done(Refused)).(bound := h.bound - {SlotOf(h.threads[t].request)}))
  {
    assert HeldBy(h.threads[t]).Some?;
  }

  /** Leases are taken up: whatever was promised about them no longer is. */
  function TakenUp(h: Host, t: ThreadId, thread: Thread): Host {
    Moved(h, t, thread).(kept := h.kept - TakenBy(thread), taken := h.taken + TakenBy(thread))
  }

  lemma TakenUpKeeps(h: Host, t: ThreadId, thread: Thread)
    requires Inv(h) && t in h.threads && TakenBy(thread) <= h.leases.Keys && HeldBy(thread).None?
    ensures Inv(TakenUp(h, t, thread))
  {
  }

  /** Closing stops the socket of a lease, whatever the call returns; closing again does nothing. */
  function Closed(h: Host, lease: LeaseId): Host {
    h.(bound := map s | s in h.bound && h.bound[s] != ByLease(lease) :: h.bound[s], closed := h.closed + {lease})
  }

  lemma ClosedKeeps(h: Host, lease: LeaseId)
    requires Inv(h) && lease !in h.kept && lease < h.nextId
    ensures Inv(Closed(h, lease))
  {
  }

  lemma DroppedKeeps(h: Host, lease: LeaseId)
    requires Inv(h) && lease !in h.kept
    ensures Inv(h.(leases := h.leases - {lease}))
  {
  }

  lemma PersistedKeeps(h: Host, saves: bool)
    requires Inv(h)
    ensures Inv(h.(file := if saves then h.leases else h.file))
  {
  }

  /** What a crash leaves: the file, and nothing that was in memory. */
  function Crashed(h: Host): Host {
    h.(leases := map[], bound := map[], threads := map[], kept := map[])
  }

  /** A lease that was acknowledged, and not taken up since, survives a crash of the service: the file
      holds it as it was acknowledged. */
  lemma AcknowledgedSurvives(h: Host, lease: LeaseId)
    requires Inv(h) && lease in h.kept
    ensures lease in Crashed(h).file && Crashed(h).file[lease] == h.kept[lease]
    ensures Inv(Crashed(h))
  {
  }

  lemma KeptEverywhere(h: Host)
    requires Inv(h)
    ensures forall l :: l in h.kept ==>
      l in h.leases && h.leases[l] == h.kept[l] && l in h.file && h.file[l] == h.kept[l]
  {
  }

  /** Of the leases that were not closed, at most one is for a workspace and kind; so an idempotency key
      answers for at most one of them. */
  lemma OneOpenLeasePerSocket(h: Host, a: LeaseId, b: LeaseId)
    requires Inv(h) && a in h.leases && b in h.leases && a !in h.closed && b !in h.closed
    requires SlotOf(h.leases[a]) == SlotOf(h.leases[b]) || SameRequestKey(h.leases[a], h.leases[b])
    ensures a == b
  {
    assert h.bound[SlotOf(h.leases[a])] == ByLease(a);
  }

  /** What the lookup of an idempotency key answers. */
  ghost predicate LookAnswer(h: Host, answer: Thread, request: Request) {
    if answer.Opening? then
      answer.request == request && forall l :: l in h.leases ==> !SameRequestKey(h.leases[l], request)
    else if answer == Done(Conflict) then
      exists l :: l in h.leases && SameRequestKey(h.leases[l], request) && h.leases[l] != request
    else
      answer.Done? && answer.reply.Granted? && answer.reply.lease in h.leases && h.leases[answer.reply.lease] == request
  }

  // ---------- The service ----------

  class Server {
    var leases: map<LeaseId, Request>     // under mu
    var file: map<LeaseId, Request>       // run/host-leases.json; without entries when it is absent
    var bound: map<Slot, Owner>           // the lease sockets that listen
    var threads: map<ThreadId, Thread>
    var nextId: LeaseId                   // newLeaseID never repeats one
    ghost var closed: set<LeaseId>
    ghost var kept: map<LeaseId, Request>
    ghost var taken: set<LeaseId>

    ghost function State(): Host
      reads this
    {
      Host(leases, file, bound, threads, nextId, closed, kept, taken)
    }

    ghost predicate Valid()
      reads this
    {
      Inv(State())
    }

    /** A service that has just been started: `reconcileStaleLeases` cleaned up after the last one and
        removed its file, or the service refuses to start. */
    constructor (stale: map<LeaseId, Request>, nextId: LeaseId, cleaned: bool)
      requires forall l :: l in stale ==> l < nextId
      ensures Valid() && leases == map[] && threads == map[] && kept == map[] && bound == map[] && closed == {} && taken == {}
      ensures file == (if cleaned then map[] else stale)
    {
      this.leases, this.bound, this.threads, this.nextId := map[], map[], map[], nextId;
      this.file := if cleaned then map[] else stale;
      this.closed, this.kept, this.taken := {}, map[], {};
    }

    /** A request arrives. */
    method Arrive(t: ThreadId, thread: Thread)
      requires Valid() && (t in threads ==> threads[t].Done?)
      requires thread.Looking? || thread.Finding? || thread.Snapshotting?
      modifies this`threads
      ensures Valid() && State() == Moved(old(State()), t, thread)
    {
      hide Inv;
      ArrivedKeeps(old(State()), t, thread);
      threads := threads[t := thread];
    }

    /** handleLease, first locked section: a lease with this idempotency key answers, with a conflict
        if the rest of the request differs; or there is none. */
    method Look(t: ThreadId)
      requires Valid() && t in threads && threads[t].Looking?
      modifies this`threads
      ensures Valid() && t in threads && State() == Moved(old(State()), t, threads[t])
      ensures LookAnswer(State(), threads[t], old(threads[t].request))
    {
      hide Inv;
      var request := threads[t].request;
      var next := Opening(request);
      if l :| l in leases && SameRequestKey(leases[l], request) {
        next := Done(if leases[l] == request then Granted(l) else Conflict);
      }
      MovedKeeps(State(), t, next);
      threads := threads[t := next];
      assert State() == Moved(old(State()), t, next);
    }

    /** The lease handler, outside the lock: it fails when something listens on its socket already,
        and may fail otherwise. */
    method Open(t: ThreadId, works: bool)
      requires Valid() && t in threads && threads[t].Opening?
      modifies this`threads, this`bound
      ensures Valid()
      ensures var request := old(threads[t].request);
        State() == if works && SlotOf(request) !in old(bound)
                   then Moved(old(State()), t, Inserting(request)).(bound := old(bound)[SlotOf(request) := ByThread(t)])
                   else Moved(old(State()), t, Done(Refused))
    {
      hide Inv;
      var request := threads[t].request;
      if works && SlotOf(request) !in bound {
        OpenedKeeps(State(), t, request);
        bound := bound[SlotOf(request) := ByThread(t)];
        threads := threads[t := Inserting(request)];
      } else {
        MovedKeeps(State(), t, Done(Refused));
        threads := threads[t := Done(Refused)];
      }
    }

    /** `persistLeasesLocked`: one atomic replacement of the file, or an error without effect. */
    method Persist(saves: bool)
      modifies this`file
      ensures file == if saves then leases else old(file)
    {
      if saves {
        file := leases;
      }
    }

    /** handleLease, second locked section: the lease enters table and file and is acknowledged; when
        the file cannot be written it leaves the table again, unacknowledged. */
    method Insert(t: ThreadId, saves: bool)
      requires Valid() && t in threads && threads[t].Inserting?
      modifies this
      ensures Valid()
      ensures var request := old(threads[t].request);
        State() == if saves then Inserted(old(State()), t, request)
                   else Moved(old(State()), t, Undoing(request)).(nextId := old(nextId) + 1)
    {
      hide Inv;
      var request, lease := threads[t].request, nextId;
      InsertedKeeps(State(), t);
      NextFresh(State());
      NotInserted(State(), t);
      nextId := nextId + 1;
      leases := leases[lease := request];
      Persist(saves);
      if saves {
        bound := bound[SlotOf(request) := ByLease(lease)];
        kept := kept[lease := request];
        threads := threads[t := Done(Granted(lease))];
      } else {
        leases := leases - {lease};
        threads := threads[t := Undoing(request)];
      }
    }

    /** The Close of a lease that could not be saved. */
    method Undo(t: ThreadId)
      requires Valid() && t in threads && threads[t].Undoing?
      modifies this`threads, this`bound
      ensures Valid()
      ensures State() == Moved(old(State()), t, Done(Refused)).(bound := old(bound) - {SlotOf(old(threads[t].request))})
    {
      hide Inv;
      UndoneKeeps(State(), t);
      bound := bound - {SlotOf(threads[t].request)};
      threads := threads[t := Done(Refused)];
    }

    /** handleRelease, first locked section: from here on the lease is being given up. */
    method Find(t: ThreadId)
      requires Valid() && t in threads && threads[t].Finding?
      modifies this`threads, this`kept, this`taken
      ensures Valid()
      ensures var lease := old(threads[t].lease);
        State() == if lease in leases && leases[lease].workspace == old(threads[t].workspace)
                   then TakenUp(old(State()), t, Closing(lease)) else Moved(old(State()), t, Done(NotFound))
    {
      hide Inv;
      var lease := threads[t].lease;
      if lease in leases && leases[lease].workspace == threads[t].workspace {
        TakenUpKeeps(State(), t, Closing(lease));
        kept, taken := kept - {lease}, taken + {lease};
        threads := threads[t := Closing(lease)];
      } else {
        MovedKeeps(State(), t, Done(NotFound));
        threads := threads[t := Done(NotFound)];
      }
    }

    /** The Close of a lease, outside the lock. */
    method Close(lease: LeaseId)
      requires Valid() && lease !in kept && lease < nextId
      modifies this`bound, this`closed
      ensures Valid() && State() == Closed(old(State()), lease)
    {
      hide Inv;
      ClosedKeeps(State(), lease);
      bound := map s | s in bound && bound[s] != ByLease(lease) :: bound[s];
      closed := closed + {lease};
    }

    method CloseReleased(t: ThreadId, works: bool)
      requires Valid() && t in threads && threads[t].Closing?
      modifies this`threads, this`bound, this`closed
      ensures Valid()
      ensures var lease := old(threads[t].lease);
        State() == Moved(Closed(old(State()), lease), t, if works then Deleting(lease) else Done(Refused))
    {
      var lease := threads[t].lease;
      assert lease in TakenBy(threads[t]);
      Close(lease);
      hide Inv;
      MovedKeeps(State(), t, if works then Deleting(lease) else Done(Refused));
      threads := threads[t := if works then Deleting(lease) else Done(Refused)];
    }

    /** handleRelease, second locked section: out of the table, and the file written. When that fails
        the file still has a lease that memory does not. */
    method Delete(t: ThreadId, saves: bool)
      requires Valid() && t in threads && threads[t].Deleting?
      modifies this`leases, this`file, this`threads
      ensures Valid()
      ensures State() == Moved(old(State()), t, Done(if saves then Released else Refused)).(
        leases := old(leases) - {old(threads[t].lease)},
        file := if saves then old(leases) - {old(threads[t].lease)} else old(file))
    {
      assert threads[t].lease in TakenBy(threads[t]);
      assert threads[t].lease !in kept;
      hide Inv;
      DroppedKeeps(State(), threads[t].lease);
      leases := leases - {threads[t].lease};
      PersistedKeeps(State(), saves);
      Persist(saves);
      MovedKeeps(State(), t, Done(if saves then Released else Refused));
      threads := threads[t := Done(if saves then Released else Refused)];
    }

    /** drain takes its snapshot: every lease of the moment is taken up, in any order. */
    method Snapshot(t: ThreadId)
      requires Valid() && t in threads && threads[t].Snapshotting?
      modifies this`threads, this`kept, this`taken
      ensures Valid() && t in threads && threads[t].Draining? && State() == TakenUp(old(State()), t, threads[t])
      ensures TakenBy(threads[t]) == leases.Keys
    {
      hide Inv;
      var rest: seq<LeaseId> := [];
      var left := leases.Keys;
      while left != {}
        invariant forall l :: l in leases <==> l in rest || l in left
        decreases |left|
      {
        var l :| l in left;
        rest := rest + [l];
        left := left - {l};
      }
      TakenUpKeeps(State(), t, Draining(rest));
      kept, taken := kept - leases.Keys, taken + leases.Keys;
      threads := threads[t := Draining(rest)];
      assert TakenBy(Draining(rest)) == leases.Keys;
    }

    /** drain closes the next lease of its snapshot; one whose Close fails stays in the table. */
    method CloseDrained(t: ThreadId, works: bool)
      requires Valid() && t in threads && threads[t].Draining? && threads[t].rest != []
      modifies this`threads, this`bound, this`closed
      ensures Valid()
      ensures var rest := old(threads[t].rest);
        State() == Moved(Closed(old(State()), rest[0]), t, if works then Dropping(rest[0], rest[1..]) else Draining(rest[1..]))
    {
      var rest := threads[t].rest;
      assert rest[0] in TakenBy(threads[t]);
      Close(rest[0]);
      hide Inv;
      MovedKeeps(State(), t, if works then Dropping(rest[0], rest[1..]) else Draining(rest[1..]));
      threads := threads[t := if works then Dropping(rest[0], rest[1..]) else Draining(rest[1..])];
    }

    /** A closed lease leaves the table; the file is not written yet. */
    method Drop(t: ThreadId)
      requires Valid() && t in threads && threads[t].Dropping?
      modifies this`leases, this`threads
      ensures Valid()
      ensures var thread := old(threads[t]);
        State() == Moved(old(State()), t, Draining(thread.rest)).(leases := old(leases) - {thread.lease})
    {
      assert threads[t].lease in TakenBy(threads[t]);
      assert threads[t].lease !in kept;
      hide Inv;
      DroppedKeeps(State(), threads[t].lease);
      leases := leases - {threads[t].lease};
      MovedKeeps(State(), t, Draining(threads[t].rest));
      threads := threads[t := Draining(threads[t].rest)];
    }

    /** The end of a drain: the file is written once. */
    method PersistDrained(t: ThreadId, saves: bool)
      requires Valid() && t in threads && threads[t] == Draining([])
      modifies this`file, this`threads
      ensures Valid()
      ensures State() == Moved(old(State()), t, Done(if saves then Drained else Refused)).(
        file := if saves then leases else old(file))
    {
      hide Inv;
      PersistedKeeps(State(), saves);
      Persist(saves);
      MovedKeeps(State(), t, Done(if saves then Drained else Refused));
      threads := threads[t := Done(if saves then Drained else Refused)];
    }

    /** Every promise still stands, unless a release or a drain has taken the lease up. */
    twostate predicate Promised()
      reads this
    {
      && old(taken) <= taken
      && forall l :: l in old(kept) && l !in taken ==> l in kept && kept[l] == old(kept)[l]
    }

    /** One section of one handler; `works` says how the call outside it ends. No section breaks a
        promise: an acknowledged lease stays as it is until a release or a drain takes it up, which is
        what their first sections do and no other. */
    method Step(t: ThreadId, works: bool)
      requires Valid()
      modifies this
      ensures Valid()
      ensures Promised()
      ensures taken == old(taken) || (t in old(threads) && (old(threads)[t].Snapshotting? || old(threads)[t].Finding?))
    {
      if t !in threads || threads[t].Done? {
        return;
      }
      if threads[t].Looking? {
        Look(t);
      } else if threads[t].Opening? {
        Open(t, works);
      } else if threads[t].Inserting? {
        assert nextId !in kept;
        Insert(t, works);
      } else if threads[t].Undoing? {
        Undo(t);
      } else {
        StepBack(t, works);
      }
    }

    /** A section of a release or a drain. */
    method StepBack(t: ThreadId, works: bool)
      requires Valid() && t in threads && !threads[t].Done?
      requires !threads[t].Looking? && !threads[t].Opening? && !threads[t].Inserting? && !threads[t].Undoing?
      modifies this
      ensures Valid()
      ensures Promised()
      ensures taken == old(taken) || old(threads)[t].Snapshotting? || old(threads)[t].Finding?
    {
      hide Inv;
      if threads[t].Finding? {
        Find(t);
      } else if threads[t].Closing? {
        CloseReleased(t, works);
      } else if threads[t].Deleting? {
        Delete(t, works);
      } else if threads[t].Snapshotting? {
        Snapshot(t);
      } else if threads[t].Dropping? {
        Drop(t);
      } else if threads[t].rest != [] {
        CloseDrained(t, works);
      } else {
        PersistDrained(t, works);
      }
    }

    /** Any interleaving of any handlers, with any calls failing: a lease that was acknowledged, and that
        no release and no drain has taken up, is in the table and in the file as it was acknowledged. */
    method Interleave(schedule: seq<(ThreadId, bool)>, arrivals: seq<Thread>)
      requires Valid()
      requires forall thread :: thread in arrivals ==> thread.Looking? || thread.Finding? || thread.Snapshotting?
      modifies this
      ensures Valid() && Promised()
      ensures forall l :: l in old(kept) && l !in taken ==>
        l in leases && leases[l] == old(kept)[l] && l in file && file[l] == old(kept)[l]
    {
      hide Inv;
      for i := 0 to |schedule|
        invariant Valid() && Promised()
      {
        var t := schedule[i].0;
        if i < |arrivals| && (t !in threads || threads[t].Done?) {
          Arrive(t, arrivals[i]);
        }
        Step(t, schedule[i].1);
      }
      KeptEverywhere(State());
    }

    /** The process dies: only the file is left, with every lease that was promised. */
    method Die()
      requires Valid()
      modifies this
      ensures Valid() && State() == Crashed(old(State()))
      ensures forall l :: l in old(kept) ==> l in file && file[l] == old(kept)[l]
    {
      forall l | l in kept ensures l in file && file[l] == kept[l] {
        AcknowledgedSurvives(State(), l);
      }
      leases, bound, threads, kept := map[], map[], map[], map[];
    }

    /** A lease request that nobody interferes with is what the workspaces' half takes `Acquire` for:
        the lease that has this request already, or a new one, or a refusal without effect. */
    method Acquire(t: ThreadId, request: Request, works: bool, saves: bool)
      requires Valid() && Quiet(State())
      modifies this
      ensures Valid() && Quiet(State()) && t in threads && threads[t].Done?
      ensures Answered(View(old(State()), request.workspace), View(State(), request.workspace), request.lease, threads[t].reply)
      ensures forall other :: other != request.workspace ==> View(State(), other) == View(old(State()), other)
      ensures !threads[t].reply.Granted? && works && saves ==> SocketTaken(State(), request)
    {
      AllDone(State());
      hide Inv, Quiet, View, Answered;
      Arrive(t, Looking(request));
      Look(t);
      LookedUp(old(State()), State(), t, request);
      if threads[t].Opening? {
        OpenAndInsert(t, request, works, saves);
        Concluded(old(State()), State(), t, request, works, saves);
      }
    }

    method OpenAndInsert(t: ThreadId, request: Request, works: bool, saves: bool)
      requires Valid() && t in threads && threads[t] == Opening(request)
      modifies this
      ensures Valid()
      ensures State() ==
        if !works || SlotOf(request) in old(bound) then Moved(old(State()), t, Done(Refused))
        else if saves then Inserted(old(State()), t, request)
        else Moved(old(State()), t, Done(Refused)).(nextId := old(nextId) + 1)
    {
      hide Inv;
      Open(t, works);
      if threads[t].Inserting? {
        Insert(t, saves);
        if threads[t].Undoing? {
          Undo(t);
          assert bound == old(bound);
        }
      }
    }
  }

  /** The leases of one workspace, as its half of the protocol sees them. */
  function View(h: Host, workspace: string): map<LeaseId, LeaseRequest> {
    map l | l in h.leases && h.leases[l].workspace == workspace :: h.leases[l].lease
  }

  /** No handler is under way, and exactly the leases of the table listen. */
  ghost predicate Quiet(h: Host) {
    && (forall t :: t in h.threads ==> h.threads[t].Done?)
    && (forall l :: l in h.leases ==> l !in h.closed)
    && (forall s :: s in h.bound ==>
          h.bound[s].ByLease? && h.bound[s].lease in h.leases && SlotOf(h.leases[h.bound[s].lease]) == s)
  }

  /** Another request has its lease on the socket that this one needs. */
  ghost predicate SocketTaken(h: Host, request: Request) {
    exists l :: l in h.leases && SlotOf(h.leases[l]) == SlotOf(request) && h.leases[l] != request
  }

  ghost predicate Answered(had: map<LeaseId, LeaseRequest>, has: map<LeaseId, LeaseRequest>, request: LeaseRequest,
    reply: Reply) {
    if reply.Granted? then
      && reply.lease in has && has[reply.lease] == request
      && (forall l :: l in had ==> l in has && has[l] == had[l])
      && (forall l :: l in has ==> l in had || l == reply.lease)
    else
      has == had
  }

  lemma AllDone(h: Host)
    requires Quiet(h)
    ensures forall t :: t in h.threads ==> h.threads[t].Done?
  {
  }

  lemma QuietSocketsExclusive(h: Host, workspace: string)
    requires Inv(h) && Quiet(h)
    ensures SocketsExclusive(View(h, workspace))
  {
    forall a, b | a in View(h, workspace) && b in View(h, workspace) && View(h, workspace)[a].kind == View(h, workspace)[b].kind
      ensures a == b
    {
      OneOpenLeasePerSocket(h, a, b);
    }
  }

  lemma LookedUp(before: Host, h: Host, t: ThreadId, request: Request)
    requires Inv(before) && Quiet(before) && t in h.threads && h == Moved(Moved(before, t, Looking(request)), t, h.threads[t])
    requires LookAnswer(h, h.threads[t], request)
    ensures h == Moved(before, t, h.threads[t])
    ensures h.threads[t].Done? ==>
      Quiet(h) && Answered(View(before, request.workspace), View(h, request.workspace), request.lease, h.threads[t].reply)
    ensures h.threads[t].Done? && !h.threads[t].reply.Granted? ==> SocketTaken(h, request)
    ensures forall other :: View(h, other) == View(before, other)
  {
    assert h.threads == before.threads[t := h.threads[t]];
  }

  /** The outcome of the rest of the request, on a service that was quiet. */
  lemma Concluded(before: Host, h: Host, t: ThreadId, request: Request, works: bool, saves: bool)
    requires Inv(before) && Quiet(before)
    requires forall l :: l in before.leases ==> !SameRequestKey(before.leases[l], request)
    requires var mid := Moved(before, t, Opening(request));
      h == if !works || SlotOf(request) in before.bound then Moved(mid, t, Done(Refused))
           else if saves then Inserted(mid, t, request)
           else Moved(mid, t, Done(Refused)).(nextId := before.nextId + 1)
    ensures Quiet(h) && t in h.threads && h.threads[t].Done?
    ensures Answered(View(before, request.workspace), View(h, request.workspace), request.lease, h.threads[t].reply)
    ensures forall other :: other != request.workspace ==> View(h, other) == View(before, other)
    ensures !h.threads[t].reply.Granted? && works && saves ==> SocketTaken(h, request)
  {
    var mid := Moved(before, t, Opening(request));
    if works && saves && SlotOf(request) in before.bound {
      BoundIsTaken(before, request);
    }
    if h == Inserted(mid, t, request) {
      InsertedQuiet(before, mid, t, request);
      InsertedViews(before, mid, t, request);
    } else {
      RefusedAnswers(before, mid, h, t, request);
    }
    hide Quiet, Inv, View, Answered;
  }

  lemma BoundIsTaken(before: Host, request: Request)
    requires Quiet(before) && SlotOf(request) in before.bound
    requires forall l :: l in before.leases ==> !SameRequestKey(before.leases[l], request)
    ensures SocketTaken(before, request)
  {
    var l := before.bound[SlotOf(request)].lease;
    assert l in before.leases && SlotOf(before.leases[l]) == SlotOf(request);
    assert !SameRequestKey(before.leases[l], request);
  }

  lemma RefusedAnswers(before: Host, mid: Host, h: Host, t: ThreadId, request: Request)
    requires Quiet(before) && mid == Moved(before, t, Opening(request))
    requires h == Moved(mid, t, Done(Refused)).(nextId := h.nextId)
    ensures Quiet(h) && forall w :: View(h, w) == View(before, w)
  {
    assert forall u :: u in h.threads ==> u == t || h.threads[u] == before.threads[u];
  }

  lemma InsertedQuiet(before: Host, mid: Host, t: ThreadId, request: Request)
    requires IdsFresh(before) && Quiet(before) && mid == Moved(before, t, Opening(request)) &&
      SlotOf(request) !in before.bound
    ensures Quiet(Inserted(mid, t, request))
  {
    var h := Inserted(mid, t, request);
    forall u | u in h.threads ensures h.threads[u].Done? {
      assert u == t || h.threads[u] == before.threads[u];
    }
    forall s | s in h.bound && s != SlotOf(request)
      ensures h.bound[s].ByLease? && h.bound[s].lease in h.leases && SlotOf(h.leases[h.bound[s].lease]) == s
    {
      assert h.bound[s] == before.bound[s];
      assert before.bound[s].lease != before.nextId;
    }
    hide IdsFresh;
  }

  lemma InsertedViews(before: Host, mid: Host, t: ThreadId, request: Request)
    requires IdsFresh(before) && mid == Moved(before, t, Opening(request))
    ensures var h := Inserted(mid, t, request);
      && Answered(View(before, request.workspace), View(h, request.workspace), request.lease, h.threads[t].reply)
      && forall other :: other != request.workspace ==> View(h, other) == View(before, other)
  {
    var h := Inserted(mid, t, request);
    forall other | other != request.workspace ensures View(h, other) == View(before, other) {
      assert forall l :: l in h.leases && h.leases[l].workspace == other <==>
        l in before.leases && before.leases[l].workspace == other;
    }
  }

  lemma ArrivedKeeps(h: Host, t: ThreadId, thread: Thread)
    requires Inv(h) && (t in h.threads ==> h.threads[t].Done?)
    requires HeldBy(thread).None? && TakenBy(thread) == {}
    ensures Inv(Moved(h, t, thread))
  {
  }

  lemma NextFresh(h: Host)
    requires Inv(h)
    ensures h.nextId !in h.leases && h.nextId !in h.kept && h.nextId !in h.taken
  {
  }

  /** The lease that could not be saved leaves no trace but a spent ID. */
  lemma NotInserted(h: Host, t: ThreadId)
    requires Inv(h) && t in h.threads && h.threads[t].Inserting?
    ensures var request := h.threads[t].request;
      && h.leases[h.nextId := request] - {h.nextId} == h.leases
      && Inv(Moved(h, t, Undoing(request)).(nextId := h.nextId + 1))
  {
    MovedKeeps(h, t, Undoing(h.threads[t].request));
  }
}
