/** The operation keys the command line hands out (internal/cli/workspace_linux.go). */
module OperationKeys {
  import opened Options

  /** One key file and one lock per subject and operation. */
  datatype Slot = Slot(subject: string, operation: string)

  datatype KeyFile = KeyFile(key: nat, body: string)

  /** What callers have seen, in order. */
  datatype Event = HandedOut(slot: Slot, file: KeyFile) | Acknowledged(slot: Slot)

  /** How a request for a key ends; `Busy` and `Changed` are the two conflicts. */
  datatype Answer = Granted(key: nat) | Busy | Changed | Failed | Died

  // ---------- One key between acknowledgements ----------

  /** What the slot was given since its last acknowledgement. */
  function Current(events: seq<Event>, slot: Slot): Option<KeyFile> {
    if events == [] then None
    else
      var init, last := events[..|events| - 1], events[|events| - 1];
      if last.slot != slot then Current(init, slot)
      else if last.HandedOut? then Some(last.file)
      else None
  }

  predicate Used(events: seq<Event>, key: nat) {
    exists i :: 0 <= i < |events| && events[i].HandedOut? && events[i].file.key == key
  }

  /** Each key handed out is the one its slot has, or one that nobody was ever given. */
  predicate Steady(events: seq<Event>) {
    events == [] ||
    var init, last := events[..|events| - 1], events[|events| - 1];
    && Steady(init)
    && (last.HandedOut? ==>
          Current(init, last.slot) == Some(last.file) || (Current(init, last.slot).None? && !Used(init, last.file.key)))
  }

  lemma {:induction false} SteadyPrefix(events: seq<Event>, n: nat)
    requires Steady(events) && n <= |events|
    ensures Steady(events[..n])
  {
    if n == |events| {
      assert events[..n] == events;
    } else {
      SteadyPrefix(events[..|events| - 1], n);
      assert events[..|events| - 1][..n] == events[..n];
    }
  }

  /** Until it is acknowledged, what was handed out stays current. */
  lemma {:induction false} StaysCurrent(events: seq<Event>, i: nat, n: nat)
    requires Steady(events) && i < n <= |events| && events[i].HandedOut?
    requires forall k :: i < k < n ==> events[k] != Acknowledged(events[i].slot)
    ensures Current(events[..n], events[i].slot) == Some(events[i].file)
    decreases n
  {
    var before := events[..n];
    assert before[..n - 1] == events[..n - 1] && before[n - 1] == events[n - 1];
    SteadyPrefix(events, n);
    if i < n - 1 {
      StaysCurrent(events, i, n - 1);
    }
  }

  /** Between two acknowledgements a slot is given one key, for one input. */
  lemma OneKeyBetweenAcknowledgements(events: seq<Event>, i: nat, j: nat)
    requires Steady(events) && i < j < |events| && events[i].HandedOut? && events[j].HandedOut?
    requires events[i].slot == events[j].slot
    requires forall k :: i < k < j ==> events[k] != Acknowledged(events[i].slot)
    ensures events[j].file == events[i].file
  {
    StaysCurrent(events, i, j);
    SteadyPrefix(events, j + 1);
    assert events[..j + 1][..j] == events[..j];
  }

  lemma {:induction false} CurrentIsUsed(events: seq<Event>, slot: Slot)
    requires Current(events, slot).Some?
    ensures exists i :: 0 <= i < |events| && LastGiven(events, slot, i)
  {
    var n := |events| - 1;
    if events[n].slot == slot {
      assert LastGiven(events, slot, n);
    } else {
      CurrentIsUsed(events[..n], slot);
      var i :| 0 <= i < n && LastGiven(events[..n], slot, i);
      assert events[i] == events[..n][i];
      assert forall k :: i < k < n ==> events[k] == events[..n][k];
      assert LastGiven(events, slot, i);
    }
  }

  /** The hand-out at `i` is the current one. */
  predicate LastGiven(events: seq<Event>, slot: Slot, i: nat)
    requires i < |events|
  {
    && events[i].HandedOut? && events[i].slot == slot && Current(events, slot) == Some(events[i].file)
    && forall k :: i < k < |events| ==> events[k] != Acknowledged(slot)
  }

  /** Where two hand-outs have the same key, they are for one slot, which was not acknowledged in
      between: after an acknowledgement the key is a new one. */
  lemma {:induction false} SameKeySamePending(events: seq<Event>, i: nat, j: nat)
    requires Steady(events) && i < j < |events| && events[i].HandedOut? && events[j].HandedOut?
    requires events[i].file.key == events[j].file.key
    ensures events[i].slot == events[j].slot && forall k :: i < k < j ==> events[k] != Acknowledged(events[i].slot)
    decreases j
  {
    SteadyPrefix(events, j + 1);
    var init := events[..j];
    assert events[..j + 1][..j] == init && init[i] == events[i];
    assert Used(init, events[j].file.key);
    CurrentIsUsed(init, events[j].slot);
    var m :| 0 <= m < j && LastGiven(init, events[j].slot, m);
    assert forall k :: m < k < j ==> events[k] == init[k];
    if i < m {
      SameKeySamePending(events, i, m);
    } else if m < i {
      SameKeySamePending(events, m, i);
    }
  }

  // ---------- The store of keys ----------

  class Store {
    var files: map<Slot, KeyFile>  // run/operations, durable
    var locks: set<Slot>           // held by live processes
    var nextKey: nat               // idempotencyKey never repeats one
    ghost var events: seq<Event>

    ghost predicate Valid()
      reads this
    {
      && Steady(events)
      && (forall s :: Current(events, s).Some? ==> s in files && files[s] == Current(events, s).value)
      && (forall s :: s in files ==> files[s].key < nextKey)
      && (forall s :: s in files && Current(events, s).None? ==> !Used(events, files[s].key))
      && (forall s, t :: s in files && t in files && files[s].key == files[t].key ==> s == t)
      && (forall i :: 0 <= i < |events| && events[i].HandedOut? ==> events[i].file.key < nextKey)
    }

    constructor ()
      ensures Valid() && files == map[] && locks == {} && events == []
    {
      files, locks, nextKey, events := map[], {}, 0, [];
    }

    /** `stableOperationKey`. The pending key of the slot is handed out again to the same input, refused
        to any other, and a new one is written before it is handed out for the first time. `works` and
        `dies` say how the write of the file ends. The lock stays held until the acknowledgement. */
    method StableOperationKey(slot: Slot, body: string, works: bool, dies: bool) returns (answer: Answer)
      requires Valid()
      modifies this
      ensures Valid()
      ensures answer.Granted? ==>
        && slot !in old(locks) && locks == old(locks) + {slot}
        && slot in files && files[slot] == KeyFile(answer.key, body)
        && events == old(events) + [HandedOut(slot, files[slot])]
        && (if slot in old(files) then files == old(files)
            else files == old(files)[slot := files[slot]] && answer.key == old(nextKey))
      ensures !answer.Granted? ==> events == old(events) && locks == old(locks)
      ensures answer.Busy? <==> slot.subject != "" && slot.operation != "" && slot in old(locks)
      ensures answer.Changed? ==> slot in files && files[slot].body != body && files == old(files)
      ensures forall s :: s != slot ==> (s in files <==> s in old(files)) && (s in files ==> files[s] == old(files)[s])
    {
      hide Steady, Current, Used;
      if slot.subject == "" || slot.operation == "" {
        return Failed;
      }
      if slot in locks {
        return Busy;
      }
      if slot in files {
        if files[slot].body != body {
          return Changed;
        }
      } else {
        if !dies && !works {
          return Failed;
        }
        Write(slot, body);
        if dies {
          return Died;
        }
      }
      HandOut(slot);
      answer := Granted(files[slot].key);
    }

    /** The file of a slot that has none, with a key that was never used. */
    method Write(slot: Slot, body: string)
      requires Valid() && slot !in files
      modifies this`files, this`nextKey
      ensures Valid() && files == old(files)[slot := KeyFile(old(nextKey), body)] && nextKey == old(nextKey) + 1
    {
      hide Steady, Current;
      files := files[slot := KeyFile(nextKey, body)];
      nextKey := nextKey + 1;
    }

    method HandOut(slot: Slot)
      requires Valid() && slot in files && slot !in locks
      modifies this`locks, this`events
      ensures Valid() && locks == old(locks) + {slot} && events == old(events) + [HandedOut(slot, files[slot])]
    {
      AppendSteady(events, HandedOut(slot, files[slot]));
      hide Steady, Current, Used;
      locks := locks + {slot};
      events := events + [HandedOut(slot, files[slot])];
    }

    /** The closure that was returned with the key: the operation is over, and its key forgotten. */
    method Acknowledge(slot: Slot, works: bool)
      requires Valid() && slot in locks
      modifies this
      ensures Valid() && locks == old(locks) - {slot}
      ensures files == if works then old(files) - {slot} else old(files)
      ensures events == if works then old(events) + [Acknowledged(slot)] else old(events)
    {
      AppendSteady(events, Acknowledged(slot));
      hide Steady, Current, Used;
      locks := locks - {slot};
      if works {
        files := files - {slot};
        events := events + [Acknowledged(slot)];
      }
    }

    /** A process dies with its locks, acknowledged or not; the file stays. */
    method Die(slot: Slot)
      requires Valid()
      modifies this`locks
      ensures Valid() && locks == old(locks) - {slot}
    {
      locks := locks - {slot};
    }
  }

  lemma AppendSteady(events: seq<Event>, e: Event)
    ensures var after := events + [e];
      && (e.HandedOut? ==>
            Steady(after) == (Steady(events) &&
              (Current(events, e.slot) == Some(e.file) || (Current(events, e.slot).None? && !Used(events, e.file.key)))))
      && (e.Acknowledged? ==> Steady(after) == Steady(events))
      && (forall s :: Current(after, s) ==
            if s != e.slot then Current(events, s) else if e.HandedOut? then Some(e.file) else None)
      && (forall k :: Used(after, k) <==> Used(events, k) || (e.HandedOut? && e.file.key == k))
  {
    var after := events + [e];
    assert after[..|events|] == events && after[|events|] == e;
    forall k ensures Used(after, k) <==> Used(events, k) || (e.HandedOut? && e.file.key == k) {
      if Used(events, k) {
        var i :| 0 <= i < |events| && events[i].HandedOut? && events[i].file.key == k;
        assert after[i] == events[i];
      }
    }
  }
}
