/** The idempotency journal: `BeginOperation` and `FinishOperation` (internal/state/store.go). */
module Journal {
  import opened Options
  import opened Store
  import opened Worlds

  /** What the journal says about a key that is being used. */
  datatype Begun = Proceed | Replay(phase: Phase, result: Option<Record>)

  /** The entry of `key` is finished: using the key again replays it. */
  predicate Concluded(s: State, key: Key) {
    key in s.journal && s.journal[key].phase != Running
  }

  predicate Bindable(s: State, key: Key, input: Input) {
    key != "" && (key in s.journal ==> s.journal[key].input == input)
  }

  /** The journal as it was, or with a running entry for a key that had none. */
  ghost predicate Begins(before: map<Key, Operation<Input>>, after: map<Key, Operation<Input>>, key: Key, input: Input) {
    after == before || (key !in before && after == before[key := Operation(input, Running, None)])
  }

  /** No other entry than that of `key` was touched. */
  ghost predicate OthersKept(before: map<Key, Operation<Input>>, after: map<Key, Operation<Input>>, key: Key) {
    && before.Keys <= after.Keys <= before.Keys + {key}
    && forall k :: k in before && k != key ==> after[k] == before[k]
  }

  /** Binds `key` to this input. A finished entry is replayed without any effect; a key that is
      bound to other input is refused. Only `Proceed` makes the operation the acting one. */
  method BeginOperation(w: World, key: Key, input: Input) returns (out: Outcome, begun: Begun)
    requires w.Valid() && w.s.acting.None?
    modifies w
    ensures w.Went(out)
    ensures w.s == old(w.s).(journal := w.s.journal, acting := w.s.acting, cleaned := w.s.cleaned)
    ensures Begins(old(w.s).journal, w.s.journal, key, input)
    ensures out == Ok ==> key != "" && key in w.s.journal && w.s.journal[key].input == input
    ensures out == Ok && begun.Proceed? ==>
      && w.s.acting == Some(key) && w.s.journal[key].phase == Running
      && w.s.journal == old(w.s).journal[key := w.s.journal[key]]
    ensures Concluded(old(w.s), key) ==> w.s == old(w.s) && (out == Ok ==> begun.Replay?)
    ensures out == Ok && begun.Replay? ==>
      && w.s == old(w.s) && w.s.journal[key].phase == begun.phase != Running
      && begun.result == w.s.journal[key].result
    ensures out != Ok ==> w.s.acting.None?
    ensures out == Fail ==> w.s == old(w.s)
    ensures out == Fail && w.reliable ==> !Bindable(w.s, key, input)
    ensures Bindable(old(w.s), key, input) ==> w.Smooth(out)
    ensures Bindable(old(w.s), key, input) && w.reliable ==> out != Fail
  {
    hide Chain, Good, JournalGrows, Begins;
    BeginsSame(w.s.journal, key, input);
    begun := Proceed;
    out := Admit(w, key, input);
    if out != Ok {
      return;
    }
    if key in w.s.journal && w.s.journal[key].phase != Running {
      begun := Replay(w.s.journal[key].phase, w.s.journal[key].result);
      return;
    }
    out := Bind(w, key, input);
  }

  lemma BeginsSame(journal: map<Key, Operation<Input>>, key: Key, input: Input)
    ensures Begins(journal, journal, key, input)
  {
  }

  /** The journal is read; a key that is bound to other input is refused. */
  method Admit(w: World, key: Key, input: Input) returns (out: Outcome)
    requires w.Valid()
    modifies w`crashes
    ensures w.Went(out) && (out == Ok ==> Bindable(w.s, key, input))
    ensures out == Fail && w.reliable ==> !Bindable(w.s, key, input)
    ensures Bindable(w.s, key, input) ==> w.Smooth(out)
  {
    hide Chain, Good;
    out := w.Try();
    out := if out == Ok && !Bindable(w.s, key, input) then Fail else out;
  }

  /** The write of a new entry; an entry that is running is entered again as it is. */
  method Bind(w: World, key: Key, input: Input) returns (out: Outcome)
    requires w.Valid() && w.s.acting.None? && Bindable(w.s, key, input)
    requires key in w.s.journal ==> w.s.journal[key].phase == Running
    modifies w
    ensures w.Went(out)
    ensures w.s == old(w.s).(journal := w.s.journal, acting := w.s.acting, cleaned := w.s.cleaned)
    ensures Begins(old(w.s).journal, w.s.journal, key, input)
    ensures out == Ok ==>
      && w.s.acting == Some(key) && key in w.s.journal
      && w.s.journal[key].phase == Running && w.s.journal[key].input == input
      && w.s.journal == old(w.s).journal[key := w.s.journal[key]]
    ensures out != Ok ==> w.s.acting.None?
    ensures out == Fail ==> w.s == old(w.s) && !w.reliable
    ensures w.Smooth(out)
  {
    hide Chain;
    out := Ok;
    if key !in w.s.journal {
      out := w.SaveJournal(w.s.journal[key := Operation(input, Running, None)]);
    }
    if out == Ok {
      w.Act(Some(key));
    }
  }

  /** The entry of the acting operation after `FinishOperation`. */
  function Finished(entry: Operation<Input>, failed: bool, result: Option<Record>): Operation<Input> {
    if failed then entry.(phase := Failed) else entry.(phase := Succeeded, result := result)
  }

  /** Ends the acting operation: the entry keeps its input and takes the outcome. */
  method FinishOperation(w: World, key: Key, failed: bool, result: Option<Record>) returns (out: Outcome)
    requires w.Valid() && w.s.acting == Some(key) && MayAct(w.s)
    modifies w
    ensures w.Went(out) && w.Smooth(out) && w.s.acting.None?
    ensures w.s == old(w.s).(journal := w.s.journal, acting := None, cleaned := false)
    ensures w.s.journal in {old(w.s).journal, old(w.s).journal[key := Finished(old(w.s).journal[key], failed, result)]}
    ensures out == Ok ==> w.s.journal == old(w.s).journal[key := Finished(old(w.s).journal[key], failed, result)]
    ensures out == Fail ==> w.s.journal == old(w.s).journal && !w.reliable
  {
    FinishGrows(w.s.journal, key, failed, result);
    hide Chain, JournalGrows, Finished;
    out := w.SaveJournal(w.s.journal[key := Finished(w.s.journal[key], failed, result)]);
    w.Act(None);
  }

  lemma FinishGrows(journal: map<Key, Operation<Input>>, key: Key, failed: bool, result: Option<Record>)
    requires key in journal && journal[key].phase == Running
    ensures JournalGrows(journal, journal[key := Finished(journal[key], failed, result)])
  {
  }

  /** How an operation ends: a live process finishes its entry, a dead one leaves it running. */
  method Conclude(w: World, key: Key, ended: Outcome, result: Option<Record>) returns (out: Outcome)
    requires w.Valid() && w.s.acting == Some(key) && MayAct(w.s)
    modifies w
    ensures w.Valid() && old(w.history) <= w.history && w.crashes <= old(w.crashes)
    ensures out == Crash ==> ended == Crash || w.crashes < old(w.crashes)
    ensures old(w.mishap) == NoMishap ==> w.mishap == NoMishap
    ensures w.calm ==> out == ended && w.mishap == old(w.mishap) && w.crashes == old(w.crashes)
    ensures w.s == old(w.s).(journal := w.s.journal, acting := None, cleaned := false)
    ensures ended == Crash ==> out == Crash && w.s.journal == old(w.s).journal
    ensures out == Ok ==> ended == Ok
    ensures ended == Ok && w.reliable ==> out != Fail
    ensures out == Ok ==> w.s.journal == old(w.s).journal[key := Finished(old(w.s).journal[key], false, result)]
    ensures ended == Fail && out == Fail && w.reliable ==>
      w.s.journal == old(w.s).journal[key := Finished(old(w.s).journal[key], true, result)]
    ensures w.s.journal in {old(w.s).journal, old(w.s).journal[key := Finished(old(w.s).journal[key], ended == Fail, result)]}
  {
    hide Chain;
    if ended == Crash {
      w.Act(None);
      return Crash;
    }
    out := FinishOperation(w, key, ended == Fail, result);
    if ended == Fail && out == Ok {
      out := Fail;
    }
  }
}
