/** Restarts whose audit record never gets an outcome: which step leaves one behind, and when. */
module Orphans {
  import opened Trail
  import opened Gate
  import opened Control
  import opened Ledger
  import opened Decisions
  import opened QuietRuns

  /** The step appended a restart behind which the record that was newest is still open. */
  ghost predicate Buries(t: Log, u: Log) {
    && u.epoch == t.epoch && t.entries != [] && |u.entries| == |t.entries| + 1
    && Open(u.entries[|t.entries| - 1].rec)
  }

  lemma RestartNoted(t: Log, k: Key, i: Inputs, count: Effect)
    requires count.Counted? && count.key == k && Takes(i.countReply)
    ensures var u := NoteAll(t, RestartEffects(k, i, count), k);
            && u.epoch == t.epoch && |u.entries| == |t.entries| + 1 && u.entries[..|t.entries|] == t.entries
            && u.entries[|t.entries|].rec == count.rec && u.entries[|t.entries|].limits == count.limits
            && (u.entries[|t.entries|].dispatched <==> i.countReply.Done? && Takes(i.dispatchReply))
  {
    OneEffect(t, count);
    if i.countReply.Done? && Takes(i.dispatchReply) {
      NoteConcat(t, [count], [Stamped(k)], k);
      OneEffect(Note(t, count), Stamped(k));
      assert [count] + [Stamped(k)] == [count, Stamped(k)];
    }
  }

  /** A counted restart appends its record to the log, or starts a new log with it for a recreated object. */
  lemma RestartAppends(s: State, k: Key, i: Inputs)
    requires MayRestart(s.world, k, i) && Takes(i.countReply)
    ensures var t, u := LogOf(s.logs, k), LogOf(Next(s, Reconciles(k, i)).logs, k);
            var kept := if Prelude(s.world, k) == [] then t.entries else [];
            && u.epoch == t.epoch + |Prelude(s.world, k)|
            && |u.entries| == |kept| + 1 && u.entries[..|kept|] == kept
            && CountOf(s.world, k, i).rec == u.entries[|kept|].rec
            && (u.entries[|kept|].dispatched <==> i.countReply.Done? && Takes(i.dispatchReply))
  {
    hide Exec, Restartable, CountOf, Recorded;
    var t, count := LogOf(s.logs, k), CountOf(s.world, k, i);
    var prelude, effects := Prelude(s.world, k), RestartEffects(k, i, count);
    RestartLogs(s.world, k, i);
    RecordedAt(s.logs, prelude + effects, k);
    NoteConcat(t, prelude, effects, k);
    OneEffect(t, Reset(k));
    CountIsOfKey(s.world, k, i);
    RestartNoted(NoteAll(t, prelude, k), k, i, count);
  }

  lemma CountIsOfKey(w: World, k: Key, i: Inputs)
    requires k in w.workloads
    ensures CountOf(w, k, i).Counted? && CountOf(w, k, i).key == k && Open(CountOf(w, k, i).rec)
  {
  }

  /** Only a counted restart lengthens a log. */
  lemma LongerIsCounted(s: State, e: Event, k: Key)
    requires var t, u := LogOf(s.logs, k), LogOf(Next(s, e).logs, k);
             u.epoch == t.epoch && |u.entries| > |t.entries|
    ensures e.Reconciles? && e.key == k && MayRestart(s.world, k, e.inputs) && Takes(e.inputs.countReply)
  {
    hide Exec, Restartable, CountOf, Recorded, NoteAll;
    var effects, n := Exec(s.world, e).effects, |LogOf(s.logs, k).entries|;
    RecordedAt(s.logs, effects, k);
    var c := EntryOrigin(LogOf(s.logs, k), effects, k, n);
    StepEntryOrigin(s, e, k, n);
    CountedIff(s.world, k, e.inputs, c);
  }

  /**
    In a reachable state, a step leaves an open record behind a newer one exactly when it is a reconcile
    that counts a restart of the adopted object while the marker of an earlier one is still set.
   */
  lemma BuriesOpenIff(s: State, e: Event, k: Key)
    requires Invariant(s)
    ensures Buries(LogOf(s.logs, k), LogOf(Next(s, e).logs, k)) <==>
              && e.Reconciles? && e.key == k && MayRestart(s.world, k, e.inputs) && Takes(e.inputs.countReply)
              && Prelude(s.world, k) == []
              && s.world.policies[k].status.inFlight.Some?
  {
    hide Next, Restartable, Guarded, Replay, CountOf;
    var t, u := LogOf(s.logs, k), LogOf(Next(s, e).logs, k);
    if u.epoch == t.epoch && |u.entries| > |t.entries| { LongerIsCounted(s, e, k); }
    if e.Reconciles? && e.key == k && MayRestart(s.world, k, e.inputs) && Takes(e.inputs.countReply) {
      assert StatusOk(s.world, k, t);
      RestartAppends(s, k, e.inputs);
    }
  }
}
