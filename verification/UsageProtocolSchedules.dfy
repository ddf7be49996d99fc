/**
 Concrete schedules of the usage protocol: an uninterrupted `Configure`, a response charge that is lost, and a
 deletion that `Close` undoes.
 */
module UsageProtocolSchedules {
  import opened Wrappers
  import opened UsageWindows
  import opened UsageProtocol
  import opened UsageProtocolSafety
  import opened UsageProtocolTheorems

  // ---------- uninterrupted operations ----------

  /** `n` successful moves of one thread, each beginning `op` if the thread is idle. */
  function Moves(t: nat, op: Op, n: nat): seq<Move>
    decreases n
  {
    if n == 0 then [] else Moves(t, op, n - 1) + [Move(t, true, 0, op)]
  }

  /** The state those moves lead to. */
  function Again(s: State, t: nat, op: Op, n: nat): State
    decreases n
  {
    if n == 0 then s else Step(Again(s, t, op, n - 1), Move(t, true, 0, op))
  }

  lemma {:induction false} RunOneMore(s: State, moves: seq<Move>, m: Move)
    ensures Run(s, moves + [m]) == Step(Run(s, moves), m)
  {
  }

  lemma {:induction false} RunAgain(s: State, before: seq<Move>, t: nat, op: Op, n: nat)
    ensures Run(s, before + Moves(t, op, n)) == Again(Run(s, before), t, op, n)
  {
    hide StepNow;
    if n == 0 {
      assert before + Moves(t, op, 0) == before;
    } else {
      RunAgain(s, before, t, op, n - 1);
      AgainOneMore(s, before, t, op, n);
    }
  }

  lemma {:induction false} AgainOneMore(s: State, before: seq<Move>, t: nat, op: Op, n: nat)
    requires n > 0 && Run(s, before + Moves(t, op, n - 1)) == Again(Run(s, before), t, op, n - 1)
    ensures Run(s, before + Moves(t, op, n)) == Again(Run(s, before), t, op, n)
  {
    hide StepNow;
    var m, shorter := Move(t, true, 0, op), before + Moves(t, op, n - 1);
    assert before + Moves(t, op, n) == shorter + [m];
    RunOneMore(s, shorter, m);
  }

  ghost predicate Resting(s: State, t: nat) {
    && s.updateMu.None? && s.persistMu.None? && s.flusher.None? && PcOf(s, t) == Idle
    && (s.store.database.Some? ==> IsOpen(s.store, s.store.database.value))
  }

  lemma {:induction false} ConfigureEnters(s: State, t: nat, path: string)
    requires Resting(s, t)
    ensures Again(s, t, Configuring(path), 3)
         == At(s.(updateMu := Some(t)), t, InFlush(WaitToFlush(ToConfigure(path))))
  {
  }

  lemma {:induction false} ConfigureFlushes(s: State, t: nat, path: string)
    requires Resting(s, t)
    ensures var s' := Again(s, t, Configuring(path), 7);
            && s'.threads == s.threads[t := InEdit(WaitToPersist(Configuring(path)))]
            && s'.updateMu == Some(t) && s'.persistMu.None? && s'.flusher.None?
            && s'.store.ledgers == s.store.ledgers && s'.store.handles == s.store.handles
            && s'.store.database == s.store.database && s'.store.usage == s.store.usage
            && s'.store.origin == s.store.origin && (s.store.database.None? ==> s'.store == s.store)
  {
    hide ChargeStep, EditStep, ConfigStep;
    var op, m := Configuring(path), Move(t, true, 0, Configuring(path));
    ConfigureEnters(s, t, path);
    var s5 := Step(Step(Again(s, t, op, 3), m), m);
    assert s5 == At(s.(updateMu := Some(t), persistMu := Some(t)), t,
                    InFlush(SaveUsage(ToConfigure(path), Live(s.store), s.store.database)));
    var s7 := Step(Step(s5, m), m);
    assert Again(s, t, op, 7) == s7;
  }

  /** `Configure` is about to publish what it loaded. */
  ghost predicate ReadyToSwap(s: State, s': State, t: nat, path: string) {
    var handle, ledger := |s.store.handles|, |s.store.ledgers|;
    && s'.threads == s.threads[t := InConfig(Swap(path, handle, ledger))]
    && s'.updateMu == Some(t) && s'.persistMu == Some(t) && s'.flusher.None?
    && s'.store.database == s.store.database
    && s'.store.handles == s.store.handles + [Handle(path, true)]
    && |s'.store.ledgers| == ledger + 1 && s'.store.log == s.store.log && s'.store.origin == s.store.origin
  }

  lemma {:induction false} ConfigureLoads(s: State, t: nat, path: string)
    requires PcOf(s, t) == InEdit(WaitToPersist(Configuring(path)))
    requires s.updateMu == Some(t) && s.persistMu.None? && s.flusher.None?
    ensures ReadyToSwap(s, Again(s, t, Configuring(path), 5), t, path)
  {
    hide ChargeStep, FlushStep;
    var op, handle, ledger := Configuring(path), |s.store.handles|, |s.store.ledgers|;
    var m := Move(t, true, 0, op);
    var s2 := Step(Step(s, m), m);
    assert PcOf(s2, t) == InConfig(Load(path, handle));
    var s4 := Step(Step(s2, m), m);
    assert PcOf(s4, t) == InConfig(Backfill(path, handle, ledger));
    assert Again(s, t, op, 5) == Step(s4, m);
  }

  lemma {:induction false} ConfigureEnds(s: State, t: nat, previous: Option<nat>, op: Op)
    requires PcOf(s, t) == InConfig(ClosePrevious(previous))
    ensures Again(s, t, op, 3)
            == s.(updateMu := None, persistMu := None, threads := s.threads[t := Idle], store := CloseHandle(s.store, previous))
  {
    hide ChargeStep, FlushStep, EditStep, CloseHandle;
    var m := Move(t, true, 0, op);
    var s2 := Step(Step(s, m), m);
    assert s2 == s.(persistMu := None, threads := s.threads[t := UnlockUpdate], store := CloseHandle(s.store, previous));
    assert Again(s, t, op, 3) == Step(s2, m);
  }

  lemma {:induction false} AgainSplits(s: State, t: nat, op: Op, m: nat, n: nat)
    ensures Again(s, t, op, m + n) == Again(Again(s, t, op, m), t, op, n)
    decreases n
  {
    hide Step;
    if n > 0 { AgainSplits(s, t, op, m, n - 1); }
  }

  lemma {:induction false} ConfigureSwaps(s: State, t: nat, path: string)
    requires PcOf(s, t) == InEdit(WaitToPersist(Configuring(path)))
    requires s.updateMu == Some(t) && s.persistMu.None? && s.flusher.None?
    requires s.store.database.Some? ==> s.store.database.value < |s.store.handles|
    ensures var s' := Again(s, t, Configuring(path), 9);
            && s'.threads == s.threads[t := Idle] && Resting(s', t)
            && s'.store.database == Some(|s.store.handles|) && s'.store.usage == |s.store.ledgers|
            && |s'.store.handles| == |s.store.handles| + 1 && |s'.store.ledgers| == |s.store.ledgers| + 1
            && CurrentPath(s'.store) == Some(path) && s'.store.unsaved == {}
            && s'.store.log == s.store.log + [Published(path)] && s'.store.origin == s.store.origin
  {
    hide ChargeStep, FlushStep, EditStep, Again;
    var op := Configuring(path);
    ConfigureLoads(s, t, path);
    var s5 := Again(s, t, op, 5);
    var s6 := Step(s5, Move(t, true, 0, op));
    assert s6.store == SwapTo(s5.store, path, |s.store.handles|, |s.store.ledgers|);
    assert PcOf(s6, t) == InConfig(ClosePrevious(s.store.database));
    ConfigureEnds(s6, t, s.store.database, op);
    OnceMore(s5, t, op);
    AgainSplits(s5, t, op, 1, 3);
    AgainSplits(s, t, op, 5, 4);
  }

  lemma {:induction false} OnceMore(s: State, t: nat, op: Op)
    ensures Again(s, t, op, 1) == Step(s, Move(t, true, 0, op))
  {
    hide Step;
  }

  /** An uninterrupted `Configure` ends with a new database and a new ledger. */
  lemma {:induction false} ConfigureCompletes(s: State, before: seq<Move>, t: nat, path: string)
    requires Resting(Run(s, before), t)
    ensures var r, r' := Run(s, before), Run(s, before + Moves(t, Configuring(path), 7) + Moves(t, Configuring(path), 9));
            && r'.threads == r.threads[t := Idle] && Resting(r', t)
            && r'.store.database == Some(|r.store.handles|) && r'.store.usage == |r.store.ledgers|
            && |r'.store.handles| == |r.store.handles| + 1 && |r'.store.ledgers| == |r.store.ledgers| + 1
            && CurrentPath(r'.store) == Some(path) && r'.store.unsaved == {} && r'.store.origin == r.store.origin
            && (r.store.database.None? ==> r'.store.log == r.store.log + [Published(path)])
  {
    hide StepNow;
    var op := Configuring(path);
    RunAgain(s, before, t, op, 7);
    ConfigureFlushes(Run(s, before), t, path);
    RunAgain(s, before + Moves(t, op, 7), t, op, 9);
    ConfigureSwaps(Run(s, before + Moves(t, op, 7)), t, path);
  }

  /** A thread that is not charging makes a move of another operation. */
  lemma {:induction false} OtherMoveKeepsInv(s: State, t: nat, op: Op)
    requires Inv(s) && !PcOf(s, t).InCharge? && !op.Charging?
    ensures var s' := Step(s, Move(t, true, 0, op)); Inv(s') && !PcOf(s', t).InCharge?
  {
    hide StepNow, HolderOk;
    StepKeepsInv(s, Move(t, true, 0, op));
    StaysOutOfCharges(s, t, op);
  }

  lemma {:induction false} StaysOutOfCharges(s: State, t: nat, op: Op)
    requires PcOf(s, t).Unlock? ==> ThreadOk(s.store, PcOf(s, t))
    requires !PcOf(s, t).InCharge? && !op.Charging?
    ensures !PcOf(Step(s, Move(t, true, 0, op)), t).InCharge?
  {
  }

  lemma {:induction false} AgainKeepsInv(s: State, t: nat, op: Op, n: nat)
    requires Inv(s) && !PcOf(s, t).InCharge? && !op.Charging?
    ensures Inv(Again(s, t, op, n)) && !PcOf(Again(s, t, op, n), t).InCharge?
  {
    hide StepNow, Inv;
    if n > 0 {
      AgainKeepsInv(s, t, op, n - 1);
      OtherMoveKeepsInv(Again(s, t, op, n - 1), t, op);
    }
  }

  lemma {:induction false} ConfigureKeepsInv(s: State, before: seq<Move>, t: nat, path: string)
    requires Inv(Run(s, before)) && Resting(Run(s, before), t)
    ensures Inv(Run(s, before + Moves(t, Configuring(path), 7) + Moves(t, Configuring(path), 9)))
  {
    hide StepNow, Inv;
    var op := Configuring(path);
    RunAgain(s, before, t, op, 7);
    AgainKeepsInv(Run(s, before), t, op, 7);
    RunAgain(s, before + Moves(t, op, 7), t, op, 9);
    AgainKeepsInv(Run(s, before + Moves(t, op, 7)), t, op, 9);
  }

  lemma {:induction false} ResponseReadsLedger(s: State, t: nat, q: Request)
    requires Inv(s) && PcOf(s, t) == Idle && !q.dbFirst
    ensures var s' := Again(s, t, Charging(q), 2);
            Inv(s') && s' == At(s, t, InCharge(ReadDatabaseLast(q, s.store.usage)))
  {
    var m := Move(t, true, 0, Charging(q));
    StepKeepsInv(s, m);
    StepKeepsInv(Step(s, m), m);
    assert Again(s, t, Charging(q), 2) == Step(Step(s, m), m);
  }

  lemma {:induction false} ResponseReadsDatabase(s: State, t: nat, q: Request, ledger: nat)
    requires Inv(s) && PcOf(s, t) == InCharge(ReadDatabaseLast(q, ledger))
    requires s.persistMu.None? && s.store.database.Some?
    ensures var s' := Again(s, t, Charging(q), 3);
            && Inv(s') && s'.store == s.store && s'.clock == s.clock
            && PcOf(s', t) == InCharge(Apply(q, s.store.database.value, ledger, s.clock))
  {
    hide FlushStep, EditStep, ConfigStep, HolderOk;
    var m := Move(t, true, 0, Charging(q));
    StepKeepsInv(s, m);
    StepKeepsInv(Step(s, m), m);
    StepKeepsInv(Step(Step(s, m), m), m);
    assert Again(s, t, Charging(q), 3) == Step(Step(Step(s, m), m), m);
  }

  const RESPONSE := Request(false, "k", "m", Tally(1, 0, 1, 0, 0, 0))

  /** `Configure`; a response charge reads the ledger; `Configure` again; the charge reads the database and commits. */
  function StaleSchedule(): seq<Move> {
    [] + Moves(0, Configuring("p"), 7) + Moves(0, Configuring("p"), 9)
    + Moves(1, Charging(RESPONSE), 2)
    + Moves(0, Configuring("p"), 7) + Moves(0, Configuring("p"), 9)
    + Moves(1, Charging(RESPONSE), 3)
  }

  /** Four moves of an idle thread with `persistMu` free write the live ledger into the current file. */
  lemma {:induction false} FlushWritesLive(s: State, t: nat)
    requires PcOf(s, t) == Idle && s.persistMu.None? && s.store.database.Some? && IsOpen(s.store, s.store.database.value)
    ensures Again(s, t, Flushing, 4).store == SaveAll(s.store, s.store.database.value, Live(s.store))
  {
    hide ChargeStep, EditStep, ConfigStep, SaveAll;
    var m := Move(t, true, 0, Flushing);
    var s2 := Step(Step(s, m), m);
    assert s2 == At(s.(persistMu := Some(t)), t, InFlush(Snapshot(ToCaller)));
    assert Again(s, t, Flushing, 4) == Step(Step(s2, m), m);
  }

  /**
   After the commit of a stale state the next flush puts the file back to what it was before the commit: the charge is
   in the log and not in its row.
   */
  lemma {:induction false} FlushErasesStaleCharge(s: State, m: Move)
    requires Inv(s) && StaleCommit(s, m) && s.store.unsaved == {}
    requires PcOf(s, m.thread).charge.q.delta.calls != 0
    ensures var c, flushed := PcOf(s, m.thread).charge, Again(AfterCharge(s, m), m.thread, Flushing, 4).store;
            var path := s.store.handles[c.handle].path;
            && flushed.log == s.store.log + [Charged(path, c.q.key, ChargeOf(c.q, c.at)), Written(path)]
            && Rows(flushed, path) == Rows(s.store, path) && !RowMatches(flushed, path, c.q.key)
  {
    hide StepNow, HistoryOf, ApplyCost, Step, SaveRow, SaveAll, RowMatches, Quiet, Base, RowsMatchLog, PendingMatches;
    var c, done := PcOf(s, m.thread).charge, AfterCharge(s, m);
    StaleCommitIsQuiet(s, m);
    ChargeFinishes(s, m);
    StaleCommitThenFlush(s.store, c.q, c.handle, c.ledger, c.at);
    FlushWritesLive(done, m.thread);
  }

  lemma {:induction false} StaleCommitThenFlush(st: Store, q: Request, handle: nat, ledger: nat, at: int)
    requires Base(st) && Quiet(st) && RowsMatchLog(st) && PendingMatches(st)
    requires st.database == Some(handle) && IsOpen(st, handle) && ledger != st.usage
    requires DAY <= at && q.delta.calls != 0 && st.unsaved == {}
    ensures var state := StateAfter(LedgerOf(st, ledger), q, at);
            var st1 := SaveRow(st, handle, q.key, state, ChargeOf(q, at));
            var done := SetLedger(st1, ledger, LedgerOf(st1, ledger)[q.key := state]);
            && done.database == Some(handle) && IsOpen(done, handle)
            && var flushed, path := SaveAll(done, handle, Live(done)), st.handles[handle].path;
            && flushed.log == st.log + [Charged(path, q.key, ChargeOf(q, at)), Written(path)]
            && Rows(flushed, path) == Rows(st, path) && !RowMatches(flushed, path, q.key)
  {
    hide HistoryOf, ApplyCost, Continue, ReplayFrom;
    var state, path, c := StateAfter(LedgerOf(st, ledger), q, at), st.handles[handle].path, ChargeOf(q, at);
    var st1 := SaveRow(st, handle, q.key, state, c);
    var done := SetLedger(st1, ledger, LedgerOf(st1, ledger)[q.key := state]);
    var flushed := SaveAll(done, handle, Live(done));
    assert Live(done) == Live(st) == Rows(st, path) by { assert CurrentRows(st) - {} == CurrentRows(st); }
    assert RowMatches(st, path, q.key) && !Past(st, path, q.key).pending by { assert CurrentPath(st) == Some(path); }
    OneMoreEntry(st, done, Charged(path, q.key, c), path, q.key);
    OneMoreEntry(done, flushed, Written(path), path, q.key);
    LostCharge(Past(st, path, q.key), c, path, q.key);
  }

  /** A history with one more charge, even after a full write, stands for another row. */
  lemma {:induction false} LostCharge(h: History, c: Charge, path: string, key: string)
    requires !h.pending && DAY <= c.at && c.delta.calls != 0
    ensures var h' := Continue(Continue(h, Charged(path, key, c), path, key), Written(path), path, key);
            h'.Exists() && (h.Exists() ==> h'.Value() != h.Value())
  {
    hide ApplyCost, ReplayFrom, History.Value;
    ChargedHistory(h, c, path, key);
    ChargesDiffer(h.Value(), c);
  }

  lemma {:induction false} StaleCommitIsQuiet(s: State, m: Move)
    requires Inv(s) && StaleCommit(s, m)
    ensures var c := PcOf(s, m.thread).charge;
            && Base(s.store) && Quiet(s.store) && DAY <= c.at && s.store.database == Some(c.handle)
            && CurrentPath(s.store) == Some(s.store.handles[c.handle].path)
            && RowsMatchLog(s.store) && PendingMatches(s.store)
  {
  }

  /**
   The schedule ends in the commit of a stale state, which breaks the agreement of memory, file and log; and the next
   flush takes the committed charge out of the file again, although nobody has reset or deleted anything.
   */
  lemma {:induction false} ResponseChargeCanBeLost()
    ensures var s, m := Run(Init(DAY, map[]), StaleSchedule()), Move(1, true, 0, Flushing);
            var flushed, charge := Again(AfterCharge(s, m), 1, Flushing, 4).store, ChargeOf(RESPONSE, s.clock);
            && StaleCommit(s, m)
            && !(InStep(AfterCharge(s, m).store) && RowsMatchLog(AfterCharge(s, m).store))
            && flushed.log == s.store.log + [Charged("p", "k", charge), Written("p")]
            && Rows(flushed, "p") == Rows(s.store, "p") && !RowMatches(flushed, "p", "k")
  {
    hide StepNow, Inv, HistoryOf;
    var s0, cfg, chg := Init(DAY, map[]), Configuring("p"), Charging(RESPONSE);
    RunKeepsInv(DAY, map[], []);
    var h1 := [] + Moves(0, cfg, 7) + Moves(0, cfg, 9);
    ConfigureCompletes(s0, [], 0, "p");
    ConfigureKeepsInv(s0, [], 0, "p");
    var h2 := h1 + Moves(1, chg, 2);
    RunAgain(s0, h1, 1, chg, 2);
    ResponseReadsLedger(Run(s0, h1), 1, RESPONSE);
    var h3 := h2 + Moves(0, cfg, 7) + Moves(0, cfg, 9);
    ConfigureCompletes(s0, h2, 0, "p");
    ConfigureKeepsInv(s0, h2, 0, "p");
    RunAgain(s0, h3, 1, chg, 3);
    ResponseReadsDatabase(Run(s0, h3), 1, RESPONSE, Run(s0, h1).store.usage);
    var s, m := Run(s0, h3 + Moves(1, chg, 3)), Move(1, true, 0, Flushing);
    assert h3 + Moves(1, chg, 3) == StaleSchedule();
    CommitIsSoundIffLedgerIsCurrent(s, m);
    FlushErasesStaleCharge(s, m);
  }

  // ---------- a run in which Close undoes a deletion ----------

  lemma {:induction false} DeletionDrops(s: State, t: nat, key: string)
    requires Resting(s, t)
    ensures var s' := Again(s, t, Deleting(key), 5);
            && s'.threads == s.threads[t := PcOf(s', t)] && PcOf(s', t).InEdit? && PcOf(s', t).edit.DeleteSave?
            && s'.updateMu == Some(t) && s'.persistMu == Some(t) && s'.flusher.None?
            && s'.store == DropKey(s.store, s.store.usage, key)
  {
    hide ChargeStep, FlushStep, ConfigStep, LedgerOf, DropKey;
    var op, m := Deleting(key), Move(t, true, 0, Deleting(key));
    var s3 := Step(Step(Step(s, m), m), m);
    assert s3 == At(s.(updateMu := Some(t), persistMu := Some(t)), t, InEdit(DeleteSnapshot(key)));
    assert Again(s, t, op, 5) == Step(Step(s3, m), m);
  }

  lemma {:induction false} DeletionGivesUp(s: State, t: nat, op: Op)
    requires PcOf(s, t).InEdit? && PcOf(s, t).edit.DeleteSave?
    ensures var s' := Again(Step(s, Move(t, false, 0, op)), t, op, 2);
            && s' == s.(updateMu := None, persistMu := None, threads := s'.threads, store := s.store.(deleteFailed := true))
            && s'.threads == s.threads[t := Idle]
  {
    hide ChargeStep, FlushStep, ConfigStep;
    var m := Move(t, true, 0, op);
    var s1 := Step(s, Move(t, false, 0, op));
    assert PcOf(s1, t) == Unlock(UnlockUpdate);
    assert Again(s1, t, op, 2) == Step(Step(s1, m), m);
  }

  /** A `DeleteKey` whose save fails: five moves, the failing one, and two to let go of the locks. */
  lemma {:induction false} DeletionFails(s: State, t: nat, key: string)
    requires Resting(s, t) && CurrentPath(s.store).Some?
    ensures var op := Deleting(key);
            var s' := Again(Step(Again(s, t, op, 5), Move(t, false, 0, op)), t, op, 2);
            && Resting(s', t) && s'.store.database == s.store.database && s'.store.origin == s.store.origin
            && s'.store.log == s.store.log + [Dropped(CurrentPath(s.store).value, key)]
  {
    hide Step, Again, LedgerOf;
    DeletionDrops(s, t, key);
    DeletionGivesUp(Again(s, t, Deleting(key), 5), t, Deleting(key));
  }

  lemma {:induction false} CloseFlushes(s: State, t: nat)
    requires Resting(s, t)
    ensures var s' := Again(s, t, Closing, 4);
            s' == At(s.(persistMu := Some(t)), t, InFlush(SaveUsage(ToClose, Live(s.store), s.store.database)))
  {
    hide ChargeStep, EditStep, ConfigStep, LedgerOf;
    var m := Move(t, true, 0, Closing);
    var s2 := Step(Step(s, m), m);
    assert s2 == At(s, t, InFlush(WaitToFlush(ToClose)));
    assert Again(s, t, Closing, 4) == Step(Step(s2, m), m);
  }

  lemma {:induction false} CloseDetaches(s: State, t: nat)
    requires PcOf(s, t) == Unlock(InClose(WaitToClose))
    ensures var s' := Again(s, t, Closing, 5);
            && s'.threads == s.threads[t := Idle] && s'.updateMu == s.updateMu && s'.persistMu.None? && s'.flusher == s.flusher
            && s'.store.database.None? && s'.store.log == s.store.log && s'.store.origin == s.store.origin
  {
    hide ChargeStep, EditStep, ConfigStep, FlushStep, CloseHandle;
    var m := Move(t, true, 0, Closing);
    var s3 := Step(Step(Step(s, m), m), m);
    assert PcOf(s3, t) == InClose(CloseDetached(s.store.database));
    assert Again(s, t, Closing, 5) == Step(Step(s3, m), m);
    CloseKeepsLog(s3.store, s.store.database);
  }

  lemma {:induction false} CloseKeepsLog(st: Store, db: Option<nat>)
    ensures CloseHandle(st, db).log == st.log && CloseHandle(st, db).origin == st.origin
    ensures CloseHandle(st, db).database == st.database
  {
  }

  /** A `Close` whose last flush fails closes all the same. */
  lemma {:induction false} CloseIgnoresItsFlush(s: State, t: nat)
    requires Resting(s, t) && s.store.database.Some?
    ensures var s' := Again(Step(Again(s, t, Closing, 4), Move(t, false, 0, Closing)), t, Closing, 5);
            && Resting(s', t) && s'.store.database.None?
            && s'.store.log == s.store.log && s'.store.origin == s.store.origin
  {
    hide ChargeStep, EditStep, ConfigStep, LedgerOf, Again;
    CloseFlushes(s, t);
    var s5 := Step(Again(s, t, Closing, 4), Move(t, false, 0, Closing));
    assert s5 == At(s.(persistMu := Some(t)), t, Unlock(InClose(WaitToClose)));
    CloseDetaches(s5, t);
  }

  const FOUND: map<string, Usage> := map["p" := map["k" := EMPTY]]

  /** `Configure`; a deletion that cannot be saved; `Close`, whose flush fails as well; `Configure` again. */
  function UndoingSchedule(): seq<Move> {
    [] + Moves(0, Configuring("p"), 7) + Moves(0, Configuring("p"), 9)
    + Moves(0, Deleting("k"), 5) + [Move(0, false, 0, Deleting("k"))] + Moves(0, Deleting("k"), 2)
    + Moves(0, Closing, 4) + [Move(0, false, 0, Closing)] + Moves(0, Closing, 5)
    + Moves(0, Configuring("p"), 7) + Moves(0, Configuring("p"), 9)
  }

  /** After that run the deleted key's usage is back in the file and in the live ledger. */
  lemma {:induction false} CloseUndoesADeletion()
    ensures var s := Run(Init(DAY, FOUND), UndoingSchedule());
            && s.persistMu.None? && CurrentPath(s.store) == Some("p")
            && Intended(FOUND, s.store.log, "p", "k") == NO_HISTORY
            && "k" in Rows(s.store, "p") && "k" in Live(s.store)
  {
    hide StepNow, Inv, HistoryOf, Intended, Moves, Again, LedgerOf;
    var s0, cfg, del := Init(DAY, FOUND), Configuring("p"), Deleting("k");
    StartHistory(DAY, FOUND, "p", "k");
    var h1 := [] + Moves(0, cfg, 7) + Moves(0, cfg, 9);
    ConfigureCompletes(s0, [], 0, "p");
    var s1 := Run(s0, h1);
    var h2, h3 := h1 + Moves(0, del, 5), h1 + Moves(0, del, 5) + [Move(0, false, 0, del)];
    RunAgain(s0, h1, 0, del, 5);
    RunOneMore(s0, h2, Move(0, false, 0, del));
    RunAgain(s0, h3, 0, del, 2);
    DeletionFails(s1, 0, "k");
    var h4 := h3 + Moves(0, del, 2);
    var h5, h6 := h4 + Moves(0, Closing, 4), h4 + Moves(0, Closing, 4) + [Move(0, false, 0, Closing)];
    RunAgain(s0, h4, 0, Closing, 4);
    RunOneMore(s0, h5, Move(0, false, 0, Closing));
    RunAgain(s0, h6, 0, Closing, 5);
    CloseIgnoresItsFlush(Run(s0, h4), 0);
    var h7 := h6 + Moves(0, Closing, 5);
    ConfigureCompletes(s0, h7, 0, "p");
    assert h7 + Moves(0, cfg, 7) + Moves(0, cfg, 9) == UndoingSchedule();
    var s := Run(s0, UndoingSchedule());
    assert s.store.log == [Published("p"), Dropped("p", "k"), Published("p")];
    UndoneHistory();
    assert OnlyRecordUsage(UndoingSchedule()) by { UndoingOnlyRecords(); }
    RowsFoldCommits(DAY, FOUND, UndoingSchedule(), "p", "k");
    RunKeepsInv(DAY, FOUND, UndoingSchedule());
    MemoryAgreesWhenSaved(s);
  }

  lemma {:induction false} UndoneHistory()
    ensures var log := [Published("p"), Dropped("p", "k"), Published("p")];
            HistoryOf(FOUND, log, "p", "k").Exists() && Intended(FOUND, log, "p", "k") == NO_HISTORY
  {
    var one, two := [Published("p")], [Published("p"), Dropped("p", "k")];
    assert one[..0] == [] && two[..1] == one && [Published("p"), Dropped("p", "k"), Published("p")][..2] == two;
    assert HistoryOf(FOUND, [], "p", "k") == History(Some(EMPTY), [], false);
    assert HistoryOf(FOUND, one, "p", "k") == History(Some(EMPTY), [], false);
    assert HistoryOf(FOUND, two, "p", "k") == History(Some(EMPTY), [], true);
    assert Intended(FOUND, two, "p", "k") == NO_HISTORY;
  }

  lemma {:induction false} MovesOnlyRecord(t: nat, op: Op, n: nat)
    requires !op.Charging?
    ensures forall i :: 0 <= i < |Moves(t, op, n)| ==> DatabaseFirst(Moves(t, op, n)[i].op)
    decreases n
  {
    if n > 0 { MovesOnlyRecord(t, op, n - 1); }
  }

  lemma {:induction false} UndoingOnlyRecords()
    ensures OnlyRecordUsage(UndoingSchedule())
  {
    hide Moves;
    forall op: Op, n: nat | !op.Charging? ensures forall i :: 0 <= i < |Moves(0, op, n)| ==> DatabaseFirst(Moves(0, op, n)[i].op) {
      MovesOnlyRecord(0, op, n);
    }
  }

  lemma {:induction false} MemoryAgreesWhenSaved(s: State)
    requires Inv(s) && s.persistMu.None? && s.store.database.Some? && s.store.unsaved == {}
    ensures Live(s.store) == CurrentRows(s.store)
  {
  }
}
