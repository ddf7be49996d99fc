/**
 What the usage protocol guarantees in every schedule, and the one capture order for which it does not.
 */
module UsageProtocolTheorems {
  import opened Wrappers
  import opened UsageWindows
  import opened UsageProtocol
  import opened UsageProtocolSafety

  // ---------- schedules without RecordResponseCost ----------

  /** Charges come from `RecordUsage` only, which reads the database before the ledger. */
  predicate DatabaseFirst(op: Op) { op.Charging? ==> op.request.dbFirst }

  ghost predicate OnlyRecordUsage(moves: seq<Move>) {
    forall i :: 0 <= i < |moves| ==> DatabaseFirst(moves[i].op)
  }

  predicate FirstOrDone(pc: Pc) {
    match pc
    case InCharge(c) => c.Publish? || c.q.dbFirst
    case InEdit(e) => e.WaitToUpdate? || e.WaitToPersist? ==> DatabaseFirst(e.op)
    case _ => true
  }

  ghost predicate AllFirst(s: State) {
    forall t :: t in s.threads ==> FirstOrDone(s.threads[t])
  }

  lemma {:induction false} StepKeepsFirst(s: State, m: Move)
    requires Inv(s) && AllFirst(s) && DatabaseFirst(m.op)
    ensures AllFirst(Step(s, m))
  {
    var now, t := Tick(s, m.tick), m.thread;
    assert FirstOrDone(PcOf(now, t));
    match PcOf(now, t) {
      case InCharge(pc) => ChargeKeepsFirst(now, t, pc, m.ok);
      case InFlush(pc) => FlushKeepsFirst(now, t, pc, m.ok);
      case InEdit(pc) => EditKeepsFirst(now, t, pc, m.ok);
      case InConfig(pc) => ConfigKeepsFirst(now, t, pc, m.ok);
      case InClose(pc) => CloseKeepsFirst(now, t, pc);
      case Unlock(next) => assert ThreadOk(s.store, Unlock(next));
      case _ =>
    }
  }

  lemma {:induction false} ChargeKeepsFirst(s: State, t: nat, pc: ChargePc, ok: bool)
    requires AllFirst(s) && PcOf(s, t) == InCharge(pc) && FirstOrDone(InCharge(pc))
    ensures AllFirst(ChargeStep(s, t, pc, ok))
  {
  }

  lemma {:induction false} FlushKeepsFirst(s: State, t: nat, pc: FlushPc, ok: bool)
    requires AllFirst(s)
    ensures AllFirst(FlushStep(s, t, pc, ok))
  {
  }

  lemma {:induction false} EditKeepsFirst(s: State, t: nat, pc: EditPc, ok: bool)
    requires AllFirst(s) && FirstOrDone(InEdit(pc))
    ensures AllFirst(EditStep(s, t, pc, ok))
  {
  }

  lemma {:induction false} ConfigKeepsFirst(s: State, t: nat, pc: ConfigPc, ok: bool)
    requires AllFirst(s)
    ensures AllFirst(ConfigStep(s, t, pc, ok))
  {
  }

  lemma {:induction false} CloseKeepsFirst(s: State, t: nat, pc: ClosePc)
    requires AllFirst(s)
    ensures AllFirst(CloseStep(s, t, pc))
  {
  }

  /** A charge holding `persistMu` whose captured handle is still open captured the current ledger. */
  lemma {:induction false} FirstIsNeverStale(s: State, m: Move)
    requires Inv(s) && AllFirst(s)
    ensures !StaleCommit(s, m)
  {
  }

  /** A process may start on any files: whatever an earlier one left there, however it ended. */
  lemma {:induction false} RunKeepsInv(clock: int, disk: map<string, Usage>, moves: seq<Move>)
    requires DAY <= clock && OnlyRecordUsage(moves)
    ensures Inv(Run(Init(clock, disk), moves)) && AllFirst(Run(Init(clock, disk), moves))
  {
    if moves == [] {
      assert forall path, key :: RowMatches(Init(clock, disk).store, path, key);
    } else {
      var front, m := moves[..|moves| - 1], moves[|moves| - 1];
      RunKeepsInv(clock, disk, front);
      var s := Run(Init(clock, disk), front);
      FirstIsNeverStale(s, m);
      StepKeepsInv(s, m);
      StepKeepsFirst(s, m);
    }
  }

  /**
   Whatever the files at the start and whatever the interleaving of `RecordUsage`, flushes, resets, key and plan
   changes, `Configure`, `Close` and failing transactions: whenever `persistMu` is free the live ledger is the current
   file's rows, minus usage that a `DeleteKey` dropped and could not save since the last full write.
   */
  lemma {:induction false} MemoryAgreesWithFile(clock: int, disk: map<string, Usage>, moves: seq<Move>)
    requires DAY <= clock && OnlyRecordUsage(moves)
    ensures var s := Run(Init(clock, disk), moves); var live, rows := Live(s.store), CurrentRows(s.store);
            s.persistMu.None? && s.store.database.Some? ==>
              && live.Keys <= rows.Keys
              && (forall key :: key in live ==> live[key] == rows[key])
              && (live != rows ==> s.store.deleteFailed)
  {
    RunKeepsInv(clock, disk, moves);
  }

  // ---------- who writes what into the log ----------

  /** The entry of a step is the one its operation makes at that point. */
  predicate EntryFits(st: Store, pc: Pc, entry: Commit) {
    match entry
    case Charged(_, key, c) =>
      pc.InCharge? && pc.charge.Apply? && pc.charge.q.key == key && c == ChargeOf(pc.charge.q, pc.charge.at)
    case Emptied(_) => pc.InEdit? && pc.edit.ResetSave?
    case Dropped(path, key) => pc.InEdit? && pc.edit.DeleteReset? && pc.edit.key == key && CurrentPath(st) == Some(path)
    case Written(_) => (pc.InFlush? && pc.flush.SaveUsage?) || (pc.InEdit? && (pc.edit.EditSave? || pc.edit.DeleteSave?))
    case Published(path) => pc.InConfig? && pc.config.Swap? && pc.config.path == path
  }

  ghost predicate Grows(st: Store, st': Store, pc: Pc) {
    && st'.origin == st.origin
    && (st'.log == st.log
        || (|st'.log| == |st.log| + 1 && st'.log[..|st.log|] == st.log && EntryFits(st, pc, st'.log[|st.log|])))
  }

  lemma {:induction false} StepGrowsLog(s: State, m: Move)
    ensures Grows(s.store, Step(s, m).store, PcOf(s, m.thread))
  {
    var now, t := Tick(s, m.tick), m.thread;
    match PcOf(now, t) {
      case InCharge(pc) => ChargeGrowsLog(now, t, pc, m.ok);
      case InFlush(pc) => FlushGrowsLog(now, t, pc, m.ok);
      case InEdit(pc) => EditGrowsLog(now, t, pc, m.ok);
      case InConfig(pc) => ConfigGrowsLog(now, t, pc, m.ok);
      case _ =>
    }
  }

  lemma {:induction false} ChargeGrowsLog(s: State, t: nat, pc: ChargePc, ok: bool)
    ensures Grows(s.store, ChargeStep(s, t, pc, ok).store, InCharge(pc))
  {
  }

  lemma {:induction false} FlushGrowsLog(s: State, t: nat, pc: FlushPc, ok: bool)
    ensures Grows(s.store, FlushStep(s, t, pc, ok).store, InFlush(pc))
  {
  }

  lemma {:induction false} EditGrowsLog(s: State, t: nat, pc: EditPc, ok: bool)
    ensures Grows(s.store, EditStep(s, t, pc, ok).store, InEdit(pc))
  {
  }

  lemma {:induction false} ConfigGrowsLog(s: State, t: nat, pc: ConfigPc, ok: bool)
    ensures Grows(s.store, ConfigStep(s, t, pc, ok).store, InConfig(pc))
  {
  }

  lemma {:induction false} StepContinues(s: State, m: Move, path: string, key: string)
    ensures var st, st' := s.store, Step(s, m).store;
            || (st'.log == st.log && Past(st', path, key) == Past(st, path, key))
            || (st'.log != [] && Past(st', path, key) == Continue(Past(st, path, key), st'.log[|st'.log| - 1], path, key))
  {
    hide Step;
    StepGrowsLog(s, m);
  }

  // ---------- rows as folds of commits ----------

  lemma {:induction false} BaseIsFound(origin: map<string, Usage>, log: seq<Commit>, path: string, key: string)
    ensures var h := HistoryOf(origin, log, path, key); h.base.Some? ==> h.base == Found(origin, path, key)
  {
    if log != [] { BaseIsFound(origin, log[..|log| - 1], path, key); }
  }

  /** A history holds committed charges only, in the order of their dates. */
  lemma {:induction false} HistoryDated(origin: map<string, Usage>, log: seq<Commit>, path: string, key: string, from: int, bound: int)
    requires LogBy(log, bound) && DatedFrom(log, from)
    ensures var charges := HistoryOf(origin, log, path, key).charges;
            Dated(charges) && forall c :: c in charges ==> from <= c.at && InLog(log, c)
  {
    if log != [] {
      var front, last := log[..|log| - 1], log[|log| - 1];
      HistoryDated(origin, front, path, key, from, bound);
      var charges := HistoryOf(origin, front, path, key).charges;
      forall c | c in charges ensures InLog(log, c) && (last.Charged? ==> c.at <= last.charge.at) {
        var i :| 0 <= i < |front| && front[i].Charged? && front[i].charge == c;
        assert log[i] == front[i];
      }
      if last.Charged? {
        assert InLog(log, last.charge);
        LaterCharge(charges, last.charge);
        LaterCharge([], last.charge);
        assert [] + [last.charge] == [last.charge];
      }
    }
  }

  lemma {:induction false} LaterCharge(charges: seq<Charge>, c: Charge)
    requires Dated(charges) && DAY <= c.at && forall x :: x in charges ==> x.at <= c.at
    ensures Dated(charges + [c]) && forall x :: x in charges + [c] <==> x in charges || x == c
  {
    forall i | 0 <= i < |charges| ensures charges[i].at <= c.at { assert charges[i] in charges; }
  }

  ghost predicate InLog(log: seq<Commit>, c: Charge) {
    exists i :: 0 <= i < |log| && log[i].Charged? && log[i].charge == c
  }

  /** No charge is dated before `from`. */
  ghost predicate DatedFrom(log: seq<Commit>, from: int) {
    forall i :: 0 <= i < |log| && log[i].Charged? ==> from <= log[i].charge.at
  }

  ghost predicate ReadFrom(s: State, from: int) {
    && from <= s.clock && DatedFrom(s.store.log, from)
    && forall t :: t in s.threads ==> ReadPc(s.threads[t], from)
  }

  predicate ReadPc(pc: Pc, from: int) {
    match pc
    case InCharge(c) => c.Apply? ==> from <= c.at
    case Unlock(next) => ReadPc(next, from)
    case _ => true
  }

  // where a thread gets to in one step of each kind of operation

  lemma {:induction false} ChargeMoves(s: State, t: nat, pc: ChargePc, ok: bool)
    ensures var s', next := ChargeStep(s, t, pc, ok), PcOf(ChargeStep(s, t, pc, ok), t);
            && (s' == s || (s'.clock == s.clock && s'.threads == s.threads[t := next]))
            && (s' == s || next == Idle || next == Unlock(Idle) || (next.InCharge? && (next.charge.Apply? ==> next.charge.at == s.clock)))
  {
  }

  lemma {:induction false} FlushMoves(s: State, t: nat, pc: FlushPc, ok: bool)
    ensures var s', next := FlushStep(s, t, pc, ok), PcOf(FlushStep(s, t, pc, ok), t);
            && (s' == s || (s'.clock == s.clock && s'.threads == s.threads[t := next]))
            && (s' == s
                || (next.InFlush? && (next.flush.FlusherDone? || next == InFlush(WaitToFlush(ToFlusher))))
                || (next.InFlush? && !pc.FlusherLoop? && !pc.FlusherDone? && !next.flush.FlusherLoop? && !next.flush.FlusherDone?
                    && next.flush.ret == pc.ret)
                || (pc.SaveUsage? && exists saved :: next == Unlock(AfterFlush(pc.ret, saved))))
  {
    hide SaveAll;
    if pc.SaveUsage? {
      assert PcOf(FlushStep(s, t, pc, ok), t) == Unlock(AfterFlush(pc.ret, true))
             || PcOf(FlushStep(s, t, pc, ok), t) == Unlock(AfterFlush(pc.ret, false));
    }
  }

  lemma {:induction false} EditMoves(s: State, t: nat, pc: EditPc, ok: bool)
    ensures var s', next := EditStep(s, t, pc, ok), PcOf(EditStep(s, t, pc, ok), t);
            && (s' == s || (s'.clock == s.clock && s'.threads == s.threads[t := next]))
            && (s' == s || next == Unlock(UnlockUpdate)
                || (pc.WaitToUpdate? && pc.op.Configuring? && next == InFlush(TakeFlusher(ToConfigure(pc.op.path))))
                || (pc.WaitToUpdate? && next == InEdit(WaitToPersist(pc.op)))
                || (pc.WaitToPersist? && next == Entered(pc.op))
                || (next.InEdit? && (next.edit.ResetSave? || next.edit.ResetClear?) && (pc.ResetRead? || pc.ResetSave?))
                || (pc.DeleteSnapshot? && next.InEdit? && next.edit.DeleteReset? && next.edit.key == pc.key)
                || (next.InEdit? && (next.edit.DeleteSave? || next.edit.EditSave?)))
  {
    hide SaveAll, EmptyAll, DropKey, SetLedger;
  }

  lemma {:induction false} ConfigMoves(s: State, t: nat, pc: ConfigPc, ok: bool)
    ensures var s', next := ConfigStep(s, t, pc, ok), PcOf(ConfigStep(s, t, pc, ok), t);
            && s'.clock == s.clock && s'.threads == s.threads[t := next]
            && (next.InConfig? || next == Unlock(UnlockUpdate))
  {
    hide SwapTo, CloseHandle;
  }

  lemma {:induction false} StepReadsFrom(s: State, m: Move, from: int)
    requires ReadFrom(s, from)
    ensures ReadFrom(Step(s, m), from)
  {
    StepGrowsLog(s, m);
    StepDatesThreads(s, m, from);
  }

  lemma {:induction false} StepDatesThreads(s: State, m: Move, from: int)
    requires ReadFrom(s, from)
    ensures var s' := Step(s, m); from <= s'.clock && forall t :: t in s'.threads ==> ReadPc(s'.threads[t], from)
  {
    hide DatedFrom;
    var now, t := Tick(s, m.tick), m.thread;
    assert ReadPc(PcOf(now, t), from);
    match PcOf(now, t) {
      case InCharge(pc) => ChargeMoves(now, t, pc, m.ok);
      case InFlush(pc) => FlushMoves(now, t, pc, m.ok);
      case InEdit(pc) => EditMoves(now, t, pc, m.ok);
      case InConfig(pc) => ConfigMoves(now, t, pc, m.ok);
      case _ =>
    }
  }

  lemma {:induction false} StartsAtClock(clock: int, disk: map<string, Usage>)
    ensures ReadFrom(Init(clock, disk), clock)
  {
  }

  lemma {:induction false} RunReadsFrom(clock: int, disk: map<string, Usage>, moves: seq<Move>)
    ensures ReadFrom(Run(Init(clock, disk), moves), clock)
  {
    hide Step, ReadFrom;
    if moves == [] {
      StartsAtClock(clock, disk);
    } else {
      RunReadsFrom(clock, disk, moves[..|moves| - 1]);
      StepReadsFrom(Run(Init(clock, disk), moves[..|moves| - 1]), moves[|moves| - 1], clock);
    }
  }

  /**
   In every state of every run a file's row for a key is its history: the row the process found there, unless the key's
   usage has been reset or its deletion saved, grown by every charge committed since.
   */
  lemma {:induction false} RowsFoldCommits(clock: int, disk: map<string, Usage>, moves: seq<Move>, path: string, key: string)
    requires DAY <= clock && OnlyRecordUsage(moves)
    ensures var st := Run(Init(clock, disk), moves).store; var h, rows := Past(st, path, key), Rows(st, path);
            && (key in rows <==> h.Exists())
            && (key in rows ==> rows[key] == h.Value())
            && (h.base.Some? ==> h.base == Found(disk, path, key))
  {
    RunKeepsInv(clock, disk, moves);
    var st := Run(Init(clock, disk), moves).store;
    assert RowMatches(st, path, key);
    BaseIsFound(st.origin, st.log, path, key);
    RunKeepsOrigin(Init(clock, disk), moves);
  }

  lemma {:induction false} RunKeepsOrigin(s: State, moves: seq<Move>)
    ensures Run(s, moves).store.origin == s.store.origin
  {
    hide Step;
    if moves != [] {
      RunKeepsOrigin(s, moves[..|moves| - 1]);
      StepGrowsLog(Run(s, moves[..|moves| - 1]), moves[|moves| - 1]);
    }
  }

  /** The charges a row accounts for when the row found at the start accounts for `prior`. */
  function Accounted(h: History, prior: seq<Charge>): seq<Charge> { if h.base.Some? then prior + h.charges else h.charges }

  lemma {:induction false} ReplayContinues(prior: seq<Charge>, charges: seq<Charge>)
    ensures ReplayFrom(Replay(prior), charges) == Replay(prior + charges)
  {
    hide ApplyCost;
    if charges == [] {
      assert prior + charges == prior;
    } else {
      var n := |charges| - 1;
      ReplayContinues(prior, charges[..n]);
      assert (prior + charges)[..|prior + charges| - 1] == prior + charges[..n];
    }
  }

  /**
   In every state of every run a row accounts, day by day and week by week, for exactly the charges that its history
   names: if the row found at the start accounted for `prior` (an earlier process, a crash in between), for those as
   well, until a reset or a saved deletion. At key level and for each model.
   */
  lemma {:induction false} RowsAccountForCommits(clock: int, disk: map<string, Usage>, moves: seq<Move>, path: string, key: string,
                                                 model: string, prior: seq<Charge>)
    requires DAY <= clock && OnlyRecordUsage(moves)
    requires Dated(prior) && (forall c :: c in prior ==> c.at <= clock)
    requires Found(disk, path, key) == if prior == [] then None else Some(Replay(prior))
    ensures var st := Run(Init(clock, disk), moves).store;
            var charges, rows := Accounted(Past(st, path, key), prior), Rows(st, path);
            && (key in rows <==> charges != [])
            && (key in rows ==>
                  && rows[key] == Replay(charges)
                  && Accounts(ModelWindows(rows[key].daily, rows[key].weekly), KeyEntries(charges))
                  && Accounts(RowOf(rows[key].byModel, model), ModelEntries(charges, model)))
  {
    var s := Run(Init(clock, disk), moves);
    var h := Past(s.store, path, key);
    RowsFoldCommits(clock, disk, moves, path, key);
    RunKeepsInv(clock, disk, moves);
    RunReadsFrom(clock, disk, moves);
    HistoryDated(s.store.origin, s.store.log, path, key, clock, s.clock);
    ReplayContinues(prior, h.charges);
    ReplayContinues([], h.charges);
    assert [] + h.charges == h.charges;
    var charges := Accounted(h, prior);
    assert Dated(charges) by { DatedAfter(prior, h.charges, clock); }
    ReplayAccounts(charges, model);
  }

  lemma {:induction false} DatedAfter(prior: seq<Charge>, charges: seq<Charge>, clock: int)
    requires Dated(prior) && Dated(charges)
    requires (forall c :: c in prior ==> c.at <= clock) && forall c :: c in charges ==> clock <= c.at
    ensures Dated(prior + charges)
  {
    forall i, j | 0 <= i < j < |prior + charges| ensures (prior + charges)[i].at <= (prior + charges)[j].at {
      if i < |prior| { assert prior[i] in prior; }
      if j >= |prior| { assert charges[j - |prior|] in charges; }
    }
  }

  // ---------- only resets and deletions erase ----------

  predicate Erases(op: Op, key: string) { op.Resetting? || op == Deleting(key) }

  ghost predicate NeverErases(moves: seq<Move>, key: string) {
    forall i :: 0 <= i < |moves| ==> !Erases(moves[i].op, key)
  }

  /** The thread is on the way to reset all usage, or to delete the key. */
  predicate OnTheWay(pc: Pc, key: string) {
    pc.InEdit? &&
    match pc.edit
    case WaitToUpdate(op) => Erases(op, key)
    case WaitToPersist(op) => Erases(op, key)
    case ResetRead => true
    case ResetSave(_, _) => true
    case DeleteSnapshot(k) => k == key
    case DeleteReset(k, _, _, _) => k == key
    case _ => false
  }

  ghost predicate NoEraser(s: State, key: string) {
    forall t :: t in s.threads ==> !OnTheWay(s.threads[t], key)
  }

  lemma {:induction false} StepKeepsNoEraser(s: State, m: Move, key: string)
    requires NoEraser(s, key) && !Erases(m.op, key)
    requires PcOf(s, m.thread).Unlock? ==> ThreadOk(s.store, PcOf(s, m.thread))
    ensures NoEraser(Step(s, m), key)
  {
    hide ChargeStep, FlushStep, EditStep, ConfigStep;
    var now, t := Tick(s, m.tick), m.thread;
    assert !OnTheWay(PcOf(now, t), key);
    match PcOf(now, t) {
      case InCharge(pc) => ChargeMoves(now, t, pc, m.ok);
      case InFlush(pc) => FlushMoves(now, t, pc, m.ok);
      case InEdit(pc) => EditMoves(now, t, pc, m.ok);
      case InConfig(pc) => ConfigMoves(now, t, pc, m.ok);
      case _ =>
    }
  }

  /** The charges of a key committed to a file. */
  function AllCharges(log: seq<Commit>, path: string, key: string): seq<Charge> {
    if log == [] then []
    else
      var rest, last := AllCharges(log[..|log| - 1], path, key), log[|log| - 1];
      if last.Charged? && last.path == path && last.key == key then rest + [last.charge] else rest
  }

  /** From `st` to `st'` the key's row in the file has grown by the charges committed in between and nothing else. */
  ghost predicate OnlyGrows(st: Store, st': Store, path: string, key: string) {
    && |st.log| <= |st'.log| && st'.log[..|st.log|] == st.log
    && !Past(st', path, key).pending && Past(st', path, key).base == Past(st, path, key).base
    && Past(st', path, key).charges == Past(st, path, key).charges + AllCharges(st'.log[|st.log|..], path, key)
  }

  /** A thread that is not on the way to erase makes entries that can only add a charge. */
  lemma {:induction false} EntryOnlyGrows(st: Store, pc: Pc, entry: Commit, h: History, path: string, key: string)
    requires EntryFits(st, pc, entry) && !OnTheWay(pc, key) && !h.pending
    ensures Continue(h, entry, path, key) == h.(charges := h.charges + AllCharges([entry], path, key))
  {
    assert AllCharges([], path, key) == [];
    assert h.charges + [] == h.charges;
  }

  lemma {:induction false} ChargesAppend(log: seq<Commit>, entry: Commit, path: string, key: string)
    ensures AllCharges(log + [entry], path, key) == AllCharges(log, path, key) + AllCharges([entry], path, key)
  {
    assert (log + [entry])[..|log|] == log;
    assert AllCharges([], path, key) == [] && AllCharges(log, path, key) + [] == AllCharges(log, path, key);
  }

  lemma {:induction false} StepOnlyGrows(start: Store, s: State, m: Move, path: string, key: string)
    requires NoEraser(s, key) && OnlyGrows(start, s.store, path, key)
    ensures OnlyGrows(start, Step(s, m).store, path, key)
  {
    hide Step, HistoryOf, EntryFits, Continue, AllCharges, OnTheWay;
    StepGrowsLog(s, m);
    StepContinues(s, m, path, key);
    var st, st', n, pc := s.store, Step(s, m).store, |start.log|, PcOf(s, m.thread);
    if st'.log != st.log {
      var entry, later := st'.log[|st.log|], st.log[n..];
      NotOnTheWay(s, m.thread, key);
      EntryOnlyGrows(st, pc, entry, Past(st, path, key), path, key);
      ChargesAppend(later, entry, path, key);
      assert st'.log[n..] == later + [entry] && st'.log[..n] == st.log[..n];
      var before := Past(start, path, key).charges;
      assert before + AllCharges(later, path, key) + AllCharges([entry], path, key)
             == before + (AllCharges(later, path, key) + AllCharges([entry], path, key));
    }
  }

  lemma {:induction false} NotOnTheWay(s: State, t: nat, key: string)
    requires NoEraser(s, key)
    ensures !OnTheWay(PcOf(s, t), key)
  {
  }

  lemma {:induction false} RunOnlyGrows(clock: int, disk: map<string, Usage>, moves: seq<Move>, more: seq<Move>, path: string, key: string)
    requires DAY <= clock && OnlyRecordUsage(moves + more) && NeverErases(more, key)
    requires NoEraser(Run(Init(clock, disk), moves), key) && !Past(Run(Init(clock, disk), moves).store, path, key).pending
    ensures var s, s' := Run(Init(clock, disk), moves), Run(Init(clock, disk), moves + more);
            NoEraser(s', key) && OnlyGrows(s.store, s'.store, path, key)
  {
    hide Step, HistoryOf, Inv;
    var s := Run(Init(clock, disk), moves);
    if more == [] {
      assert moves + more == moves;
      assert s.store.log[|s.store.log|..] == [] && s.store.log[..|s.store.log|] == s.store.log;
    } else {
      var n := |more| - 1;
      assert (moves + more)[..|moves + more| - 1] == moves + more[..n];
      assert forall i :: 0 <= i < |moves + more[..n]| ==> (moves + more[..n])[i] == (moves + more)[i];
      RunOnlyGrows(clock, disk, moves, more[..n], path, key);
      RunKeepsInv(clock, disk, moves + more[..n]);
      var s1 := Run(Init(clock, disk), moves + more[..n]);
      InvThreadOk(s1, more[n].thread);
      StepKeepsNoEraser(s1, more[n], key);
      StepOnlyGrows(s.store, s1, more[n], path, key);
    }
  }

  lemma {:induction false} InvThreadOk(s: State, t: nat)
    requires Inv(s)
    ensures PcOf(s, t).Unlock? ==> ThreadOk(s.store, PcOf(s, t))
  {
  }

  /**
   A run that neither resets usage nor deletes the key loses nothing of it: each file's row is the one found at the
   start grown by every charge ever committed for the key.
   */
  lemma {:induction false} NothingErasedNothingLost(clock: int, disk: map<string, Usage>, moves: seq<Move>, path: string, key: string)
    requires DAY <= clock && OnlyRecordUsage(moves) && NeverErases(moves, key)
    ensures var st := Run(Init(clock, disk), moves).store;
            var h, rows := History(Found(disk, path, key), AllCharges(st.log, path, key), false), Rows(st, path);
            (key in rows <==> h.Exists()) && (key in rows ==> rows[key] == h.Value())
  {
    hide Step, HistoryOf;
    assert [] + moves == moves;
    StartHistory(clock, disk, path, key);
    RunOnlyGrows(clock, disk, [], moves, path, key);
    RowsFoldCommits(clock, disk, moves, path, key);
    var st := Run(Init(clock, disk), moves).store;
    assert st.log[0..] == st.log;
    assert Past(st, path, key) == History(Found(disk, path, key), AllCharges(st.log, path, key), false);
  }

  lemma {:induction false} StartHistory(clock: int, disk: map<string, Usage>, path: string, key: string)
    ensures var s := Run(Init(clock, disk), []);
            s == Init(clock, disk) && NoEraser(s, key) && s.store.log == []
            && Past(s.store, path, key) == History(Found(disk, path, key), [], false)
  {
  }

  /**
   Hand-over over whole runs: as long as nobody resets usage or deletes the key, all that was ever committed for it to
   a file stays in its row, whatever is configured, closed or flushed in between; and whenever that file is the current
   one again (`persistMu` being free), the live ledger holds exactly that.
   */
  lemma {:induction false} CommittedChargesSurvive(clock: int, disk: map<string, Usage>, moves: seq<Move>, more: seq<Move>,
                                                   path: string, key: string)
    requires DAY <= clock && OnlyRecordUsage(moves + more) && NeverErases(more, key)
    requires NoEraser(Run(Init(clock, disk), moves), key) && !Past(Run(Init(clock, disk), moves).store, path, key).pending
    ensures |Run(Init(clock, disk), moves).store.log| <= |Run(Init(clock, disk), moves + more).store.log|
    ensures var st, s' := Run(Init(clock, disk), moves).store, Run(Init(clock, disk), moves + more);
            var h, live := Past(st, path, key), Live(s'.store);
            var grown := h.(charges := h.charges + AllCharges(s'.store.log[|st.log|..], path, key));
            && (key in Rows(s'.store, path) <==> grown.Exists())
            && (grown.Exists() ==> Rows(s'.store, path)[key] == grown.Value())
            && (s'.persistMu.None? && CurrentPath(s'.store) == Some(path) ==>
                  && (key in live <==> grown.Exists())
                  && (grown.Exists() ==> live[key] == grown.Value()))
  {
    hide Step, HistoryOf;
    RunOnlyGrows(clock, disk, moves, more, path, key);
    RowsFoldCommits(clock, disk, moves + more, path, key);
    RunKeepsInv(clock, disk, moves + more);
  }

  // ---------- since the last reset or deletion ----------

  /** What a key's usage in a file should be: whatever came before a reset or a deletion is gone. */
  function Intended(origin: map<string, Usage>, log: seq<Commit>, path: string, key: string): History {
    if log == [] then History(Found(origin, path, key), [], false)
    else
      var h, last := Intended(origin, log[..|log| - 1], path, key), log[|log| - 1];
      if last.Charged? && last.path == path && last.key == key then h.(charges := h.charges + [last.charge])
      else if last == Emptied(path) || last == Dropped(path, key) then NO_HISTORY
      else h
  }

  /**
   A deletion of the key has been undone, by loading the file at a time when it was still missing from it, and what was
   to be deleted has not been erased since by a reset or by a deletion that was saved.
   */
  predicate Lingers(origin: map<string, Usage>, log: seq<Commit>, path: string, key: string) {
    log != [] &&
    var front, last := log[..|log| - 1], log[|log| - 1];
    var before, waiting := Lingers(origin, front, path, key), HistoryOf(origin, front, path, key).pending;
    if last == Published(path) then before || waiting
    else if last == Emptied(path) then false
    else if last == Written(path) || (last.Charged? && last.path == path && last.key == key) then before && !waiting
    else before
  }

  /** A row's history is the intended one exactly when no deletion is waiting to be saved and none lingers. */
  lemma {:induction false} HistoryIsIntendedIff(origin: map<string, Usage>, log: seq<Commit>, path: string, key: string)
    ensures var h, wanted := HistoryOf(origin, log, path, key), Intended(origin, log, path, key);
            && (h == wanted <==> !h.pending && !Lingers(origin, log, path, key))
            && (h.pending ==> h.Exists() && wanted == NO_HISTORY)
            && (Lingers(origin, log, path, key) && !h.pending ==>
                  wanted.base.None? && (h.base.Some? || |wanted.charges| < |h.charges|))
            && (Lingers(origin, log, path, key) ==> h.Exists())
  {
    if log != [] { HistoryIsIntendedIff(origin, log[..|log| - 1], path, key); }
  }

  /**
   The replay since the last reset or deletion of the key: a file's row is made of exactly those charges if and only if
   no deletion of the key is waiting to be saved there and no deletion undone by loading the file again lingers; and as
   long as none lingers, the row holds the replayed value if and only if none is waiting.
   */
  lemma {:induction false} RowIsSinceTheLastReset(clock: int, disk: map<string, Usage>, moves: seq<Move>, path: string, key: string)
    requires DAY <= clock && OnlyRecordUsage(moves)
    ensures var st := Run(Init(clock, disk), moves).store;
            var h, wanted, rows := Past(st, path, key), Intended(disk, st.log, path, key), Rows(st, path);
            && (h == wanted <==> !h.pending && !Lingers(disk, st.log, path, key))
            && (!Lingers(disk, st.log, path, key) ==>
                  ((key in rows <==> wanted.Exists()) && (key in rows ==> rows[key] == wanted.Value()) <==> !h.pending))
  {
    hide HistoryOf, Lingers;
    var st := Run(Init(clock, disk), moves).store;
    RowsFoldCommits(clock, disk, moves, path, key);
    RunKeepsOrigin(Init(clock, disk), moves);
    HistoryIsIntendedIff(disk, st.log, path, key);
  }

  // ---------- only Close lets a deletion be undone ----------

  ghost predicate NeverCloses(moves: seq<Move>) { forall i :: 0 <= i < |moves| ==> !moves[i].op.Closing? }

  predicate Closes(pc: Pc) {
    match pc
    case InFlush(f) => !f.FlusherLoop? && !f.FlusherDone? && f.ret.ToClose?
    case InClose(_) => true
    case Unlock(next) => next == InClose(WaitToClose)
    case _ => false
  }

  ghost predicate NoCloser(s: State) { forall t :: t in s.threads ==> !Closes(s.threads[t]) }

  lemma {:induction false} StepKeepsNoCloser(s: State, m: Move)
    requires NoCloser(s) && !m.op.Closing?
    requires PcOf(s, m.thread).Unlock? ==> ThreadOk(s.store, PcOf(s, m.thread))
    ensures NoCloser(Step(s, m))
  {
    hide ChargeStep, FlushStep, EditStep, ConfigStep;
    var now, t := Tick(s, m.tick), m.thread;
    assert !Closes(PcOf(now, t));
    match PcOf(now, t) {
      case InCharge(pc) => ChargeMoves(now, t, pc, m.ok);
      case InFlush(pc) => FlushMoves(now, t, pc, m.ok);
      case InEdit(pc) => EditMoves(now, t, pc, m.ok);
      case InConfig(pc) => ConfigMoves(now, t, pc, m.ok);
      case _ =>
    }
  }

  /** Deletions wait in the current file only. */
  ghost predicate NoneForgotten(st: Store) {
    forall path, key :: Past(st, path, key).pending ==> CurrentPath(st) == Some(path)
  }

  /** The database changes at a swap or at a detachment only. */
  lemma {:induction false} StepKeepsPath(s: State, m: Move)
    requires Inv(s) && PcOf(s, m.thread) != InClose(Detach)
    ensures var st, st', pc := s.store, Step(s, m).store, PcOf(s, m.thread);
            if pc.InConfig? && pc.config.Swap?
            then st'.log == st.log + [Published(pc.config.path)] && CurrentPath(st') == Some(pc.config.path)
            else CurrentPath(st') == CurrentPath(st)
  {
    hide RowsMatchLog, PendingMatches, LogBy, InStep, Excused, OnlyOpen;
    var now, t := Tick(s, m.tick), m.thread;
    match PcOf(now, t) {
      case InConfig(pc) =>
        assert s.persistMu == Some(t) && ConfigHolds(s.store, pc);
        ConfigKeepsPath(now, t, pc, m.ok);
      case InCharge(pc) => ChargeKeepsPath(now, t, pc, m.ok);
      case InFlush(pc) => FlushKeepsPath(now, t, pc, m.ok);
      case InEdit(pc) => EditKeepsPath(now, t, pc, m.ok);
      case _ =>
    }
  }

  lemma {:induction false} ConfigKeepsPath(s: State, t: nat, pc: ConfigPc, ok: bool)
    requires Base(s.store) && ConfigHolds(s.store, pc)
    ensures var st, st' := s.store, ConfigStep(s, t, pc, ok).store;
            if pc.Swap? then st'.log == st.log + [Published(pc.path)] && CurrentPath(st') == Some(pc.path)
            else CurrentPath(st') == CurrentPath(st)
  {
    hide InStep, Excused, OnlyOpen;
  }

  lemma {:induction false} ChargeKeepsPath(s: State, t: nat, pc: ChargePc, ok: bool)
    ensures CurrentPath(ChargeStep(s, t, pc, ok).store) == CurrentPath(s.store)
  {
  }

  lemma {:induction false} FlushKeepsPath(s: State, t: nat, pc: FlushPc, ok: bool)
    ensures CurrentPath(FlushStep(s, t, pc, ok).store) == CurrentPath(s.store)
  {
  }

  lemma {:induction false} EditKeepsPath(s: State, t: nat, pc: EditPc, ok: bool)
    ensures CurrentPath(EditStep(s, t, pc, ok).store) == CurrentPath(s.store)
  {
  }

  lemma {:induction false} StepForgetsNone(s: State, m: Move, path: string, key: string)
    requires Inv(s) && NoCloser(s) && NoneForgotten(s.store)
    ensures Past(Step(s, m).store, path, key).pending ==> CurrentPath(Step(s, m).store) == Some(path)
    ensures Step(s, m).store.log == s.store.log + [Published(path)] ==> !Past(s.store, path, key).pending
  {
    hide Step, HistoryOf, RowsMatchLog, LogBy, InStep, Excused;
    var pc := PcOf(s, m.thread);
    StepGrowsLog(s, m);
    StepContinues(s, m, path, key);
    StepKeepsPath(s, m);
    if pc.InConfig? && pc.config.Swap? && s.store.database.Some? {
      assert FlushedOk(s.store, pc);
      assert s.store.unsaved == {};
    }
  }

  /** In a run that never closes the store no deletion is undone: a `Configure` that cannot save what is waiting gives up. */
  lemma {:induction false} OnlyCloseUndoesDeletions(clock: int, disk: map<string, Usage>, moves: seq<Move>, path: string, key: string)
    requires DAY <= clock && OnlyRecordUsage(moves) && NeverCloses(moves)
    ensures var s := Run(Init(clock, disk), moves);
            NoCloser(s) && NoneForgotten(s.store) && !Lingers(disk, s.store.log, path, key)
  {
    hide Step, HistoryOf, Inv;
    if moves == [] {
      forall p, k ensures !Past(Init(clock, disk).store, p, k).pending { StartHistory(clock, disk, p, k); }
    } else {
      var front, m := moves[..|moves| - 1], moves[|moves| - 1];
      OnlyCloseUndoesDeletions(clock, disk, front, path, key);
      RunKeepsInv(clock, disk, front);
      RunKeepsOrigin(Init(clock, disk), front);
      var s := Run(Init(clock, disk), front);
      InvThreadOk(s, m.thread);
      StepKeepsNoCloser(s, m);
      forall p, k ensures Past(Step(s, m).store, p, k).pending ==> CurrentPath(Step(s, m).store) == Some(p) {
        StepForgetsNone(s, m, p, k);
      }
      StepForgetsNone(s, m, path, key);
      StepGrowsLog(s, m);
    }
  }

  // ---------- single moves of a reachable state ----------

  /**
   A full usage write leaves the file with the live usage, which is what it had minus exactly the deletions that were
   waiting to be saved: nothing reset comes back, nothing newer is overwritten and nothing else is erased.
   */
  lemma {:induction false} FullWritesCopyTheLedger(s: State, m: Move)
    requires Inv(s)
    requires var pc := PcOf(s, m.thread);
             (pc.InFlush? && pc.flush.SaveUsage?) || (pc.InEdit? && (pc.edit.EditSave? || pc.edit.DeleteSave?))
    requires Step(s, m).store.log != s.store.log
    ensures var st' := Step(s, m).store;
            && CurrentRows(st') == Live(st') == Live(s.store) == CurrentRows(s.store) - s.store.unsaved
            && st'.unsaved == {} && st'.database.Some? && s.store.unsaved <= CurrentRows(s.store).Keys
  {
    var pc := PcOf(s, m.thread);
    assert s.persistMu == Some(m.thread);
    if pc.InFlush? {
      assert FlushHolds(s.store, pc.flush);
      SaveLiveKeeps(s.store, s.clock, pc.flush.db.value, pc.flush.snap);
    } else {
      assert EditHolds(s.store, pc.edit);
      SaveLiveKeeps(s.store, s.clock, pc.edit.db.value, pc.edit.snap);
    }
  }

  /**
   `Configure` hands over without loss: at the swap the file being left equals the live ledger, the new
   ledger equals the new file, and on the same path the live usage does not change at all.
   */
  lemma {:induction false} SwapHandsOver(s: State, m: Move)
    requires Inv(s) && PcOf(s, m.thread).InConfig? && PcOf(s, m.thread).config.Swap?
    ensures var st, st', path := s.store, Step(s, m).store, PcOf(s, m.thread).config.path;
            && Live(st') == CurrentRows(st') == Rows(st, path)
            && (st.database.Some? ==> CurrentRows(st) == Live(st))
            && (st.database.Some? && st.handles[st.database.value].path == path ==> Live(st') == Live(st))
  {
    var pc := PcOf(s, m.thread);
    assert s.persistMu == Some(m.thread);
    assert ConfigHolds(s.store, pc.config);
    assert FlushedOk(s.store, pc);
  }

  /**
   A `RecordUsage` that straddles a database swap: at its commit the captured handle is open exactly when
   it is still the store's database, and then the captured ledger is the store's; otherwise nothing changes.
   */
  lemma {:induction false} StraddlingChargeIsAllOrNothing(s: State, m: Move)
    requires Inv(s) && PcOf(s, m.thread).InCharge?
    requires var c := PcOf(s, m.thread).charge; c.Apply? && c.q.dbFirst && c.q.key != ""
    ensures var c := PcOf(s, m.thread).charge;
            && (IsOpen(s.store, c.handle) <==> s.store.database == Some(c.handle))
            && (Commits(s.store, c, m.ok) <==> Step(s, m).store != s.store)
            && (Step(s, m).store != s.store ==>
                  && c.ledger == s.store.usage
                  && PcOf(Step(s, m), m.thread).InCharge? && PcOf(Step(s, m), m.thread).charge.Publish?
                  && PcOf(Step(s, m), m.thread).charge.ledger == s.store.usage)
  {
    assert s.persistMu == Some(m.thread);
    assert Quiet(s.store);
    assert ThreadOk(s.store, PcOf(s, m.thread));
  }

  // ---------- RecordResponseCost ----------

  /** The state after the charge at `m` has committed, published and released `persistMu`. */
  function AfterCharge(s: State, m: Move): State {
    var next := m.(tick := 0);
    Step(Step(Step(s, m), next), next)
  }

  lemma {:induction false} ChargesDiffer(v: UsageValue, c: Charge)
    requires DAY <= c.at && c.delta.calls != 0
    ensures ApplyCost(v, c) != v
  {
  }

  /**
   A charge that commits keeps memory equal to the file and the file equal to its log exactly when the
   ledger it captured is still the store's. `RecordUsage` always meets this; `RecordResponseCost`, which
   captures the ledger first, does not when a `Configure` runs between its two reads.
   */
  lemma {:induction false} CommitIsSoundIffLedgerIsCurrent(s: State, m: Move)
    requires Inv(s) && PcOf(s, m.thread).InCharge?
    requires var c := PcOf(s, m.thread).charge;
             c.Apply? && c.q.delta.calls != 0 && Commits(s.store, c, m.ok)
    ensures var s' := AfterCharge(s, m);
            && s'.persistMu.None?
            && (InStep(s'.store) && RowsMatchLog(s'.store) <==> PcOf(s, m.thread).charge.ledger == s.store.usage)
  {
    var c := PcOf(s, m.thread).charge;
    assert Quiet(s.store) && Base(s.store);
    ChargeFinishes(s, m);
    if c.ledger == s.store.usage { CurrentChargeKeepsInv(s, m); }
    else { StaleChargeBreaks(s.store, c.q, c.handle, c.ledger, c.at); }
  }

  /** What an unimpeded charge leaves behind. */
  lemma {:induction false} ChargeFinishes(s: State, m: Move)
    requires PcOf(s, m.thread).InCharge?
    requires var c := PcOf(s, m.thread).charge; c.Apply? && Commits(s.store, c, m.ok)
    ensures var c, s' := PcOf(s, m.thread).charge, AfterCharge(s, m);
            var state := StateAfter(LedgerOf(s.store, c.ledger), c.q, c.at);
            var st1 := SaveRow(s.store, c.handle, c.q.key, state, ChargeOf(c.q, c.at));
            && s'.persistMu.None? && PcOf(s', m.thread) == Idle
            && s'.store == SetLedger(st1, c.ledger, LedgerOf(st1, c.ledger)[c.q.key := state])
  {
    hide SaveRow, SetLedger, LedgerOf, StateAfter;
  }

  lemma {:induction false} CurrentChargeKeepsInv(s: State, m: Move)
    requires Inv(s) && PcOf(s, m.thread).InCharge?
    requires var c := PcOf(s, m.thread).charge; c.Apply? && Commits(s.store, c, m.ok) && c.ledger == s.store.usage
    ensures Inv(AfterCharge(s, m)) && AfterCharge(s, m).persistMu.None?
  {
    hide Inv;
    var next := m.(tick := 0);
    ChargeFinishes(s, m);
    StepKeepsInv(s, m);
    StepKeepsInv(Step(s, m), next);
    StepKeepsInv(Step(Step(s, m), next), next);
  }

  lemma {:induction false} StaleChargeBreaks(st: Store, q: Request, handle: nat, ledger: nat, at: int)
    requires Base(st) && Quiet(st) && RowsMatchLog(st) && PendingMatches(st) && IsOpen(st, handle)
    requires ledger != st.usage && DAY <= at && q.delta.calls != 0
    ensures var state := StateAfter(LedgerOf(st, ledger), q, at);
            var st1 := SaveRow(st, handle, q.key, state, ChargeOf(q, at));
            var st2 := SetLedger(st1, ledger, LedgerOf(st1, ledger)[q.key := state]);
            !(InStep(st2) && RowsMatchLog(st2))
  {
    var state, c, path := StateAfter(LedgerOf(st, ledger), q, at), ChargeOf(q, at), st.handles[handle].path;
    var st1 := SaveRow(st, handle, q.key, state, c);
    var st2 := SetLedger(st1, ledger, LedgerOf(st1, ledger)[q.key := state]);
    assert Live(st2) == Live(st);
    if InStep(st2) && RowMatches(st2, path, q.key) {
      UnchangedLiveRow(st, handle, st2, q.key, state);
      assert RowMatches(st, path, q.key) && CurrentPath(st) == Some(path);
      OneMoreEntry(st, st2, Charged(path, q.key, c), path, q.key);
      ChargedHistory(Past(st, path, q.key), c, path, q.key);
      ChargesDiffer(Past(st, path, q.key).Value(), c);
      assert false;
    }
  }

  /** If memory still agrees with the file after a row was written under it, the row is the one memory had. */
  lemma {:induction false} UnchangedLiveRow(st: Store, handle: nat, st2: Store, key: string, state: UsageValue)
    requires Base(st) && Quiet(st) && IsOpen(st, handle) && Live(st2) == Live(st) && InStep(st2)
    requires st2.database == st.database && st2.handles == st.handles && st2.unsaved == st.unsaved - {key}
    requires st2.files == st.files[st.handles[handle].path := Rows(st, st.handles[handle].path)[key := state]]
    ensures key !in st.unsaved && key in Rows(st, st.handles[handle].path)
    ensures Rows(st, st.handles[handle].path)[key] == state
  {
    assert CurrentRows(st2)[key] == state;
    assert key in Live(st2);
  }
}
