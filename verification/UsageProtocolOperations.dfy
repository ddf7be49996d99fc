/**
 What each operation of the usage protocol does when its thread runs alone: the whole state it leaves behind, with files,
 ledgers, handles and log spelled out, for every outcome the environment may choose. The clock may advance at any move.
 */
module UsageProtocolOperations {
  import opened Wrappers
  import opened UsageWindows
  import opened UsageProtocol
  import opened UsageProtocolSafety

  /** Moves of one thread, which begins `op` when it is idle. */
  ghost predicate Alone(moves: seq<Move>, t: nat, op: Op) {
    forall i :: 0 <= i < |moves| ==> moves[i].thread == t && moves[i].op == op
  }

  function Ticks(moves: seq<Move>): nat {
    if moves == [] then 0 else Ticks(moves[..|moves| - 1]) + moves[|moves| - 1].tick
  }

  /** Both locks are free, the thread is idle, the database is open if there is one. */
  ghost predicate Ready(s: State, t: nat) {
    && s.updateMu.None? && s.persistMu.None? && PcOf(s, t) == Idle && s.store.usage < |s.store.ledgers|
    && (s.store.database.Some? ==> IsOpen(s.store, s.store.database.value))
  }

  /** Time has passed, the thread is at `pc` and the store is `st`; nothing else is different. */
  function Reached(s: State, t: nat, moves: seq<Move>, pc: Pc, st: Store): State {
    s.(clock := s.clock + Ticks(moves), threads := s.threads[t := pc], store := st)
  }

  /** The file of the open database. */
  function Path(st: Store): string
    requires st.database.Some? && st.database.value < |st.handles|
  {
    st.handles[st.database.value].path
  }

  lemma {:induction false} OneMove(s: State, moves: seq<Move>, k: nat)
    requires k < |moves|
    ensures Run(s, moves[..k + 1]) == Step(Run(s, moves[..k]), moves[k])
    ensures Ticks(moves[..k + 1]) == Ticks(moves[..k]) + moves[k].tick
  {
    hide Step;
    assert moves[..k + 1][..k] == moves[..k];
  }

  lemma {:induction false} NoMove(s: State, moves: seq<Move>)
    ensures Run(s, moves[..0]) == s && Ticks(moves[..0]) == 0 && moves[..|moves|] == moves
  {
  }

  // ---------- both locks ----------

  predicate UnderBothLocks(op: Op) { op.Resetting? || op.Deleting? || op.Editing? }

  /** Three moves take both locks. */
  lemma {:induction false} LocksAreTaken(s: State, t: nat, op: Op, moves: seq<Move>)
    requires Ready(s, t) && UnderBothLocks(op) && Alone(moves, t, op) && |moves| >= 3
    ensures Run(s, moves[..3])
         == Reached(s, t, moves[..3], Entered(op), s.store).(updateMu := Some(t), persistMu := Some(t))
  {
    hide ChargeStep, FlushStep, ConfigStep, CloseStep, Run, Ticks;
    NoMove(s, moves);
    OneMove(s, moves, 0);
    assert Run(s, moves[..1]) == Reached(s, t, moves[..1], InEdit(WaitToUpdate(op)), s.store);
    OneMove(s, moves, 1);
    assert Run(s, moves[..2]) == Reached(s, t, moves[..2], InEdit(WaitToPersist(op)), s.store).(updateMu := Some(t));
    OneMove(s, moves, 2);
  }

  /** Two moves let go of them. */
  lemma {:induction false} LocksAreFreed(s: State, t: nat, op: Op, moves: seq<Move>, n: nat, st: Store)
    requires Ready(s, t) && Alone(moves, t, op) && |moves| == n + 2
    requires Run(s, moves[..n])
          == Reached(s, t, moves[..n], Unlock(UnlockUpdate), st).(updateMu := Some(t), persistMu := Some(t))
    ensures Run(s, moves) == Reached(s, t, moves, Idle, st)
  {
    hide ChargeStep, FlushStep, EditStep, ConfigStep, CloseStep, Run, Ticks;
    NoMove(s, moves);
    OneMove(s, moves, n);
    OneMove(s, moves, n + 1);
  }

  // ---------- ResetAllUsage ----------

  /** A reset empties the file and the ledger and is logged; without a database it empties the ledger. */
  lemma {:induction false} ResetCompletes(s: State, t: nat, moves: seq<Move>)
    requires Ready(s, t) && Alone(moves, t, Resetting) && |moves| == 8 && (s.store.database.Some? ==> moves[4].ok)
    ensures var st := s.store;
            var emptied := st.(ledgers := st.ledgers[st.usage := map[]]);
            Run(s, moves) == Reached(s, t, moves, Idle,
              if st.database.None? then emptied
              else emptied.(files := st.files[Path(st) := map[]], log := st.log + [Emptied(Path(st))],
                            unsaved := {}, deleteFailed := false))
    ensures Live(Run(s, moves).store) == CurrentRows(Run(s, moves).store) == map[]
  {
    hide ChargeStep, FlushStep, ConfigStep, CloseStep, Run, Ticks;
    LocksAreTaken(s, t, Resetting, moves);
    OneMove(s, moves, 3);
    OneMove(s, moves, 4);
    OneMove(s, moves, 5);
    LocksAreFreed(s, t, Resetting, moves, 6, Run(s, moves[..6]).store);
  }

  /** A reset that cannot be saved changes neither. */
  lemma {:induction false} ResetGivesUp(s: State, t: nat, moves: seq<Move>)
    requires Ready(s, t) && Alone(moves, t, Resetting) && |moves| == 7 && s.store.database.Some? && !moves[4].ok
    ensures Run(s, moves) == Reached(s, t, moves, Idle, s.store)
  {
    hide ChargeStep, FlushStep, ConfigStep, CloseStep, Run, Ticks;
    LocksAreTaken(s, t, Resetting, moves);
    OneMove(s, moves, 3);
    OneMove(s, moves, 4);
    LocksAreFreed(s, t, Resetting, moves, 5, s.store);
  }

  // ---------- DeleteKey ----------

  /** The ledger without the key; the log says so if there is a file, and the key is remembered if that still has it. */
  function Forgetting(st: Store, key: string): Store
    requires st.usage < |st.ledgers| && (st.database.Some? ==> st.database.value < |st.handles|)
  {
    var left := st.(ledgers := st.ledgers[st.usage := Live(st) - {key}]);
    if st.database.None? then left
    else left.(log := st.log + [Dropped(Path(st), key)],
               unsaved := if key in Live(st) then st.unsaved + {key} else st.unsaved)
  }

  lemma {:induction false} DeletionForgets(s: State, t: nat, key: string, moves: seq<Move>)
    requires Ready(s, t) && Alone(moves, t, Deleting(key)) && |moves| >= 5 && moves[3].ok
    ensures Run(s, moves[..5])
         == Reached(s, t, moves[..5], InEdit(DeleteSave(Live(s.store) - {key}, s.store.database)), Forgetting(s.store, key))
            .(updateMu := Some(t), persistMu := Some(t))
  {
    hide ChargeStep, FlushStep, ConfigStep, CloseStep, Run, Ticks;
    LocksAreTaken(s, t, Deleting(key), moves);
    OneMove(s, moves, 3);
    OneMove(s, moves, 4);
    assert forall st: Store :: st.unsaved + {} == st.unsaved;
  }

  /** A deletion takes the key out of the ledger, and the ledger into the file. */
  lemma {:induction false} DeletionCompletes(s: State, t: nat, key: string, moves: seq<Move>)
    requires Ready(s, t) && Alone(moves, t, Deleting(key)) && |moves| == 8
    requires s.store.database.Some? && moves[3].ok && moves[5].ok
    ensures var st, left := s.store, Live(s.store) - {key};
            Run(s, moves) == Reached(s, t, moves, Idle,
              st.(ledgers := st.ledgers[st.usage := left], files := st.files[Path(st) := left],
                  log := st.log + [Dropped(Path(st), key), Written(Path(st))], unsaved := {}, deleteFailed := false))
  {
    hide ChargeStep, FlushStep, ConfigStep, CloseStep, Run, Ticks;
    var op, st, left := Deleting(key), s.store, Live(s.store) - {key};
    DeletionForgets(s, t, key, moves);
    OneMove(s, moves, 5);
    var after := st.(ledgers := st.ledgers[st.usage := left], files := st.files[Path(st) := left],
                     log := st.log + [Dropped(Path(st), key)] + [Written(Path(st))], unsaved := {}, deleteFailed := false);
    assert after.log == st.log + [Dropped(Path(st), key), Written(Path(st))];
    LocksAreFreed(s, t, op, moves, 6, after);
  }

  /** One that cannot be saved does so in memory only, and that is remembered. */
  lemma {:induction false} DeletionIsNotSaved(s: State, t: nat, key: string, moves: seq<Move>)
    requires Ready(s, t) && Alone(moves, t, Deleting(key)) && |moves| == 8
    requires moves[3].ok && (s.store.database.None? || !moves[5].ok)
    ensures var st := s.store;
            Run(s, moves) == Reached(s, t, moves, Idle, Forgetting(st, key).(deleteFailed := true))
  {
    hide ChargeStep, FlushStep, ConfigStep, CloseStep, Run, Ticks;
    DeletionForgets(s, t, key, moves);
    OneMove(s, moves, 5);
    LocksAreFreed(s, t, Deleting(key), moves, 6, Run(s, moves[..6]).store);
  }

  /** An edit or a deletion that is refused changes nothing. */
  lemma {:induction false} RefusalChangesNothing(s: State, t: nat, op: Op, moves: seq<Move>)
    requires Ready(s, t) && (op.Deleting? || op.Editing?) && Alone(moves, t, op) && |moves| == 6 && !moves[3].ok
    ensures Run(s, moves) == Reached(s, t, moves, Idle, s.store)
  {
    hide ChargeStep, FlushStep, ConfigStep, CloseStep, Run, Ticks;
    LocksAreTaken(s, t, op, moves);
    OneMove(s, moves, 3);
    LocksAreFreed(s, t, op, moves, 4, s.store);
  }

  // ---------- edits and flushes ----------

  /** The file holds the live ledger. */
  function Flushed(st: Store): Store
    requires st.database.Some? && st.database.value < |st.handles|
  {
    st.(files := st.files[Path(st) := Live(st)], log := st.log + [Written(Path(st))], unsaved := {}, deleteFailed := false)
  }

  /** An edit writes the live ledger into the file, or changes nothing if that fails. */
  lemma {:induction false} EditCompletes(s: State, t: nat, moves: seq<Move>)
    requires Ready(s, t) && Alone(moves, t, Editing) && |moves| == 7 && moves[3].ok
    ensures Run(s, moves) == Reached(s, t, moves, Idle,
              if s.store.database.Some? && moves[4].ok then Flushed(s.store) else s.store)
  {
    hide ChargeStep, FlushStep, ConfigStep, CloseStep, Run, Ticks;
    LocksAreTaken(s, t, Editing, moves);
    OneMove(s, moves, 3);
    OneMove(s, moves, 4);
    LocksAreFreed(s, t, Editing, moves, 5, Run(s, moves[..5]).store);
  }

  /** From waiting for `persistMu` to letting go of it: the live ledger is in the file, or nothing has changed. */
  lemma {:induction false} FlushRound(s: State, t: nat, op: Op, moves: seq<Move>, n: nat, ret: Return, held: Option<nat>)
    requires Alone(moves, t, op) && |moves| >= n + 4 && s.persistMu.None?
    requires s.store.database.Some? ==> IsOpen(s.store, s.store.database.value)
    requires Run(s, moves[..n]) == Reached(s, t, moves[..n], InFlush(WaitToFlush(ret)), s.store).(updateMu := held)
    ensures var db := s.store.database;
            Run(s, moves[..n + 4])
            == Reached(s, t, moves[..n + 4], AfterFlush(ret, db.None? || moves[n + 2].ok),
                       if db.Some? && moves[n + 2].ok then Flushed(s.store) else s.store).(updateMu := held)
  {
    hide ChargeStep, FlushStep, EditStep, ConfigStep, CloseStep, Run, Ticks, AfterFlush, Flushed;
    FlushTakesItsSnapshot(s, t, op, moves, n, ret, held);
    FlushSaves(s, t, op, moves, n, ret, held);
    OneMove(s, moves, n + 3);
  }

  lemma {:induction false} FlushSaves(s: State, t: nat, op: Op, moves: seq<Move>, n: nat, ret: Return, held: Option<nat>)
    requires Alone(moves, t, op) && |moves| >= n + 3
    requires s.store.database.Some? ==> IsOpen(s.store, s.store.database.value)
    requires Run(s, moves[..n + 2])
          == Reached(s, t, moves[..n + 2], InFlush(SaveUsage(ret, Live(s.store), s.store.database)), s.store)
             .(updateMu := held, persistMu := Some(t))
    ensures var db := s.store.database;
            Run(s, moves[..n + 3])
            == Reached(s, t, moves[..n + 3], Unlock(AfterFlush(ret, db.None? || moves[n + 2].ok)),
                       if db.Some? && moves[n + 2].ok then Flushed(s.store) else s.store).(updateMu := held, persistMu := Some(t))
  {
    hide ChargeStep, EditStep, ConfigStep, CloseStep, Run, Ticks, AfterFlush;
    OneMove(s, moves, n + 2);
  }

  lemma {:induction false} FlushTakesItsSnapshot(s: State, t: nat, op: Op, moves: seq<Move>, n: nat, ret: Return, held: Option<nat>)
    requires Alone(moves, t, op) && |moves| >= n + 2 && s.persistMu.None?
    requires Run(s, moves[..n]) == Reached(s, t, moves[..n], InFlush(WaitToFlush(ret)), s.store).(updateMu := held)
    ensures Run(s, moves[..n + 2])
         == Reached(s, t, moves[..n + 2], InFlush(SaveUsage(ret, Live(s.store), s.store.database)), s.store)
            .(updateMu := held, persistMu := Some(t))
  {
    hide ChargeStep, EditStep, ConfigStep, CloseStep, Run, Ticks;
    OneMove(s, moves, n);
    OneMove(s, moves, n + 1);
  }

  /** A flush does the same. */
  lemma {:induction false} FlushCompletes(s: State, t: nat, moves: seq<Move>)
    requires Ready(s, t) && Alone(moves, t, Flushing) && |moves| == 5
    ensures Run(s, moves) == Reached(s, t, moves, Idle,
              if s.store.database.Some? && moves[3].ok then Flushed(s.store) else s.store)
  {
    hide ChargeStep, FlushStep, EditStep, ConfigStep, CloseStep, Run, Ticks, Flushed;
    NoMove(s, moves);
    OneMove(s, moves, 0);
    FlushRound(s, t, Flushing, moves, 1, ToCaller, None);
  }

  // ---------- charges ----------

  /** What `RecordUsage` and `RecordResponseCost` have captured once they hold `persistMu` and have read the clock. */
  lemma {:induction false} ChargeIsDated(s: State, t: nat, q: Request, moves: seq<Move>)
    requires Ready(s, t) && Alone(moves, t, Charging(q)) && |moves| >= 5 && s.store.database.Some?
    ensures Run(s, moves[..5])
         == Reached(s, t, moves[..5], InCharge(Apply(q, s.store.database.value, s.store.usage, s.clock + Ticks(moves[..5]))), s.store)
            .(persistMu := Some(t))
  {
    hide FlushStep, EditStep, ConfigStep, CloseStep, Run, Ticks;
    ChargeCaptures(s, t, q, moves);
    OneMove(s, moves, 3);
    OneMove(s, moves, 4);
  }

  lemma {:induction false} ChargeCaptures(s: State, t: nat, q: Request, moves: seq<Move>)
    requires Ready(s, t) && Alone(moves, t, Charging(q)) && |moves| >= 3
    ensures Run(s, moves[..3]) == Reached(s, t, moves[..3], InCharge(WaitToCharge(q, s.store.database, s.store.usage)), s.store)
  {
    hide FlushStep, EditStep, ConfigStep, CloseStep, Run, Ticks;
    NoMove(s, moves);
    OneMove(s, moves, 0);
    if q.dbFirst {
      assert Run(s, moves[..1]) == Reached(s, t, moves[..1], InCharge(ReadDatabase(q)), s.store);
      OneMove(s, moves, 1);
      OneMove(s, moves, 2);
    } else {
      assert Run(s, moves[..1]) == Reached(s, t, moves[..1], InCharge(ReadLedgerFirst(q)), s.store);
      OneMove(s, moves, 1);
      OneMove(s, moves, 2);
    }
  }

  /**
   A charge that commits replaces the key's entry in ledger and file by what the live entry becomes with this model and
   these amounts at the time the clock showed, and logs just that; all other keys, files and ledgers stay.
   */
  lemma {:induction false} ChargeCompletes(s: State, t: nat, q: Request, moves: seq<Move>)
    requires Ready(s, t) && Alone(moves, t, Charging(q)) && |moves| == 8
    requires s.store.database.Some? && q.key != "" && moves[5].ok
    ensures var st, c := s.store, Charge(s.clock + Ticks(moves[..5]), q.model, q.delta);
            var state := ApplyCost(if q.key in Live(st) then Live(st)[q.key] else EMPTY, c);
            Run(s, moves) == Reached(s, t, moves, Idle,
              st.(ledgers := st.ledgers[st.usage := Live(st)[q.key := state]],
                  files := st.files[Path(st) := CurrentRows(st)[q.key := state]],
                  log := st.log + [Charged(Path(st), q.key, c)], unsaved := st.unsaved - {q.key}))
  {
    hide FlushStep, EditStep, ConfigStep, CloseStep, Run, Ticks, ApplyCost;
    NoMove(s, moves);
    ChargeIsDated(s, t, q, moves);
    OneMove(s, moves, 5);
    OneMove(s, moves, 6);
    OneMove(s, moves, 7);
  }

  /** A charge that does not commit, for a nameless key, or without a database changes nothing. */
  lemma {:induction false} ChargeIsDropped(s: State, t: nat, q: Request, moves: seq<Move>)
    requires Ready(s, t) && Alone(moves, t, Charging(q))
    requires if s.store.database.Some? then |moves| == 7 && (q.key == "" || !moves[5].ok) else |moves| == 4
    ensures Run(s, moves) == Reached(s, t, moves, Idle, s.store)
  {
    hide FlushStep, EditStep, ConfigStep, CloseStep, Run, Ticks, ApplyCost;
    NoMove(s, moves);
    if s.store.database.Some? {
      ChargeIsDated(s, t, q, moves);
      OneMove(s, moves, 5);
      OneMove(s, moves, 6);
    } else {
      ChargeCaptures(s, t, q, moves);
      OneMove(s, moves, 3);
    }
  }

  // ---------- the background flusher ----------

  /** A started flusher loops. */
  lemma {:induction false} FlusherStarts(s: State, m: Move)
    requires PcOf(s, m.thread) == Idle && m.op.StartFlusher?
    ensures Step(s, m) == if s.flusher.None? && m.op.worker !in s.threads && m.op.worker != m.thread
                          then s.(clock := s.clock + m.tick, flusher := Some(m.op.worker),
                                  threads := s.threads[m.op.worker := InFlush(FlusherLoop)])
                          else s.(clock := s.clock + m.tick)
  {
  }

  /** Unless it is stopped, a round of the flusher writes the live ledger into the file. */
  lemma {:induction false} FlusherFlushes(s: State, t: nat, op: Op, moves: seq<Move>)
    requires PcOf(s, t) == InFlush(FlusherLoop) && s.persistMu.None? && Alone(moves, t, op) && |moves| == 5
    requires s.store.database.Some? ==> IsOpen(s.store, s.store.database.value)
    requires t in s.stopped ==> !moves[0].ok
    ensures Run(s, moves) == Reached(s, t, moves, InFlush(FlusherLoop),
              if s.store.database.Some? && moves[3].ok then Flushed(s.store) else s.store)
  {
    hide ChargeStep, EditStep, ConfigStep, CloseStep, Run, Ticks, Flushed;
    NoMove(s, moves);
    OneMove(s, moves, 0);
    FlushRound(s, t, op, moves, 1, ToFlusher, s.updateMu);
  }

  /** Whoever stops the flusher takes it out of the store, waits until it is done, and goes on to the last flush. */
  lemma {:induction false} FlusherIsJoined(s: State, t: nat, worker: nat, ret: Return, stop: Move, notice: Move, join: Move)
    requires PcOf(s, t) == InFlush(TakeFlusher(ret)) && s.flusher == Some(worker) && worker != t
    requires PcOf(s, worker) == InFlush(FlusherLoop)
    requires stop.thread == join.thread == t && notice.thread == worker && notice.ok
    ensures var early := Step(Step(s, stop), join);
            PcOf(early, t) == InFlush(Join(worker, ret)) && early.store == s.store
    ensures Step(Step(Step(s, stop), notice), join)
         == s.(clock := s.clock + stop.tick + notice.tick + join.tick, flusher := None, stopped := s.stopped + {worker},
               threads := s.threads[worker := InFlush(FlusherDone)][t := InFlush(WaitToFlush(ret))])
  {
    hide ChargeStep, EditStep, ConfigStep, CloseStep;
  }

  // ---------- Close ----------

  function Closed(handles: seq<Handle>, db: Option<nat>): seq<Handle> {
    if db.Some? && db.value < |handles| then handles[db.value := handles[db.value].(open := false)] else handles
  }

  /** With no flusher left, `Close` flushes, and detaches and closes the database even if the flush has failed. */
  lemma {:induction false} CloseCompletes(s: State, t: nat, moves: seq<Move>)
    requires Ready(s, t) && s.flusher.None? && Alone(moves, t, Closing) && |moves| == 10
    ensures var st := s.store;
            var last := if st.database.Some? && moves[4].ok then Flushed(st) else st;
            Run(s, moves) == Reached(s, t, moves, Idle, last.(database := None, handles := Closed(st.handles, st.database)))
  {
    hide Step, Run, Ticks;
    var st := s.store;
    CloseFlushesFirst(s, t, moves);
    CloseDetaches(s, t, moves, if st.database.Some? && moves[4].ok then Flushed(st) else st);
  }

  lemma {:induction false} CloseDetaches(s: State, t: nat, moves: seq<Move>, st: Store)
    requires Ready(s, t) && Alone(moves, t, Closing) && |moves| == 10
    requires Run(s, moves[..6]) == Reached(s, t, moves[..6], InClose(WaitToClose), st)
    ensures Run(s, moves) == Reached(s, t, moves, Idle, st.(database := None, handles := Closed(st.handles, st.database)))
  {
    hide ChargeStep, FlushStep, EditStep, ConfigStep, Run, Ticks;
    CloseDetachesFirst(s, t, moves, st);
    NoMove(s, moves);
    OneMove(s, moves, 8);
    OneMove(s, moves, 9);
  }

  lemma {:induction false} CloseDetachesFirst(s: State, t: nat, moves: seq<Move>, st: Store)
    requires s.persistMu.None? && Alone(moves, t, Closing) && |moves| >= 8
    requires Run(s, moves[..6]) == Reached(s, t, moves[..6], InClose(WaitToClose), st)
    ensures Run(s, moves[..8])
         == Reached(s, t, moves[..8], InClose(CloseDetached(st.database)), st.(database := None)).(persistMu := Some(t))
  {
    hide ChargeStep, FlushStep, EditStep, ConfigStep, Run, Ticks;
    OneMove(s, moves, 6);
    OneMove(s, moves, 7);
  }

  lemma {:induction false} CloseFlushesFirst(s: State, t: nat, moves: seq<Move>)
    requires Ready(s, t) && s.flusher.None? && Alone(moves, t, Closing) && |moves| >= 6
    ensures Run(s, moves[..6])
         == Reached(s, t, moves[..6], InClose(WaitToClose),
                    if s.store.database.Some? && moves[4].ok then Flushed(s.store) else s.store)
  {
    hide ChargeStep, EditStep, ConfigStep, CloseStep, Run, Ticks, Flushed;
    NoMove(s, moves);
    OneMove(s, moves, 0);
    OneMove(s, moves, 1);
    FlushRound(s, t, Closing, moves, 2, ToClose, None);
  }

  // ---------- Configure ----------

  /** `Configure` has flushed the previous database and holds `updateMu` only. */
  lemma {:induction false} ConfigureFlushesFirst(s: State, t: nat, path: string, moves: seq<Move>)
    requires Ready(s, t) && s.flusher.None? && Alone(moves, t, Configuring(path)) && |moves| >= 7
    requires s.store.database.Some? ==> moves[5].ok
    ensures Run(s, moves[..7])
         == Reached(s, t, moves[..7], InEdit(WaitToPersist(Configuring(path))),
                    if s.store.database.Some? then Flushed(s.store) else s.store).(updateMu := Some(t))
  {
    hide Step, Run, Ticks, Flushed;
    ConfigureReachesItsFlush(s, t, path, moves);
    FlushRound(s, t, Configuring(path), moves, 3, ToConfigure(path), Some(t));
  }

  lemma {:induction false} ConfigureReachesItsFlush(s: State, t: nat, path: string, moves: seq<Move>)
    requires Ready(s, t) && s.flusher.None? && Alone(moves, t, Configuring(path)) && |moves| >= 3
    ensures Run(s, moves[..3])
         == Reached(s, t, moves[..3], InFlush(WaitToFlush(ToConfigure(path))), s.store).(updateMu := Some(t))
  {
    hide ChargeStep, ConfigStep, CloseStep, Run, Ticks;
    NoMove(s, moves);
    OneMove(s, moves, 0);
    OneMove(s, moves, 1);
    OneMove(s, moves, 2);
  }

  /** If that flush fails nothing has changed. */
  lemma {:induction false} ConfigureNeedsItsFlush(s: State, t: nat, path: string, moves: seq<Move>)
    requires Ready(s, t) && s.flusher.None? && Alone(moves, t, Configuring(path)) && |moves| == 8
    requires s.store.database.Some? && !moves[5].ok
    ensures Run(s, moves) == Reached(s, t, moves, Idle, s.store)
  {
    hide ChargeStep, ConfigStep, CloseStep, Run, Ticks;
    ConfigureReachesItsFlush(s, t, path, moves);
    FlushRound(s, t, Configuring(path), moves, 3, ToConfigure(path), Some(t));
    OneMove(s, moves, 7);
    NoMove(s, moves);
  }

  /** What a successful `Configure` makes of the flushed store: a new handle on the path, and a new ledger holding its rows. */
  function Reconfigured(st: Store, path: string): Store {
    var handle, ledger := |st.handles|, |st.ledgers|;
    st.(database := Some(handle), usage := ledger,
        handles := Closed(st.handles + [Handle(path, true)], st.database), ledgers := st.ledgers + [Rows(st, path)],
        files := st.files[path := Rows(st, path)], published := st.published + {handle},
        log := st.log + [Published(path)], unsaved := {}, deleteFailed := false)
  }

  lemma {:induction false} ConfigureSucceeds(s: State, t: nat, path: string, moves: seq<Move>)
    requires Ready(s, t) && s.flusher.None? && Alone(moves, t, Configuring(path)) && |moves| == 16
    requires forall i :: 5 <= i < 12 ==> moves[i].ok
    ensures Run(s, moves) == Reached(s, t, moves, Idle,
              Reconfigured(if s.store.database.Some? then Flushed(s.store) else s.store, path))
  {
    hide ChargeStep, FlushStep, EditStep, CloseStep, Run, Ticks;
    var st := if s.store.database.Some? then Flushed(s.store) else s.store;
    ConfigureFlushesFirst(s, t, path, moves);
    ConfigureOpens(s, t, path, moves, st);
    ConfigureLoads(s, t, path, moves, st);
    ConfigureSeeds(s, t, path, moves, st);
    ConfigurePublishes(s, t, path, moves, st);
  }

  lemma {:induction false} ConfigurePublishes(s: State, t: nat, path: string, moves: seq<Move>, st: Store)
    requires Ready(s, t) && Alone(moves, t, Configuring(path)) && |moves| == 16 && moves[11].ok
    requires Configured(s, t, moves[..11], Backfill(path, |st.handles|, |st.ledgers|), WithFile(st, path))
    ensures Run(s, moves) == Reached(s, t, moves, Idle, Reconfigured(st, path))
  {
    hide ChargeStep, FlushStep, EditStep, CloseStep, Run, Ticks;
    OneMove(s, moves, 11);
    OneMove(s, moves, 12);
    OneMove(s, moves, 13);
    LocksAreFreed(s, t, Configuring(path), moves, 14, Reconfigured(st, path));
  }

  /** `Configure` holds both locks and is at `pc` with the store `st`. */
  ghost predicate Configured(s: State, t: nat, moves: seq<Move>, pc: ConfigPc, st: Store) {
    Run(s, moves) == Reached(s, t, moves, InConfig(pc), st).(updateMu := Some(t), persistMu := Some(t))
  }

  function WithHandle(st: Store, path: string): Store { st.(handles := st.handles + [Handle(path, true)]) }

  function WithLedger(st: Store, path: string): Store { WithHandle(st, path).(ledgers := st.ledgers + [Rows(st, path)]) }

  function WithFile(st: Store, path: string): Store { WithLedger(st, path).(files := st.files[path := Rows(st, path)]) }

  lemma {:induction false} ConfigureOpens(s: State, t: nat, path: string, moves: seq<Move>, st: Store)
    requires Ready(s, t) && Alone(moves, t, Configuring(path)) && |moves| >= 9 && moves[8].ok
    requires Run(s, moves[..7]) == Reached(s, t, moves[..7], InEdit(WaitToPersist(Configuring(path))), st).(updateMu := Some(t))
    ensures Configured(s, t, moves[..9], Load(path, |st.handles|), WithHandle(st, path))
  {
    hide ChargeStep, FlushStep, CloseStep, Run, Ticks;
    OneMove(s, moves, 7);
    OneMove(s, moves, 8);
  }

  lemma {:induction false} ConfigureLoads(s: State, t: nat, path: string, moves: seq<Move>, st: Store)
    requires Alone(moves, t, Configuring(path)) && |moves| >= 10 && moves[9].ok
    requires Configured(s, t, moves[..9], Load(path, |st.handles|), WithHandle(st, path))
    ensures Configured(s, t, moves[..10], Seed(path, |st.handles|, |st.ledgers|), WithLedger(st, path))
  {
    hide ChargeStep, FlushStep, EditStep, CloseStep, Run, Ticks;
    OneMove(s, moves, 9);
  }

  lemma {:induction false} ConfigureSeeds(s: State, t: nat, path: string, moves: seq<Move>, st: Store)
    requires Alone(moves, t, Configuring(path)) && |moves| >= 11 && moves[10].ok
    requires Configured(s, t, moves[..10], Seed(path, |st.handles|, |st.ledgers|), WithLedger(st, path))
    ensures Configured(s, t, moves[..11], Backfill(path, |st.handles|, |st.ledgers|), WithFile(st, path))
  {
    hide ChargeStep, FlushStep, EditStep, CloseStep, Run, Ticks;
    OneMove(s, moves, 10);
  }

  /** A load, save or backfill that fails leads to closing the new handle. */
  lemma {:induction false} ConfigureFails(s: State, t: nat, op: Op, moves: seq<Move>, k: nat, pc: ConfigPc, st: Store)
    requires Alone(moves, t, op) && |moves| == k + 4 && !moves[k].ok && (pc.Load? || pc.Seed? || pc.Backfill?)
    requires Ready(s, t) && Configured(s, t, moves[..k], pc, st)
    ensures Run(s, moves) == Reached(s, t, moves, Idle, st.(handles := Closed(st.handles, Some(pc.handle))))
  {
    hide ChargeStep, FlushStep, EditStep, CloseStep, Run, Ticks;
    OneMove(s, moves, k);
    OneMove(s, moves, k + 1);
    LocksAreFreed(s, t, op, moves, k + 2, st.(handles := Closed(st.handles, Some(pc.handle))));
  }

  /**
   A `Configure` that opens the next file but cannot load it, save into it or backfill it, failing at the move `fails`,
   closes it again; store, ledgers in use and rows are those of the flush.
   */
  lemma {:induction false} ConfigureAbandons(s: State, t: nat, path: string, moves: seq<Move>, fails: nat)
    requires Ready(s, t) && s.flusher.None? && Alone(moves, t, Configuring(path))
    requires 9 <= fails < 12 && |moves| == fails + 4 && !moves[fails].ok && forall i :: 5 <= i < fails ==> moves[i].ok
    ensures var st := if s.store.database.Some? then Flushed(s.store) else s.store;
            Run(s, moves) == Reached(s, t, moves, Idle, Abandoned(st, path, fails))
  {
    hide Step, Run, Ticks, Flushed, Closed;
    var st := if s.store.database.Some? then Flushed(s.store) else s.store;
    ConfigureFlushesFirst(s, t, path, moves);
    ConfigureOpens(s, t, path, moves, st);
    NewHandleIsClosed(st, path);
    if fails == 9 {
      ConfigureFails(s, t, Configuring(path), moves, fails, Load(path, |st.handles|), WithHandle(st, path));
      return;
    }
    ConfigureLoads(s, t, path, moves, st);
    if fails == 10 {
      ConfigureFails(s, t, Configuring(path), moves, fails, Seed(path, |st.handles|, |st.ledgers|), WithLedger(st, path));
      return;
    }
    ConfigureSeeds(s, t, path, moves, st);
    ConfigureFails(s, t, Configuring(path), moves, fails, Backfill(path, |st.handles|, |st.ledgers|), WithFile(st, path));
  }

  lemma {:induction false} NewHandleIsClosed(st: Store, path: string)
    ensures Closed(st.handles + [Handle(path, true)], Some(|st.handles|)) == st.handles + [Handle(path, false)]
  {
  }

  /** What was loaded and written back changes no row and is not in use. */
  lemma {:induction false} AbandonedIsUnused(st: Store, path: string, fails: nat)
    requires st.usage < |st.ledgers|
    ensures var st' := Abandoned(st, path, fails);
            && st'.database == st.database && st'.usage == st.usage && Live(st') == Live(st)
            && forall other :: Rows(st', other) == Rows(st, other)
  {
  }

  /** The new handle is closed; a ledger that was loaded is not used. */
  function Abandoned(st: Store, path: string, fails: nat): Store {
    st.(handles := st.handles + [Handle(path, false)],
        ledgers := if fails > 9 then st.ledgers + [Rows(st, path)] else st.ledgers,
        files := if fails > 10 then st.files[path := Rows(st, path)] else st.files)
  }
}
