/**
 What every schedule of `UsageProtocol` keeps: memory and file agree, no charge is lost, duplicated or
 resurrected, and a charge that straddles a database swap either counts for the current one or not at all.
 */
module UsageProtocolSafety {
  import opened Wrappers
  import opened UsageWindows
  import opened UsageProtocol

  // ---------- who holds which lock ----------

  predicate HoldsPersist(pc: Pc) {
    match pc
    case Idle => false
    case InCharge(c) => c.ReadClock? || c.Apply? || c.Publish?
    case InFlush(f) => f.Snapshot? || f.SaveUsage?
    case InEdit(e) => !e.WaitToUpdate? && !e.WaitToPersist?
    case InConfig(c) => true
    case InClose(c) => !c.WaitToClose?
    case Unlock(next) => true
    case UnlockUpdate => false
  }

  predicate FlushHoldsUpdate(f: FlushPc) { !f.FlusherLoop? && !f.FlusherDone? && f.ret.ToConfigure? }

  predicate HoldsUpdate(pc: Pc) {
    match pc
    case Idle => false
    case InCharge(c) => false
    case InFlush(f) => FlushHoldsUpdate(f)
    case InEdit(e) => !e.WaitToUpdate?
    case InConfig(c) => true
    case InClose(c) => false
    case Unlock(next) => HoldsUpdate(next)
    case UnlockUpdate => true
  }

  /** Where a thread may go on to after releasing `persistMu`. */
  predicate AfterUnlock(next: Pc) {
    || next.Idle? || next.UnlockUpdate? || next == InFlush(FlusherLoop) || next == InClose(WaitToClose)
    || (next.InEdit? && next.edit.WaitToPersist? && next.edit.op.Configuring?)
  }

  ghost predicate Locks(s: State) {
    && (forall t :: t in s.threads ==> (HoldsPersist(s.threads[t]) <==> s.persistMu == Some(t)))
    && (forall t :: t in s.threads ==> (HoldsUpdate(s.threads[t]) <==> s.updateMu == Some(t)))
    && (s.persistMu.Some? ==> s.persistMu.value in s.threads)
    && (s.updateMu.Some? ==> s.updateMu.value in s.threads)
  }

  // ---------- the file against the log of commits ----------

  /**
   What a key's row in a file is made of: the row the process found there, if it still counts, and the charges
   committed since. `pending` means that the key was deleted from memory and the file does not know yet.
   */
  datatype History = History(base: Option<UsageValue>, charges: seq<Charge>, pending: bool) {
    predicate Exists() { base.Some? || charges != [] }

    function Value(): UsageValue { ReplayFrom(if base.Some? then base.value else EMPTY, charges) }
  }

  const NO_HISTORY := History(None, [], false)

  /** A base value grown by charges. */
  function ReplayFrom(base: UsageValue, charges: seq<Charge>): UsageValue {
    if charges == [] then base
    else ApplyCost(ReplayFrom(base, charges[..|charges| - 1]), charges[|charges| - 1])
  }

  function Found(origin: map<string, Usage>, path: string, key: string): Option<UsageValue> {
    if path in origin && key in origin[path] then Some(origin[path][key]) else None
  }

  /** What one entry means for a key's row in a file. Only a reset, or a write or charge after a deletion, ends a history. */
  function Continue(h: History, entry: Commit, path: string, key: string): History {
    if entry.path != path then h
    else
      match entry
      case Charged(_, k, c) =>
        if k != key then h else if h.pending then History(None, [c], false) else h.(charges := h.charges + [c])
      case Emptied(_) => NO_HISTORY
      case Dropped(_, k) => if k == key && h.Exists() then h.(pending := true) else h
      case Written(_) => if h.pending then NO_HISTORY else h
      case Published(_) => h.(pending := false)
  }

  function HistoryOf(origin: map<string, Usage>, log: seq<Commit>, path: string, key: string): History {
    if log == [] then History(Found(origin, path, key), [], false)
    else Continue(HistoryOf(origin, log[..|log| - 1], path, key), log[|log| - 1], path, key)
  }

  function Past(st: Store, path: string, key: string): History { HistoryOf(st.origin, st.log, path, key) }

  /** A row exists exactly for the keys with a history, and holds its value. */
  ghost predicate RowMatches(st: Store, path: string, key: string) {
    var h := Past(st, path, key);
    && (key in Rows(st, path) <==> h.Exists())
    && (key in Rows(st, path) ==> Rows(st, path)[key] == h.Value())
  }

  ghost predicate RowsMatchLog(st: Store) {
    forall path, key :: RowMatches(st, path, key)
  }

  /** The deletions that the current file does not know of are the unsaved ones. */
  ghost predicate PendingMatches(st: Store) {
    forall key :: CurrentPath(st).Some? ==> (Past(st, CurrentPath(st).value, key).pending <==> key in st.unsaved)
  }

  /** Commits are dated in order, none later than `bound`. */
  ghost predicate LogBy(log: seq<Commit>, bound: int) {
    && (forall i :: 0 <= i < |log| && log[i].Charged? ==> DAY <= log[i].charge.at <= bound)
    && (forall i, j :: 0 <= i < j < |log| && log[i].Charged? && log[j].Charged? ==> log[i].charge.at <= log[j].charge.at)
  }

  // ---------- the live ledger against the file ----------

  function Live(st: Store): Usage { LedgerOf(st, st.usage) }

  /** `live` is the file without the keys whose deletion has not been saved. */
  ghost predicate Agree(live: Usage, rows: Usage, unsaved: set<string>) {
    unsaved <= rows.Keys && live == rows - unsaved
  }

  function CurrentRows(st: Store): Usage {
    if st.database.Some? && st.database.value < |st.handles| then Rows(st, st.handles[st.database.value].path)
    else map[]
  }

  /** The store's own fields make sense. */
  ghost predicate Base(st: Store) {
    && st.usage < |st.ledgers|
    && (forall h :: h in st.published ==> h < |st.handles|)
    && (st.database.Some? ==> st.database.value in st.published && IsOpen(st, st.database.value)
                              && st.handles[st.database.value].path in st.files)
  }

  ghost predicate OnlyOpen(st: Store, others: set<nat>) {
    forall h: nat :: IsOpen(st, h) ==> st.database == Some(h) || h in others
  }

  /** Memory and the current file agree, up to deletions that could not be saved. */
  ghost predicate InStep(st: Store) {
    st.database.Some? ==> Agree(Live(st), CurrentRows(st), st.unsaved)
  }

  ghost predicate Excused(st: Store) { st.unsaved != {} ==> st.deleteFailed }

  ghost predicate Quiet(st: Store) { OnlyOpen(st, {}) && InStep(st) && Excused(st) }

  // ---------- what each program point knows ----------

  /** What a thread may have captured without holding `persistMu`. */
  ghost predicate CaptureOk(st: Store, q: Request, db: Option<nat>, ledger: nat) {
    && (db.Some? ==> db.value in st.published)
    && ledger < |st.ledgers|
    && (q.dbFirst && db.Some? && db == st.database ==> ledger == st.usage)
  }

  ghost predicate ChargeOk(st: Store, c: ChargePc) {
    match c
    case ReadDatabase(q) => q.dbFirst
    case ReadLedger(q, db) => q.dbFirst && (db.Some? ==> db.value in st.published)
    case ReadLedgerFirst(q) => !q.dbFirst
    case ReadDatabaseLast(q, ledger) => !q.dbFirst && ledger < |st.ledgers|
    case WaitToCharge(q, db, ledger) => CaptureOk(st, q, db, ledger)
    case ReadClock(q, handle, ledger) => CaptureOk(st, q, Some(handle), ledger)
    case Apply(q, handle, ledger, at) => CaptureOk(st, q, Some(handle), ledger)
    case Publish(q, ledger, state) => true
  }

  /** The operations that run under both `updateMu` and `persistMu`. */
  predicate Serialized(op: Op) { op.Resetting? || op.Deleting? || op.Editing? || op.Configuring? }

  ghost predicate ThreadOk(st: Store, pc: Pc) {
    match pc
    case InCharge(c) => ChargeOk(st, c)
    case InEdit(e) => e.WaitToUpdate? || e.WaitToPersist? ==> Serialized(e.op)
    case Unlock(next) => AfterUnlock(next)
    case _ => true
  }

  /** A handle that `Configure` has opened and not yet published. */
  ghost predicate Pending(st: Store, path: string, handle: nat) {
    && OnlyOpen(st, {handle}) && InStep(st) && Excused(st)
    && handle !in st.published && IsOpen(st, handle) && st.handles[handle].path == path
  }

  /** A ledger that `Configure` has loaded from the file it is about to switch to. */
  ghost predicate Loaded(st: Store, path: string, handle: nat, ledger: nat) {
    Pending(st, path, handle) && ledger < |st.ledgers| && ledger != st.usage && st.ledgers[ledger] == Rows(st, path)
  }

  function Only(handle: Option<nat>): set<nat> { if handle.Some? then {handle.value} else {} }

  ghost predicate ChargeHolds(st: Store, clock: int, c: ChargePc) {
    match c
    case Apply(q, handle, ledger, at) => Quiet(st) && LogBy(st.log, at) && DAY <= at <= clock
    case Publish(q, ledger, state) =>
      && st.database.Some? && ledger == st.usage && OnlyOpen(st, {}) && Excused(st)
      && Agree(Live(st)[q.key := state], CurrentRows(st), st.unsaved)
    case _ => Quiet(st)
  }

  ghost predicate FlushHolds(st: Store, f: FlushPc) {
    Quiet(st) && (f.SaveUsage? ==> f.db == st.database && f.snap == Live(st))
  }

  ghost predicate EditHolds(st: Store, e: EditPc) {
    match e
    case ResetSave(db, ledger) => Quiet(st) && db == st.database && ledger == st.usage
    case ResetClear(ledger) =>
      && ledger == st.usage && OnlyOpen(st, {}) && Excused(st)
      && (st.database.Some? ==> CurrentRows(st) == map[] && st.unsaved == {})
    case DeleteReset(key, snap, db, ledger) =>
      Quiet(st) && db == st.database && ledger == st.usage && snap == Live(st) - {key}
    case DeleteSave(snap, db) => OnlyOpen(st, {}) && InStep(st) && db == st.database && snap == Live(st)
    case EditSave(snap, db) => Quiet(st) && db == st.database && snap == Live(st)
    case _ => Quiet(st)
  }

  ghost predicate ConfigHolds(st: Store, c: ConfigPc) {
    match c
    case OpenFile(path) => Quiet(st)
    case Load(path, handle) => Pending(st, path, handle)
    case Seed(path, handle, ledger) => Loaded(st, path, handle, ledger)
    case Backfill(path, handle, ledger) => Loaded(st, path, handle, ledger) && path in st.files
    case Swap(path, handle, ledger) => Loaded(st, path, handle, ledger) && path in st.files
    case Abandon(handle) => OnlyOpen(st, {handle}) && InStep(st) && Excused(st) && st.database != Some(handle)
    case ClosePrevious(previous) =>
      && OnlyOpen(st, Only(previous)) && InStep(st) && Excused(st)
      && (previous.Some? ==> st.database != previous)
  }

  /** What the holder of `persistMu` knows. */
  ghost predicate HolderOk(st: Store, clock: int, pc: Pc) {
    match pc
    case InCharge(c) => ChargeHolds(st, clock, c)
    case InFlush(f) => FlushHolds(st, f)
    case InEdit(e) => EditHolds(st, e)
    case InConfig(c) => ConfigHolds(st, c)
    case InClose(c) =>
      if c.CloseDetached? then st.database.None? && OnlyOpen(st, Only(c.previous)) && Excused(st) else Quiet(st)
    case _ => Quiet(st)
  }

  predicate WaitsToConfigure(pc: Pc) { pc.InEdit? && pc.edit.WaitToPersist? && pc.edit.op.Configuring? }

  /** `Configure` has flushed: nothing deleted from memory is left in the current file. */
  predicate Flushed(pc: Pc) {
    || WaitsToConfigure(pc) || (pc.Unlock? && WaitsToConfigure(pc.next))
    || (pc.InConfig? && !pc.config.ClosePrevious?)
  }

  ghost predicate FlushedOk(st: Store, pc: Pc) {
    Flushed(pc) && st.database.Some? ==> st.unsaved == {}
  }

  ghost predicate StoreInv(st: Store, clock: int) {
    Base(st) && RowsMatchLog(st) && PendingMatches(st) && LogBy(st.log, clock) && DAY <= clock
  }

  ghost predicate Inv(s: State) {
    && StoreInv(s.store, s.clock) && Locks(s)
    && (forall t :: t in s.threads ==> ThreadOk(s.store, s.threads[t]) && FlushedOk(s.store, s.threads[t]))
    && (if s.persistMu.None? then Quiet(s.store)
        else HolderOk(s.store, s.clock, s.threads[s.persistMu.value]))
  }

  /** The charge at this point writes its row and event. */
  predicate Commits(st: Store, pc: ChargePc, ok: bool)
    requires pc.Apply?
  {
    ok && pc.q.key != "" && IsOpen(st, pc.handle)
  }

  /** A commit, into the database, of a state computed from another ledger than the current one. */
  predicate StaleCommit(s: State, m: Move) {
    var pc := PcOf(s, m.thread);
    pc.InCharge? && pc.charge.Apply? && Commits(s.store, pc.charge, m.ok) && pc.charge.ledger != s.store.usage
  }

  // ---------- commits keep the rows equal to the log ----------

  lemma {:induction false} OneMoreEntry(st: Store, st': Store, entry: Commit, path: string, key: string)
    requires st'.origin == st.origin && st'.log == st.log + [entry]
    ensures Past(st', path, key) == Continue(Past(st, path, key), entry, path, key)
  {
  }

  lemma {:induction false} OneMoreCharge(base: UsageValue, charges: seq<Charge>, c: Charge)
    ensures ReplayFrom(base, charges + [c]) == ApplyCost(ReplayFrom(base, charges), c)
  {
    assert (charges + [c])[..|charges|] == charges;
  }

  /** A full write of the rows without the unsaved deletions ends exactly the pending histories. */
  lemma {:induction false} SaveAllRows(st: Store, handle: nat, snap: Usage)
    requires RowsMatchLog(st) && PendingMatches(st) && IsOpen(st, handle) && st.database == Some(handle)
    requires Agree(snap, CurrentRows(st), st.unsaved)
    ensures RowsMatchLog(SaveAll(st, handle, snap)) && PendingMatches(SaveAll(st, handle, snap))
  {
    hide HistoryOf, ReplayFrom;
    var st', file := SaveAll(st, handle, snap), st.handles[handle].path;
    forall path, key ensures RowMatches(st', path, key) && !(path == file && Past(st', path, key).pending) {
      assert RowMatches(st, path, key);
      OneMoreEntry(st, st', Written(file), path, key);
    }
  }

  lemma {:induction false} EmptyAllRows(st: Store, handle: nat)
    requires RowsMatchLog(st) && IsOpen(st, handle) && st.database == Some(handle)
    ensures RowsMatchLog(EmptyAll(st, handle)) && PendingMatches(EmptyAll(st, handle))
  {
    hide HistoryOf, ReplayFrom;
    var st', file := EmptyAll(st, handle), st.handles[handle].path;
    forall path, key ensures RowMatches(st', path, key) && !(path == file && Past(st', path, key).pending) {
      assert RowMatches(st, path, key);
      OneMoreEntry(st, st', Emptied(file), path, key);
    }
  }

  /** What a charge of the row's own value, or of nothing after an unsaved deletion, makes of a key's history. */
  lemma {:induction false} ChargedHistory(h: History, c: Charge, path: string, key: string)
    ensures var h' := Continue(h, Charged(path, key, c), path, key);
            && h'.Exists() && !h'.pending
            && h'.Value() == ApplyCost(if h.pending || !h.Exists() then EMPTY else h.Value(), c)
  {
    OneMoreCharge(if h.base.Some? then h.base.value else EMPTY, h.charges, c);
    assert ReplayFrom(EMPTY, [c]) == ApplyCost(ReplayFrom(EMPTY, []), c);
  }

  lemma {:induction false} SaveRowRows(st: Store, handle: nat, key: string, prior: UsageValue, c: Charge)
    requires RowsMatchLog(st) && PendingMatches(st) && IsOpen(st, handle) && st.database == Some(handle)
    requires prior == if key in CurrentRows(st) && key !in st.unsaved then CurrentRows(st)[key] else EMPTY
    ensures var st' := SaveRow(st, handle, key, ApplyCost(prior, c), c); RowsMatchLog(st') && PendingMatches(st')
  {
    hide HistoryOf, ReplayFrom, ApplyCost;
    var file := st.handles[handle].path;
    var st' := SaveRow(st, handle, key, ApplyCost(prior, c), c);
    forall path, k ensures RowMatches(st', path, k) && (path == file ==> (Past(st', path, k).pending <==> k in st'.unsaved)) {
      assert RowMatches(st, path, k);
      OneMoreEntry(st, st', Charged(file, key, c), path, k);
      if path == file && k == key { ChargedHistory(Past(st, path, k), c, path, key); }
    }
  }

  /** Rows, log and unsaved deletions are what they were, and the database is the same or none. */
  lemma {:induction false} SameRows(st: Store, st': Store)
    requires RowsMatchLog(st) && PendingMatches(st)
    requires st'.origin == st.origin && st'.log == st.log && st'.unsaved == st.unsaved
    requires forall path :: Rows(st', path) == Rows(st, path)
    requires CurrentPath(st') == CurrentPath(st) || st'.database.None?
    ensures RowsMatchLog(st') && PendingMatches(st')
  {
    hide HistoryOf, ReplayFrom;
    forall path, key ensures RowMatches(st', path, key) { assert RowMatches(st, path, key); }
    forall key | CurrentPath(st').Some?
      ensures Past(st', CurrentPath(st').value, key).pending <==> key in st'.unsaved
    {
      assert Past(st', CurrentPath(st').value, key) == Past(st, CurrentPath(st).value, key);
    }
  }

  /** `Configure` publishes: deletions that never reached the file are forgotten with the old ledger. */
  lemma {:induction false} SwapRows(st: Store, path: string, handle: nat, ledger: nat)
    requires RowsMatchLog(st) && IsOpen(st, handle) && st.handles[handle].path == path
    ensures RowsMatchLog(SwapTo(st, path, handle, ledger)) && PendingMatches(SwapTo(st, path, handle, ledger))
  {
    hide HistoryOf, ReplayFrom;
    var st' := SwapTo(st, path, handle, ledger);
    forall p, key ensures RowMatches(st', p, key) && !(p == path && Past(st', p, key).pending) {
      assert RowMatches(st, p, key);
      OneMoreEntry(st, st', Published(path), p, key);
    }
  }

  /** Dropping a key from memory makes its row, if there is one, a pending deletion. */
  lemma {:induction false} DropRows(st: Store, key: string)
    requires RowsMatchLog(st) && PendingMatches(st) && InStep(st)
    requires st.database.Some? ==> st.database.value < |st.handles|
    ensures RowsMatchLog(DropKey(st, st.usage, key)) && PendingMatches(DropKey(st, st.usage, key))
  {
    hide HistoryOf, ReplayFrom;
    var st' := DropKey(st, st.usage, key);
    if st.database.Some? {
      var file := CurrentPath(st).value;
      forall p, k ensures RowMatches(st', p, k) && (p == file ==> (Past(st', p, k).pending <==> k in st'.unsaved)) {
        assert RowMatches(st, p, k) && RowMatches(st, file, k);
        assert k in st.unsaved <==> Past(st, file, k).pending;
        OneMoreEntry(st, st', Dropped(file, key), p, k);
      }
    } else {
      SameRows(st, st');
    }
  }

  // ---------- every step keeps the invariant ----------

  /** The locks after thread `t` moves to `pc`. */
  ghost predicate LocksMove(s: State, s': State, t: nat, pc: Pc) {
    && s'.threads == s.threads[t := pc]
    && (if HoldsPersist(pc) then s'.persistMu == Some(t) && (s.persistMu.None? || s.persistMu == Some(t))
        else if s.persistMu == Some(t) then s'.persistMu.None? else s'.persistMu == s.persistMu)
    && (if HoldsUpdate(pc) then s'.updateMu == Some(t) && (s.updateMu.None? || s.updateMu == Some(t))
        else if s.updateMu == Some(t) then s'.updateMu.None? else s'.updateMu == s.updateMu)
  }

  lemma {:induction false} LocksKept(s: State, s': State, t: nat, pc: Pc)
    requires Locks(s) && LocksMove(s, s', t, pc)
    ensures Locks(s')
  {
  }

  /** Threads that do not move keep what they know, unless the database is switched under them. */
  ghost predicate SameStore(st: Store, st': Store) {
    && st.published <= st'.published && |st.ledgers| <= |st'.ledgers|
    && ((st'.database == st.database && st'.usage == st.usage) || st'.database.None?
        || (st'.database.Some? && st'.database.value !in st.published))
  }

  lemma {:induction false} ThreadKept(st: Store, st': Store, pc: Pc)
    requires ThreadOk(st, pc) && SameStore(st, st')
    ensures ThreadOk(st', pc)
  {
  }

  /** What a move of thread `t` to `pc` must respect for the invariant to survive. */
  ghost predicate FairMove(s: State, s': State, t: nat, pc: Pc) {
    && LocksMove(s, s', t, pc) && s.clock <= s'.clock && SameStore(s.store, s'.store)
    && (s'.store == s.store || s.persistMu == Some(t))
    && (s'.store.unsaved <= s.store.unsaved || s'.updateMu == Some(t))
    && (s'.store.database.Some? && s.store.database.None? ==> s'.updateMu == Some(t))
  }

  /** The threads that do not move, and the moving one, know what their program points claim. */
  lemma {:induction false} ThreadsKept(s: State, s': State, t: nat, pc: Pc)
    requires Inv(s) && FairMove(s, s', t, pc) && Locks(s')
    requires ThreadOk(s'.store, pc) && FlushedOk(s'.store, pc)
    ensures forall u :: u in s'.threads ==> ThreadOk(s'.store, s'.threads[u]) && FlushedOk(s'.store, s'.threads[u])
  {
    forall u | u in s'.threads && u != t
      ensures ThreadOk(s'.store, s'.threads[u]) && FlushedOk(s'.store, s'.threads[u])
    {
      ThreadKept(s.store, s'.store, s.threads[u]);
      if Flushed(s.threads[u]) { FlushedHoldsUpdate(s.threads[u]); }
    }
  }

  lemma {:induction false} FlushedHoldsUpdate(pc: Pc)
    requires Flushed(pc)
    ensures HoldsUpdate(pc)
  {
  }

  lemma {:induction false} HolderLater(st: Store, clock: int, clock': int, pc: Pc)
    requires HolderOk(st, clock, pc) && clock <= clock'
    ensures HolderOk(st, clock', pc)
  {
  }

  /** One move of one thread keeps the invariant. */
  lemma {:induction false} MoveKeepsInv(s: State, s': State, t: nat, pc: Pc)
    requires Inv(s) && FairMove(s, s', t, pc) && StoreInv(s'.store, s'.clock)
    requires ThreadOk(s'.store, pc) && FlushedOk(s'.store, pc)
    requires if HoldsPersist(pc) then HolderOk(s'.store, s'.clock, pc) else s.persistMu == Some(t) ==> Quiet(s'.store)
    ensures Inv(s')
  {
    LocksKept(s, s', t, pc);
    ThreadsKept(s, s', t, pc);
    if s'.persistMu.Some? && s'.persistMu != Some(t) {
      HolderLater(s.store, s.clock, s'.clock, s.threads[s.persistMu.value]);
    }
  }

  /** A move that leaves the store alone. */
  lemma {:induction false} StepOnlyKeeps(s: State, s': State, t: nat, pc: Pc)
    requires Inv(s) && LocksMove(s, s', t, pc) && s.clock == s'.clock && s'.store == s.store
    requires ThreadOk(s.store, pc) && FlushedOk(s.store, pc)
    requires if HoldsPersist(pc) then HolderOk(s.store, s'.clock, pc) else s.persistMu == Some(t) ==> Quiet(s.store)
    ensures Inv(s')
  {
    MoveKeepsInv(s, s', t, pc);
  }

  lemma {:induction false} TickKeeps(s: State, ticks: nat)
    requires Inv(s)
    ensures Inv(Tick(s, ticks))
  {
    if s.persistMu.Some? {
      HolderLater(s.store, s.clock, s.clock + ticks, s.threads[s.persistMu.value]);
    }
  }

  // ---------- charges ----------

  /** The commit of a charge computed from the current ledger. */
  lemma {:induction false} CommitKeeps(st: Store, clock: int, q: Request, handle: nat, ledger: nat, at: int)
    requires StoreInv(st, clock) && ChargeHolds(st, clock, Apply(q, handle, ledger, at))
    requires IsOpen(st, handle) && ledger == st.usage
    ensures var state := StateAfter(LedgerOf(st, ledger), q, at);
            var st' := SaveRow(st, handle, q.key, state, ChargeOf(q, at));
            StoreInv(st', clock) && ChargeHolds(st', clock, Publish(q, ledger, state))
            && SameStore(st, st') && st'.database == st.database && st'.unsaved <= st.unsaved
  {
    hide RowsMatchLog, PendingMatches, ApplyCost;
    var live, c := Live(st), ChargeOf(q, at);
    var prior := if q.key in live then live[q.key] else EMPTY;
    var state := ApplyCost(prior, c);
    var st' := SaveRow(st, handle, q.key, state, c);
    assert st.database == Some(handle);
    assert q.key in live <==> q.key in CurrentRows(st) && q.key !in st.unsaved;
    SaveRowRows(st, handle, q.key, prior, c);
    assert Live(st') == live;
    assert CurrentRows(st') == CurrentRows(st)[q.key := state];
    assert Agree(live[q.key := state], CurrentRows(st'), st'.unsaved);
  }

  lemma {:induction false} CaptureKeeps(s: State, t: nat, pc: ChargePc, ok: bool)
    requires Inv(s) && PcOf(s, t) == InCharge(pc)
    requires pc.ReadDatabase? || pc.ReadLedger? || pc.ReadLedgerFirst? || pc.ReadDatabaseLast?
    ensures Inv(ChargeStep(s, t, pc, ok))
  {
    hide RowsMatchLog, LogBy, OnlyOpen, InStep, Excused, PendingMatches;
    var s' := ChargeStep(s, t, pc, ok);
    StepOnlyKeeps(s, s', t, PcOf(s', t));
  }

  lemma {:induction false} EnterChargeKeeps(s: State, t: nat, pc: ChargePc, ok: bool)
    requires Inv(s) && PcOf(s, t) == InCharge(pc) && (pc.WaitToCharge? || pc.ReadClock?)
    ensures Inv(ChargeStep(s, t, pc, ok))
  {
    hide RowsMatchLog, LogBy, OnlyOpen, InStep, Excused, PendingMatches;
    var s' := ChargeStep(s, t, pc, ok);
    StepOnlyKeeps(s, s', t, PcOf(s', t));
  }

  lemma {:induction false} CommitStepKeeps(s: State, t: nat, pc: ChargePc, ok: bool)
    requires Inv(s) && PcOf(s, t) == InCharge(pc) && pc.Apply?
    requires Commits(s.store, pc, ok) && pc.ledger == s.store.usage
    ensures Inv(ChargeStep(s, t, pc, ok))
  {
    hide RowsMatchLog, LogBy, InStep, Excused, Base, SaveRow, StateAfter, ChargeHolds, PendingMatches;
    var s' := ChargeStep(s, t, pc, ok);
    assert s.persistMu == Some(t);
    CommitKeeps(s.store, s.clock, pc.q, pc.handle, pc.ledger, pc.at);
    MoveKeepsInv(s, s', t, PcOf(s', t));
  }

  lemma {:induction false} ApplyKeeps(s: State, t: nat, pc: ChargePc, ok: bool)
    requires Inv(s) && PcOf(s, t) == InCharge(pc) && pc.Apply?
    requires Commits(s.store, pc, ok) ==> pc.ledger == s.store.usage
    ensures Inv(ChargeStep(s, t, pc, ok))
  {
    if Commits(s.store, pc, ok) {
      CommitStepKeeps(s, t, pc, ok);
    } else {
      hide RowsMatchLog, LogBy, InStep, Excused, Base;
      StepOnlyKeeps(s, ChargeStep(s, t, pc, ok), t, Unlock(Idle));
    }
  }

  /** Changing the entries of a ledger leaves the files and their log alone. */
  lemma {:induction false} LedgerOnly(st: Store, st': Store, clock: int)
    requires StoreInv(st, clock) && st' == st.(ledgers := st'.ledgers)
    requires |st'.ledgers| == |st.ledgers|
    ensures StoreInv(st', clock) && SameStore(st, st') && CurrentRows(st') == CurrentRows(st)
    ensures forall others :: OnlyOpen(st, others) ==> OnlyOpen(st', others)
  {
    SameRows(st, st');
  }

  lemma {:induction false} PublishKeeps(s: State, t: nat, pc: ChargePc, ok: bool)
    requires Inv(s) && PcOf(s, t) == InCharge(pc) && pc.Publish?
    ensures Inv(ChargeStep(s, t, pc, ok))
  {
    hide RowsMatchLog, PendingMatches;
    var s' := ChargeStep(s, t, pc, ok);
    assert s.persistMu == Some(t);
    LedgerOnly(s.store, s'.store, s.clock);
    assert Live(s'.store) == Live(s.store)[pc.q.key := pc.state];
    MoveKeepsInv(s, s', t, Unlock(Idle));
  }

  // ---------- flushes ----------

  /** Writing a full copy of the live ledger brings the file level with it. */
  lemma {:induction false} SaveLiveKeeps(st: Store, clock: int, handle: nat, snap: Usage)
    requires StoreInv(st, clock) && OnlyOpen(st, {}) && InStep(st)
    requires st.database == Some(handle) && snap == Live(st)
    ensures var st' := SaveAll(st, handle, snap);
            && StoreInv(st', clock) && Quiet(st') && SameStore(st, st') && st'.unsaved == {}
            && CurrentRows(st') == Live(st') == Live(st)
  {
    SaveAllRows(st, handle, snap);
    SaveLogBy(st, handle, snap, clock);
  }

  lemma {:induction false} SaveLogBy(st: Store, handle: nat, snap: Usage, bound: int)
    requires LogBy(st.log, bound) && IsOpen(st, handle)
    ensures LogBy(SaveAll(st, handle, snap).log, bound)
  {
  }

  lemma {:induction false} FlusherKeeps(s: State, t: nat, pc: FlushPc, ok: bool)
    requires Inv(s) && PcOf(s, t) == InFlush(pc)
    requires pc.TakeFlusher? || pc.Join?
    ensures Inv(FlushStep(s, t, pc, ok))
  {
    hide RowsMatchLog, LogBy, OnlyOpen, InStep, Excused, PendingMatches;
    var s' := FlushStep(s, t, pc, ok);
    StepOnlyKeeps(s, s', t, PcOf(s', t));
  }

  lemma {:induction false} FlusherLoopKeeps(s: State, t: nat, pc: FlushPc, ok: bool)
    requires Inv(s) && PcOf(s, t) == InFlush(pc) && (pc.FlusherLoop? || pc.FlusherDone?)
    ensures Inv(FlushStep(s, t, pc, ok))
  {
    hide RowsMatchLog, LogBy, OnlyOpen, InStep, Excused, PendingMatches;
    var s' := FlushStep(s, t, pc, ok);
    StepOnlyKeeps(s, s', t, PcOf(s', t));
  }

  lemma {:induction false} FlushWaitsKeep(s: State, t: nat, pc: FlushPc, ok: bool)
    requires Inv(s) && PcOf(s, t) == InFlush(pc) && (pc.WaitToFlush? || pc.Snapshot?)
    ensures Inv(FlushStep(s, t, pc, ok))
  {
    hide RowsMatchLog, LogBy, OnlyOpen, InStep, Excused, PendingMatches;
    var s' := FlushStep(s, t, pc, ok);
    StepOnlyKeeps(s, s', t, PcOf(s', t));
  }

  lemma {:induction false} AfterFlushLocks(ret: Return, ok: bool)
    ensures var next := AfterFlush(ret, ok);
            && AfterUnlock(next) && HoldsUpdate(Unlock(next)) == ret.ToConfigure?
            && Flushed(Unlock(next)) == (ret.ToConfigure? && ok)
  {
  }

  lemma {:induction false} FlushSaveKeeps(s: State, t: nat, pc: FlushPc, ok: bool)
    requires Inv(s) && PcOf(s, t) == InFlush(pc) && pc.SaveUsage?
    ensures Inv(FlushStep(s, t, pc, ok))
  {
    hide RowsMatchLog, LogBy, InStep, Excused, Base, PendingMatches;
    var s' := FlushStep(s, t, pc, ok);
    assert s.persistMu == Some(t);
    assert FlushHolds(s.store, pc);
    AfterFlushLocks(pc.ret, true);
    AfterFlushLocks(pc.ret, false);
    if pc.db.Some? && ok && IsOpen(s.store, pc.db.value) {
      SaveLiveKeeps(s.store, s.clock, pc.db.value, pc.snap);
      MoveKeepsInv(s, s', t, PcOf(s', t));
    } else {
      StepOnlyKeeps(s, s', t, PcOf(s', t));
    }
  }

  // ---------- resets, deletions and edits ----------

  lemma {:induction false} EditWaitsKeep(s: State, t: nat, pc: EditPc, ok: bool)
    requires Inv(s) && PcOf(s, t) == InEdit(pc)
    requires pc.WaitToUpdate? || pc.WaitToPersist?
    ensures Inv(EditStep(s, t, pc, ok))
  {
    hide RowsMatchLog, LogBy, OnlyOpen, InStep, Excused, PendingMatches;
    var s' := EditStep(s, t, pc, ok);
    StepOnlyKeeps(s, s', t, PcOf(s', t));
  }

  lemma {:induction false} EditReadsKeep(s: State, t: nat, pc: EditPc, ok: bool)
    requires Inv(s) && PcOf(s, t) == InEdit(pc)
    requires pc.ResetRead? || pc.DeleteSnapshot? || pc.EditSnapshot?
    ensures Inv(EditStep(s, t, pc, ok))
  {
    hide RowsMatchLog, LogBy, OnlyOpen, InStep, Excused, PendingMatches;
    var s' := EditStep(s, t, pc, ok);
    StepOnlyKeeps(s, s', t, PcOf(s', t));
  }

  lemma {:induction false} EditSaveKeeps(s: State, t: nat, pc: EditPc, ok: bool)
    requires Inv(s) && PcOf(s, t) == InEdit(pc) && pc.EditSave?
    ensures Inv(EditStep(s, t, pc, ok))
  {
    hide RowsMatchLog, LogBy, InStep, Excused, Base, PendingMatches;
    var s' := EditStep(s, t, pc, ok);
    assert s.persistMu == Some(t) && EditHolds(s.store, pc);
    if pc.db.Some? && ok && IsOpen(s.store, pc.db.value) {
      SaveLiveKeeps(s.store, s.clock, pc.db.value, pc.snap);
      MoveKeepsInv(s, s', t, Unlock(UnlockUpdate));
    } else {
      StepOnlyKeeps(s, s', t, Unlock(UnlockUpdate));
    }
  }

  /** The store's part of emptying the current file. */
  lemma {:induction false} EmptyKeeps(st: Store, clock: int, handle: nat)
    requires StoreInv(st, clock) && OnlyOpen(st, {}) && st.database == Some(handle)
    ensures var st' := EmptyAll(st, handle);
            && StoreInv(st', clock) && SameStore(st, st') && OnlyOpen(st', {}) && Excused(st')
            && st'.database == st.database && st'.usage == st.usage && CurrentRows(st') == map[] && st'.unsaved == {}
  {
    hide RowsMatchLog, PendingMatches;
    EmptyAllRows(st, handle);
  }

  lemma {:induction false} ResetSaveKeeps(s: State, t: nat, pc: EditPc, ok: bool)
    requires Inv(s) && PcOf(s, t) == InEdit(pc) && pc.ResetSave?
    ensures Inv(EditStep(s, t, pc, ok))
  {
    hide RowsMatchLog, PendingMatches, LogBy, Base, InStep, OnlyOpen, Excused, EmptyAll, SameStore;
    var s', st := EditStep(s, t, pc, ok), s.store;
    assert s.persistMu == Some(t) && EditHolds(st, pc);
    if pc.db.Some? && ok && IsOpen(st, pc.db.value) {
      EmptyKeeps(st, s.clock, pc.db.value);
      MoveKeepsInv(s, s', t, PcOf(s', t));
    } else {
      StepOnlyKeeps(s, s', t, PcOf(s', t));
    }
  }

  lemma {:induction false} ResetClearKeeps(s: State, t: nat, pc: EditPc, ok: bool)
    requires Inv(s) && PcOf(s, t) == InEdit(pc) && pc.ResetClear?
    ensures Inv(EditStep(s, t, pc, ok))
  {
    hide RowsMatchLog, PendingMatches;
    var s' := EditStep(s, t, pc, ok);
    assert s.persistMu == Some(t) && EditHolds(s.store, pc);
    LedgerOnly(s.store, s'.store, s.clock);
    assert Live(s'.store) == map[];
    MoveKeepsInv(s, s', t, Unlock(UnlockUpdate));
  }

  /** The store's part of dropping a key from memory. */
  lemma {:induction false} DropKeeps(st: Store, clock: int, key: string)
    requires StoreInv(st, clock) && OnlyOpen(st, {}) && InStep(st)
    ensures var st' := DropKey(st, st.usage, key);
            && StoreInv(st', clock) && SameStore(st, st') && OnlyOpen(st', {}) && InStep(st')
            && st'.database == st.database && Live(st') == Live(st) - {key}
  {
    hide RowsMatchLog, PendingMatches;
    DropRows(st, key);
    assert CurrentRows(DropKey(st, st.usage, key)) == CurrentRows(st);
  }

  lemma {:induction false} DeleteResetKeeps(s: State, t: nat, pc: EditPc, ok: bool)
    requires Inv(s) && PcOf(s, t) == InEdit(pc) && pc.DeleteReset?
    ensures Inv(EditStep(s, t, pc, ok))
  {
    hide RowsMatchLog, PendingMatches, LogBy, Base, InStep, OnlyOpen, DropKey, SameStore;
    var s' := EditStep(s, t, pc, ok);
    assert s.persistMu == Some(t) && EditHolds(s.store, pc);
    DropKeeps(s.store, s.clock, pc.key);
    MoveKeepsInv(s, s', t, InEdit(DeleteSave(pc.snap, pc.db)));
  }

  lemma {:induction false} DeleteSaveKeeps(s: State, t: nat, pc: EditPc, ok: bool)
    requires Inv(s) && PcOf(s, t) == InEdit(pc) && pc.DeleteSave?
    ensures Inv(EditStep(s, t, pc, ok))
  {
    var s', st := EditStep(s, t, pc, ok), s.store;
    assert s.persistMu == Some(t) && EditHolds(st, pc);
    if pc.db.Some? && ok && IsOpen(st, pc.db.value) {
      SaveLiveKeeps(st, s.clock, pc.db.value, pc.snap);
    } else {
      SameRows(st, s'.store);
    }
    MoveKeepsInv(s, s', t, Unlock(UnlockUpdate));
  }

  // ---------- Configure and Close ----------

  lemma {:induction false} OpenKeeps(s: State, t: nat, pc: ConfigPc, ok: bool)
    requires Inv(s) && PcOf(s, t) == InConfig(pc) && pc.OpenFile?
    ensures Inv(ConfigStep(s, t, pc, ok))
  {
    hide RowsMatchLog, PendingMatches;
    var s' := ConfigStep(s, t, pc, ok);
    assert s.persistMu == Some(t) && ConfigHolds(s.store, pc);
    if ok {
      SameRows(s.store, s'.store);
      assert CurrentRows(s'.store) == CurrentRows(s.store);
    }
    MoveKeepsInv(s, s', t, PcOf(s', t));
  }

  lemma {:induction false} LoadKeeps(s: State, t: nat, pc: ConfigPc, ok: bool)
    requires Inv(s) && PcOf(s, t) == InConfig(pc) && pc.Load?
    ensures Inv(ConfigStep(s, t, pc, ok))
  {
    hide RowsMatchLog, PendingMatches;
    var s' := ConfigStep(s, t, pc, ok);
    assert s.persistMu == Some(t) && ConfigHolds(s.store, pc);
    if ok {
      SameRows(s.store, s'.store);
      assert CurrentRows(s'.store) == CurrentRows(s.store) && Live(s'.store) == Live(s.store);
    }
    MoveKeepsInv(s, s', t, PcOf(s', t));
  }

  lemma {:induction false} SeedKeeps(s: State, t: nat, pc: ConfigPc, ok: bool)
    requires Inv(s) && PcOf(s, t) == InConfig(pc) && (pc.Seed? || pc.Backfill?)
    ensures Inv(ConfigStep(s, t, pc, ok))
  {
    hide RowsMatchLog, PendingMatches;
    var s' := ConfigStep(s, t, pc, ok);
    assert s.persistMu == Some(t) && ConfigHolds(s.store, pc);
    SameRows(s.store, s'.store);
    assert CurrentRows(s'.store) == CurrentRows(s.store) && Live(s'.store) == Live(s.store);
    MoveKeepsInv(s, s', t, PcOf(s', t));
  }

  lemma {:induction false} SwapKeeps(s: State, t: nat, pc: ConfigPc, ok: bool)
    requires Inv(s) && PcOf(s, t) == InConfig(pc) && pc.Swap?
    ensures Inv(ConfigStep(s, t, pc, ok))
  {
    hide RowsMatchLog, PendingMatches;
    var s' := ConfigStep(s, t, pc, ok);
    assert s.persistMu == Some(t) && ConfigHolds(s.store, pc);
    SwapRows(s.store, pc.path, pc.handle, pc.ledger);
    assert Live(s'.store) == CurrentRows(s'.store);
    MoveKeepsInv(s, s', t, PcOf(s', t));
  }

  lemma {:induction false} CloseHandleKeeps(st: Store, clock: int, db: Option<nat>)
    requires StoreInv(st, clock) && OnlyOpen(st, Only(db)) && (db.Some? ==> st.database != db)
    ensures var st' := CloseHandle(st, db);
            && StoreInv(st', clock) && OnlyOpen(st', {}) && SameStore(st, st')
            && CurrentRows(st') == CurrentRows(st) && Live(st') == Live(st)
  {
    SameRows(st, CloseHandle(st, db));
  }

  lemma {:induction false} ConfigEndKeeps(s: State, t: nat, pc: ConfigPc, ok: bool)
    requires Inv(s) && PcOf(s, t) == InConfig(pc) && (pc.Abandon? || pc.ClosePrevious?)
    ensures Inv(ConfigStep(s, t, pc, ok))
  {
    hide RowsMatchLog, PendingMatches;
    var s' := ConfigStep(s, t, pc, ok);
    assert s.persistMu == Some(t) && ConfigHolds(s.store, pc);
    CloseHandleKeeps(s.store, s.clock, if pc.Abandon? then Some(pc.handle) else pc.previous);
    MoveKeepsInv(s, s', t, Unlock(UnlockUpdate));
  }

  lemma {:induction false} DetachKeeps(s: State, t: nat)
    requires Inv(s) && PcOf(s, t) == InClose(Detach)
    ensures Inv(CloseStep(s, t, Detach))
  {
    hide LogBy;
    var s' := CloseStep(s, t, Detach);
    assert s.persistMu == Some(t);
    SameRows(s.store, s'.store);
    MoveKeepsInv(s, s', t, PcOf(s', t));
  }

  lemma {:induction false} CloseKeeps(s: State, t: nat, pc: ClosePc)
    requires Inv(s) && PcOf(s, t) == InClose(pc)
    ensures Inv(CloseStep(s, t, pc))
  {
    hide LogBy, RowsMatchLog;
    var s' := CloseStep(s, t, pc);
    match pc {
      case WaitToClose => StepOnlyKeeps(s, s', t, PcOf(s', t));
      case Detach => DetachKeeps(s, t);
      case CloseDetached(previous) =>
        assert s.persistMu == Some(t);
        CloseHandleKeeps(s.store, s.clock, previous);
        MoveKeepsInv(s, s', t, PcOf(s', t));
    }
  }

  // ---------- all moves ----------

  lemma {:induction false} BeginKeeps(s: State, t: nat, op: Op)
    requires Inv(s) && PcOf(s, t) == Idle
    ensures Inv(Begin(s, t, op))
  {
    hide RowsMatchLog, LogBy, OnlyOpen, InStep, Excused, PendingMatches;
    var s' := Begin(s, t, op);
    if op.StartFlusher? {
      if s' != s { StepOnlyKeeps(s, s', op.worker, InFlush(FlusherLoop)); }
    } else {
      StepOnlyKeeps(s, s', t, PcOf(s', t));
    }
  }

  lemma {:induction false} UnlockKeeps(s: State, m: Move)
    requires Inv(s) && (PcOf(s, m.thread).Unlock? || PcOf(s, m.thread).UnlockUpdate?)
    ensures Inv(StepNow(s, m))
  {
    hide RowsMatchLog, LogBy, OnlyOpen, InStep, Excused, PendingMatches;
    var s' := StepNow(s, m);
    StepOnlyKeeps(s, s', m.thread, PcOf(s', m.thread));
  }

  lemma {:induction false} AnyChargeKeeps(s: State, t: nat, pc: ChargePc, ok: bool)
    requires Inv(s) && PcOf(s, t) == InCharge(pc)
    requires pc.Apply? && Commits(s.store, pc, ok) ==> pc.ledger == s.store.usage
    ensures Inv(ChargeStep(s, t, pc, ok))
  {
    hide Inv, ChargeStep;
    if pc.Apply? { ApplyKeeps(s, t, pc, ok); }
    else if pc.Publish? { PublishKeeps(s, t, pc, ok); }
    else if pc.WaitToCharge? || pc.ReadClock? { EnterChargeKeeps(s, t, pc, ok); }
    else { CaptureKeeps(s, t, pc, ok); }
  }

  lemma {:induction false} AnyFlushKeeps(s: State, t: nat, pc: FlushPc, ok: bool)
    requires Inv(s) && PcOf(s, t) == InFlush(pc)
    ensures Inv(FlushStep(s, t, pc, ok))
  {
    hide Inv, FlushStep;
    if pc.SaveUsage? { FlushSaveKeeps(s, t, pc, ok); }
    else if pc.WaitToFlush? || pc.Snapshot? { FlushWaitsKeep(s, t, pc, ok); }
    else if pc.FlusherLoop? || pc.FlusherDone? { FlusherLoopKeeps(s, t, pc, ok); }
    else { FlusherKeeps(s, t, pc, ok); }
  }

  lemma {:induction false} AnyEditKeeps(s: State, t: nat, pc: EditPc, ok: bool)
    requires Inv(s) && PcOf(s, t) == InEdit(pc)
    ensures Inv(EditStep(s, t, pc, ok))
  {
    hide Inv, EditStep;
    match pc {
      case WaitToUpdate(_) => EditWaitsKeep(s, t, pc, ok);
      case WaitToPersist(_) => EditWaitsKeep(s, t, pc, ok);
      case ResetSave(_, _) => ResetSaveKeeps(s, t, pc, ok);
      case ResetClear(_) => ResetClearKeeps(s, t, pc, ok);
      case DeleteReset(_, _, _, _) => DeleteResetKeeps(s, t, pc, ok);
      case DeleteSave(_, _) => DeleteSaveKeeps(s, t, pc, ok);
      case EditSave(_, _) => EditSaveKeeps(s, t, pc, ok);
      case _ => EditReadsKeep(s, t, pc, ok);
    }
  }

  lemma {:induction false} AnyConfigKeeps(s: State, t: nat, pc: ConfigPc, ok: bool)
    requires Inv(s) && PcOf(s, t) == InConfig(pc)
    ensures Inv(ConfigStep(s, t, pc, ok))
  {
    hide Inv, ConfigStep;
    if pc.OpenFile? { OpenKeeps(s, t, pc, ok); }
    else if pc.Load? { LoadKeeps(s, t, pc, ok); }
    else if pc.Seed? || pc.Backfill? { SeedKeeps(s, t, pc, ok); }
    else if pc.Swap? { SwapKeeps(s, t, pc, ok); }
    else { ConfigEndKeeps(s, t, pc, ok); }
  }

  /** Every move keeps the invariant, except the commit of a state computed from a replaced ledger. */
  lemma {:induction false} StepKeepsInv(s: State, m: Move)
    requires Inv(s) && !StaleCommit(s, m)
    ensures Inv(Step(s, m))
  {
    hide Inv, ChargeStep, FlushStep, EditStep, ConfigStep, CloseStep, Begin;
    var now := Tick(s, m.tick);
    TickKeeps(s, m.tick);
    match PcOf(now, m.thread) {
      case Idle => BeginKeeps(now, m.thread, m.op);
      case InCharge(pc) => AnyChargeKeeps(now, m.thread, pc, m.ok);
      case InFlush(pc) => AnyFlushKeeps(now, m.thread, pc, m.ok);
      case InEdit(pc) => AnyEditKeeps(now, m.thread, pc, m.ok);
      case InConfig(pc) => AnyConfigKeeps(now, m.thread, pc, m.ok);
      case InClose(pc) => CloseKeeps(now, m.thread, pc);
      case _ => UnlockKeeps(now, m);
    }
  }
}
