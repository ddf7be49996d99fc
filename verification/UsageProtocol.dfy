/**
 Charging, flushing, resetting, editing, reconfiguring and closing as interleaved steps
 (internal/policy/store.go, internal/policy/store_usage_persistence.go).

 A thread is a program point with the values its operation has captured. A step is one lock
 operation, one read or write of the store's fields (atomic under `Store.mu`), one ledger operation
 (atomic under the ledger's mutex), one database transaction or one clock reading. A move that its
 thread cannot make leaves the state alone, so a schedule is any sequence of moves.
 */
module UsageProtocol {
  import opened Wrappers
  import opened UsageWindows

  type Usage = map<string, UsageValue>

  /** `dbFirst` tells `RecordUsage`, which reads the database before the ledger, from `RecordResponseCost`. */
  datatype Request = Request(dbFirst: bool, key: string, model: string, delta: Tally)

  datatype Handle = Handle(path: string, open: bool)

  datatype Op =
    | Charging(request: Request)
    | Flushing
    | Resetting
    | Deleting(key: string)
    | Editing               // UpsertKey, RotateKey, preview learning, plan changes
    | Configuring(path: string)
    | Closing
    | StartFlusher(worker: nat)

  /** Where `FlushUsage` returns to. */
  datatype Return = ToCaller | ToFlusher | ToConfigure(path: string) | ToClose

  /** RecordUsage and RecordResponseCost */
  datatype ChargePc =
    | ReadDatabase(q: Request)
    | ReadLedger(q: Request, db: Option<nat>)
    | ReadLedgerFirst(q: Request)
    | ReadDatabaseLast(q: Request, ledger: nat)
    | WaitToCharge(q: Request, db: Option<nat>, ledger: nat)
    | ReadClock(q: Request, handle: nat, ledger: nat)
    | Apply(q: Request, handle: nat, ledger: nat, at: int)
    | Publish(q: Request, ledger: nat, state: UsageValue)

  /** StopUsageFlusher, FlushUsage and the background flusher */
  datatype FlushPc =
    | TakeFlusher(ret: Return)
    | Join(worker: nat, ret: Return)
    | WaitToFlush(ret: Return)
    | Snapshot(ret: Return)
    | SaveUsage(ret: Return, snap: Usage, db: Option<nat>)
    | FlusherLoop
    | FlusherDone

  /** The operations that run under `updateMu` and then `persistMu` */
  datatype EditPc =
    | WaitToUpdate(op: Op)
    | WaitToPersist(op: Op)
    | ResetRead
    | ResetSave(db: Option<nat>, ledger: nat)
    | ResetClear(ledger: nat)
    | DeleteSnapshot(key: string)
    | DeleteReset(key: string, snap: Usage, db: Option<nat>, ledger: nat)
    | DeleteSave(snap: Usage, db: Option<nat>)
    | EditSnapshot
    | EditSave(snap: Usage, db: Option<nat>)

  /** Configure, inside both locks */
  datatype ConfigPc =
    | OpenFile(path: string)
    | Load(path: string, handle: nat)
    | Seed(path: string, handle: nat, ledger: nat)
    | Backfill(path: string, handle: nat, ledger: nat)
    | Swap(path: string, handle: nat, ledger: nat)
    | Abandon(handle: nat)
    | ClosePrevious(previous: Option<nat>)

  /** Close */
  datatype ClosePc =
    | WaitToClose
    | Detach
    | CloseDetached(previous: Option<nat>)

  datatype Pc =
    | Idle
    | InCharge(charge: ChargePc)
    | InFlush(flush: FlushPc)
    | InEdit(edit: EditPc)
    | InConfig(config: ConfigPc)
    | InClose(close: ClosePc)
    | Unlock(next: Pc)
    | UnlockUpdate

  /** What happened, in order: an entry names the operation and never what it did to the rows. */
  datatype Commit =
    | Charged(path: string, key: string, charge: Charge)
    | Emptied(path: string)                 // ResetAllUsage committed
    | Dropped(path: string, key: string)    // DeleteKey dropped the key's usage from memory while this file was current
    | Written(path: string)                 // a flush, an edit or a deletion wrote all usage rows
    | Published(path: string)               // Configure published the ledger it had loaded from this file

  /** The store's fields, the files and ledgers behind them, and what has happened to them. */
  datatype Store = Store(
    database: Option<nat>, usage: nat,
    handles: seq<Handle>, files: map<string, Usage>, ledgers: seq<Usage>,
    // history: the files as the process found them, the commits since, the handles that have been
    // `Store.database`, the keys whose usage `DeleteKey` dropped from memory but not yet from the file,
    // and whether such a save failed
    origin: map<string, Usage>, log: seq<Commit>, published: set<nat>, unsaved: set<string>, deleteFailed: bool)

  /** `flusher` is the running background flusher, `stopped` those told to stop. */
  datatype State = State(
    clock: int, updateMu: Option<nat>, persistMu: Option<nat>, flusher: Option<nat>, stopped: set<nat>,
    threads: map<nat, Pc>, store: Store)

  /** `ok` is what the environment decides: a transaction commits, a file opens, an edit is accepted. */
  datatype Move = Move(thread: nat, ok: bool, tick: nat, op: Op)

  // ---------- the store ----------

  function Rows(st: Store, path: string): Usage { if path in st.files then st.files[path] else map[] }

  function LedgerOf(st: Store, ledger: nat): Usage {
    if ledger < |st.ledgers| then st.ledgers[ledger] else map[]
  }

  function SetLedger(st: Store, ledger: nat, entries: Usage): Store {
    if ledger < |st.ledgers| then st.(ledgers := st.ledgers[ledger := entries]) else st
  }

  predicate IsOpen(st: Store, handle: nat) { handle < |st.handles| && st.handles[handle].open }

  function CloseHandle(st: Store, db: Option<nat>): Store {
    if db.Some? && db.value < |st.handles|
    then st.(handles := st.handles[db.value := st.handles[db.value].(open := false)])
    else st
  }

  /** `saveUsage` and `saveStateWithPlans`: every usage row is replaced. */
  function SaveAll(st: Store, handle: nat, snap: Usage): Store
    requires IsOpen(st, handle)
  {
    var path := st.handles[handle].path;
    st.(files := st.files[path := snap], log := st.log + [Written(path)], unsaved := {}, deleteFailed := false)
  }

  /** `saveUsage` with no rows, for a reset of all usage. */
  function EmptyAll(st: Store, handle: nat): Store
    requires IsOpen(st, handle)
  {
    var path := st.handles[handle].path;
    st.(files := st.files[path := map[]], log := st.log + [Emptied(path)], unsaved := {}, deleteFailed := false)
  }

  /** `persistUsageEntry`: one row is replaced together with its event. */
  function SaveRow(st: Store, handle: nat, key: string, state: UsageValue, c: Charge): Store
    requires IsOpen(st, handle)
  {
    var path := st.handles[handle].path;
    st.(files := st.files[path := Rows(st, path)[key := state]],
        log := st.log + [Charged(path, key, c)], unsaved := st.unsaved - {key})
  }

  function CurrentPath(st: Store): Option<string> {
    if st.database.Some? && st.database.value < |st.handles| then Some(st.handles[st.database.value].path) else None
  }

  /** `DeleteKey` resets the key's usage in memory; if the file still has it, that is remembered. */
  function DropKey(st: Store, ledger: nat, key: string): Store {
    var entries, path := LedgerOf(st, ledger), CurrentPath(st);
    SetLedger(st, ledger, entries - {key}).(
      log := if path.Some? then st.log + [Dropped(path.value, key)] else st.log,
      unsaved := st.unsaved + (if path.Some? && key in entries then {key} else {}))
  }

  /** `Configure` publishes a new database together with the ledger loaded from it. */
  function SwapTo(st: Store, path: string, handle: nat, ledger: nat): Store {
    st.(database := Some(handle), usage := ledger, published := st.published + {handle},
        log := st.log + [Published(path)], unsaved := {}, deleteFailed := false)
  }

  function ChargeOf(q: Request, at: int): Charge { Charge(at, q.model, q.delta) }

  /** The usage a charge computes from a ledger's entries, without publishing it. */
  function StateAfter(entries: Usage, q: Request, at: int): UsageValue {
    ApplyCost(if q.key in entries then entries[q.key] else EMPTY, ChargeOf(q, at))
  }

  // ---------- steps ----------

  function PcOf(s: State, t: nat): Pc { if t in s.threads then s.threads[t] else Idle }

  function At(s: State, t: nat, pc: Pc): State { s.(threads := s.threads[t := pc]) }

  /** The thread changes the store and goes on to `pc`. */
  function Do(s: State, t: nat, pc: Pc, st: Store): State { s.(threads := s.threads[t := pc], store := st) }

  function Begin(s: State, t: nat, op: Op): State {
    match op
    case Charging(q) => At(s, t, InCharge(if q.dbFirst then ReadDatabase(q) else ReadLedgerFirst(q)))
    case Flushing => At(s, t, InFlush(WaitToFlush(ToCaller)))
    case Closing => At(s, t, InFlush(TakeFlusher(ToClose)))
    case StartFlusher(worker) =>
      if s.flusher.Some? || worker in s.threads || worker == t then s
      else At(s.(flusher := Some(worker)), worker, InFlush(FlusherLoop))
    case _ => At(s, t, InEdit(WaitToUpdate(op)))
  }

  function ChargeStep(s: State, t: nat, pc: ChargePc, ok: bool): State {
    var st := s.store;
    match pc
    case ReadDatabase(q) => At(s, t, InCharge(ReadLedger(q, st.database)))
    case ReadLedger(q, db) => At(s, t, InCharge(WaitToCharge(q, db, st.usage)))
    case ReadLedgerFirst(q) => At(s, t, InCharge(ReadDatabaseLast(q, st.usage)))
    case ReadDatabaseLast(q, ledger) => At(s, t, InCharge(WaitToCharge(q, st.database, ledger)))
    case WaitToCharge(q, db, ledger) =>
      if db.None? then At(s, t, Idle)
      else if s.persistMu.Some? then s
      else At(s.(persistMu := Some(t)), t, InCharge(ReadClock(q, db.value, ledger)))
    case ReadClock(q, handle, ledger) => At(s, t, InCharge(Apply(q, handle, ledger, s.clock)))
    case Apply(q, handle, ledger, at) =>
      if q.key == "" || !ok || !IsOpen(st, handle) then At(s, t, Unlock(Idle))
      else
        var state := StateAfter(LedgerOf(st, ledger), q, at);
        Do(s, t, InCharge(Publish(q, ledger, state)), SaveRow(st, handle, q.key, state, ChargeOf(q, at)))
    case Publish(q, ledger, state) =>
      Do(s, t, Unlock(Idle), SetLedger(st, ledger, LedgerOf(st, ledger)[q.key := state]))
  }

  /** What follows a flush; a failed one stops `Configure` but not `Close`. */
  function AfterFlush(ret: Return, ok: bool): Pc {
    match ret
    case ToCaller => Idle
    case ToFlusher => InFlush(FlusherLoop)
    case ToConfigure(path) => if ok then InEdit(WaitToPersist(Configuring(path))) else UnlockUpdate
    case ToClose => InClose(WaitToClose)
  }

  function FlushStep(s: State, t: nat, pc: FlushPc, ok: bool): State {
    var st := s.store;
    match pc
    case TakeFlusher(ret) =>
      if s.flusher.None? then At(s, t, InFlush(WaitToFlush(ret)))
      else At(s.(flusher := None, stopped := s.stopped + {s.flusher.value}), t, InFlush(Join(s.flusher.value, ret)))
    case Join(worker, ret) =>
      if PcOf(s, worker) == InFlush(FlusherDone) then At(s, t, InFlush(WaitToFlush(ret))) else s
    case WaitToFlush(ret) =>
      if s.persistMu.Some? then s else At(s.(persistMu := Some(t)), t, InFlush(Snapshot(ret)))
    case Snapshot(ret) => At(s, t, InFlush(SaveUsage(ret, LedgerOf(st, st.usage), st.database)))
    case SaveUsage(ret, snap, db) =>
      if db.None? then At(s, t, Unlock(AfterFlush(ret, true)))
      else if !ok || !IsOpen(st, db.value) then At(s, t, Unlock(AfterFlush(ret, false)))
      else Do(s, t, Unlock(AfterFlush(ret, true)), SaveAll(st, db.value, snap))
    case FlusherLoop => At(s, t, InFlush(if t in s.stopped && ok then FlusherDone else WaitToFlush(ToFlusher)))
    case FlusherDone => s
  }

  /** The first point of an operation inside both locks. */
  function Entered(op: Op): Pc {
    match op
    case Resetting => InEdit(ResetRead)
    case Deleting(key) => InEdit(DeleteSnapshot(key))
    case Editing => InEdit(EditSnapshot)
    case Configuring(path) => InConfig(OpenFile(path))
    case _ => Unlock(UnlockUpdate)
  }

  function EditStep(s: State, t: nat, pc: EditPc, ok: bool): State {
    var st := s.store;
    match pc
    case WaitToUpdate(op) =>
      if s.updateMu.Some? then s
      else At(s.(updateMu := Some(t)), t,
              if op.Configuring? then InFlush(TakeFlusher(ToConfigure(op.path))) else InEdit(WaitToPersist(op)))
    case WaitToPersist(op) =>
      if s.persistMu.Some? then s else At(s.(persistMu := Some(t)), t, Entered(op))
    case ResetRead => At(s, t, InEdit(ResetSave(st.database, st.usage)))
    case ResetSave(db, ledger) =>
      if db.None? then At(s, t, InEdit(ResetClear(ledger)))
      else if !ok || !IsOpen(st, db.value) then At(s, t, Unlock(UnlockUpdate))
      else Do(s, t, InEdit(ResetClear(ledger)), EmptyAll(st, db.value))
    case ResetClear(ledger) => Do(s, t, Unlock(UnlockUpdate), SetLedger(st, ledger, map[]))
    case DeleteSnapshot(key) =>
      if !ok then At(s, t, Unlock(UnlockUpdate))
      else At(s, t, InEdit(DeleteReset(key, LedgerOf(st, st.usage) - {key}, st.database, st.usage)))
    case DeleteReset(key, snap, db, ledger) => Do(s, t, InEdit(DeleteSave(snap, db)), DropKey(st, ledger, key))
    case DeleteSave(snap, db) =>
      if db.None? || !ok || !IsOpen(st, db.value) then Do(s, t, Unlock(UnlockUpdate), st.(deleteFailed := true))
      else Do(s, t, Unlock(UnlockUpdate), SaveAll(st, db.value, snap))
    case EditSnapshot =>
      At(s, t, if ok then InEdit(EditSave(LedgerOf(st, st.usage), st.database)) else Unlock(UnlockUpdate))
    case EditSave(snap, db) =>
      if db.None? || !ok || !IsOpen(st, db.value) then At(s, t, Unlock(UnlockUpdate))
      else Do(s, t, Unlock(UnlockUpdate), SaveAll(st, db.value, snap))
  }

  function ConfigStep(s: State, t: nat, pc: ConfigPc, ok: bool): State {
    var st := s.store;
    match pc
    case OpenFile(path) =>
      if !ok then At(s, t, Unlock(UnlockUpdate))
      else Do(s, t, InConfig(Load(path, |st.handles|)), st.(handles := st.handles + [Handle(path, true)]))
    case Load(path, handle) =>
      if !ok then At(s, t, InConfig(Abandon(handle)))
      else Do(s, t, InConfig(Seed(path, handle, |st.ledgers|)), st.(ledgers := st.ledgers + [Rows(st, path)]))
    case Seed(path, handle, ledger) =>
      if !ok then At(s, t, InConfig(Abandon(handle)))
      else Do(s, t, InConfig(Backfill(path, handle, ledger)), st.(files := st.files[path := LedgerOf(st, ledger)]))
    case Backfill(path, handle, ledger) =>
      At(s, t, InConfig(if ok then Swap(path, handle, ledger) else Abandon(handle)))
    case Swap(path, handle, ledger) => Do(s, t, InConfig(ClosePrevious(st.database)), SwapTo(st, path, handle, ledger))
    case Abandon(handle) => Do(s, t, Unlock(UnlockUpdate), CloseHandle(st, Some(handle)))
    case ClosePrevious(previous) => Do(s, t, Unlock(UnlockUpdate), CloseHandle(st, previous))
  }

  function CloseStep(s: State, t: nat, pc: ClosePc): State {
    match pc
    case WaitToClose =>
      if s.persistMu.Some? then s else At(s.(persistMu := Some(t)), t, InClose(Detach))
    case Detach => Do(s, t, InClose(CloseDetached(s.store.database)), s.store.(database := None))
    case CloseDetached(previous) => Do(s, t, Unlock(Idle), CloseHandle(s.store, previous))
  }

  function Tick(s: State, ticks: nat): State { s.(clock := s.clock + ticks) }

  function StepNow(s: State, m: Move): State {
    var t := m.thread;
    match PcOf(s, t)
    case Idle => Begin(s, t, m.op)
    case InCharge(pc) => ChargeStep(s, t, pc, m.ok)
    case InFlush(pc) => FlushStep(s, t, pc, m.ok)
    case InEdit(pc) => EditStep(s, t, pc, m.ok)
    case InConfig(pc) => ConfigStep(s, t, pc, m.ok)
    case InClose(pc) => CloseStep(s, t, pc)
    case Unlock(next) => At(s.(persistMu := None), t, next)
    case UnlockUpdate => At(s.(updateMu := None), t, Idle)
  }

  /** Time passes, then one thread makes its move. */
  function Step(s: State, m: Move): State { StepNow(Tick(s, m.tick), m) }

  /** `NewStore` on whatever an earlier process left on disk: an empty ledger, no database, nothing running. */
  function Init(clock: int, disk: map<string, Usage>): State {
    State(clock, None, None, None, {}, map[], Store(None, 0, [], disk, [map[]], disk, [], {}, {}, false))
  }

  function Run(s: State, moves: seq<Move>): State {
    if moves == [] then s else Step(Run(s, moves[..|moves| - 1]), moves[|moves| - 1])
  }
}
