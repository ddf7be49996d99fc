/**
 Deadlock freedom of the store (internal/policy/store.go, internal/policy/store_usage_persistence.go):
 every operation takes its locks in one order, and waiting for the background flusher has a place in it.

 An operation is a program of nested critical sections; `Store.mu` is a reader-writer lock whose waiting
 writers hold back new readers, as in Go. A thread is the stack of what it still has to do.
 */
module LockOrder {
  import opened Wrappers

  datatype Lock =
    | UpdateMu
    | PersistMu
    | StoreMu
    | LedgerMu(ledger: nat)
    | InitializationMu
    | DatabaseMu(database: nat)
    | LimiterMu

  const JOIN := 1

  function Level(lock: Lock): int {
    match lock
    case UpdateMu => 0
    case PersistMu => 2
    case StoreMu => 3
    case LedgerMu(_) => 4
    case InitializationMu => 5
    case DatabaseMu(_) => 6
    case LimiterMu => 7
  }

  datatype Program =
    | Skip
    | Block(steps: seq<Program>)
    | Either(left: Program, right: Program)
    | With(lock: Lock, shared: bool, body: Program)
    | Start(worker: nat)    // StartUsageFlusher publishes and starts a flusher
    | Take                  // StopUsageFlusher takes the flusher out of the store
    | StopAndJoin           // ... closes its stop channel and waits until it is done
    | Stop(worker: nat)     // the function that StartUsageFlusher returned closes that channel and does not wait

  datatype Item = Do(program: Program) | Joining | Release(lock: Lock, shared: bool)

  datatype Thread = Thread(items: seq<Item>, isFlusher: bool, taken: Option<nat>)

  datatype State = State(threads: map<nat, Thread>, flusher: Option<nat>, stopped: set<nat>)

  /** Locks nest in increasing level, and joining comes before anything above `updateMu`. */
  predicate Ordered(p: Program, top: int) {
    match p
    case Skip => true
    case Block(steps) => forall step :: step in steps ==> Ordered(step, top)
    case Either(a, b) => Ordered(a, top) && Ordered(b, top)
    case With(lock, _, body) => Level(lock) > top && Ordered(body, Level(lock))
    case Start(_) => true
    case Take => true
    case StopAndJoin => top < JOIN
    case Stop(_) => true
  }

  // ---------- the operations of the store ----------

  function Read(body: Program): Program { With(StoreMu, true, body) }

  function Write(body: Program): Program { With(StoreMu, false, body) }

  function Update(body: Program): Program { With(UpdateMu, false, body) }

  function Persist(body: Program): Program { With(PersistMu, false, body) }

  function Ledger(l: nat, body: Program): Program { With(LedgerMu(l), false, body) }

  function Clock(d: nat): Program { With(DatabaseMu(d), false, Skip) }

  function Limiter(): Program { With(LimiterMu, false, Skip) }

  /** A snapshot of the ledger under the store's read lock, then a transaction. */
  function Flush(l: nat): Program { Persist(Read(Ledger(l, Skip))) }

  /** The flusher is taken out of the store, stopped and waited for; then a last flush. */
  function StopFlusher(l: nat): Program { Block([Write(Take), StopAndJoin, Flush(l)]) }

  /** Opening and loading the next database, copying its usage twice, and publishing it. */
  function SwapDatabase(next: nat, d: nat): Program {
    Persist(Block([Read(Skip), With(InitializationMu, false, Clock(d)), Clock(d),
                   Either(Skip, Block([Ledger(next, Skip), Ledger(next, Skip), Write(Skip)]))]))
  }

  /** The event, or the next usage state of the key together with it, is written under `persistMu`. */
  function PersistCharge(l: nat, d: nat): Program {
    Either(Block([Persist(Clock(d)), Write(Skip)]),
           Block([Read(Skip), Persist(Ledger(l, Block([Clock(d), Clock(d)]))), Write(Skip)]))
  }

  function LearnPreview(): Program {
    Update(Block([Read(Skip), Either(Skip, Block([Persist(Skip), Write(Skip)]))]))
  }

  datatype Operation =
    | RecordUsage(l: nat, d: nat)
    | RecordResponseCost(l: nat)
    | Authorize(l: nat)
    | FlushUsage(l: nat)
    | ResetAllUsage(l: nat)
    | UpsertKey(l: nat)
    | DeleteKey(l: nat)
    | RotateKey(l: nat)
    | ChangePlans(l: nat)
    | Configure(l: nat, next: nat, d: nat)
    | Close(l: nat)
    | StartUsageFlusher(worker: nat)
    | StopUsageFlusher(l: nat)
    | SignalUsageFlusher(worker: nat)
    | SetClock(d: nat)
    | ResetRPM
    | Status(l: nat)
    | QueryHistory(d: nat)

  function ProgramOf(op: Operation): Program {
    match op
    case RecordUsage(l, d) => Block([Read(Skip), Read(Skip), Read(Skip), PersistCharge(l, d)])
    case RecordResponseCost(l) =>
      Block([Read(Skip), Read(Skip), Read(Skip),
             Either(Skip, Block([Read(Skip), Either(Skip, Persist(Ledger(l, Skip))), Write(Skip)]))])
    case Authorize(l) => Block([Read(Skip), Either(Skip, LearnPreview()), Read(Skip), Limiter(), Ledger(l, Skip)])
    case FlushUsage(l) => Flush(l)
    case ResetAllUsage(l) => Update(Persist(Block([Read(Skip), Ledger(l, Skip)])))
    case UpsertKey(l) => Update(Block([Read(Skip), Persist(Write(Ledger(l, Skip)))]))
    case DeleteKey(l) =>
      Update(Persist(Either(Write(Skip), Block([Write(Ledger(l, Skip)), Limiter(), Ledger(l, Skip)]))))
    case RotateKey(l) => Update(Persist(Either(Write(Skip), Block([Write(Ledger(l, Skip)), Limiter()]))))
    case ChangePlans(l) =>
      Update(Block([Read(Skip),
                    Persist(Block([Read(Ledger(l, Skip)), Either(Skip, Block([Read(Skip), Write(Skip), Read(Skip)]))]))]))
    case Configure(l, next, d) => Update(Block([StopFlusher(l), Either(Skip, SwapDatabase(next, d))]))
    case Close(l) => Block([StopFlusher(l), Persist(Write(Skip))])
    case StartUsageFlusher(worker) => Write(Start(worker))
    case StopUsageFlusher(l) => StopFlusher(l)
    case SignalUsageFlusher(worker) => Stop(worker)
    case SetClock(d) => Write(Clock(d))
    case ResetRPM => Block([Read(Skip), Limiter()])
    case Status(l) => Block([Read(Skip), Read(Skip), Limiter(), Ledger(l, Skip)])
    case QueryHistory(d) => Block([Read(Skip), Read(Skip), Clock(d)])
  }

  lemma {:induction false} LeafSections(top: int, l: nat, d: nat)
    ensures top < Level(LedgerMu(l)) ==> Ordered(Ledger(l, Skip), top)
    ensures top < Level(DatabaseMu(d)) ==> Ordered(Clock(d), top)
    ensures top < Level(LimiterMu) ==> Ordered(Limiter(), top)
  {
  }

  lemma {:induction false} StoreSections(top: int, l: nat)
    requires top < Level(StoreMu)
    ensures Ordered(Read(Skip), top) && Ordered(Write(Skip), top) && Ordered(Write(Take), top)
    ensures Ordered(Read(Ledger(l, Skip)), top) && Ordered(Write(Ledger(l, Skip)), top)
  {
  }

  lemma {:induction false} PersistSections(top: int, l: nat, d: nat)
    requires top < Level(PersistMu)
    ensures Ordered(Flush(l), top) && Ordered(Persist(Skip), top) && Ordered(Persist(Clock(d)), top)
    ensures Ordered(Persist(Write(Skip)), top) && Ordered(Persist(Write(Ledger(l, Skip))), top)
  {
    StoreSections(Level(PersistMu), l);
    LeafSections(Level(PersistMu), l, d);
  }

  lemma {:induction false} ChoiceIsOrdered(a: Program, b: Program, top: int)
    requires Ordered(a, top) && Ordered(b, top)
    ensures Ordered(Either(a, b), top)
  {
  }

  lemma {:induction false} PersistChargeIsOrdered(l: nat, d: nat)
    ensures Ordered(PersistCharge(l, d), -1)
  {
    StoreSections(-1, l);
    PersistSections(-1, l, d);
    LeafSections(Level(LedgerMu(l)), l, d);
    assert Ordered(Block([Clock(d), Clock(d)]), Level(LedgerMu(l)));
    assert Ordered(Ledger(l, Block([Clock(d), Clock(d)])), Level(PersistMu));
    assert Ordered(Persist(Ledger(l, Block([Clock(d), Clock(d)]))), -1);
  }

  lemma {:induction false} SwapIsOrdered(next: nat, d: nat)
    ensures Ordered(SwapDatabase(next, d), Level(UpdateMu))
  {
    var top := Level(PersistMu);
    StoreSections(top, next);
    LeafSections(top, next, d);
    LeafSections(Level(InitializationMu), next, d);
    var publish := Block([Ledger(next, Skip), Ledger(next, Skip), Write(Skip)]);
    assert Ordered(publish, top);
    assert Ordered(With(InitializationMu, false, Clock(d)), top);
    ChoiceIsOrdered(Skip, publish, top);
    assert Ordered(Block([Read(Skip), With(InitializationMu, false, Clock(d)), Clock(d), Either(Skip, publish)]), top);
  }

  lemma {:induction false} StopFlusherIsOrdered(l: nat, top: int)
    requires top < JOIN
    ensures Ordered(StopFlusher(l), top)
  {
    StoreSections(top, l);
    PersistSections(top, l, 0);
    assert Ordered(StopAndJoin, top);
  }

  lemma {:induction false} LearnPreviewIsOrdered()
    ensures Ordered(LearnPreview(), -1)
  {
  }

  lemma {:induction false} ChangePlansIsOrdered(l: nat)
    ensures Ordered(ProgramOf(ChangePlans(l)), -1)
  {
    var top := Level(PersistMu);
    StoreSections(top, l);
    var replace := Block([Read(Skip), Write(Skip), Read(Skip)]);
    assert Ordered(replace, top);
    ChoiceIsOrdered(Skip, replace, top);
    var change := Block([Read(Ledger(l, Skip)), Either(Skip, replace)]);
    assert Ordered(change, top);
    StoreSections(Level(UpdateMu), l);
    assert Ordered(Persist(change), Level(UpdateMu));
    assert Ordered(Block([Read(Skip), Persist(change)]), Level(UpdateMu));
  }

  lemma {:induction false} DeleteAndRotateAreOrdered(l: nat)
    ensures Ordered(ProgramOf(DeleteKey(l)), -1) && Ordered(ProgramOf(RotateKey(l)), -1)
  {
    var top := Level(PersistMu);
    StoreSections(top, l);
    LeafSections(top, l, 0);
    var delete := Block([Write(Ledger(l, Skip)), Limiter(), Ledger(l, Skip)]);
    var rotate := Block([Write(Ledger(l, Skip)), Limiter()]);
    assert Ordered(delete, top) && Ordered(rotate, top);
    ChoiceIsOrdered(Write(Skip), delete, top);
    ChoiceIsOrdered(Write(Skip), rotate, top);
    assert Ordered(Persist(Either(Write(Skip), delete)), Level(UpdateMu));
    assert Ordered(Persist(Either(Write(Skip), rotate)), Level(UpdateMu));
  }

  lemma {:induction false} ResetAndUpsertAreOrdered(l: nat)
    ensures Ordered(ProgramOf(ResetAllUsage(l)), -1) && Ordered(ProgramOf(UpsertKey(l)), -1)
  {
    var top := Level(PersistMu);
    StoreSections(top, l);
    LeafSections(top, l, 0);
    var reset := Block([Read(Skip), Ledger(l, Skip)]);
    assert Ordered(reset, top);
    assert Ordered(Persist(reset), Level(UpdateMu));
    StoreSections(Level(UpdateMu), l);
    PersistSections(Level(UpdateMu), l, 0);
    assert Ordered(Block([Read(Skip), Persist(Write(Ledger(l, Skip)))]), Level(UpdateMu));
  }

  lemma {:induction false} ConfigureIsOrdered(l: nat, next: nat, d: nat)
    ensures Ordered(ProgramOf(Configure(l, next, d)), -1)
  {
    var top := Level(UpdateMu);
    StopFlusherIsOrdered(l, top);
    SwapIsOrdered(next, d);
    ChoiceIsOrdered(Skip, SwapDatabase(next, d), top);
    assert Ordered(Block([StopFlusher(l), Either(Skip, SwapDatabase(next, d))]), top);
  }

  lemma {:induction false} RecordIsOrdered(l: nat, d: nat)
    ensures Ordered(ProgramOf(RecordUsage(l, d)), -1)
  {
    hide PersistCharge;
    StoreSections(-1, l);
    PersistChargeIsOrdered(l, d);
  }

  lemma {:induction false} AuthorizeIsOrdered(l: nat)
    ensures Ordered(ProgramOf(Authorize(l)), -1)
  {
    hide LearnPreview;
    StoreSections(-1, l);
    LeafSections(-1, l, 0);
    LearnPreviewIsOrdered();
    ChoiceIsOrdered(Skip, LearnPreview(), -1);
  }

  lemma {:induction false} StatusIsOrdered(l: nat)
    ensures Ordered(ProgramOf(Status(l)), -1)
  {
    StoreSections(-1, l);
    LeafSections(-1, l, 0);
  }

  lemma {:induction false} ReadersAreOrdered(d: nat)
    ensures Ordered(ProgramOf(QueryHistory(d)), -1) && Ordered(ProgramOf(ResetRPM), -1)
  {
    StoreSections(-1, 0);
    LeafSections(-1, 0, d);
  }

  lemma {:induction false} ResponseCostIsOrdered(l: nat)
    ensures Ordered(ProgramOf(RecordResponseCost(l)), -1)
  {
    StoreSections(-1, l);
    LeafSections(Level(PersistMu), l, 0);
    assert Ordered(Persist(Ledger(l, Skip)), -1);
    ChoiceIsOrdered(Skip, Persist(Ledger(l, Skip)), -1);
    var charge := Block([Read(Skip), Either(Skip, Persist(Ledger(l, Skip))), Write(Skip)]);
    assert Ordered(charge, -1);
    ChoiceIsOrdered(Skip, charge, -1);
  }

  lemma {:induction false} CloseIsOrdered(l: nat)
    ensures Ordered(ProgramOf(Close(l)), -1) && Ordered(ProgramOf(StopUsageFlusher(l)), -1)
  {
    hide StopFlusher;
    StopFlusherIsOrdered(l, -1);
    PersistSections(-1, l, 0);
  }

  lemma {:induction false} ServicesAreOrdered(l: nat, d: nat)
    ensures Ordered(ProgramOf(FlushUsage(l)), -1)
    ensures Ordered(ProgramOf(SetClock(d)), -1) && Ordered(ProgramOf(StartUsageFlusher(d)), -1)
    ensures Ordered(ProgramOf(SignalUsageFlusher(d)), -1)
  {
    PersistSections(-1, l, d);
    LeafSections(Level(StoreMu), l, d);
  }

  /** Every operation of the store takes its locks in order. */
  lemma {:induction false} OperationsAreOrdered(op: Operation)
    ensures Ordered(ProgramOf(op), -1)
  {
    hide Ordered, ProgramOf;
    match op {
      case RecordUsage(l, d) => RecordIsOrdered(l, d);
      case Authorize(l) => AuthorizeIsOrdered(l);
      case RecordResponseCost(l) => ResponseCostIsOrdered(l);
      case Status(l) => StatusIsOrdered(l);
      case QueryHistory(d) => ReadersAreOrdered(d);
      case ResetRPM => ReadersAreOrdered(0);
      case Configure(l, next, d) => ConfigureIsOrdered(l, next, d);
      case Close(l) => CloseIsOrdered(l);
      case StopUsageFlusher(l) => CloseIsOrdered(l);
      case FlushUsage(l) => ServicesAreOrdered(l, 0);
      case StartUsageFlusher(worker) => ServicesAreOrdered(0, worker);
      case SignalUsageFlusher(worker) => ServicesAreOrdered(0, worker);
      case SetClock(d) => ServicesAreOrdered(0, d);
      case ChangePlans(l) => ChangePlansIsOrdered(l);
      case ResetAllUsage(l) => ResetAndUpsertAreOrdered(l);
      case UpsertKey(l) => ResetAndUpsertAreOrdered(l);
      case DeleteKey(l) => DeleteAndRotateAreOrdered(l);
      case RotateKey(l) => DeleteAndRotateAreOrdered(l);
    }
  }

  // ---------- threads ----------

  /** `choice` resolves branches, and whether a stopped flusher notices; `op` is begun by an idle thread. */
  datatype Move = Move(thread: nat, choice: bool, op: Operation)

  function Held(items: seq<Item>, base: int): int {
    if items == [] then base
    else if items[0].Release? then Level(items[0].lock)
    else Held(items[1..], base)
  }

  function Base(th: Thread): int { if th.isFlusher then JOIN else -1 }

  /** The thread is still doing something. */
  predicate Busy(s: State, t: nat) { t in s.threads && s.threads[t].items != [] }

  predicate Holds(s: State, t: nat, lock: Lock) {
    t in s.threads && exists shared :: Release(lock, shared) in s.threads[t].items
  }

  predicate HoldsExclusively(s: State, t: nat, lock: Lock) {
    t in s.threads && Release(lock, false) in s.threads[t].items
  }

  /** The thread's next action is to take `lock`. */
  predicate Wants(s: State, t: nat, lock: Lock, shared: bool) {
    && Busy(s, t) && s.threads[t].items[0].Do? && s.threads[t].items[0].program.With?
    && s.threads[t].items[0].program.lock == lock && s.threads[t].items[0].program.shared == shared
  }

  /** An exclusive lock waits for every holder, a shared one for exclusive holders. */
  ghost predicate Free(s: State, t: nat, lock: Lock, shared: bool) {
    if shared then forall u :: u != t ==> !HoldsExclusively(s, u, lock) else forall u :: u != t ==> !Holds(s, u, lock)
  }

  /** A shared lock also waits for writers, once they have asked for it. */
  ghost predicate Available(s: State, t: nat, lock: Lock, shared: bool) {
    Free(s, t, lock, shared) && (shared ==> forall u :: u != t ==> !Wants(s, u, lock, false))
  }

  /** `<-doneCh`: the flusher was told to stop and is not in the middle of a flush. */
  predicate Done(s: State, worker: nat) { worker in s.stopped && !Busy(s, worker) }

  /**
   Nothing that is held prevents the thread's next action. A reader may still have to wait for a writer: whether one
   that is about to lock has asked already is left open, so schedules contain readers that overtake it.
   */
  ghost predicate MayStep(s: State, t: nat)
    requires Busy(s, t)
  {
    var th := s.threads[t];
    match th.items[0]
    case Do(p) => p.With? ==> Free(s, t, p.lock, p.shared)
    case Joining => th.taken.Some? ==> Done(s, th.taken.value)
    case Release(_, _) => true
  }

  /** Nothing prevents the thread's next action, not even writers about to lock. */
  ghost predicate CanStep(s: State, t: nat)
    requires Busy(s, t)
  {
    var th := s.threads[t];
    match th.items[0]
    case Do(p) => p.With? ==> Available(s, t, p.lock, p.shared)
    case Joining => th.taken.Some? ==> Done(s, th.taken.value)
    case Release(_, _) => true
  }

  /** What a thread goes on with after its next action. */
  function NextItems(items: seq<Item>, choice: bool): seq<Item>
    requires items != []
  {
    var rest := items[1..];
    if !items[0].Do? then rest
    else
      match items[0].program
      case Block(steps) => if steps == [] then rest else [Do(steps[0])] + ([Do(Block(steps[1..]))] + rest)
      case Either(a, b) => [Do(if choice then a else b)] + rest
      case With(lock, shared, body) => [Do(body)] + ([Release(lock, shared)] + rest)
      case StopAndJoin => [Joining] + rest
      case _ => rest
  }

  function Set(s: State, t: nat, th: Thread): State { s.(threads := s.threads[t := th]) }

  ghost function Step(s: State, m: Move): State {
    var t := m.thread;
    if t !in s.threads then Set(s, t, Thread([Do(ProgramOf(m.op))], false, None))
    else if s.threads[t].items == [] then
      if !s.threads[t].isFlusher then Set(s, t, Thread([Do(ProgramOf(m.op))], false, None))
      else if t in s.stopped || !m.op.FlushUsage? then s
      else Set(s, t, Thread([Do(ProgramOf(m.op))], true, None))
    else if !MayStep(s, t) then s
    else Act(s, t, m.choice)
  }

  /** The enabled thread performs its next action. */
  function Act(s: State, t: nat, choice: bool): State
    requires Busy(s, t)
  {
    var th := s.threads[t];
    var s' := Set(s, t, th.(items := NextItems(th.items, choice)));
    if !th.items[0].Do? then s'
    else
      match th.items[0].program
      case Start(worker) =>
        if s.flusher.Some? || worker in s.threads then s'
        else Set(s', worker, Thread([], true, None)).(flusher := Some(worker))
      case Take => Set(s', t, s'.threads[t].(taken := s.flusher)).(flusher := None)
      case StopAndJoin => s'.(stopped := s.stopped + (if th.taken.Some? then {th.taken.value} else {}))
      case Stop(worker) => s'.(stopped := s.stopped + {worker})
      case _ => s'
  }

  ghost function Run(moves: seq<Move>): State {
    if moves == [] then State(map[], None, {}) else Step(Run(moves[..|moves| - 1]), moves[|moves| - 1])
  }

  // ---------- the discipline of a thread's stack ----------

  /** An item that fits on top of a nested stack. */
  predicate Fits(item: Item, held: int) {
    match item
    case Do(p) => Ordered(p, held)
    case Joining => held < JOIN
    case Release(lock, _) => Level(lock) > held
  }

  /** Every pending program is ordered above the locks held when it will run; releases nest. */
  predicate Nested(items: seq<Item>, base: int) {
    items == [] || (Nested(items[1..], base) && Fits(items[0], Held(items[1..], base)))
  }

  ghost predicate ThreadOk(s: State, t: nat)
    requires t in s.threads
  {
    var th := s.threads[t];
    && Nested(th.items, Base(th))
    && (th.taken.Some? ==> IsFlusher(s, th.taken.value))
    && (th.items != [] && th.items[0].Joining? && th.taken.Some? ==> th.taken.value in s.stopped)
    && (forall i :: 1 <= i < |th.items| ==> !th.items[i].Joining?)
  }

  predicate IsFlusher(s: State, w: nat) { w in s.threads && s.threads[w].isFlusher }

  ghost predicate Inv(s: State) {
    && (forall t :: t in s.threads ==> ThreadOk(s, t))
    && (s.flusher.Some? ==> IsFlusher(s, s.flusher.value))
  }

  lemma {:induction false} HeldIsHighest(items: seq<Item>, base: int, lock: Lock, shared: bool)
    requires Nested(items, base) && Release(lock, shared) in items
    ensures Held(items, base) >= Level(lock)
  {
    if items[0] != Release(lock, shared) { HeldIsHighest(items[1..], base, lock, shared); }
  }

  lemma {:induction false} HeldIsAboveBase(items: seq<Item>, base: int)
    requires Nested(items, base)
    ensures Held(items, base) >= base
  {
    if items != [] { HeldIsAboveBase(items[1..], base); }
  }

  lemma {:induction false} Push(item: Item, items: seq<Item>, base: int)
    requires Nested(items, base) && Fits(item, Held(items, base))
    ensures Nested([item] + items, base)
    ensures Held([item] + items, base) == if item.Release? then Level(item.lock) else Held(items, base)
  {
  }

  lemma {:induction false} NextItemsNest(items: seq<Item>, choice: bool, base: int)
    requires items != [] && Nested(items, base)
    ensures Nested(NextItems(items, choice), base)
  {
    var rest := items[1..];
    if items[0].Do? {
      match items[0].program {
        case Block(steps) =>
          if steps != [] {
            assert steps[0] in steps;
            Push(Do(Block(steps[1..])), rest, base);
            Push(Do(steps[0]), [Do(Block(steps[1..]))] + rest, base);
          }
        case Either(a, b) => Push(Do(if choice then a else b), rest, base);
        case With(lock, shared, body) =>
          Push(Release(lock, shared), rest, base);
          Push(Do(body), [Release(lock, shared)] + rest, base);
        case StopAndJoin => Push(Joining, rest, base);
        case _ =>
      }
    }
  }

  /** Threads that do not act are not disturbed. */
  lemma {:induction false} OthersKept(s: State, s': State, t: nat, u: nat)
    requires Inv(s) && u in s.threads && u != t && u in s'.threads && s'.threads[u] == s.threads[u]
    requires forall w :: IsFlusher(s, w) ==> IsFlusher(s', w)
    requires s.stopped <= s'.stopped
    ensures ThreadOk(s', u)
  {
  }

  lemma {:induction false} FlushersKept(s: State, t: nat, choice: bool)
    requires Inv(s) && Busy(s, t)
    ensures var s' := Act(s, t, choice);
            && (forall w :: IsFlusher(s, w) ==> IsFlusher(s', w)) && s.stopped <= s'.stopped
            && (s'.flusher.Some? ==> IsFlusher(s', s'.flusher.value))
  {
    hide Nested, NextItems;
  }

  lemma {:induction false} ActorKept(s: State, t: nat, choice: bool)
    requires Inv(s) && Busy(s, t)
    ensures var s' := Act(s, t, choice); t in s'.threads && ThreadOk(s', t)
  {
    hide Nested, IsFlusher;
    var th := s.threads[t];
    assert ThreadOk(s, t);
    NextItemsNest(th.items, choice, Base(th));
    FlushersKept(s, t, choice);
  }

  lemma {:induction false} ActKeepsInv(s: State, t: nat, choice: bool)
    requires Inv(s) && Busy(s, t)
    ensures Inv(Act(s, t, choice))
  {
    var s' := Act(s, t, choice);
    ActorKept(s, t, choice);
    FlushersKept(s, t, choice);
    forall u | u in s'.threads ensures ThreadOk(s', u) {
      if u != t && u in s.threads { OthersKept(s, s', t, u); }
    }
  }

  lemma {:induction false} BeginKeepsInv(s: State, t: nat, th: Thread)
    requires Inv(s) && !Busy(s, t) && th.taken.None? && |th.items| == 1 && th.items[0].Do?
    requires Ordered(th.items[0].program, Base(th))
    requires if t in s.threads then th.isFlusher == s.threads[t].isFlusher else !th.isFlusher
    ensures Inv(Set(s, t, th))
  {
    var s' := Set(s, t, th);
    Push(th.items[0], [], Base(th));
    assert th.items == [th.items[0]] + [];
    forall u | u in s'.threads ensures ThreadOk(s', u) {
      if u != t { OthersKept(s, s', t, u); }
    }
  }

  lemma {:induction false} StepKeepsInv(s: State, m: Move)
    requires Inv(s)
    ensures Inv(Step(s, m))
  {
    hide Inv, Act;
    var t := m.thread;
    if Busy(s, t) {
      if MayStep(s, t) { ActKeepsInv(s, t, m.choice); }
    } else if t !in s.threads || !s.threads[t].isFlusher {
      OperationsAreOrdered(m.op);
      BeginKeepsInv(s, t, Thread([Do(ProgramOf(m.op))], false, None));
    } else if m.op.FlushUsage? && t !in s.stopped {
      PersistSections(JOIN, m.op.l, 0);
      BeginKeepsInv(s, t, Thread([Do(ProgramOf(m.op))], true, None));
    }
  }

  lemma {:induction false} RunKeepsInv(moves: seq<Move>)
    ensures Inv(Run(moves))
  {
    if moves != [] {
      RunKeepsInv(moves[..|moves| - 1]);
      StepKeepsInv(Run(moves[..|moves| - 1]), moves[|moves| - 1]);
    }
  }

  // ---------- mutual exclusion ----------

  /** Whoever holds a lock exclusively is the only one to hold it. */
  ghost predicate Exclusive(s: State) {
    forall t, u, lock :: t != u && HoldsExclusively(s, t, lock) ==> !Holds(s, u, lock)
  }

  /** A thread comes to hold only what nobody else stands in the way of; all it held otherwise, it held before. */
  lemma {:induction false} NewlyHeld(items: seq<Item>, choice: bool, lock: Lock, shared: bool)
    requires items != [] && Release(lock, shared) in NextItems(items, choice) && Release(lock, shared) !in items
    ensures items[0].Do? && items[0].program.With? && items[0].program.lock == lock && items[0].program.shared == shared
  {
    assert items == [items[0]] + items[1..];
  }

  lemma {:induction false} ActorHolds(s: State, t: nat, choice: bool, lock: Lock)
    requires Busy(s, t) && MayStep(s, t)
    ensures var s' := Act(s, t, choice);
            && (HoldsExclusively(s', t, lock) ==> HoldsExclusively(s, t, lock) || Free(s, t, lock, false))
            && (Holds(s', t, lock) ==> Holds(s, t, lock) || Free(s, t, lock, true))
  {
    var s', items := Act(s, t, choice), s.threads[t].items;
    assert s'.threads[t].items == NextItems(items, choice);
    hide NextItems, Act;
    forall shared | Release(lock, shared) in s'.threads[t].items && Release(lock, shared) !in items
      ensures Free(s, t, lock, shared)
    {
      NewlyHeld(items, choice, lock, shared);
    }
    assert forall u :: HoldsExclusively(s, u, lock) ==> Holds(s, u, lock);
  }

  lemma {:induction false} OthersHold(s: State, t: nat, choice: bool, u: nat, lock: Lock)
    requires Busy(s, t) && u != t
    ensures var s' := Act(s, t, choice);
            (HoldsExclusively(s', u, lock) ==> HoldsExclusively(s, u, lock)) && (Holds(s', u, lock) ==> Holds(s, u, lock))
  {
    hide NextItems;
  }

  lemma {:induction false} ActKeepsExclusive(s: State, t: nat, choice: bool)
    requires Exclusive(s) && Busy(s, t) && MayStep(s, t)
    ensures Exclusive(Act(s, t, choice))
  {
    hide Act, MayStep, HoldsExclusively, Holds;
    var s' := Act(s, t, choice);
    forall u, v, lock | u != v && HoldsExclusively(s', u, lock) ensures !Holds(s', v, lock) {
      ActorHolds(s, t, choice, lock);
      if u != t { OthersHold(s, t, choice, u, lock); }
      if v != t { OthersHold(s, t, choice, v, lock); }
    }
  }

  lemma {:induction false} BeginKeepsExclusive(s: State, t: nat, th: Thread)
    requires Exclusive(s) && !Busy(s, t) && |th.items| == 1 && th.items[0].Do?
    ensures Exclusive(Set(s, t, th))
  {
    var s' := Set(s, t, th);
    forall u, lock ensures HoldsExclusively(s', u, lock) ==> HoldsExclusively(s, u, lock) {
      assert u != t && u in s'.threads ==> s.threads[u] == s'.threads[u];
    }
    forall u, lock ensures Holds(s', u, lock) ==> Holds(s, u, lock) {
      assert u != t && u in s'.threads ==> s.threads[u] == s'.threads[u];
    }
    hide Holds, HoldsExclusively;
  }

  lemma {:induction false} StepKeepsExclusive(s: State, m: Move)
    requires Exclusive(s)
    ensures Exclusive(Step(s, m))
  {
    hide Exclusive, Act, ProgramOf;
    var t := m.thread;
    if Busy(s, t) {
      if MayStep(s, t) { ActKeepsExclusive(s, t, m.choice); }
    } else if t !in s.threads || !s.threads[t].isFlusher {
      BeginKeepsExclusive(s, t, Thread([Do(ProgramOf(m.op))], false, None));
    } else if m.op.FlushUsage? && t !in s.stopped {
      BeginKeepsExclusive(s, t, Thread([Do(ProgramOf(m.op))], true, None));
    }
  }

  /** In every schedule an exclusively held lock is held by nobody else, be it shared or exclusively. */
  lemma {:induction false} LocksExclude(moves: seq<Move>, t: nat, u: nat, lock: Lock)
    requires t != u && HoldsExclusively(Run(moves), t, lock)
    ensures !Holds(Run(moves), u, lock)
  {
    RunKeepsExclusive(moves);
  }

  lemma {:induction false} RunKeepsExclusive(moves: seq<Move>)
    ensures Exclusive(Run(moves))
  {
    if moves != [] {
      RunKeepsExclusive(moves[..|moves| - 1]);
      StepKeepsExclusive(Run(moves[..|moves| - 1]), moves[|moves| - 1]);
    }
  }

  // ---------- whoever waits, waits for someone who can move ----------

  /** The level a thread waits at. */
  function WaitLevel(s: State, t: nat): int
    requires Busy(s, t)
  {
    match s.threads[t].items[0]
    case Do(p) => if p.With? then Level(p.lock) else 8
    case Joining => JOIN
    case Release(_, _) => 8
  }

  /** A thread that holds `lock` waits, if at all, at a higher level. */
  lemma {:induction false} HolderWaitsHigher(s: State, t: nat, lock: Lock)
    requires Inv(s) && Holds(s, t, lock)
    ensures Busy(s, t) && WaitLevel(s, t) > Level(lock)
  {
    var th := s.threads[t];
    var shared :| Release(lock, shared) in th.items;
    assert ThreadOk(s, t);
    if !th.items[0].Release? {
      assert Release(lock, shared) in th.items[1..];
      HeldIsHighest(th.items[1..], Base(th), lock, shared);
    }
  }

  /** A flusher never joins and never takes `updateMu`. */
  lemma {:induction false} FlusherWaitsHigher(s: State, t: nat)
    requires Inv(s) && IsFlusher(s, t) && Busy(s, t)
    ensures WaitLevel(s, t) > JOIN
  {
    assert ThreadOk(s, t);
    HeldIsAboveBase(s.threads[t].items[1..], JOIN);
  }

  ghost predicate SomeoneMoves(s: State) { exists u :: Busy(s, u) && CanStep(s, u) }

  /** Following who waits for whom leads to a thread that can move: the levels only go up. */
  lemma {:induction false} WaitsEnd(s: State, t: nat)
    requires Inv(s) && Busy(s, t)
    ensures SomeoneMoves(s)
    decreases 8 - WaitLevel(s, t)
  {
    if !CanStep(s, t) {
      var th := s.threads[t];
      if th.items[0].Joining? {
        assert ThreadOk(s, t);
        FlusherWaitsHigher(s, th.taken.value);
        WaitsEnd(s, th.taken.value);
      } else {
        var lock, shared := th.items[0].program.lock, th.items[0].program.shared;
        if u :| u != t && Holds(s, u, lock) {
          HolderWaitsHigher(s, u, lock);
          WaitsEnd(s, u);
        } else {
          assert forall u :: HoldsExclusively(s, u, lock) ==> Holds(s, u, lock);
          assert !Holds(s, t, lock) by {
            if Holds(s, t, lock) { HolderWaitsHigher(s, t, lock); }
          }
          var u :| u != t && Wants(s, u, lock, false);
          assert Free(s, u, lock, false);
          assert CanStep(s, u);
        }
      }
    }
  }

  /**
   In every schedule of store operations and flusher ticks, as long as some operation is unfinished one of
   the unfinished ones can take its next step, even while `Configure` or `Close` waits for a flusher that
   is itself in the middle of a flush.
   */
  lemma {:induction false} NoDeadlock(moves: seq<Move>, t: nat)
    requires Busy(Run(moves), t)
    ensures exists u :: Busy(Run(moves), u) && CanStep(Run(moves), u)
  {
    RunKeepsInv(moves);
    WaitsEnd(Run(moves), t);
  }
}
