/** The structural invariant of the ledger machine: who holds which lock, what a lock holder knows,
    and how status, flags, worker stage and refund history of a task fit together. */
module LedgerShape {
  import opened Text
  import opened Totals
  import opened Rows
  import opened Routing
  import opened Recovery
  import opened Accounting

  ghost predicate LocksOk(locks: map<Account, string>, creators: map<string, Creator>) {
    && (forall a :: a in locks ==>
          && locks[a] in creators && !creators[locks[a]].phase.Chosen?
          && TaskAccount(creators[locks[a]].row) == a)
    && (forall id :: id in creators && !creators[id].phase.Chosen? ==>
          TaskAccount(creators[id].row) in locks && locks[TaskAccount(creators[id].row)] == id)
  }

  /** A creator beyond the lock still sees the committed balance it read, and it suffices. */
  predicate HoldOk(db: Db, c: Creator) {
    var a := TaskAccount(c.row);
    !c.phase.Chosen? ==>
      && HasRow(db, a) && c.phase.balance == Balance(db, a)
      && c.phase.balance >= DebitAmount(c.row) && c.phase.cap == CapOf(db, a)
  }

  ghost predicate CreatorsOk(db: Db, creators: map<string, Creator>) {
    forall id :: id in creators ==> id !in db.tasks && HoldOk(db, creators[id]) && IsFresh(creators[id].row)
  }

  /** Same owner and same price. */
  predicate SameDebt(t: Task, u: Task) {
    t.wallet == u.wallet && t.service == u.service && t.source == u.source && t.units == u.units
  }

  ghost predicate WorkersOk(tasks: map<string, Task>, workers: map<string, Worker>) {
    forall id :: id in workers ==>
      id in tasks && Refundable(workers[id].copy) && SameDebt(workers[id].copy, tasks[id])
  }

  ghost predicate RowsOk(db: Db) {
    forall id :: id in db.tasks ==> RowOk(db.tasks[id]) && HasRow(db, TaskAccount(db.tasks[id]))
  }

  predicate EntryOk(e: Entry, t: Task) {
    && e.account == TaskAccount(t) && e.units == RefundAmount(t) && e.units >= 1
    && e.refunds <= 1 && e.returned == (if e.refunds == 1 then e.units else 0)
  }

  /** Status, flags, refund count and worker stage of one task. */
  predicate LifeOk(t: Task, refunds: nat, stage: Option<Stage>, inCut: bool, crashed: bool) {
    match t.status
    case Queued => t.reserved && !t.charged && refunds == 0 && stage.None? && !inCut
    case Running => t.reserved && !t.charged && refunds == 0 && !inCut && (stage.Some? ==> stage.value.Executing?)
    case Done => t.reserved && t.charged && refunds == 0 && stage.None? && !inCut
    case Failed =>
      && !t.charged
      && (stage.Some? ==> t.reserved && !inCut && stage.value == (if refunds == 0 then Marked else Returned))
      && (stage.None? ==> (inCut <==> refunds == 0) && (!crashed ==> !t.reserved))
  }

  function StageOf(workers: map<string, Worker>, id: string): Option<Stage> {
    if id in workers then Some(workers[id].stage) else None
  }

  ghost predicate BookOk(tasks: map<string, Task>, book: map<string, Entry>) {
    book.Keys == tasks.Keys && forall id :: id in tasks ==> EntryOk(book[id], tasks[id])
  }

  ghost predicate LivesOk(tasks: map<string, Task>, book: map<string, Entry>, workers: map<string, Worker>,
                          cut: set<string>, crashed: bool) {
    forall id :: id in tasks && id in book ==>
      LifeOk(tasks[id], book[id].refunds, StageOf(workers, id), id in cut, crashed)
  }

  predicate BalancesOk(db: Db) {
    && (forall w :: w in db.wallets ==> db.wallets[w] >= 0)
    && (forall k :: k in db.ents ==> db.ents[k].remaining >= 0 && db.ents[k].maxConcurrent >= 1)
  }

  predicate ProcessOk(s: State) {
    && (!s.up ==> s.locks == map[] && s.creators == map[] && s.workers == map[])
    && s.cut <= s.db.tasks.Keys && (!s.crashed ==> s.cut == {})
  }

  ghost predicate Shape(s: State) {
    && LocksOk(s.locks, s.creators) && CreatorsOk(s.db, s.creators)
    && WorkersOk(s.db.tasks, s.workers) && RowsOk(s.db) && BookOk(s.db.tasks, s.book)
    && LivesOk(s.db.tasks, s.book, s.workers, s.cut, s.crashed)
    && BalancesOk(s.db) && ProcessOk(s)
  }

  // ---- changes of balances ----

  /** Rows stay, and rows that somebody has locked keep their balance and cap. */
  ghost predicate RespectsLocks(db: Db, after: Db, locks: map<Account, string>) {
    && after.tasks == db.tasks
    && (forall a :: HasRow(db, a) ==> HasRow(after, a))
    && (forall a :: a in locks ==> Balance(after, a) == Balance(db, a) && CapOf(after, a) == CapOf(db, a))
  }

  lemma LockHoldersUndisturbed(db: Db, after: Db, locks: map<Account, string>, creators: map<string, Creator>)
    requires LocksOk(locks, creators) && CreatorsOk(db, creators) && RespectsLocks(db, after, locks)
    ensures CreatorsOk(after, creators)
  {
  }

  lemma BalanceStep(s: State, after: Db, funded: map<Account, int>)
    requires Shape(s) && RespectsLocks(s.db, after, s.locks) && BalancesOk(after)
    ensures Shape(s.(db := after, funded := funded))
  {
    LockHoldersUndisturbed(s.db, after, s.locks, s.creators);
  }

  lemma CreditRespects(db: Db, a: Account, n: int, locks: map<Account, string>)
    requires a !in locks
    ensures RespectsLocks(db, Credit(db, a, n), locks)
  {
    CreditMoves(db, a, n);
  }

  lemma CreditedBalances(db: Db, a: Account, n: int)
    requires BalancesOk(db) && Balance(db, a) + n >= 0
    ensures BalancesOk(Credit(db, a, n))
  {
  }

  /** A free balance row moves without turning negative. */
  lemma CreditStep(s: State, a: Account, n: int, funded: map<Account, int>)
    requires Shape(s) && Balance(s.db, a) + n >= 0 && a !in s.locks
    ensures Shape(s.(db := Credit(s.db, a, n), funded := funded))
  {
    CreditedBalances(s.db, a, n);
    CreditRespects(s.db, a, n, s.locks);
    BalanceStep(s, Credit(s.db, a, n), funded);
  }

  lemma RedeemKeepsShape(s: State, key: EntKey, n: int, m: int)
    requires Shape(s) && n > 0 && m > 0 && EntRow(key) !in s.locks
    ensures Shape(DoRedeem(s, key, n, m))
  {
    BalanceStep(s, s.db.(ents := Grant(s.db.ents, key, n, m)), Fund(s, EntRow(key), n));
  }

  lemma NewWalletKeepsShape(s: State, w: string)
    requires Shape(s) && w !in s.db.wallets
    ensures Shape(s.(db := s.db.(wallets := s.db.wallets[w := 0])))
  {
    forall a | a in s.locks ensures HasRow(s.db, a) {
      assert HoldOk(s.db, s.creators[s.locks[a]]);
    }
    BalanceStep(s, s.db.(wallets := s.db.wallets[w := 0]), s.funded);
  }

  // ---- changes of one task ----

  function SetWorker(workers: map<string, Worker>, id: string, w: Option<Worker>): map<string, Worker> {
    if w.Some? then workers[id := w.value] else workers - {id}
  }

  /** One task moves to a row, a worker and a refund entry that fit together. */
  function TaskStepped(s: State, id: string, t: Task, w: Option<Worker>, e: Entry): State {
    s.(db := s.db.(tasks := s.db.tasks[id := t]), workers := SetWorker(s.workers, id, w), book := s.book[id := e])
  }

  ghost predicate FitsTogether(s: State, id: string, t: Task, w: Option<Worker>, e: Entry) {
    && id in s.db.tasks && SameDebt(t, s.db.tasks[id])
    && (w.Some? ==> s.up && Refundable(w.value.copy) && SameDebt(w.value.copy, t))
    && EntryOk(e, t)
    && LifeOk(t, e.refunds, if w.Some? then Some(w.value.stage) else None, id in s.cut, s.crashed)
  }

  lemma TaskStepLives(s: State, id: string, t: Task, w: Option<Worker>, e: Entry)
    requires BookOk(s.db.tasks, s.book) && LivesOk(s.db.tasks, s.book, s.workers, s.cut, s.crashed)
    requires FitsTogether(s, id, t, w, e)
    ensures var u := TaskStepped(s, id, t, w, e);
      BookOk(u.db.tasks, u.book) && LivesOk(u.db.tasks, u.book, u.workers, u.cut, u.crashed)
  {
    var u := TaskStepped(s, id, t, w, e);
    forall x | x in u.db.tasks
      ensures LifeOk(u.db.tasks[x], u.book[x].refunds, StageOf(u.workers, x), x in u.cut, u.crashed)
    {
      assert x != id ==> StageOf(u.workers, x) == StageOf(s.workers, x);
    }
  }

  lemma TaskStepRows(db: Db, creators: map<string, Creator>, id: string, t: Task)
    requires CreatorsOk(db, creators) && RowsOk(db) && id in db.tasks && SameDebt(t, db.tasks[id])
    ensures CreatorsOk(db.(tasks := db.tasks[id := t]), creators) && RowsOk(db.(tasks := db.tasks[id := t]))
  {
    assert TaskAccount(t) == TaskAccount(db.tasks[id]);
  }

  lemma TaskStepWorkers(tasks: map<string, Task>, workers: map<string, Worker>, id: string, t: Task, w: Option<Worker>)
    requires WorkersOk(tasks, workers) && id in tasks && SameDebt(t, tasks[id])
    requires w.Some? ==> Refundable(w.value.copy) && SameDebt(w.value.copy, t)
    ensures WorkersOk(tasks[id := t], SetWorker(workers, id, w))
  {
  }

  lemma TaskStep(s: State, id: string, t: Task, w: Option<Worker>, e: Entry)
    requires Shape(s) && FitsTogether(s, id, t, w, e)
    ensures Shape(TaskStepped(s, id, t, w, e))
  {
    TaskStepLives(s, id, t, w, e);
    TaskStepRows(s.db, s.creators, id, t);
    TaskStepWorkers(s.db.tasks, s.workers, id, t, w);
  }

  lemma StageFacts(t: Task, refunds: nat, stage: Stage, inCut: bool, crashed: bool)
    requires LifeOk(t, refunds, Some(stage), inCut, crashed) && refunds <= 1
    ensures !inCut && t.reserved && !t.charged
    ensures t.status == (if stage.Executing? then Running else Failed)
    ensures refunds == (if stage.Returned? then 1 else 0)
  {
  }

  lemma SameMap<K, V>(m: map<K, V>, k: K)
    requires k in m
    ensures m[k := m[k]] == m
  {
  }

  /** The invariant says of a live worker's task that it fits the worker's stage. */
  lemma WorkerFacts(s: State, id: string, stage: Stage)
    requires Shape(s) && InStage(s, id, stage)
    ensures id in s.db.tasks && id in s.book && s.up && id !in s.cut
    ensures s.db.tasks[id].reserved && !s.db.tasks[id].charged && EntryOk(s.book[id], s.db.tasks[id])
    ensures s.db.tasks[id].status == (if stage.Executing? then Running else Failed)
    ensures s.book[id].refunds == (if stage.Returned? then 1 else 0)
    ensures Refundable(s.workers[id].copy) && SameDebt(s.workers[id].copy, s.db.tasks[id])
    ensures s.book[id := s.book[id]] == s.book && s.db.tasks[id := s.db.tasks[id]] == s.db.tasks
  {
    assert EntryOk(s.book[id], s.db.tasks[id]) && StageOf(s.workers, id) == Some(stage);
    StageFacts(s.db.tasks[id], s.book[id].refunds, stage, id in s.cut, s.crashed);
    SameMap(s.book, id);
    SameMap(s.db.tasks, id);
  }

  lemma QueuedFacts(s: State, id: string)
    requires Shape(s) && id in s.db.tasks && s.db.tasks[id].status.Queued?
    ensures id in s.book && id !in s.cut && s.book[id := s.book[id]] == s.book
    ensures s.db.tasks[id].reserved && !s.db.tasks[id].charged && RowOk(s.db.tasks[id])
    ensures EntryOk(s.book[id], s.db.tasks[id]) && s.book[id].refunds == 0
  {
    assert LifeOk(s.db.tasks[id], s.book[id].refunds, StageOf(s.workers, id), id in s.cut, s.crashed);
  }

  lemma ClaimKeepsShape(s: State, id: string, now: int)
    requires Shape(s) && WorkEnabled(s, id, Claim(now))
    ensures Shape(DoClaim(s, id, now))
  {
    QueuedFacts(s, id);
    var t := s.db.tasks[id].(status := Running, updatedAt := now);
    TaskStep(s, id, t, Some(Worker(t, Executing)), s.book[id]);
  }

  lemma FallbackKeepsShape(s: State, id: string, profile: string, now: int)
    requires Shape(s) && InStage(s, id, Executing)
    ensures Shape(DoFallback(s, id, profile, now))
  {
    WorkerFacts(s, id, Executing);
    TaskStep(s, id, s.db.tasks[id].(profile := profile, updatedAt := now),
             Some(s.workers[id].(copy := s.workers[id].copy.(profile := profile))), s.book[id]);
  }

  lemma CompleteKeepsShape(s: State, id: string, now: int)
    requires Shape(s) && InStage(s, id, Executing)
    ensures Shape(DoComplete(s, id, now))
  {
    WorkerFacts(s, id, Executing);
    TaskStep(s, id, s.db.tasks[id].(status := Done, charged := true, updatedAt := now), None, s.book[id]);
  }

  lemma AbandonKeepsShape(s: State, id: string)
    requires Shape(s) && InStage(s, id, Executing)
    ensures Shape(s.(workers := s.workers - {id}))
  {
    WorkerFacts(s, id, Executing);
    TaskStep(s, id, s.db.tasks[id], None, s.book[id]);
  }

  lemma FailMarkKeepsShape(s: State, id: string, now: int)
    requires Shape(s) && InStage(s, id, Executing)
    ensures Shape(DoFailMark(s, id, now))
  {
    WorkerFacts(s, id, Executing);
    TaskStep(s, id, s.db.tasks[id].(status := Failed, updatedAt := now),
             Some(s.workers[id].(stage := Marked)), s.book[id]);
  }

  lemma ClearKeepsShape(s: State, id: string, now: int)
    requires Shape(s) && InStage(s, id, Returned)
    ensures Shape(DoClear(s, id, now))
  {
    WorkerFacts(s, id, Returned);
    TaskStep(s, id, s.db.tasks[id].(reserved := false, updatedAt := now), None, s.book[id]);
  }

  lemma RefundKeepsShape(s: State, id: string)
    requires Shape(s) && InStage(s, id, Marked) && TaskAccount(s.workers[id].copy) !in s.locks
    ensures Shape(DoRefund(s, id))
  {
    WorkerFacts(s, id, Marked);
    var copy := s.workers[id].copy;
    var entry := GiveBack(s.book[id], RefundAmount(copy));
    TaskStep(s, id, s.db.tasks[id], Some(Worker(copy, Returned)), entry);
    CreditStep(TaskStepped(s, id, s.db.tasks[id], Some(Worker(copy, Returned)), entry),
               TaskAccount(copy), RefundAmount(copy), s.funded);
  }

  lemma WorkKeepsShape(s: State, id: string, a: Work)
    requires Shape(s) && WorkEnabled(s, id, a)
    ensures Shape(ApplyWork(s, id, a))
  {
    match a
    case Claim(now) => ClaimKeepsShape(s, id, now);
    case Fallback(profile, now) => FallbackKeepsShape(s, id, profile, now);
    case Complete(now) => CompleteKeepsShape(s, id, now);
    case Abandon => AbandonKeepsShape(s, id);
    case FailMark(now) => FailMarkKeepsShape(s, id, now);
    case Refund => RefundKeepsShape(s, id);
    case ClearFlag(now) => ClearKeepsShape(s, id, now);
  }

  // ---- changes of one create request ----

  lemma DropKeepsShape(s: State, id: string)
    requires Shape(s) && id in s.creators
    ensures Shape(Drop(s, id))
  {
  }

  lemma SetPhaseKeepsShape(s: State, id: string, phase: Phase)
    requires Shape(s) && id in s.creators && !s.creators[id].phase.Chosen? && !phase.Chosen?
    requires phase.balance == s.creators[id].phase.balance && phase.cap == s.creators[id].phase.cap
    ensures Shape(SetPhase(s, id, phase))
  {
  }

  lemma TakeLock(locks: map<Account, string>, creators: map<string, Creator>, id: string, c: Creator)
    requires LocksOk(locks, creators) && id in creators && creators[id].phase.Chosen? && !c.phase.Chosen?
    requires c.row == creators[id].row && TaskAccount(c.row) !in locks
    ensures LocksOk(locks[TaskAccount(c.row) := id], creators[id := c])
  {
  }

  lemma LockedIsOk(db: Db, creators: map<string, Creator>, id: string)
    requires CreatorsOk(db, creators) && id in creators
    requires var a := TaskAccount(creators[id].row);
      HasRow(db, a) && Balance(db, a) >= DebitAmount(creators[id].row)
    ensures var a := TaskAccount(creators[id].row);
      CreatorsOk(db, creators[id := creators[id].(phase := Locked(Balance(db, a), CapOf(db, a)))])
  {
  }

  lemma LockKeepsShape(s: State, id: string)
    requires Shape(s) && id in s.creators && s.creators[id].phase.Chosen? && TaskAccount(s.creators[id].row) !in s.locks
    ensures Shape(DoLock(s, id))
  {
    var c := s.creators[id];
    var a := TaskAccount(c.row);
    DropKeepsShape(s, id);
    if HasRow(s.db, a) && Balance(s.db, a) >= DebitAmount(c.row) {
      var locked := c.(phase := Locked(Balance(s.db, a), CapOf(s.db, a)));
      TakeLock(s.locks, s.creators, id, locked);
      LockedIsOk(s.db, s.creators, id);
      assert DoLock(s, id) == s.(creators := s.creators[id := locked], locks := s.locks[a := id]);
    } else {
      assert DoLock(s, id) == Drop(s, id);
    }
  }

  lemma AdmitKeepsShape(s: State, id: string)
    requires Shape(s) && RequestEnabled(s, id, Admit)
    ensures Shape(DoAdmit(s, id))
  {
    DropKeepsShape(s, id);
    SetPhaseKeepsShape(s, id, Admitted(s.creators[id].phase.balance, s.creators[id].phase.cap));
  }

  lemma WriteKeepsShape(s: State, id: string)
    requires Shape(s) && RequestEnabled(s, id, Write)
    ensures Shape(DoWrite(s, id))
  {
    DropKeepsShape(s, id);
    SetPhaseKeepsShape(s, id, Written(s.creators[id].phase.balance, s.creators[id].phase.cap));
  }

  lemma BeginKeepsShape(s: State, id: string, row: Task)
    requires Shape(s) && s.up && id !in s.db.tasks && id !in s.creators
    requires IsFresh(row)
    ensures Shape(DoBegin(s, id, row))
  {
  }

  lemma InsertOwners(db: Db, creators: map<string, Creator>, workers: map<string, Worker>, id: string, row: Task)
    requires CreatorsOk(db, creators) && WorkersOk(db.tasks, workers) && RowsOk(db)
    requires id !in db.tasks && id !in creators && RowOk(row) && HasRow(db, TaskAccount(row))
    ensures var after := db.(tasks := db.tasks[id := row]);
      CreatorsOk(after, creators) && WorkersOk(after.tasks, workers) && RowsOk(after)
  {
  }

  lemma InsertLives(s: State, id: string, row: Task, e: Entry)
    requires BookOk(s.db.tasks, s.book) && LivesOk(s.db.tasks, s.book, s.workers, s.cut, s.crashed)
    requires id !in s.db.tasks && id !in s.workers && id !in s.cut
    requires EntryOk(e, row) && e.refunds == 0 && row.reserved && !row.charged && row.status.Queued?
    ensures BookOk(s.db.tasks[id := row], s.book[id := e])
    ensures LivesOk(s.db.tasks[id := row], s.book[id := e], s.workers, s.cut, s.crashed)
  {
  }

  lemma InsertKeepsShape(s: State, id: string, row: Task, e: Entry)
    requires Shape(s) && id !in s.db.tasks && id !in s.creators && HasRow(s.db, TaskAccount(row))
    requires IsFresh(row) && EntryOk(e, row) && e.refunds == 0
    ensures Shape(s.(db := s.db.(tasks := s.db.tasks[id := row]), book := s.book[id := e]))
  {
    InsertOwners(s.db, s.creators, s.workers, id, row);
    InsertLives(s, id, row, e);
  }

  lemma WrittenFacts(s: State, id: string)
    requires Shape(s) && id in s.creators && s.creators[id].phase.Written?
    ensures var row := s.creators[id].row;
      && id !in s.db.tasks && IsFresh(row)
      && HasRow(s.db, TaskAccount(row)) && 1 <= DebitAmount(row) <= Balance(s.db, TaskAccount(row))
      && EntryOk(Entry(TaskAccount(row), DebitAmount(row), 0, 0), row)
  {
    assert HoldOk(s.db, s.creators[id]);
  }

  lemma CommitKeepsShape(s: State, id: string)
    requires Shape(s) && RequestEnabled(s, id, Commit)
    ensures Shape(DoCommit(s, id))
  {
    var row := s.creators[id].row;
    var a := TaskAccount(row);
    var n := DebitAmount(row);
    WrittenFacts(s, id);
    DropKeepsShape(s, id);
    CreditStep(Drop(s, id), a, -n, s.funded);
    CreditMoves(s.db, a, -n);
    var debited := Drop(s, id).(db := Credit(s.db, a, -n), funded := s.funded);
    InsertKeepsShape(debited, id, row, Entry(a, n, 0, 0));
  }

  lemma RequestKeepsShape(s: State, id: string, a: Request)
    requires Shape(s) && RequestEnabled(s, id, a)
    ensures Shape(ApplyRequest(s, id, a))
  {
    match a
    case Begin(w, snapshot, prices, params, profile, now) =>
      QueuedRowIsFresh(w, snapshot, prices, params, profile, now);
      var billing := SelectBilling(snapshot, NormalizeTaskSize(params).1, prices).value;
      BeginKeepsShape(s, id, QueuedRow(w, billing, params, profile, now));
    case Lock => LockKeepsShape(s, id);
    case Admit => AdmitKeepsShape(s, id);
    case Write => WriteKeepsShape(s, id);
    case Commit => CommitKeepsShape(s, id);
    case Abort => DropKeepsShape(s, id);
  }

  lemma InflowKeepsShape(s: State, a: Inflow)
    requires Shape(s) && InflowEnabled(s, a)
    ensures Shape(ApplyInflow(s, a))
  {
    match a
    case NewWallet(w) => NewWalletKeepsShape(s, w);
    case TopUp(w, n) => CreditStep(s, WalletRow(w), n, Fund(s, WalletRow(w), n));
    case Redeem(key, n, m) => RedeemKeepsShape(s, key, n, m);
  }

  // ---- process ----

  lemma CrashLives(s: State)
    requires Shape(s)
    ensures LivesOk(s.db.tasks, s.book, map[], DoCrash(s).cut, true) && DoCrash(s).cut <= s.db.tasks.Keys
  {
    forall id | id in s.db.tasks
      ensures LifeOk(s.db.tasks[id], s.book[id].refunds, None, id in DoCrash(s).cut, true)
    {
      assert LifeOk(s.db.tasks[id], s.book[id].refunds, StageOf(s.workers, id), id in s.cut, s.crashed);
    }
  }

  lemma CrashKeepsShape(s: State)
    requires Shape(s)
    ensures Shape(DoCrash(s))
  {
    CrashLives(s);
  }

  lemma RecoveredLife(t: Task, e: Entry, cutoff: int, now: int, inCut: bool, crashed: bool)
    requires EntryOk(e, t) && LifeOk(t, e.refunds, None, inCut, crashed) && Stale(t, cutoff)
    ensures EntryOk(GiveBack(e, RefundAmount(t)), Recovered(t, now))
    ensures LifeOk(Recovered(t, now), GiveBack(e, RefundAmount(t)).refunds, None, inCut, crashed)
  {
  }

  lemma RecoverLives(s: State, cutoff: int, now: int)
    requires Shape(s) && !s.up
    ensures var u := DoRecover(s, cutoff, now);
      BookOk(u.db.tasks, u.book) && LivesOk(u.db.tasks, u.book, map[], u.cut, u.crashed)
  {
    var rows := StaleRows(s.db, cutoff);
    if AllRowsExist(s.db, rows) {
      RecoverEffects(s.db, cutoff, now);
      var u := DoRecover(s, cutoff, now);
      forall id | id in s.db.tasks
        ensures EntryOk(u.book[id], u.db.tasks[id])
        ensures LifeOk(u.db.tasks[id], u.book[id].refunds, None, id in u.cut, u.crashed)
      {
        assert EntryOk(s.book[id], s.db.tasks[id]) && StageOf(s.workers, id).None?;
        assert id in rows <==> Stale(s.db.tasks[id], cutoff);
        if id in rows {
          RecoveredLife(s.db.tasks[id], s.book[id], cutoff, now, id in s.cut, s.crashed);
        }
      }
    }
  }

  lemma RefundSumNonNegative(rows: map<string, Task>)
    ensures forall a :: RefundSum(rows, a) >= 0
  {
    forall a ensures RefundSum(rows, a) >= 0 {
      TotalNonNegative(rows, RefundTo(a));
    }
  }

  lemma RecoverBalances(s: State, cutoff: int, now: int)
    requires Shape(s) && AllRowsExist(s.db, StaleRows(s.db, cutoff))
    ensures BalancesOk(Recover(s.db, cutoff, now))
  {
    RefundSumNonNegative(StaleRows(s.db, cutoff));
  }

  lemma RecoverOwners(s: State, cutoff: int, now: int)
    requires Shape(s) && AllRowsExist(s.db, StaleRows(s.db, cutoff))
    ensures RowsOk(Recover(s.db, cutoff, now))
  {
    RecoverEffects(s.db, cutoff, now);
    var d := Recover(s.db, cutoff, now);
    forall id | id in d.tasks ensures RowOk(d.tasks[id]) && HasRow(d, TaskAccount(d.tasks[id])) {
      assert SameDebt(d.tasks[id], s.db.tasks[id]);
    }
  }

  lemma RecoverKeepsShape(s: State, cutoff: int, now: int)
    requires Shape(s) && !s.up
    ensures Shape(DoRecover(s, cutoff, now))
  {
    RecoverLives(s, cutoff, now);
    if AllRowsExist(s.db, StaleRows(s.db, cutoff)) {
      RecoverBalances(s, cutoff, now);
      RecoverOwners(s, cutoff, now);
      RecoverEffects(s.db, cutoff, now);
    }
  }

  /** Every step keeps the structural invariant. */
  lemma StepKeepsShape(s: State, a: Action)
    requires Shape(s) && Enabled(s, a)
    ensures Shape(Apply(s, a))
  {
    match a
    case Inflows(i) => InflowKeepsShape(s, i);
    case Requests(id, r) => RequestKeepsShape(s, id, r);
    case Works(id, w) => WorkKeepsShape(s, id, w);
    case Crash => CrashKeepsShape(s);
    case RecoverStale(cutoff, now) => RecoverKeepsShape(s, cutoff, now);
    case Start =>
  }
}
