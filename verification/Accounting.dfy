/** The credit ledger as a concurrent state machine: task creators that hold row locks over several
    statements, workers that run three separate statements when a task fails, top-ups, redemptions,
    crashes and restarts of one instance. */
module Accounting {
  import opened Text
  import opened Totals
  import opened Rows
  import opened Routing
  import opened Recovery
  import opened Runs

  /** Where a create request stands: billing chosen from an unlocked snapshot; balance row locked
      and re-read; active tasks counted; debit and insert executed but not committed. */
  datatype Phase =
    | Chosen
    | Locked(balance: int, cap: int)
    | Admitted(balance: int, cap: int)
    | Written(balance: int, cap: int)

  /** A create request; `row` is the task it means to insert. */
  datatype Creator = Creator(row: Task, phase: Phase)

  /** Where a worker stands: working upstream; after the status update of a failure; after the
      refund and before the flag update. */
  datatype Stage = Executing | Marked | Returned

  /** A worker; `copy` is the task row it read when claiming. */
  datatype Worker = Worker(copy: Task, stage: Stage)

  /** History, not stored by the program: what a task took from its account, how often and how
      much was given back. */
  datatype Entry = Entry(account: Account, units: int, refunds: nat, returned: int)

  /** `up` tells whether workers and requests are served; creators are keyed by their task id;
      `locks` names the creator that holds a balance row. `book`, `funded`, `cut` and `crashed` are
      history: debits and refunds, inflows per account, tasks whose worker died between the status
      update and the refund, and whether a crash ever happened. */
  datatype State = State(
    up: bool, db: Db, locks: map<Account, string>,
    creators: map<string, Creator>, workers: map<string, Worker>,
    book: map<string, Entry>, funded: map<Account, int>, cut: set<string>, crashed: bool)

  /** Money entering from outside: a new wallet, a paid order, a redeemed licence. */
  datatype Inflow =
    | NewWallet(w: string)
    | TopUp(w: string, credits: int)
    | Redeem(key: EntKey, credits: int, maxConcurrent: int)

  /** The steps of one create request. */
  datatype Request =
    | Begin(w: string, snapshot: Snapshot, prices: map<(string, string), Price>,
            params: map<string, string>, profile: string, now: int)
    | Lock
    | Admit
    | Write
    | Commit
    | Abort

  /** The steps of one worker. */
  datatype Work =
    | Claim(now: int)
    | Fallback(profile: string, now: int)
    | Complete(now: int)
    | Abandon
    | FailMark(now: int)
    | Refund
    | ClearFlag(now: int)

  datatype Action =
    | Inflows(inflow: Inflow)
    | Requests(id: string, request: Request)
    | Works(id: string, work: Work)
    | Crash
    | RecoverStale(cutoff: int, now: int)
    | Start

  function Initial(): State {
    State(false, Db(map[], map[], map[]), map[], map[], map[], map[], map[], {}, false)
  }

  function FundedOn(funded: map<Account, int>, a: Account): int {
    if a in funded then funded[a] else 0
  }

  /** Everything that ever came into an account. */
  function Funded(s: State, a: Account): int {
    FundedOn(s.funded, a)
  }

  function Fund(s: State, a: Account, n: int): map<Account, int> {
    s.funded[a := Funded(s, a) + n]
  }

  predicate ActiveFor(w: string, service: string, t: Task) {
    t.wallet == w && t.service == service && IsActive(t)
  }

  /** SELECT COUNT(*) of the active tasks of a wallet and service: committed rows only. */
  function ActiveTasks(db: Db, w: string, service: string): nat {
    Count(db.tasks, (t: Task) => ActiveFor(w, service, t))
  }

  /** The count of the queued and running tasks of the wallet and service. */
  lemma ActiveTasksCounts(db: Db, w: string, service: string)
    ensures ActiveTasks(db, w, service)
         == |set id | id in db.tasks && db.tasks[id].wallet == w && db.tasks[id].service == service
                      && (db.tasks[id].status.Queued? || db.tasks[id].status.Running?)|
  {
    assert Where(db.tasks, (t: Task) => ActiveFor(w, service, t))
        == set id | id in db.tasks && db.tasks[id].wallet == w && db.tasks[id].service == service
                    && (db.tasks[id].status.Queued? || db.tasks[id].status.Running?);
  }

  /** No committed row and no history differs: what a request does stays its own until it commits. */
  predicate SameRows(s: State, u: State) {
    u.db == s.db && u.book == s.book && u.funded == s.funded && u.workers == s.workers && u.cut == s.cut
  }

  /** Roll back: the request ends and its lock is released. */
  function Drop(s: State, id: string): (u: State)
    requires id in s.creators
    ensures SameRows(s, u)
  {
    var c := s.creators[id];
    s.(creators := s.creators - {id}, locks := if c.phase.Chosen? then s.locks else s.locks - {TaskAccount(c.row)})
  }

  function SetPhase(s: State, id: string, phase: Phase): (u: State)
    requires id in s.creators
    ensures SameRows(s, u)
  {
    s.(creators := s.creators[id := s.creators[id].(phase := phase)])
  }

  /** SELECT ... FOR UPDATE, once the row is free. */
  function DoLock(s: State, id: string): (u: State)
    requires id in s.creators && s.creators[id].phase.Chosen?
    ensures SameRows(s, u)
  {
    var row := s.creators[id].row;
    var a := TaskAccount(row);
    if !HasRow(s.db, a) then Drop(s, id)
    else
      var balance := Balance(s.db, a);
      if (if row.source == SOURCE_CREDITS then balance < row.units else balance <= 0) then Drop(s, id)
      else
        SetPhase(s, id, Locked(balance, CapOf(s.db, a))).(locks := s.locks[a := id])
  }

  function DoAdmit(s: State, id: string): (u: State)
    requires id in s.creators && s.creators[id].phase.Locked?
    ensures SameRows(s, u)
  {
    var c := s.creators[id];
    if ActiveTasks(s.db, c.row.wallet, c.row.service) >= c.phase.cap then Drop(s, id)
    else SetPhase(s, id, Admitted(c.phase.balance, c.phase.cap))
  }

  /** The debit and the insert; the debit of credits repeats the balance check. */
  function DoWrite(s: State, id: string): (u: State)
    requires id in s.creators && s.creators[id].phase.Admitted?
    ensures SameRows(s, u)
  {
    var c := s.creators[id];
    var a := TaskAccount(c.row);
    if !HasRow(s.db, a) || (c.row.source == SOURCE_CREDITS && Balance(s.db, a) < c.row.units) then Drop(s, id)
    else SetPhase(s, id, Written(c.phase.balance, c.phase.cap))
  }

  function DoCommit(s: State, id: string): State
    requires id in s.creators && s.creators[id].phase.Written?
  {
    var row := s.creators[id].row;
    var a := TaskAccount(row);
    var debited := Credit(s.db, a, -DebitAmount(row));
    s.(db := debited.(tasks := debited.tasks[id := row]),
       creators := s.creators - {id}, locks := s.locks - {a},
       book := s.book[id := Entry(a, DebitAmount(row), 0, 0)])
  }

  function DoRefund(s: State, id: string): State
    requires id in s.workers
  {
    var copy := s.workers[id].copy;
    var a, n := TaskAccount(copy), RefundAmount(copy);
    s.(db := Credit(s.db, a, n), workers := s.workers[id := Worker(copy, Returned)],
       book := if id in s.book then s.book[id := GiveBack(s.book[id], n)] else s.book)
  }

  function GiveBack(e: Entry, n: int): Entry {
    e.(refunds := e.refunds + 1, returned := e.returned + n)
  }

  function DoTopUp(s: State, w: string, n: int): State {
    s.(db := Credit(s.db, WalletRow(w), n), funded := Fund(s, WalletRow(w), n))
  }

  function DoRedeem(s: State, key: EntKey, n: int, maxConcurrent: int): State {
    s.(db := s.db.(ents := Grant(s.db.ents, key, n, maxConcurrent)), funded := Fund(s, EntRow(key), n))
  }

  /** What comes in is on the balance at once, and on no other one. */
  lemma InflowArrives(s: State, w: string, key: EntKey, n: int, maxConcurrent: int, a: Account)
    requires w in s.db.wallets
    ensures var (paid, redeemed) := (DoTopUp(s, w, n), DoRedeem(s, key, n, maxConcurrent));
      && Balance(paid.db, a) == Balance(s.db, a) + (if a == WalletRow(w) then n else 0)
      && Funded(paid, a) == Funded(s, a) + (if a == WalletRow(w) then n else 0)
      && Balance(redeemed.db, a) == Balance(s.db, a) + (if a == EntRow(key) then n else 0)
      && Funded(redeemed, a) == Funded(s, a) + (if a == EntRow(key) then n else 0)
  {
    CreditMoves(s.db, WalletRow(w), n);
  }

  function DoClaim(s: State, id: string, now: int): State
    requires id in s.db.tasks
  {
    var db := MarkRunning(s.db, id, now);
    s.(db := db, workers := s.workers[id := Worker(db.tasks[id], Executing)])
  }

  function DoFallback(s: State, id: string, profile: string, now: int): State
    requires id in s.workers
  {
    s.(db := SetProfile(s.db, id, profile, now),
       workers := s.workers[id := s.workers[id].(copy := s.workers[id].copy.(profile := profile))])
  }

  function DoComplete(s: State, id: string, now: int): State {
    s.(db := MarkDone(s.db, id, now), workers := s.workers - {id})
  }

  /** The first statement of a failure; the others follow only for a refundable copy. */
  function DoFailMark(s: State, id: string, now: int): State
    requires id in s.workers
  {
    s.(db := MarkFailed(s.db, id, now),
       workers := if Refundable(s.workers[id].copy) then s.workers[id := s.workers[id].(stage := Marked)]
                  else s.workers - {id})
  }

  function DoClear(s: State, id: string, now: int): State {
    s.(db := ClearReserved(s.db, id, now), workers := s.workers - {id})
  }

  /** The process dies: requests roll back, workers stop where they are. */
  function DoCrash(s: State): State {
    s.(up := false, locks := map[], creators := map[], workers := map[], crashed := true,
       cut := s.cut + (set id | id in s.workers && s.workers[id].stage.Marked?))
  }

  ghost function DoRecover(s: State, cutoff: int, now: int): State {
    var rows := StaleRows(s.db, cutoff);
    if AllRowsExist(s.db, rows) then
      s.(db := Recover(s.db, cutoff, now),
         book := map id | id in s.book ::
           if id in rows then GiveBack(s.book[id], RefundAmount(rows[id])) else s.book[id])
    else s
  }

  predicate InStage(s: State, id: string, stage: Stage) {
    id in s.workers && s.workers[id].stage == stage
  }

  /** An inserted task billed to an entitlement keeps a key-share lock on its wallet row, for the
      foreign key from tasks to wallets; FOR UPDATE on the wallet waits for it, and it for them. */
  predicate SharesWallet(c: Creator, w: string) {
    c.phase.Written? && c.row.wallet == w && TaskAccount(c.row).EntRow?
  }

  predicate WalletUnshared(s: State, w: string) {
    forall id :: id in s.creators ==> !SharesWallet(s.creators[id], w)
  }

  /** SELECT ... FOR UPDATE does not have to wait. */
  predicate CanLock(s: State, a: Account) {
    a !in s.locks && (a.WalletRow? ==> WalletUnshared(s, a.wallet))
  }

  predicate InflowEnabled(s: State, a: Inflow) {
    match a
    case NewWallet(w) => w != "" && w !in s.db.wallets
    case TopUp(w, credits) => w in s.db.wallets && credits >= 0 && WalletRow(w) !in s.locks
    case Redeem(key, credits, m) =>
      && key.wallet in s.db.wallets && credits > 0 && m > 0
      && CanLock(s, WalletRow(key.wallet)) && EntRow(key) !in s.locks
  }

  function ApplyInflow(s: State, a: Inflow): State {
    match a
    case NewWallet(w) => s.(db := s.db.(wallets := s.db.wallets[w := 0]))
    case TopUp(w, n) => DoTopUp(s, w, n)
    case Redeem(key, n, m) => DoRedeem(s, key, n, m)
  }

  predicate RequestEnabled(s: State, id: string, a: Request) {
    match a
    case Begin(w, snapshot, prices, params, _, _) =>
      && s.up && id !in s.db.tasks && id !in s.creators && w in s.db.wallets && w != ""
      && SelectBilling(snapshot, NormalizeTaskSize(params).1, prices).Some?
    case Lock => id in s.creators && s.creators[id].phase.Chosen? && CanLock(s, TaskAccount(s.creators[id].row))
    case Admit => id in s.creators && s.creators[id].phase.Locked?
    case Write =>
      && id in s.creators && s.creators[id].phase.Admitted?
      && (TaskAccount(s.creators[id].row).EntRow? ==> WalletRow(s.creators[id].row.wallet) !in s.locks)
    case Commit => id in s.creators && s.creators[id].phase.Written?
    case Abort => id in s.creators
  }

  /** What reading a wallet and its entitlements in service order returns at this moment. */
  predicate ReadsAs(db: Db, w: string, snapshot: Snapshot) {
    && w in db.wallets && snapshot.credits == db.wallets[w]
    && (forall e :: e in snapshot.ents ==>
          EntKey(w, e.service) in db.ents && db.ents[EntKey(w, e.service)] == Entitlement(e.remaining, e.maxConcurrent))
    && (forall k :: k in db.ents && k.wallet == w ==> exists e :: e in snapshot.ents && e.service == k.service)
    && (forall i, j :: 0 <= i < j < |snapshot.ents| ==>
          && snapshot.ents[i].service != snapshot.ents[j].service
          && LexLeq(snapshot.ents[i].service, snapshot.ents[j].service))
  }

  function DoBegin(s: State, id: string, row: Task): State {
    s.(creators := s.creators[id := Creator(row, Chosen)])
  }

  function ApplyRequest(s: State, id: string, a: Request): State
    requires RequestEnabled(s, id, a)
  {
    match a
    case Begin(w, snapshot, prices, params, profile, now) =>
      var billing := SelectBilling(snapshot, NormalizeTaskSize(params).1, prices).value;
      DoBegin(s, id, QueuedRow(w, billing, params, profile, now))
    case Lock => DoLock(s, id)
    case Admit => DoAdmit(s, id)
    case Write => DoWrite(s, id)
    case Commit => DoCommit(s, id)
    case Abort => Drop(s, id)
  }

  predicate WorkEnabled(s: State, id: string, a: Work) {
    match a
    case Claim(_) => s.up && id in s.db.tasks && s.db.tasks[id].status.Queued?
    case Fallback(_, _) => InStage(s, id, Executing)
    case Complete(_) => InStage(s, id, Executing)
    case Abandon => InStage(s, id, Executing)
    case FailMark(_) => InStage(s, id, Executing)
    case Refund => InStage(s, id, Marked) && TaskAccount(s.workers[id].copy) !in s.locks
    case ClearFlag(_) => InStage(s, id, Returned)
  }

  function ApplyWork(s: State, id: string, a: Work): State
    requires WorkEnabled(s, id, a)
  {
    match a
    case Claim(now) => DoClaim(s, id, now)
    case Fallback(profile, now) => DoFallback(s, id, profile, now)
    case Complete(now) => DoComplete(s, id, now)
    case Abandon => s.(workers := s.workers - {id})
    case FailMark(now) => DoFailMark(s, id, now)
    case Refund => DoRefund(s, id)
    case ClearFlag(now) => DoClear(s, id, now)
  }

  predicate Enabled(s: State, a: Action) {
    match a
    case Inflows(i) => InflowEnabled(s, i)
    case Requests(id, r) => RequestEnabled(s, id, r)
    case Works(id, w) => WorkEnabled(s, id, w)
    case Crash => true
    case RecoverStale(_, _) => !s.up
    case Start => !s.up
  }

  ghost function Apply(s: State, a: Action): State
    requires Enabled(s, a)
  {
    match a
    case Inflows(i) => ApplyInflow(s, i)
    case Requests(id, r) => ApplyRequest(s, id, r)
    case Works(id, w) => ApplyWork(s, id, w)
    case Crash => DoCrash(s)
    case RecoverStale(cutoff, now) => DoRecover(s, cutoff, now)
    case Start => s.(up := true)
  }

  ghost predicate Step(s: State, a: Action, u: State) {
    Enabled(s, a) && u == Apply(s, a)
  }

  /** A run from the empty database. */
  ghost predicate IsRun(states: seq<State>, actions: seq<Action>) {
    Follows(Step, states, actions) && states[0] == Initial()
  }
}
