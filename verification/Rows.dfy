/** The rows of the billing tables and what single SQL statements do to them. */
module Rows {

  datatype Status = Queued | Running | Done | Failed

  const SOURCE_CREDITS := "credits"
  const SOURCE_ENTITLEMENT := "entitlement"
  const DEFAULT_MAX_CONCURRENT := 6

  /** A row of `tasks`. A NULL wallet or service is the empty text, as the queries coalesce it;
      `params` is the parameter object of the stored request. */
  datatype Task = Task(
    wallet: string, service: string, source: string, billingKey: string, units: int,
    reserved: bool, charged: bool, status: Status,
    size: string, params: map<string, string>, profile: string, createdAt: int, updatedAt: int)

  datatype EntKey = EntKey(wallet: string, service: string)
  datatype Entitlement = Entitlement(remaining: int, maxConcurrent: int)

  /** The balances of `wallets`, the rows of `wallet_entitlements` and of `tasks`. */
  datatype Db = Db(wallets: map<string, int>, ents: map<EntKey, Entitlement>, tasks: map<string, Task>)

  /** The row a balance lives in: a wallet's credits or an entitlement's remaining count. */
  datatype Account = WalletRow(wallet: string) | EntRow(key: EntKey)

  function MaxInt(a: int, b: int): int {
    if a > b then a else b
  }

  function AccountOf(wallet: string, service: string, source: string): Account {
    if source == SOURCE_CREDITS then WalletRow(wallet) else EntRow(EntKey(wallet, service))
  }

  function TaskAccount(t: Task): Account {
    AccountOf(t.wallet, t.service, t.source)
  }

  /** What a failed task gives back. */
  function RefundAmount(t: Task): int {
    if t.source == SOURCE_CREDITS then MaxInt(1, t.units) else 1
  }

  predicate HasRow(db: Db, a: Account) {
    match a
    case WalletRow(w) => w in db.wallets
    case EntRow(k) => k in db.ents
  }

  function Balance(db: Db, a: Account): int {
    match a
    case WalletRow(w) => if w in db.wallets then db.wallets[w] else 0
    case EntRow(k) => if k in db.ents then db.ents[k].remaining else 0
  }

  /** UPDATE ... SET balance = balance + n: no effect when the row is missing. */
  function Credit(db: Db, a: Account, n: int): Db {
    match a
    case WalletRow(w) =>
      if w in db.wallets then db.(wallets := db.wallets[w := db.wallets[w] + n]) else db
    case EntRow(k) =>
      if k in db.ents then db.(ents := db.ents[k := db.ents[k].(remaining := db.ents[k].remaining + n)]) else db
  }

  /** A credit moves the one balance it names and nothing else. */
  lemma CreditMoves(db: Db, a: Account, n: int)
    ensures forall b :: HasRow(Credit(db, a, n), b) == HasRow(db, b)
    ensures forall b :: Balance(Credit(db, a, n), b)
                     == Balance(db, b) + (if a == b && HasRow(db, a) then n else 0)
    ensures Credit(db, a, n).tasks == db.tasks
    ensures forall k :: k in db.ents ==> Credit(db, a, n).ents[k].maxConcurrent == db.ents[k].maxConcurrent
  {
  }

  predicate IsActive(t: Task) {
    t.status.Queued? || t.status.Running?
  }

  predicate IsRunning(t: Task) {
    t.status.Running?
  }

  /** The effective concurrency of an entitlement: a non-positive setting reads as the default. */
  function EffectiveMax(maxConcurrent: int): int {
    if maxConcurrent <= 0 then DEFAULT_MAX_CONCURRENT else maxConcurrent
  }

  /** The concurrency cap a creator billed to this account reads. */
  function CapOf(db: Db, a: Account): int {
    if a.EntRow? && a.key in db.ents then EffectiveMax(db.ents[a.key].maxConcurrent) else DEFAULT_MAX_CONCURRENT
  }

  /** What creating a task takes from its account. */
  function DebitAmount(t: Task): int {
    if t.source == SOURCE_CREDITS then t.units else 1
  }

  /** INSERT ... ON CONFLICT DO UPDATE of a redeemed entitlement: the count adds up, the
      concurrency is the greater of the two. */
  function Grant(ents: map<EntKey, Entitlement>, k: EntKey, credits: int,
                 maxConcurrent: int): map<EntKey, Entitlement> {
    if k in ents
    then ents[k := Entitlement(ents[k].remaining + credits, MaxInt(ents[k].maxConcurrent, maxConcurrent))]
    else ents[k := Entitlement(credits, maxConcurrent)]
  }

  /** A task of a named wallet and service, for at least one unit. */
  predicate RowOk(t: Task) {
    t.wallet != "" && t.service != "" && t.units >= 1
  }

  /** A row as it is inserted. */
  predicate IsFresh(t: Task) {
    RowOk(t) && t.reserved && !t.charged && t.status.Queued?
  }

  // The single statements that move a task through its life.

  /** UPDATE tasks SET status = 'running' ... WHERE status = 'queued' */
  function MarkRunning(db: Db, id: string, now: int): Db {
    if id in db.tasks && db.tasks[id].status.Queued?
    then db.(tasks := db.tasks[id := db.tasks[id].(status := Running, updatedAt := now)])
    else db
  }

  /** UPDATE tasks SET status = 'done', credit_charged = true: no guard on the status. */
  function MarkDone(db: Db, id: string, now: int): Db {
    if id in db.tasks
    then db.(tasks := db.tasks[id := db.tasks[id].(status := Done, charged := true, updatedAt := now)])
    else db
  }

  /** UPDATE tasks SET status = 'error' ... WHERE status = 'running' */
  function MarkFailed(db: Db, id: string, now: int): Db {
    if id in db.tasks && db.tasks[id].status.Running?
    then db.(tasks := db.tasks[id := db.tasks[id].(status := Failed, updatedAt := now)])
    else db
  }

  /** UPDATE tasks SET credit_reserved = false */
  function ClearReserved(db: Db, id: string, now: int): Db {
    if id in db.tasks
    then db.(tasks := db.tasks[id := db.tasks[id].(reserved := false, updatedAt := now)])
    else db
  }

  /** UPDATE tasks SET service_profile */
  function SetProfile(db: Db, id: string, profile: string, now: int): Db {
    if id in db.tasks
    then db.(tasks := db.tasks[id := db.tasks[id].(profile := profile, updatedAt := now)])
    else db
  }

  /** Whether the copy of a task held by a worker entitles it to a refund. */
  predicate Refundable(t: Task) {
    t.wallet != "" && t.service != "" && t.reserved && !t.charged
  }

  /** All statements of a failure, run one after the other. */
  function FailAndRefund(db: Db, id: string, copy: Task, now: int): Db {
    var marked := MarkFailed(db, id, now);
    if Refundable(copy)
    then ClearReserved(Credit(marked, TaskAccount(copy), RefundAmount(copy)), id, now)
    else marked
  }
}
