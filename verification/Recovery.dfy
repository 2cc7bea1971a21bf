/** Batch recovery of stale running tasks. */
module Recovery {
  import opened Clock
  import opened Totals
  import opened Rows

  const DEFAULT_UPSTREAM_TIMEOUT := 600 * SECOND
  const STALE_GRACE := 2 * 60 * SECOND

  /** The age after which a running task counts as stale. */
  function StaleAfter(staleAfter: int): int {
    if staleAfter <= 0 then DEFAULT_UPSTREAM_TIMEOUT + STALE_GRACE else staleAfter
  }

  /** The WHERE clause of the recovery update. */
  predicate Stale(t: Task, cutoff: int) {
    && t.status.Running? && t.wallet != "" && t.service != ""
    && t.reserved && !t.charged && t.updatedAt < cutoff
  }

  function Recovered(t: Task, now: int): Task {
    t.(status := Failed, reserved := false, updatedAt := now)
  }

  /** The rows the recovery update returns, as they were before it. */
  function StaleRows(db: Db, cutoff: int): map<string, Task> {
    map id | id in db.tasks && Stale(db.tasks[id], cutoff) :: db.tasks[id]
  }

  function MarkRecovered(tasks: map<string, Task>, rows: map<string, Task>, now: int): map<string, Task> {
    map id | id in tasks :: if id in rows then Recovered(tasks[id], now) else tasks[id]
  }

  /** What a task gives back to one account. */
  ghost function RefundTo(a: Account): (string, Task) -> int {
    (id: string, t: Task) => if TaskAccount(t) == a then RefundAmount(t) else 0
  }

  predicate AllRowsExist(db: Db, rows: map<string, Task>) {
    forall id :: id in rows ==> HasRow(db, TaskAccount(rows[id]))
  }

  /** What the given rows together give back to one account. */
  ghost function RefundSum(rows: map<string, Task>, a: Account): int {
    Total(rows, RefundTo(a))
  }

  ghost function CreditedWallets(wallets: map<string, int>, rows: map<string, Task>): map<string, int> {
    map w | w in wallets :: wallets[w] + RefundSum(rows, WalletRow(w))
  }

  ghost function CreditedEnts(ents: map<EntKey, Entitlement>, rows: map<string, Task>): map<EntKey, Entitlement> {
    map k | k in ents :: ents[k].(remaining := ents[k].remaining + RefundSum(rows, EntRow(k)))
  }

  /** The state after the given rows were recovered, account by account. */
  ghost function RecoverRows(db: Db, rows: map<string, Task>, now: int): Db {
    Db(CreditedWallets(db.wallets, rows), CreditedEnts(db.ents, rows), MarkRecovered(db.tasks, rows, now))
  }

  /** The whole recovery transaction: rolled back when a balance row is missing. */
  ghost function Recover(db: Db, cutoff: int, now: int): Db {
    var rows := StaleRows(db, cutoff);
    if AllRowsExist(db, rows) then RecoverRows(db, rows, now) else db
  }

  // ---- one task at a time ----

  datatype Outcome = Missing | Fine(db: Db)

  /** Recovering a single task: mark it, give its units back. */
  function RecoverOne(db: Db, id: string, now: int): Outcome
    requires id in db.tasks
  {
    var t := db.tasks[id];
    if HasRow(db, TaskAccount(t))
    then Fine(Credit(db.(tasks := db.tasks[id := Recovered(t, now)]), TaskAccount(t), RefundAmount(t)))
    else Missing
  }

  /** Recovering tasks one after the other in the given order, stopping at a missing row. */
  function RecoverEach(db: Db, order: seq<string>, now: int): (r: Outcome)
    requires forall id :: id in order ==> id in db.tasks
    ensures r.Fine? ==> r.db.tasks.Keys == db.tasks.Keys
  {
    if order == [] then Fine(db)
    else match RecoverEach(db, order[..|order| - 1], now)
      case Missing => Missing
      case Fine(d) => RecoverOne(d, order[|order| - 1], now)
  }

  /** `order` names every row exactly once. */
  ghost predicate Enumerates(order: seq<string>, rows: map<string, Task>) {
    && (forall id :: id in order <==> id in rows)
    && (forall i, j :: 0 <= i < j < |order| ==> order[i] != order[j])
  }

  lemma RecoverNothing(db: Db, now: int)
    ensures RecoverRows(db, map[], now) == db
  {
    assert RecoverRows(db, map[], now).wallets == db.wallets;
    assert RecoverRows(db, map[], now).ents == db.ents;
    assert RecoverRows(db, map[], now).tasks == db.tasks;
  }

  /** One more row adds its refund to its own account's total only. */
  lemma RefundSumMore(rows: map<string, Task>, id: string, t: Task, a: Account)
    requires id !in rows
    ensures RefundSum(rows[id := t], a) == RefundSum(rows, a) + (if TaskAccount(t) == a then RefundAmount(t) else 0)
  {
    TotalSet(rows, RefundTo(a), id, t);
  }

  /** Over any rows an account is owed the sum of what they took from it: the units of credit-billed
      tasks, at least one each, for a wallet, and one per other task for an entitlement. */
  lemma RefundSumCounts(rows: map<string, Task>, id: string, t: Task, a: Account)
    ensures RefundSum(map[], a) == 0
    ensures id !in rows ==>
      RefundSum(rows[id := t], a) == RefundSum(rows, a)
        + if t.source == "credits" then (if a != WalletRow(t.wallet) then 0 else if t.units > 1 then t.units else 1)
          else (if a == EntRow(EntKey(t.wallet, t.service)) then 1 else 0)
  {
    if id !in rows {
      RefundSumMore(rows, id, t, a);
    }
  }

  lemma CreditedWalletsMore(wallets: map<string, int>, rows: map<string, Task>, id: string, t: Task)
    requires id !in rows && (TaskAccount(t).WalletRow? ==> TaskAccount(t).wallet in wallets)
    ensures var before := CreditedWallets(wallets, rows);
      CreditedWallets(wallets, rows[id := t])
      == match TaskAccount(t)
         case WalletRow(w) => before[w := before[w] + RefundAmount(t)]
         case EntRow(_) => before
  {
    forall w | w in wallets {
      RefundSumMore(rows, id, t, WalletRow(w));
    }
  }

  lemma CreditedEntsMore(ents: map<EntKey, Entitlement>, rows: map<string, Task>, id: string, t: Task)
    requires id !in rows && (TaskAccount(t).EntRow? ==> TaskAccount(t).key in ents)
    ensures var before := CreditedEnts(ents, rows);
      CreditedEnts(ents, rows[id := t])
      == match TaskAccount(t)
         case WalletRow(_) => before
         case EntRow(k) => before[k := before[k].(remaining := before[k].remaining + RefundAmount(t))]
  {
    forall k | k in ents {
      RefundSumMore(rows, id, t, EntRow(k));
    }
  }

  lemma MarkRecoveredMore(tasks: map<string, Task>, rows: map<string, Task>, id: string, now: int)
    requires id in tasks && id !in rows
    ensures MarkRecovered(tasks, rows[id := tasks[id]], now)
         == MarkRecovered(tasks, rows, now)[id := Recovered(tasks[id], now)]
  {
  }

  lemma RecoverOneByParts(before: Db, id: string, now: int, after: Db)
    requires id in before.tasks && HasRow(before, TaskAccount(before.tasks[id]))
    requires after.tasks == before.tasks[id := Recovered(before.tasks[id], now)]
    requires match TaskAccount(before.tasks[id])
      case WalletRow(w) =>
        && after.wallets == before.wallets[w := before.wallets[w] + RefundAmount(before.tasks[id])]
        && after.ents == before.ents
      case EntRow(k) =>
        && after.wallets == before.wallets
        && after.ents == before.ents[k := before.ents[k].(
             remaining := before.ents[k].remaining + RefundAmount(before.tasks[id]))]
    ensures RecoverOne(before, id, now) == Fine(after)
  {
  }

  lemma RecoverWalletMore(db: Db, rows: map<string, Task>, id: string, t: Task, w: string, now: int)
    requires id in db.tasks && t == db.tasks[id] && id !in rows && TaskAccount(t) == WalletRow(w) && w in db.wallets
    ensures RecoverOne(RecoverRows(db, rows, now), id, now) == Fine(RecoverRows(db, rows[id := t], now))
  {
    CreditedWalletsMore(db.wallets, rows, id, t);
    CreditedEntsMore(db.ents, rows, id, t);
    MarkRecoveredMore(db.tasks, rows, id, now);
    RecoverOneByParts(RecoverRows(db, rows, now), id, now, RecoverRows(db, rows[id := t], now));
  }

  lemma RecoverEntMore(db: Db, rows: map<string, Task>, id: string, t: Task, k: EntKey, now: int)
    requires id in db.tasks && t == db.tasks[id] && id !in rows && TaskAccount(t) == EntRow(k) && k in db.ents
    ensures RecoverOne(RecoverRows(db, rows, now), id, now) == Fine(RecoverRows(db, rows[id := t], now))
  {
    CreditedWalletsMore(db.wallets, rows, id, t);
    CreditedEntsMore(db.ents, rows, id, t);
    MarkRecoveredMore(db.tasks, rows, id, now);
    RecoverOneByParts(RecoverRows(db, rows, now), id, now, RecoverRows(db, rows[id := t], now));
  }

  /** Recovering one more task on top of a recovered set is recovering the larger set. */
  lemma RecoverOneMore(db: Db, rows: map<string, Task>, id: string, now: int)
    requires id in db.tasks && id !in rows && HasRow(db, TaskAccount(db.tasks[id]))
    ensures RecoverOne(RecoverRows(db, rows, now), id, now)
         == Fine(RecoverRows(db, rows[id := db.tasks[id]], now))
  {
    match TaskAccount(db.tasks[id])
    case WalletRow(w) => RecoverWalletMore(db, rows, id, db.tasks[id], w, now);
    case EntRow(k) => RecoverEntMore(db, rows, id, db.tasks[id], k, now);
  }

  lemma EnumeratesPrefix(order: seq<string>, rows: map<string, Task>)
    requires Enumerates(order, rows) && order != []
    ensures order[|order| - 1] in rows
    ensures Enumerates(order[..|order| - 1], rows - {order[|order| - 1]})
  {
    forall x ensures x in order[..|order| - 1] <==> x in rows && x != order[|order| - 1] {
      if x in rows {
        var i :| 0 <= i < |order| && order[i] == x;
      }
    }
  }

  lemma AllRowsExistMore(db: Db, rows: map<string, Task>, id: string)
    requires id in rows
    ensures AllRowsExist(db, rows) <==> AllRowsExist(db, rows - {id}) && HasRow(db, TaskAccount(rows[id]))
  {
    var fewer := rows - {id};
    assert forall x :: x in rows ==> x == id || x in fewer;
    assert forall x :: x in fewer ==> x in rows && fewer[x] == rows[x];
  }

  lemma {:induction false} RecoverEachIsRecoverRows(db: Db, order: seq<string>, rows: map<string, Task>, now: int)
    requires Enumerates(order, rows)
    requires forall id :: id in rows ==> id in db.tasks && rows[id] == db.tasks[id]
    ensures RecoverEach(db, order, now)
         == if AllRowsExist(db, rows) then Fine(RecoverRows(db, rows, now)) else Missing
    decreases |order|
  {
    if order == [] {
      assert rows == map[];
      RecoverNothing(db, now);
    } else {
      var id := order[|order| - 1];
      var fewer := rows - {id};
      EnumeratesPrefix(order, rows);
      RecoverEachIsRecoverRows(db, order[..|order| - 1], fewer, now);
      AllRowsExistMore(db, rows, id);
      if AllRowsExist(db, fewer) {
        LastRecovery(db, order, fewer, id, now);
        assert rows == fewer[id := db.tasks[id]];
      }
    }
  }

  lemma LastRecovery(db: Db, order: seq<string>, fewer: map<string, Task>, id: string, now: int)
    requires order != [] && order[|order| - 1] == id && id !in fewer
    requires forall x :: x in order ==> x in db.tasks
    requires RecoverEach(db, order[..|order| - 1], now) == Fine(RecoverRows(db, fewer, now))
    ensures RecoverEach(db, order, now)
         == if HasRow(db, TaskAccount(db.tasks[id]))
            then Fine(RecoverRows(db, fewer[id := db.tasks[id]], now)) else Missing
  {
    if HasRow(db, TaskAccount(db.tasks[id])) {
      RecoverOneMore(db, fewer, id, now);
    }
  }

  /** The batch is the same as recovering the stale tasks one by one, whatever the order; and when
      any of their balance rows is missing it leaves everything as it was. */
  lemma BatchEqualsOneByOne(db: Db, cutoff: int, now: int, order: seq<string>)
    requires Enumerates(order, StaleRows(db, cutoff))
    ensures match RecoverEach(db, order, now)
      case Fine(d) => Recover(db, cutoff, now) == d && AllRowsExist(db, StaleRows(db, cutoff))
      case Missing => Recover(db, cutoff, now) == db && !AllRowsExist(db, StaleRows(db, cutoff))
  {
    RecoverEachIsRecoverRows(db, order, StaleRows(db, cutoff), now);
  }

  /** A second recovery with the same cutoff finds nothing to do. */
  lemma SecondRecoveryIsIdle(db: Db, cutoff: int, now: int, later: int)
    ensures Recover(Recover(db, cutoff, now), cutoff, later) == Recover(db, cutoff, now)
  {
    if AllRowsExist(db, StaleRows(db, cutoff)) {
      var d := Recover(db, cutoff, now);
      assert StaleRows(d, cutoff) == map[];
      RecoverNothing(d, later);
    }
  }

  /** What recovery does to a single row and to a single balance. */
  lemma RecoverEffects(db: Db, cutoff: int, now: int)
    requires AllRowsExist(db, StaleRows(db, cutoff))
    ensures var d := Recover(db, cutoff, now);
      && d.tasks.Keys == db.tasks.Keys
      && (forall id :: id in db.tasks ==>
            var t := db.tasks[id];
            var stale := t.status.Running? && t.wallet != "" && t.service != "" && t.reserved && !t.charged
                         && t.updatedAt < cutoff;
            d.tasks[id] == if stale then t.(status := Failed, reserved := false, updatedAt := now) else t)
      && (forall a :: HasRow(d, a) <==> HasRow(db, a))
      && (forall k :: k in db.ents ==> d.ents[k].maxConcurrent == db.ents[k].maxConcurrent)
      && (forall a :: HasRow(db, a) ==>
            Balance(d, a) == Balance(db, a) + RefundSum(StaleRows(db, cutoff), a))
  {
  }
}
