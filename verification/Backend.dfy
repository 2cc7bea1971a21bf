/** The server's operations as it performs them on the rows of its database: each method runs one
    request, worker or transaction alone, statement by statement. The interleavings are the business
    of the state machines. */
module Backend {
  import opened Text
  import opened Rows
  import opened Routing
  import opened Profiles
  import opened Claims
  import opened Recovery
  import opened Refunds
  import Signing
  import Payments
  import Redemption
  import Scheduler
  import Accounting
  import Timing

  datatype CreateResult = NoBilling | NoProvider | BalanceTooLow | TooManyActive | Created

  /** The creation transaction run alone on a row: locked balance, active count, debit, insert. */
  function CreateAlone(db: Db, id: string, row: Task): (CreateResult, Db) {
    var a := TaskAccount(row);
    if !HasRow(db, a) || Balance(db, a) < DebitAmount(row) then (BalanceTooLow, db)
    else if Accounting.ActiveTasks(db, row.wallet, row.service) >= CapOf(db, a) then (TooManyActive, db)
    else
      var debited := Credit(db, a, -DebitAmount(row));
      (Created, debited.(tasks := debited.tasks[id := row]))
  }

  lemma InsertMeans(db: Db, id: string, row: Task)
    requires CreateAlone(db, id, row).0.Created?
    ensures var after := CreateAlone(db, id, row).1;
      var k := EntKey(row.wallet, row.service);
      && after.tasks == db.tasks[id := row]
      && (row.source == "credits" ==>
            && row.wallet in db.wallets && row.wallet in after.wallets && after.ents == db.ents
            && after.wallets == db.wallets[row.wallet := after.wallets[row.wallet]]
            && 0 <= after.wallets[row.wallet] == db.wallets[row.wallet] - row.units)
      && (row.source != "credits" ==>
            && k in db.ents && k in after.ents && after.wallets == db.wallets
            && after.ents == db.ents[k := after.ents[k]] && after.ents[k].maxConcurrent == db.ents[k].maxConcurrent
            && 0 <= after.ents[k].remaining == db.ents[k].remaining - 1)
  {
  }

  /** The bill of a created task: one unit of the first entitlement with something left, or the enabled
      price of its tier, at least one credit. */
  lemma BillMeans(t: Task, w: string, snapshot: Snapshot, prices: map<(string, string), Price>,
                  params: map<string, string>, tier: string, profile: string, now: int)
    requires tier in {"", "1K", "2K", "4K"} && SelectBilling(snapshot, tier, prices).Some?
    requires t == QueuedRow(w, SelectBilling(snapshot, tier, prices).value, params, profile, now)
    ensures var hd := tier == "2K" || tier == "4K";
      var row := if hd then ("image-2-hd", "HD") else ("image-2-sd", "1K");
      var bySd := !hd && HasBalance(snapshot.ents, "image-2-sd");
      var byHd := HasBalance(snapshot.ents, "image-2-hd");
      && t.billingKey == row.1
      && (bySd ==> t.service == "image-2-sd" && t.source == "entitlement" && t.units == 1)
      && (!bySd && byHd ==> t.service == "image-2-hd" && t.source == "entitlement" && t.units == 1)
      && (!bySd && !byHd ==>
            && t.service == row.0 && t.source == "credits" && row in prices && prices[row].enabled
            && t.units == if prices[row].units >= 1 then prices[row].units else 1)
  {
    NormalTierOfNormal(tier);
    BillingChoice(snapshot, tier, prices);
  }

  /** The steps of the concurrent machine, taken without interruption. */
  function CreateByMachine(s: Accounting.State, id: string): (CreateResult, Db)
    requires id in s.creators && s.creators[id].phase.Chosen?
  {
    var locked := Accounting.DoLock(s, id);
    if id !in locked.creators then (BalanceTooLow, locked.db)
    else
      var admitted := Accounting.DoAdmit(locked, id);
      if id !in admitted.creators then (TooManyActive, admitted.db)
      else
        var written := Accounting.DoWrite(admitted, id);
        if id !in written.creators then (BalanceTooLow, written.db)
        else (Created, Accounting.DoCommit(written, id).db)
  }

  /** ... come to the same. */
  lemma CreationIsUninterrupted(s: Accounting.State, id: string, row: Task)
    requires id in s.creators && s.creators[id] == Accounting.Creator(row, Accounting.Chosen)
    ensures CreateByMachine(s, id) == CreateAlone(s.db, id, row)
  {
    var locked := Accounting.DoLock(s, id);
    LockAlone(s, id, row);
    if id in locked.creators {
      AdmitAlone(locked, id, row);
    }
  }

  lemma LockAlone(s: Accounting.State, id: string, row: Task)
    requires id in s.creators && s.creators[id] == Accounting.Creator(row, Accounting.Chosen)
    ensures var locked := Accounting.DoLock(s, id);
      var a := TaskAccount(row);
      && (id in locked.creators <==> HasRow(s.db, a) && Balance(s.db, a) >= DebitAmount(row))
      && (id in locked.creators ==>
            locked.creators[id] == Accounting.Creator(row, Accounting.Locked(Balance(s.db, a), CapOf(s.db, a))))
  {
  }

  lemma AdmitAlone(s: Accounting.State, id: string, row: Task)
    requires id in s.creators && s.creators[id].row == row && s.creators[id].phase.Locked?
    requires HasRow(s.db, TaskAccount(row)) && Balance(s.db, TaskAccount(row)) >= DebitAmount(row)
    ensures var admitted := Accounting.DoAdmit(s, id);
      && (id in admitted.creators <==> Accounting.ActiveTasks(s.db, row.wallet, row.service) < s.creators[id].phase.cap)
      && (id in admitted.creators ==>
            && admitted.creators[id].row == row && admitted.creators[id].phase.Admitted?
            && var written := Accounting.DoWrite(admitted, id);
            && id in written.creators && written.creators[id].row == row && written.creators[id].phase.Written?)
  {
  }

  /** What a failure does: a running task turns failed, and if the worker's copy is reserved, uncharged
      and names a wallet and a service, its units go back to the balance it was billed to and the
      reservation is cleared. */
  lemma FailureMeans(db: Db, id: string, copy: Task, now: int)
    ensures var after := FailAndRefund(db, id, copy, now);
      var refunds := copy.wallet != "" && copy.service != "" && copy.reserved && !copy.charged;
      var (w, k) := (copy.wallet, EntKey(copy.wallet, copy.service));
      && after.wallets == (if refunds && copy.source == "credits" && w in db.wallets
                           then db.wallets[w := db.wallets[w] + (if copy.units > 1 then copy.units else 1)]
                           else db.wallets)
      && after.ents == (if refunds && copy.source != "credits" && k in db.ents
                        then db.ents[k := db.ents[k].(remaining := db.ents[k].remaining + 1)] else db.ents)
      && after.tasks == if id !in db.tasks then db.tasks
                        else
                          var t := db.tasks[id];
                          db.tasks[id := t.(status := if t.status.Running? then Failed else t.status,
                                            reserved := t.reserved && !refunds,
                                            updatedAt := if t.status.Running? || refunds then now else t.updatedAt)]
  {
    CreditMoves(MarkFailed(db, id, now), TaskAccount(copy), RefundAmount(copy));
    if id in db.tasks {
      var t := db.tasks[id];
      var marked := MarkFailed(db, id, now).tasks[id];
      assert db.tasks[id := t] == db.tasks;
      assert db.tasks[id := marked][id := marked.(reserved := false, updatedAt := now)]
          == db.tasks[id := marked.(reserved := false, updatedAt := now)];
    }
  }

  /** The statements of a failing worker in the machine, run one after the other, are the failure; what
      they give back is booked once. */
  lemma FailureIsUninterrupted(s: Accounting.State, id: string, now: int)
    requires Accounting.InStage(s, id, Accounting.Executing)
    ensures var copy := s.workers[id].copy;
      var marked := Accounting.DoFailMark(s, id, now);
      if Refundable(copy) then
        && Accounting.InStage(marked, id, Accounting.Marked)
        && var returned := Accounting.DoRefund(marked, id);
           && Accounting.InStage(returned, id, Accounting.Returned)
           && Accounting.DoClear(returned, id, now).db == FailAndRefund(s.db, id, copy, now)
           && id !in Accounting.DoClear(returned, id, now).workers
           && returned.book == if id !in s.book then s.book
                               else s.book[id := s.book[id].(refunds := s.book[id].refunds + 1,
                                                             returned := s.book[id].returned + RefundAmount(copy))]
      else marked.db == FailAndRefund(s.db, id, copy, now) && marked.book == s.book && id !in marked.workers
  {
  }

  /** What a failure does to a running, refundable task. */
  lemma FailureOfRunning(db: Db, id: string, t: Task, now: int)
    requires id in db.tasks && db.tasks[id] == t && t.status.Running? && Refundable(t)
    ensures FailAndRefund(db, id, t, now)
         == Credit(db, TaskAccount(t), RefundAmount(t)).(
              tasks := db.tasks[id := t.(status := Failed, reserved := false, updatedAt := now)])
  {
    var marked := MarkFailed(db, id, now);
    CreditMoves(marked, TaskAccount(t), RefundAmount(t));
    CreditIgnoresTasks(db, marked.tasks, TaskAccount(t), RefundAmount(t));
    var failed := t.(status := Failed, reserved := false, updatedAt := now);
    assert db.tasks[id := t.(status := Failed, updatedAt := now)][id := failed] == db.tasks[id := failed];
  }

  lemma CreditIgnoresTasks(db: Db, tasks: map<string, Task>, a: Account, n: int)
    ensures Credit(db.(tasks := tasks), a, n) == Credit(db, a, n).(tasks := tasks)
  {
  }

  lemma ClaimOfCreated(db: Db, id: string, row: Task, claimed: int)
    requires IsFresh(row) && CreateAlone(db, id, row).0.Created?
    ensures HasRow(db, TaskAccount(row))
    ensures MarkRunning(CreateAlone(db, id, row).1, id, claimed)
         == Credit(db, TaskAccount(row), -DebitAmount(row)).(
              tasks := db.tasks[id := row.(status := Running, updatedAt := claimed)])
  {
    CreditMoves(db, TaskAccount(row), -DebitAmount(row));
    assert db.tasks[id := row][id := row.(status := Running, updatedAt := claimed)]
        == db.tasks[id := row.(status := Running, updatedAt := claimed)];
  }

  lemma RefundUndoesDebit(db: Db, a: Account, n: int)
    requires HasRow(db, a)
    ensures Credit(Credit(db, a, -n), a, n) == db
  {
  }

  /** A failed task leaves the balances as they were before it was created: the refund gives back
      exactly what the debit took, because every billing choice is for at least one unit. */
  lemma FailureUndoesCreation(db: Db, id: string, row: Task, claimed: int, failed: int)
    requires IsFresh(row) && CreateAlone(db, id, row).0.Created?
    ensures var running := MarkRunning(CreateAlone(db, id, row).1, id, claimed);
      && id in running.tasks
      && FailAndRefund(running, id, running.tasks[id], failed)
         == db.(tasks := db.tasks[id := row.(status := Failed, reserved := false, updatedAt := failed)])
  {
    ClaimOfCreated(db, id, row, claimed);
    UndoByParts(db, id, row, row.(status := Running, updatedAt := claimed), failed);
  }

  lemma UndoByParts(db: Db, id: string, row: Task, turned: Task, failed: int)
    requires IsFresh(row) && HasRow(db, TaskAccount(row))
    requires turned == row.(status := Running, updatedAt := turned.updatedAt)
    ensures var running := Credit(db, TaskAccount(row), -DebitAmount(row)).(tasks := db.tasks[id := turned]);
      FailAndRefund(running, id, turned, failed)
      == db.(tasks := db.tasks[id := row.(status := Failed, reserved := false, updatedAt := failed)])
  {
    var a, n := TaskAccount(row), DebitAmount(row);
    var debited := Credit(db, a, -n);
    FailureOfRunning(debited.(tasks := db.tasks[id := turned]), id, turned, failed);
    CreditIgnoresTasks(debited, db.tasks[id := turned], a, n);
    RefundUndoesDebit(db, a, n);
    assert db.tasks[id := turned][id := row.(status := Failed, reserved := false, updatedAt := failed)]
        == db.tasks[id := row.(status := Failed, reserved := false, updatedAt := failed)];
  }

  /** The task row once its worker called the given providers: the last one is written to it. */
  function Moved(db: Db, id: string, tried: seq<string>, now: int): Db {
    if |tried| <= 1 then db else SetProfile(db, id, tried[1], now)
  }

  /** The bookkeeping of one provider call. */
  function AfterCall(t: Table, p: string, succeeded: bool, now: int): Table {
    if succeeded then RecordSuccess(t, p) else if p in t then RecordFailure(t, p, t[p], now) else t
  }

  /** ... and of all calls of one execution. */
  function AfterCalls(t: Table, tried: seq<string>, upstream: nat -> bool, now: int): Table {
    if tried == [] then t
    else
      var first := AfterCall(t, tried[0], upstream(0), now);
      if |tried| == 1 then first else AfterCall(Selected(first, tried[1], now), tried[1], upstream(1), now)
  }

  /** The provider a worker turns to after its first call failed. */
  function SecondChoice(t: Table, row: Task, now: int): Option<string> {
    Scheduler.FallbackChoice(AfterCall(t, row.profile, false, now), row, [row.profile], now)
  }

  lemma SecondIsDifferent(t: Table, row: Task, now: int)
    requires SecondChoice(t, row, now).Some?
    ensures var next := SecondChoice(t, row, now).value; next != row.profile && next in t
  {
    var buckets := CandidateBuckets(row.service, StringParam(row.params, "size_tier")).value;
    SelectedIsBest(AfterCall(t, row.profile, false, now), buckets, [row.profile], now);
  }

  /** The second call goes to another provider of the stored tier's buckets that is active, has a key
      and is not cooling down; there is none only when no such provider is left, or when the tier is HD
      and the service is not. */
  lemma SecondChoiceMeans(t: Table, row: Task, now: int)
    requires row.profile in t
    ensures var tier := ToUpper(TrimSpace(if "size_tier" in row.params then row.params["size_tier"] else ""));
      var hd := tier == "2K" || tier == "4K";
      match SecondChoice(t, row, now)
      case Some(q) =>
        && q in t && q != row.profile && t[q].active && t[q].hasKey
        && (t[q].bucket == "hd" || (t[q].bucket == "1k" && !hd))
        && (t[q].disabledUntil.None? || t[q].disabledUntil.value <= now) && (hd ==> row.service == "image-2-hd")
      case None =>
        (hd ==> row.service == "image-2-hd") ==>
        forall o :: o in t && o != row.profile ==>
          || !t[o].active || !t[o].hasKey || (t[o].bucket != "hd" && (t[o].bucket != "1k" || hd))
          || (t[o].disabledUntil.Some? && t[o].disabledUntil.value > now)
  {
    var tier := StringParam(row.params, "size_tier");
    var after := AfterCall(t, row.profile, false, now);
    assert forall o :: o in t && o != row.profile ==> o in after && after[o] == t[o];
    assert IsHdTier(tier) <==> ToUpper(TrimSpace(tier)) == "2K" || ToUpper(TrimSpace(tier)) == "4K";
    if CandidateBuckets(row.service, tier).Some? {
      SelectReturnsBest(after, CandidateBuckets(row.service, tier).value, [row.profile], now);
    }
  }

  /** What calls write to the provider rows: a success clears the failure count and the cooldown; a
      failure counts one more and, from the second on, starts a cooldown of five minutes; the second
      provider's selection is stamped before. */
  lemma CallsRecorded(t: Table, p: string, q: string, upstream: nat -> bool, now: int)
    requires p in t && q in t && p != q
    ensures var failed := t[p].(failureCount := t[p].failureCount + 1, lastFailed := Some(now), disabledUntil :=
        if t[p].failureCount + 1 >= 2 then Some(now + 300_000_000_000) else None);
      var succeeded := t[p].(successCount := t[p].successCount + 1, failureCount := 0, disabledUntil := None);
      var again := t[q].(selectionCount := t[q].selectionCount + 1, lastSelected := Some(now));
      var failedAgain := again.(failureCount := t[q].failureCount + 1, lastFailed := Some(now), disabledUntil :=
        if t[q].failureCount + 1 >= 2 then Some(now + 300_000_000_000) else None);
      var recovered := again.(successCount := t[q].successCount + 1, failureCount := 0, disabledUntil := None);
      && AfterCalls(t, [p], upstream, now) == t[p := if upstream(0) then succeeded else failed]
      && (!upstream(0) ==>
            AfterCalls(t, [p, q], upstream, now) == t[p := failed][q := if upstream(1) then recovered else failedAgain])
  {
  }

  lemma MovedLeavesMoney(db: Db, id: string, tried: seq<string>, now: int)
    requires id in db.tasks
    ensures var m := Moved(db, id, tried, now);
      && m.wallets == db.wallets && m.ents == db.ents && id in m.tasks
      && m.tasks == db.tasks[id := m.tasks[id]]
      && m.tasks[id].(profile := db.tasks[id].profile, updatedAt := db.tasks[id].updatedAt) == db.tasks[id]
  {
    assert db.tasks[id := db.tasks[id]] == db.tasks;
  }

  /** However an execution of a claimed task ends, it settles it: charged with every balance as it was,
      or failed, uncharged, with its units back on its own account and every other balance as it was.
      No other task is touched. */
  lemma ExecutionSettles(db: Db, id: string, tried: seq<string>, now: int)
    requires id in db.tasks && db.tasks[id].status.Running? && Refundable(db.tasks[id])
    ensures var done := MarkDone(Moved(db, id, tried, now), id, now);
      && done.wallets == db.wallets && done.ents == db.ents && done.tasks == db.tasks[id := done.tasks[id]]
      && done.tasks[id].status.Done? && done.tasks[id].charged
    ensures var t := db.tasks[id];
      var failed := FailAndRefund(Moved(db, id, tried, now), id, t, now);
      && failed.tasks == db.tasks[id := failed.tasks[id]]
      && failed.tasks[id].status.Failed? && !failed.tasks[id].reserved && !failed.tasks[id].charged
      && forall a :: Balance(failed, a) == Balance(db, a)
          + (if a == TaskAccount(t) && HasRow(db, a) then RefundAmount(t) else 0)
  {
    var m := Moved(db, id, tried, now);
    MovedLeavesMoney(db, id, tried, now);
    FailureOfRunning(m, id, m.tasks[id], now);
    SameRefund(m, id, m.tasks[id], db.tasks[id], now);
    CreditMoves(db, TaskAccount(db.tasks[id]), RefundAmount(db.tasks[id]));
    CreditMoves(m, TaskAccount(db.tasks[id]), RefundAmount(db.tasks[id]));
  }

  /** The row at the end of an execution is stored under the provider called last. */
  lemma ExecutionEnds(db: Db, id: string, tried: seq<string>, copy: Task, now: int)
    requires id in db.tasks && |tried| <= 2
    ensures var t := db.tasks[id];
      var last := if |tried| == 2 then tried[1] else t.profile;
      var done := MarkDone(Moved(db, id, tried, now), id, now);
      var failed := FailAndRefund(Moved(db, id, tried, now), id, copy, now);
      && done == db.(tasks := db.tasks[id := t.(profile := last, status := Done, charged := true, updatedAt := now)])
      && id in failed.tasks && failed.tasks == db.tasks[id := failed.tasks[id]] && failed.tasks[id].profile == last
      && (t.status.Running? ==> failed.tasks[id].status.Failed? && failed.tasks[id].updatedAt == now)
  {
    MovedLeavesMoney(db, id, tried, now);
    FailureMeans(Moved(db, id, tried, now), id, copy, now);
  }

  lemma FailureTouchesOne(db: Db, id: string, copy: Task, now: int)
    requires id in db.tasks && db.tasks[id].status.Running?
    ensures var failed := FailAndRefund(db, id, copy, now);
      id in failed.tasks && failed.tasks[id].status.Failed? && failed.tasks == db.tasks[id := failed.tasks[id]]
  {
    var marked := MarkFailed(db, id, now);
    CreditMoves(marked, TaskAccount(copy), RefundAmount(copy));
    assert marked.tasks == db.tasks[id := marked.tasks[id]];
  }

  lemma EndsSettled(db: Db, id: string, tried: seq<string>, now: int)
    requires id in db.tasks && db.tasks[id].status.Running?
    ensures var done := MarkDone(Moved(db, id, tried, now), id, now);
      id in done.tasks && done.tasks[id].status.Done? && done.tasks == db.tasks[id := done.tasks[id]]
    ensures var failed := FailAndRefund(Moved(db, id, tried, now), id, db.tasks[id], now);
      id in failed.tasks && failed.tasks[id].status.Failed? && failed.tasks == db.tasks[id := failed.tasks[id]]
  {
    MovedLeavesMoney(db, id, tried, now);
    FailureTouchesOne(Moved(db, id, tried, now), id, db.tasks[id], now);
  }

  /** The copy a worker holds refunds like the row it was read from. */
  lemma SameRefund(db: Db, id: string, copy: Task, other: Task, now: int)
    requires copy.(profile := other.profile, updatedAt := other.updatedAt) == other
    ensures FailAndRefund(db, id, copy, now) == FailAndRefund(db, id, other, now)
    ensures TaskAccount(copy) == TaskAccount(other) && RefundAmount(copy) == RefundAmount(other)
  {
    assert copy.wallet == other.wallet && copy.service == other.service && copy.source == other.source;
  }

  const FALLBACK_RETRIES := 1

  /** UPDATE wallets SET credits = credits + n: a missing wallet is no error. */
  function AddTo(wallets: map<string, int>, w: string, n: int): map<string, int> {
    if w in wallets then wallets[w := wallets[w] + n] else wallets
  }

  datatype Reply = Unavailable | MissingSignature | BadSignature | MissingOrder | UnknownOrder | Mismatch | Ok

  class Store {
    var wallets: map<string, int>
    var ents: map<EntKey, Entitlement>
    var tasks: map<string, Task>
    var profiles: Table
    var orders: map<string, Payments.Order>
    var addresses: map<string, string>
    var licences: map<string, Redemption.Licence>
    var redemptions: map<string, Redemption.Redeemed>

    constructor ()
      ensures View() == Db(map[], map[], map[]) && profiles == map[]
      ensures orders == map[] && LicenceTables() == Redemption.Tables(map[], map[], map[], map[])
    {
      wallets, ents, tasks, profiles := map[], map[], map[], map[];
      orders, addresses, licences, redemptions := map[], map[], map[], map[];
    }

    function View(): Db
      reads this
    {
      Db(wallets, ents, tasks)
    }

    function LicenceTables(): Redemption.Tables
      reads this
    {
      Redemption.Tables(addresses, ents, licences, redemptions)
    }

    /** selectServiceProfileFromBuckets: the best allowed provider, stamped as selected. */
    method SelectProfile(buckets: seq<string>, exclude: seq<string>, now: int) returns (r: Option<string>)
      modifies this`profiles
      ensures r == Select(old(profiles), buckets, exclude, now)
      ensures r.Some? ==> IsBest(old(profiles), buckets, exclude, now, r.value)
      ensures r.None? && |exclude| < QUERY_LIMIT ==>
        forall o :: o in old(profiles) && Eligible(old(profiles)[o], buckets, now) ==> o in exclude
      ensures profiles == if r.Some? then Selected(old(profiles), r.value, now) else old(profiles)
      ensures r.Some? ==>
        && r.value in old(profiles) && r.value !in exclude
        && var p := old(profiles)[r.value];
           && p.bucket in buckets && p.active && p.hasKey && (p.disabledUntil.None? || p.disabledUntil.value <= now)
           && profiles == old(profiles)[r.value :=
                p.(selectionCount := p.selectionCount + 1, lastSelected := Some(now))]
    {
      var rows := Query(profiles, buckets, now);
      var excluded: set<string> := {};
      for i := 0 to |exclude|
        invariant excluded == set x | x in exclude[..i]
      {
        excluded := excluded + {exclude[i]};
      }
      if Select(profiles, buckets, exclude, now).Some? {
        SelectedIsBest(profiles, buckets, exclude, now);
      } else if |exclude| < QUERY_LIMIT {
        NothingSelected(profiles, buckets, exclude, now);
      }
      for i := 0 to |rows|
        invariant FirstAllowed(rows, exclude) == FirstAllowed(rows[i..], exclude)
        invariant profiles == old(profiles)
      {
        if rows[i] in excluded {
          continue;
        }
        profiles := Selected(profiles, rows[i], now);
        return Some(rows[i]);
      }
      r := None;
    }

    /** selectServiceProfileForWallet */
    method SelectForService(service: string, tier: string, exclude: seq<string>, now: int) returns (r: Option<string>)
      modifies this`profiles
      ensures var buckets := CandidateBuckets(service, tier);
        r == if buckets.None? then None else Select(old(profiles), buckets.value, exclude, now)
      ensures profiles == if r.Some? then Selected(old(profiles), r.value, now) else old(profiles)
    {
      var buckets := CandidateBuckets(service, tier);
      if buckets.None? {
        return None;
      }
      r := SelectProfile(buckets.value, exclude, now);
    }

    /** handleCreateTask after the wallet lookup; the snapshot was read earlier, without a lock. */
    method CreateTask(id: string, w: string, snapshot: Snapshot, prices: map<(string, string), Price>,
                      params: map<string, string>, now: int) returns (r: CreateResult)
      modifies this`wallets, this`ents, this`tasks, this`profiles
      ensures var choice := Scheduler.CreationChoice(old(profiles), snapshot, prices, params, now);
        if choice.None? then
          && r == (if SelectBilling(snapshot, NormalizeTaskSize(params).1, prices).None? then NoBilling else NoProvider)
          && View() == old(View()) && profiles == old(profiles)
        else
          && (r, View()) == CreateAlone(old(View()), id, QueuedRow(w, choice.value.0, params, choice.value.1, now))
          && profiles == Selected(old(profiles), choice.value.1, now)
      ensures r != Created ==> wallets == old(wallets) && ents == old(ents) && tasks == old(tasks)
      ensures r == Created ==> id in tasks && tasks == old(tasks)[id := tasks[id]]
      ensures r == Created ==>
        var t := tasks[id];
        && t.wallet == w && t.reserved && !t.charged && t.status.Queued? && t.createdAt == now && t.updatedAt == now
        && t.size == NormalizeTaskSize(params).0 && t.params == WriteBack(params)
      ensures r == Created && tasks[id].source == "credits" ==>
        && w in old(wallets) && w in wallets && ents == old(ents) && wallets == old(wallets)[w := wallets[w]]
        && 0 <= wallets[w] == old(wallets)[w] - tasks[id].units
      ensures r == Created && tasks[id].source != "credits" ==>
        var k := EntKey(w, tasks[id].service);
        && k in old(ents) && k in ents && wallets == old(wallets) && ents == old(ents)[k := ents[k]]
        && ents[k].maxConcurrent == old(ents)[k].maxConcurrent && 0 <= ents[k].remaining == old(ents)[k].remaining - 1
      ensures r == Created ==>
        var t, tier := tasks[id], NormalizeTaskSize(params).1;
        var hd := tier == "2K" || tier == "4K";
        var row := if hd then ("image-2-hd", "HD") else ("image-2-sd", "1K");
        var bySd := !hd && HasBalance(snapshot.ents, "image-2-sd");
        var byHd := HasBalance(snapshot.ents, "image-2-hd");
        && t.billingKey == row.1
        && (bySd ==> t.service == "image-2-sd" && t.source == "entitlement" && t.units == 1)
        && (!bySd && byHd ==> t.service == "image-2-hd" && t.source == "entitlement" && t.units == 1)
        && (!bySd && !byHd ==>
              && t.service == row.0 && t.source == "credits" && row in prices && prices[row].enabled
              && t.units == if prices[row].units >= 1 then prices[row].units else 1)
    {
      var tier := NormalizeTaskSize(params).1;
      var billing := SelectBilling(snapshot, tier, prices);
      if billing.None? {
        return NoBilling;
      }
      var profile := SelectForService(billing.value.service, tier, [], now);
      if profile.None? {
        return NoProvider;
      }
      ghost var db := View();
      r := Insert(id, QueuedRow(w, billing.value, params, profile.value, now));
      if r == Created {
        InsertMeans(db, id, tasks[id]);
        BillMeans(tasks[id], w, snapshot, prices, params, tier, profile.value, now);
      }
    }

    /** The transaction of a create request. */
    method Insert(id: string, row: Task) returns (r: CreateResult)
      modifies this`wallets, this`ents, this`tasks
      ensures (r, View()) == CreateAlone(old(View()), id, row)
      ensures r == BalanceTooLow || r == TooManyActive || r == Created
      ensures r == BalanceTooLow <==>
        if row.source == "credits" then row.wallet !in old(wallets) || old(wallets)[row.wallet] < row.units
        else
          var k := EntKey(row.wallet, row.service);
          k !in old(ents) || old(ents)[k].remaining <= 0
      ensures r != BalanceTooLow ==>
        var k := EntKey(row.wallet, row.service);
        var cap := if row.source == "credits" || old(ents)[k].maxConcurrent <= 0 then 6 else old(ents)[k].maxConcurrent;
        r == Created <==> Accounting.ActiveTasks(old(View()), row.wallet, row.service) < cap
      ensures r != Created ==> wallets == old(wallets) && ents == old(ents) && tasks == old(tasks)
      ensures r == Created && row.source == "credits" ==>
        && wallets == old(wallets)[row.wallet := old(wallets)[row.wallet] - row.units] && ents == old(ents)
      ensures r == Created && row.source != "credits" ==>
        var k := EntKey(row.wallet, row.service);
        && ents == old(ents)[k := old(ents)[k].(remaining := old(ents)[k].remaining - 1)] && wallets == old(wallets)
      ensures r == Created ==> tasks == old(tasks)[id := row]
    {
      var cap := DEFAULT_MAX_CONCURRENT;
      if row.source == SOURCE_CREDITS {
        if row.wallet !in wallets || wallets[row.wallet] < row.units {
          return BalanceTooLow;
        }
      } else {
        var k := EntKey(row.wallet, row.service);
        if k !in ents || ents[k].remaining <= 0 {
          return BalanceTooLow;
        }
        cap := EffectiveMax(ents[k].maxConcurrent);
      }
      if Accounting.ActiveTasks(View(), row.wallet, row.service) >= cap {
        return TooManyActive;
      }
      if row.source == SOURCE_CREDITS {
        wallets := wallets[row.wallet := wallets[row.wallet] - row.units];
      } else {
        var k := EntKey(row.wallet, row.service);
        ents := ents[k := ents[k].(remaining := ents[k].remaining - 1)];
      }
      tasks := tasks[id := row];
      r := Created;
    }

    /** claimNextQueuedTask: refused exactly when the global limit is reached or every queued task's
        provider is full; otherwise an oldest takeable task turns running, and the row handed to the
        worker is the stored one. */
    method ClaimNext(globalLimit: int, defaultCap: int, now: int) returns (claimed: Option<(string, Task)>)
      modifies this`tasks
      ensures claimed.None? <==>
        || RunningTotal(old(tasks)) >= globalLimit
        || forall o :: o in old(tasks) && old(tasks)[o].status.Queued? && old(tasks)[o].profile in profiles ==>
             var own := profiles[old(tasks)[o].profile].maxConcurrent;
             RunningOn(old(tasks), old(tasks)[o].profile) >= if own > 0 then own else defaultCap
      ensures claimed.None? ==> tasks == old(tasks)
      ensures claimed.Some? ==>
        var (id, row) := claimed.value;
        && IsNext(old(tasks), profiles, defaultCap, id)
        && old(tasks)[id].status.Queued? && row == old(tasks)[id].(status := Running, updatedAt := now)
        && tasks == old(tasks)[id := row]
        && row.profile in profiles
        && (var own := profiles[row.profile].maxConcurrent;
            RunningOn(old(tasks), row.profile) < if own > 0 then own else defaultCap)
    {
      var running := RunningTotal(tasks);
      NoneCanTake(tasks, profiles, defaultCap);
      if running >= globalLimit {
        return None;
      }
      var takeable := set id | id in tasks && CanTake(tasks, profiles, defaultCap, id);
      if takeable == {} {
        assert forall id :: id in tasks ==> id !in takeable;
        return None;
      }
      var some :| some in takeable;
      NextExists(tasks, profiles, defaultCap);
      var id :| id in tasks && IsNext(tasks, profiles, defaultCap, id);
      var row := tasks[id].(status := Running, updatedAt := now);
      tasks := tasks[id := row];
      claimed := Some((id, row));
    }

    /** failTaskAndRefund, without interruption. */
    method FailTaskAndRefund(id: string, copy: Task, now: int)
      modifies this`wallets, this`ents, this`tasks
      ensures View() == FailAndRefund(old(View()), id, copy, now)
    {
      if id in tasks && tasks[id].status.Running? {
        tasks := tasks[id := tasks[id].(status := Failed, updatedAt := now)];
      }
      if copy.wallet != "" && copy.service != "" && copy.reserved && !copy.charged {
        if copy.source == SOURCE_CREDITS {
          if copy.wallet in wallets {
            wallets := wallets[copy.wallet := wallets[copy.wallet] + MaxInt(1, copy.units)];
          }
        } else {
          var k := EntKey(copy.wallet, copy.service);
          if k in ents {
            ents := ents[k := ents[k].(remaining := ents[k].remaining + 1)];
          }
        }
        if id in tasks {
          tasks := tasks[id := tasks[id].(reserved := false, updatedAt := now)];
        }
      }
    }

    /** The attempt loop of executeTask; `upstream` tells how the successive calls end. */
    method CallProviders(id: string, row: Task, upstream: nat -> bool,
                         now: int) returns (succeeded: bool, tried: seq<string>)
      requires row.profile in profiles
      modifies this`tasks, this`profiles
      ensures 1 <= |tried| <= 2 && tried[0] == row.profile
      ensures |tried| == 2 <==> !upstream(0) && SecondChoice(old(profiles), row, now).Some?
      ensures |tried| == 2 ==> tried[1] == SecondChoice(old(profiles), row, now).value && tried[1] != tried[0]
      ensures succeeded == upstream(|tried| - 1)
      ensures tasks == if |tried| == 2 && id in old(tasks)
                       then old(tasks)[id := old(tasks)[id].(profile := tried[1], updatedAt := now)] else old(tasks)
      ensures View() == Moved(old(View()), id, tried, now)
      ensures profiles == AfterCalls(old(profiles), tried, upstream, now)
    {
      var profile := row.profile;
      succeeded, tried := false, [];
      var attempt := 0;
      while attempt <= FALLBACK_RETRIES
        invariant |tried| == attempt <= 1 && !succeeded && profile in profiles
        invariant attempt == 0 ==> profile == row.profile && View() == old(View()) && profiles == old(profiles)
        invariant attempt == 1 ==>
          && tried == [row.profile] && !upstream(0) && profile != row.profile
          && SecondChoice(old(profiles), row, now) == Some(profile)
          && View() == Moved(old(View()), id, [row.profile, profile], now)
          && profiles == Selected(AfterCall(old(profiles), row.profile, false, now), profile, now)
        decreases FALLBACK_RETRIES - attempt
      {
        tried := tried + [profile];
        if upstream(attempt) {
          profiles := RecordSuccess(profiles, profile);
          succeeded := true;
          break;
        }
        profiles := RecordFailure(profiles, profile, profiles[profile], now);
        if attempt >= FALLBACK_RETRIES {
          break;
        }
        assert tried == [row.profile];
        var next := SelectForService(row.service, StringParam(row.params, "size_tier"), tried, now);
        if next.None? {
          break;
        }
        SecondIsDifferent(old(profiles), row, now);
        profile := next.value;
        if id in tasks {
          tasks := tasks[id := tasks[id].(profile := profile, updatedAt := now)];
        }
        attempt := attempt + 1;
      }
    }

    /** executeTask on a claimed row: it ends done and charged exactly when the stored request is
        readable, its provider exists, the last call succeeded and the images were stored; in every
        other case it ends failed with its units given back. */
    method ExecuteTask(id: string, row: Task, payloadOk: bool, upstream: nat -> bool, uploadsOk: bool, now: int)
      returns (ok: bool, tried: seq<string>)
      modifies this`wallets, this`ents, this`tasks, this`profiles
      ensures tried == [] <==> !row.status.Running? || !payloadOk || row.profile !in old(profiles)
      ensures tried != [] ==> 1 <= |tried| <= 2 && tried[0] == row.profile
      ensures |tried| == 2 ==> tried[1] != tried[0] && SecondChoice(old(profiles), row, now) == Some(tried[1])
      ensures ok <==> tried != [] && upstream(|tried| - 1) && uploadsOk
      ensures profiles == AfterCalls(old(profiles), tried, upstream, now)
      ensures !row.status.Running? ==> View() == old(View())
      ensures row.status.Running? ==>
        View() == if ok then MarkDone(Moved(old(View()), id, tried, now), id, now)
                  else FailAndRefund(Moved(old(View()), id, tried, now), id, row, now)
      ensures id in old(tasks) && ok ==>
        var t := old(tasks)[id];
        && wallets == old(wallets) && ents == old(ents)
        && tasks == old(tasks)[id := t.(profile := if |tried| == 2 then tried[1] else t.profile,
                                        status := Done, charged := true, updatedAt := now)]
      ensures id in old(tasks) && !ok && tried != [] ==>
        && id in tasks && tasks == old(tasks)[id := tasks[id]]
        && tasks[id].profile == (if |tried| == 2 then tried[1] else old(tasks)[id].profile)
        && (old(tasks)[id].status.Running? ==> tasks[id].status.Failed? && tasks[id].updatedAt == now)
    {
      ok, tried := false, [];
      if !row.status.Running? {
        return;
      }
      if !payloadOk || row.profile !in profiles {
        FailTaskAndRefund(id, row, now);
        return;
      }
      ghost var db := View();
      var succeeded;
      succeeded, tried := CallProviders(id, row, upstream, now);
      if id in db.tasks {
        ExecutionEnds(db, id, tried, row, now);
      }
      if !succeeded || !uploadsOk {
        FailTaskAndRefund(id, row, now);
        return;
      }
      if id in tasks {
        tasks := tasks[id := tasks[id].(status := Done, charged := true, updatedAt := now)];
      }
      ok := true;
    }

    /** One round of a worker, processNextQueuedTask: it has nothing to do exactly when a claim is
        refused; otherwise an oldest takeable task ends done or failed, and no other task changes. */
    method ProcessNext(globalLimit: int, defaultCap: int, payloadOk: bool, upstream: nat -> bool,
                       uploadsOk: bool, now: int)
      returns (processed: Option<string>)
      modifies this`wallets, this`ents, this`tasks, this`profiles
      ensures processed.None? <==>
        || RunningTotal(old(tasks)) >= globalLimit
        || forall o :: o in old(tasks) && old(tasks)[o].status.Queued? && old(tasks)[o].profile in old(profiles) ==>
             var own := old(profiles)[old(tasks)[o].profile].maxConcurrent;
             RunningOn(old(tasks), old(tasks)[o].profile) >= if own > 0 then own else defaultCap
      ensures processed.None? ==> View() == old(View()) && profiles == old(profiles)
      ensures processed.Some? ==>
        var id := processed.value;
        && IsNext(old(tasks), old(profiles), defaultCap, id)
        && id in tasks && (tasks[id].status.Done? || tasks[id].status.Failed?)
        && tasks == old(tasks)[id := tasks[id]]
    {
      var claimed := ClaimNext(globalLimit, defaultCap, now);
      if claimed.None? {
        return None;
      }
      var (id, row) := claimed.value;
      ghost var before := View();
      var ok, tried := ExecuteTask(id, row, payloadOk, upstream, uploadsOk, now);
      EndsSettled(before, id, tried, now);
      processed := Some(id);
    }

    /** recoverStaleWalletRunningTasks: the batch with its two accumulation maps is the recovery of
        the stale rows, or nothing at all when a balance row is missing. */
    method RecoverStale(now: int, staleAfter: int) returns (ok: bool, cutoff: int)
      modifies this`wallets, this`ents, this`tasks
      ensures staleAfter > 0 ==> cutoff == now - staleAfter
      ensures staleAfter <= 0 ==> cutoff == now - 720_000_000_000
      ensures forall timeout: nat :: staleAfter == timeout + 120_000_000_000 ==>
        && cutoff == Timing.Cutoff(now, timeout)
        && StaleRows(old(View()), cutoff).Keys == Timing.StaleIds(old(tasks), Timing.Cutoff(now, timeout))
      ensures !ok ==> wallets == old(wallets) && ents == old(ents) && tasks == old(tasks)
      ensures ok ==> tasks.Keys == old(tasks).Keys && forall id :: id in old(tasks) ==>
        var t := old(tasks)[id];
        var stale := t.status.Running? && t.wallet != "" && t.service != "" && t.reserved && !t.charged
                     && t.updatedAt < cutoff;
        tasks[id] == if stale then t.(status := Failed, reserved := false, updatedAt := now) else t
      ensures ok ==> forall a :: HasRow(old(View()), a) ==>
        Balance(View(), a) == Balance(old(View()), a) + RefundSum(StaleRows(old(View()), cutoff), a)
      ensures View() == Recover(old(View()), cutoff, now)
      ensures ok <==> forall id :: id in StaleRows(old(View()), cutoff) ==>
        var t := old(tasks)[id];
        if t.source == "credits" then t.wallet in old(wallets) else EntKey(t.wallet, t.service) in old(ents)
    {
      cutoff := now - StaleAfter(staleAfter);
      ok, wallets, ents, tasks := RunRecovery(View(), cutoff, now);
    }

    /** handleEPUSDTCallback: what is accepted, and its whole effect. */
    method HandleCallback(payload: Signing.Payload, cfg: Payments.Config, secret: string,
                          digest: string -> string, read: string -> Option<real>, now: int) returns (reply: Reply)
      modifies this`wallets, this`orders
      ensures var oid := Signing.TextField(payload, "order_id");
        && (reply.Unavailable? <==> TrimSpace(secret) == "")
        && (reply in {MissingOrder, UnknownOrder, Mismatch, Ok} ==> Signing.Verifies(payload, secret, digest))
        && (reply.Ok? <==>
              && TrimSpace(secret) != "" && Signing.Verifies(payload, secret, digest)
              && oid != "" && oid in old(orders) && Payments.Accepted(old(orders)[oid], payload, cfg, read))
        && (reply.MissingSignature? <==> TrimSpace(secret) != "" && Signing.TextField(payload, "signature") == "")
        && (reply.BadSignature? <==>
              && TrimSpace(secret) != "" && Signing.TextField(payload, "signature") != ""
              && Signing.TextField(payload, "signature") != Signing.Signature(payload, secret, digest))
        && (reply.MissingOrder? ==> oid == "") && (reply.UnknownOrder? ==> oid != "" && oid !in old(orders))
        && (reply.Ok? || reply.Mismatch? ==> oid != "" && oid in old(orders))
        && (!reply.Ok? ==> wallets == old(wallets) && orders == old(orders))
        && (reply.Ok? ==>
              var order := old(orders)[oid];
              && orders == old(orders)[oid := Payments.After(order, payload, cfg, read, now)]
              && wallets == AddTo(old(wallets), order.wallet, Payments.Gain(order, payload, cfg, read)))
      ensures reply.Ok? || reply.Mismatch? ==>
        var order := old(orders)[Signing.TextField(payload, "order_id")];
        var amount := Signing.TextField(payload, "amount");
        var reported := if amount != "" then amount else Signing.TextField(payload, "actual_amount");
        var due, trade := TrimSpace(order.amount), Signing.TextField(payload, "trade_id");
        var pid, currency := Signing.TextField(payload, "pid"), Signing.TextField(payload, "currency");
        var token, network := Signing.TextField(payload, "token"), Signing.TextField(payload, "network");
        reply.Ok? <==>
          || Signing.IntValue(Signing.Field(payload, "status")) != 2
          || (&& reported != "" && due != "" && read(reported).Some? && read(reported) == read(due)
              && (pid == "" || TrimSpace(cfg.pid) == "" || ToLower(pid) == ToLower(TrimSpace(cfg.pid)))
              && (currency == "" || TrimSpace(cfg.currency) == ""
                  || ToLower(currency) == ToLower(TrimSpace(cfg.currency)))
              && (token == "" || TrimSpace(cfg.token) == "" || ToLower(token) == ToLower(TrimSpace(cfg.token)))
              && (network == "" || TrimSpace(cfg.network) == ""
                  || Payments.NormalNetwork(network) == Payments.NormalNetwork(cfg.network))
              && (trade == "" || TrimSpace(order.providerTradeId) == "" || trade == TrimSpace(order.providerTradeId)))
    {
      if TrimSpace(secret) == "" {
        return Unavailable;
      }
      var signature := Signing.TextField(payload, "signature");
      if signature == "" {
        return MissingSignature;
      }
      var expected := Signing.ComputeSignature(payload, secret, digest);
      if expected != signature {
        return BadSignature;
      }
      var oid := Signing.TextField(payload, "order_id");
      if oid == "" {
        return MissingOrder;
      }
      if oid !in orders {
        return UnknownOrder;
      }
      Payments.AcceptedMeans(orders[oid], payload, cfg, read);
      var accepted := ApplyCallback(oid, payload, cfg, read, now);
      reply := if accepted then Ok else Mismatch;
    }

    /** The transaction of a verified callback on the locked order. */
    method ApplyCallback(oid: string, payload: Signing.Payload, cfg: Payments.Config,
                         read: string -> Option<real>, now: int)
      returns (accepted: bool)
      requires oid in orders
      modifies this`wallets, this`orders
      ensures accepted <==> Payments.Accepted(old(orders)[oid], payload, cfg, read)
      ensures orders == old(orders)[oid := Payments.After(old(orders)[oid], payload, cfg, read, now)]
      ensures wallets == AddTo(old(wallets), old(orders)[oid].wallet,
          Payments.Gain(old(orders)[oid], payload, cfg, read))
      ensures !accepted ==> wallets == old(wallets) && orders == old(orders)
    {
      var order := orders[oid];
      var status := Signing.IntValue(Signing.Field(payload, "status"));
      var trade := Signing.TextField(payload, "trade_id");
      var newTrade := if trade != "" then trade else order.providerTradeId;
      if status != 2 {
        orders := orders[oid := order.(providerTradeId := newTrade, status := Payments.StatusName(status))];
        return true;
      }
      if !Payments.ValidPaid(order, payload, cfg, read) {
        return false;
      }
      assert Payments.Accepted(order, payload, cfg, read);
      if order.status != "paid" && order.wallet in wallets {
        wallets := wallets[order.wallet := wallets[order.wallet] + order.credits];
      }
      orders := orders[oid := order.(providerTradeId := newTrade, status := "paid",
                                     paidAt := if order.paidAt.Some? then order.paidAt else Some(now))];
      accepted := true;
    }

    /** RedeemLicenseToWallet: every refusal leaves all rows alone. */
    method RedeemLicence(address: string, hash: string, id: string,
                         now: int) returns (refusal: Option<Redemption.Failure>)
      modifies this`ents, this`licences, this`redemptions
      ensures var key := Redemption.LowerTrim(address);
        && refusal == (if key !in addresses then Some(Redemption.WalletNotFound)
                       else Redemption.Refusal(old(licences), hash, now))
        && (refusal.Some? ==> LicenceTables() == old(LicenceTables()))
        && (refusal.None? ==> LicenceTables() == Redemption.Redeem(old(LicenceTables()), id, addresses[key], hash, now))
      ensures refusal == if ToLower(TrimSpace(address)) !in addresses then Some(Redemption.WalletNotFound)
                         else if hash !in old(licences) || !old(licences)[hash].active then
                           Some(Redemption.LicenceNotFound)
                         else
                           var l := old(licences)[hash];
                           if l.expires.Some? && l.expires.value <= now then Some(Redemption.LicenceExpired)
                           else if l.redeemedAt.Some? || l.redeemedBy.Some? then Some(Redemption.LicenceUsed)
                           else if l.credits <= 0 then Some(Redemption.LicenceNotFound) else None
      ensures refusal.None? ==>
        var wallet, l := addresses[ToLower(TrimSpace(address))], old(licences)[hash];
        var k := EntKey(wallet, l.service);
        var own := if l.maxConcurrent <= 0 then 6 else l.maxConcurrent;
        && licences == old(licences)[hash := l.(redeemedAt := Some(now), redeemedBy := Some(wallet))]
        && redemptions == old(redemptions)[id := Redemption.Redeemed(wallet, hash, l.service, l.credits)]
        && k in ents && ents == old(ents)[k := ents[k]]
        && (k !in old(ents) ==> ents[k].remaining == l.credits && ents[k].maxConcurrent == own)
        && (k in old(ents) ==>
              && ents[k].remaining == old(ents)[k].remaining + l.credits
              && ents[k].maxConcurrent == if old(ents)[k].maxConcurrent > own then old(ents)[k].maxConcurrent else own)
    {
      var key := Redemption.LowerTrim(address);
      if key !in addresses {
        return Some(Redemption.WalletNotFound);
      }
      var wallet := addresses[key];
      if hash !in licences || !licences[hash].active {
        return Some(Redemption.LicenceNotFound);
      }
      var licence := licences[hash];
      if licence.expires.Some? && licence.expires.value <= now {
        return Some(Redemption.LicenceExpired);
      }
      if licence.redeemedAt.Some? || licence.redeemedBy.Some? {
        return Some(Redemption.LicenceUsed);
      }
      if licence.credits <= 0 {
        return Some(Redemption.LicenceNotFound);
      }
      var maxConcurrent := if licence.maxConcurrent <= 0 then DEFAULT_MAX_CONCURRENT else licence.maxConcurrent;
      ents := Grant(ents, EntKey(wallet, licence.service), licence.credits, maxConcurrent);
      licences := licences[hash := licence.(redeemedAt := Some(now), redeemedBy := Some(wallet))];
      redemptions := redemptions[id := Redemption.Redeemed(wallet, hash, licence.service, licence.credits)];
      refusal := None;
    }
  }

  /** A signed report delivered for a known order is accepted when it matches, with its whole effect. */
  method Deliver(store: Store, oid: string, report: Signing.Payload, cfg: Payments.Config, secret: string,
                 digest: string -> string, read: string -> Option<real>, now: int) returns (reply: Reply)
    requires TrimSpace(secret) != "" && Signing.PrintsAsHex(digest)
    requires oid != "" && Trimmed(oid) && Signing.Field(report, "order_id") == Signing.Str(oid) && oid in store.orders
    requires Payments.Accepted(store.orders[oid], Payments.Signed(report, secret, digest), cfg, read)
    modifies store`wallets, store`orders
    ensures reply == Ok
    ensures var order := old(store.orders)[oid];
      var payload := Payments.Signed(report, secret, digest);
      && store.orders == old(store.orders)[oid := Payments.After(order, payload, cfg, read, now)]
      && store.wallets == AddTo(old(store.wallets), order.wallet, Payments.Gain(order, payload, cfg, read))
  {
    Payments.SignedReportArrives(report, oid, secret, digest);
    var signature := Signing.ComputeSignature(report, secret, digest);
    reply := store.HandleCallback(report["signature" := Signing.Str(signature)], cfg, secret, digest, read, now);
  }

  method DeliverPayment(store: Store, oid: string, cfg: Payments.Config, secret: string,
                        digest: string -> string, read: string -> Option<real>, now: int) returns (reply: Reply)
    requires TrimSpace(secret) != "" && Signing.PrintsAsHex(digest)
    requires oid != "" && Trimmed(oid) && oid in store.orders && Payments.Readable(store.orders[oid].amount, read)
    modifies store`wallets, store`orders
    ensures reply == Ok
    ensures var order := old(store.orders)[oid];
      && store.orders == old(store.orders)[oid := order.(
           status := "paid", paidAt := if order.paidAt.Some? then order.paidAt else Some(now))]
      && store.wallets == AddTo(old(store.wallets), order.wallet, if order.status != "paid" then order.credits else 0)
  {
    var order := store.orders[oid];
    var report := Payments.PaidReport(oid, order.amount);
    Payments.ReportFields(oid, order.amount, Signing.Signature(report, secret, digest));
    Payments.ReportPays(order, Payments.Signed(report, secret, digest), cfg, read, now);
    reply := Deliver(store, oid, report, cfg, secret, digest, read, now);
  }

  method DeliverExpiry(store: Store, oid: string, cfg: Payments.Config, secret: string,
                       digest: string -> string, read: string -> Option<real>, now: int) returns (reply: Reply)
    requires TrimSpace(secret) != "" && Signing.PrintsAsHex(digest) && oid != "" && Trimmed(oid) && oid in store.orders
    modifies store`wallets, store`orders
    ensures reply == Ok && store.wallets == old(store.wallets)
    ensures store.orders == old(store.orders)[oid := old(store.orders)[oid].(status := "expired")]
  {
    var order := store.orders[oid];
    var report := Payments.ExpiryReport(oid);
    Payments.ReportFields(oid, order.amount, Signing.Signature(report, secret, digest));
    Payments.ReportExpires(order, Payments.Signed(report, secret, digest), cfg, read, now);
    reply := Deliver(store, oid, report, cfg, secret, digest, read, now);
  }

  /** The callback handler itself credits an order twice when an expiry report comes between two
      deliveries of the same signed payment. */
  method PayTwice(store: Store, oid: string, cfg: Payments.Config, secret: string,
                  digest: string -> string, read: string -> Option<real>) returns (replies: seq<Reply>)
    requires TrimSpace(secret) != "" && Signing.PrintsAsHex(digest)
    requires oid != "" && Trimmed(oid) && oid in store.orders && store.orders[oid].status != "paid"
    requires Payments.Readable(store.orders[oid].amount, read) && store.orders[oid].wallet in store.wallets
    modifies store`wallets, store`orders
    ensures replies == [Ok, Ok, Ok]
    ensures var order := old(store.orders)[oid];
      store.wallets == old(store.wallets)[order.wallet := old(store.wallets)[order.wallet] + 2 * order.credits]
  {
    var first := DeliverPayment(store, oid, cfg, secret, digest, read, 0);
    var second := DeliverExpiry(store, oid, cfg, secret, digest, read, 1);
    var third := DeliverPayment(store, oid, cfg, secret, digest, read, 2);
    replies := [first, second, third];
  }
}
