/** The loops of the recovery transaction: accumulating the refunds of the returned rows in two maps,
    then paying them out key by key, each in whatever order the map iteration takes. */
module Refunds {
  import opened Totals
  import opened Rows
  import opened Recovery

  /** Grouping key of the entitlement refunds: two sources of one entitlement are two keys. */
  datatype RefundKey = RefundKey(wallet: string, service: string, source: string)

  function KeyOf(key: RefundKey): EntKey {
    EntKey(key.wallet, key.service)
  }

  function CountIn<K>(m: map<K, int>, k: K): int {
    if k in m then m[k] else 0
  }

  ghost function ToEnt(k: EntKey): (RefundKey, int) -> int {
    (key: RefundKey, n: int) => if KeyOf(key) == k then n else 0
  }

  /** What the accumulated counts give to one entitlement. */
  ghost function EntSum(refunds: map<RefundKey, int>, k: EntKey): int {
    Total(refunds, ToEnt(k))
  }

  ghost predicate Owes(seen: map<string, Task>, a: Account) {
    exists id :: id in seen && TaskAccount(seen[id]) == a
  }

  ghost predicate IsPaid(refunds: map<RefundKey, int>, k: EntKey) {
    exists key :: key in refunds && KeyOf(key) == k
  }

  /** The credit refunds are the per-wallet sums of the visited rows. */
  ghost predicate CreditsOk(seen: map<string, Task>, creditRefunds: map<string, int>) {
    && (forall w :: CountIn(creditRefunds, w) == RefundSum(seen, WalletRow(w)))
    && (forall w :: w in creditRefunds <==> Owes(seen, WalletRow(w)))
  }

  /** The other refunds are the per-entitlement sums. */
  ghost predicate EntsOk(seen: map<string, Task>, refunds: map<RefundKey, int>) {
    && (forall k :: EntSum(refunds, k) == RefundSum(seen, EntRow(k)))
    && (forall k :: IsPaid(refunds, k) <==> Owes(seen, EntRow(k)))
  }

  lemma OwesMore(seen: map<string, Task>, id: string, t: Task, a: Account)
    requires id !in seen
    ensures Owes(seen[id := t], a) <==> Owes(seen, a) || TaskAccount(t) == a
  {
    var more := seen[id := t];
    assert more[id] == t;
    assert forall x :: x in seen ==> x in more && more[x] == seen[x];
    assert forall x :: x in more ==> x == id || x in seen;
  }

  lemma IsPaidMore(refunds: map<RefundKey, int>, key: RefundKey, n: int, k: EntKey)
    ensures IsPaid(refunds[key := n], k) <==> IsPaid(refunds, k) || KeyOf(key) == k
  {
    var more := refunds[key := n];
    assert key in more;
    assert forall x :: x in refunds ==> x in more;
    assert forall x :: x in more ==> x == key || x in refunds;
  }

  lemma EntSumMore(refunds: map<RefundKey, int>, key: RefundKey, n: int, k: EntKey)
    ensures EntSum(refunds[key := n], k)
         == EntSum(refunds, k) + (if KeyOf(key) == k then n - CountIn(refunds, key) else 0)
  {
    TotalSet(refunds, ToEnt(k), key, n);
  }

  /** Visiting one more row, seen from one account. */
  lemma VisitMore(seen: map<string, Task>, id: string, t: Task, a: Account)
    requires id !in seen
    ensures RefundSum(seen[id := t], a) == RefundSum(seen, a) + (if TaskAccount(t) == a then RefundAmount(t) else 0)
    ensures Owes(seen[id := t], a) <==> Owes(seen, a) || TaskAccount(t) == a
  {
    RefundSumMore(seen, id, t, a);
    OwesMore(seen, id, t, a);
  }

  /** Adding a count to a key, seen from one entitlement. */
  lemma CountMore(refunds: map<RefundKey, int>, key: RefundKey, k: EntKey)
    ensures var more := refunds[key := CountIn(refunds, key) + 1];
      && EntSum(more, k) == EntSum(refunds, k) + (if KeyOf(key) == k then 1 else 0)
      && (IsPaid(more, k) <==> IsPaid(refunds, k) || KeyOf(key) == k)
  {
    EntSumMore(refunds, key, CountIn(refunds, key) + 1, k);
    IsPaidMore(refunds, key, CountIn(refunds, key) + 1, k);
  }

  /** A row of the other kind leaves a map as it is. */
  lemma KeepCredits(seen: map<string, Task>, creditRefunds: map<string, int>, id: string, t: Task)
    requires CreditsOk(seen, creditRefunds) && id !in seen && t.source != SOURCE_CREDITS
    ensures CreditsOk(seen[id := t], creditRefunds)
  {
    forall w ensures CountIn(creditRefunds, w) == RefundSum(seen[id := t], WalletRow(w))
    {
      VisitMore(seen, id, t, WalletRow(w));
    }
    forall w ensures w in creditRefunds <==> Owes(seen[id := t], WalletRow(w))
    {
      VisitMore(seen, id, t, WalletRow(w));
    }
  }

  lemma KeepCounts(seen: map<string, Task>, refunds: map<RefundKey, int>, id: string, t: Task)
    requires EntsOk(seen, refunds) && id !in seen && t.source == SOURCE_CREDITS
    ensures EntsOk(seen[id := t], refunds)
  {
    forall k ensures EntSum(refunds, k) == RefundSum(seen[id := t], EntRow(k))
    {
      VisitMore(seen, id, t, EntRow(k));
    }
    forall k ensures IsPaid(refunds, k) <==> Owes(seen[id := t], EntRow(k))
    {
      VisitMore(seen, id, t, EntRow(k));
    }
  }

  /** One more credit-billed row. */
  lemma AddCredit(seen: map<string, Task>, creditRefunds: map<string, int>, id: string, t: Task)
    requires CreditsOk(seen, creditRefunds) && id !in seen && t.source == SOURCE_CREDITS
    ensures CreditsOk(seen[id := t], creditRefunds[t.wallet := CountIn(creditRefunds, t.wallet) + MaxInt(1, t.units)])
  {
    var after := creditRefunds[t.wallet := CountIn(creditRefunds, t.wallet) + MaxInt(1, t.units)];
    forall w ensures CountIn(after, w) == RefundSum(seen[id := t], WalletRow(w))
    {
      VisitMore(seen, id, t, WalletRow(w));
    }
    forall w ensures w in after <==> Owes(seen[id := t], WalletRow(w))
    {
      VisitMore(seen, id, t, WalletRow(w));
    }
  }

  /** One more entitlement-billed row. */
  lemma AddCount(seen: map<string, Task>, refunds: map<RefundKey, int>, id: string, t: Task, key: RefundKey)
    requires EntsOk(seen, refunds) && id !in seen && t.source != SOURCE_CREDITS
    requires key == RefundKey(t.wallet, t.service, t.source)
    ensures EntsOk(seen[id := t], refunds[key := CountIn(refunds, key) + 1])
  {
    var after := refunds[key := CountIn(refunds, key) + 1];
    forall k ensures EntSum(after, k) == RefundSum(seen[id := t], EntRow(k))
    {
      CountMore(refunds, key, k);
      VisitMore(seen, id, t, EntRow(k));
    }
    forall k ensures IsPaid(after, k) <==> Owes(seen[id := t], EntRow(k))
    {
      CountMore(refunds, key, k);
      VisitMore(seen, id, t, EntRow(k));
    }
  }

  lemma NothingOwed()
    ensures SumsOk(map[], map[], map[])
  {
    var rows: map<string, Task> := map[];
    var refunds: map<RefundKey, int> := map[];
    forall a ensures RefundSum(rows, a) == 0 && !Owes(rows, a) {
    }
    forall k ensures EntSum(refunds, k) == 0 && !IsPaid(refunds, k) {
    }
  }

  /** Both maps hold the sums of the visited rows. */
  ghost predicate SumsOk(seen: map<string, Task>, refunds: map<RefundKey, int>, creditRefunds: map<string, int>) {
    EntsOk(seen, refunds) && CreditsOk(seen, creditRefunds)
  }

  /** What one row does to the two maps. */
  method AddRow(refunds: map<RefundKey, int>, creditRefunds: map<string, int>, t: Task,
                ghost seen: map<string, Task>, ghost id: string)
    returns (refunds': map<RefundKey, int>, creditRefunds': map<string, int>)
    requires SumsOk(seen, refunds, creditRefunds) && id !in seen
    ensures SumsOk(seen[id := t], refunds', creditRefunds')
  {
    refunds', creditRefunds' := refunds, creditRefunds;
    if t.source == SOURCE_CREDITS {
      AddCredit(seen, creditRefunds, id, t);
      KeepCounts(seen, refunds, id, t);
      creditRefunds' := creditRefunds[t.wallet := CountIn(creditRefunds, t.wallet) + MaxInt(1, t.units)];
    } else {
      var key := RefundKey(t.wallet, t.service, t.source);
      AddCount(seen, refunds, id, t, key);
      KeepCredits(seen, creditRefunds, id, t);
      refunds' := refunds[key := CountIn(refunds, key) + 1];
    }
  }

  lemma TakeOut<K, V>(m: map<K, V>, left: set<K>, k: K)
    requires k in left && left <= m.Keys
    ensures m - (left - {k}) == (m - left)[k := m[k]] && k !in m - left
  {
  }

  /** The first loop: whatever order the rows arrive in, the maps hold the sums. */
  method Accumulate(rows: map<string, Task>) returns (refunds: map<RefundKey, int>, creditRefunds: map<string, int>)
    ensures SumsOk(rows, refunds, creditRefunds)
  {
    refunds, creditRefunds := map[], map[];
    var left := rows.Keys;
    NothingOwed();
    assert rows - left == map[];
    while left != {}
      invariant left <= rows.Keys && SumsOk(rows - left, refunds, creditRefunds)
      decreases |left|
    {
      var id :| id in left;
      TakeOut(rows, left, id);
      refunds, creditRefunds := AddRow(refunds, creditRefunds, rows[id], rows - left, id);
      left := left - {id};
    }
    assert rows - left == rows;
  }

  ghost function PaidEnts(ents: map<EntKey, Entitlement>, refunds: map<RefundKey, int>): map<EntKey, Entitlement> {
    map k | k in ents :: ents[k].(remaining := ents[k].remaining + EntSum(refunds, k))
  }

  ghost predicate IsPaidOut(ents: map<EntKey, Entitlement>, paid: map<RefundKey, int>,
                            after: map<EntKey, Entitlement>) {
    after == PaidEnts(ents, paid)
  }

  lemma PayOne(ents: map<EntKey, Entitlement>, refunds: map<RefundKey, int>, left: set<RefundKey>, key: RefundKey,
               before: map<EntKey, Entitlement>)
    requires key in left && left <= refunds.Keys && KeyOf(key) in ents
    requires IsPaidOut(ents, refunds - left, before)
    ensures KeyOf(key) in before
    ensures var k := KeyOf(key);
      IsPaidOut(ents, refunds - (left - {key}),
                before[k := before[k].(remaining := before[k].remaining + refunds[key])])
  {
    TakeOut(refunds, left, key);
    forall k ensures EntSum(refunds - (left - {key}), k)
                  == EntSum(refunds - left, k) + (if KeyOf(key) == k then refunds[key] else 0)
    {
      EntSumMore(refunds - left, key, refunds[key], k);
    }
  }

  lemma NothingPaid(ents: map<EntKey, Entitlement>)
    ensures PaidEnts(ents, map[]) == ents
  {
    var none: map<RefundKey, int> := map[];
    forall k ensures EntSum(none, k) == 0 {
    }
  }

  /** The second loop stops at the first missing row. */
  method PayEntitlements(ents: map<EntKey, Entitlement>, refunds: map<RefundKey, int>)
    returns (ok: bool, after: map<EntKey, Entitlement>)
    ensures ok <==> forall key :: key in refunds ==> KeyOf(key) in ents
    ensures ok ==> after == PaidEnts(ents, refunds)
  {
    after := ents;
    var left := refunds.Keys;
    NothingPaid(ents);
    assert refunds - left == map[];
    while left != {}
      invariant left <= refunds.Keys && IsPaidOut(ents, refunds - left, after)
      invariant forall key :: key in refunds - left ==> KeyOf(key) in ents
      decreases |left|
    {
      var key :| key in left;
      var k := KeyOf(key);
      if k !in after {
        return false, after;
      }
      PayOne(ents, refunds, left, key, after);
      after := after[k := after[k].(remaining := after[k].remaining + refunds[key])];
      left := left - {key};
    }
    assert refunds - left == refunds;
    ok := true;
  }

  function PaidWallets(wallets: map<string, int>, creditRefunds: map<string, int>): map<string, int> {
    map w | w in wallets :: wallets[w] + CountIn(creditRefunds, w)
  }

  /** The third loop, over the wallets. */
  method PayWallets(wallets: map<string, int>,
                    creditRefunds: map<string, int>) returns (ok: bool, after: map<string, int>)
    ensures ok <==> creditRefunds.Keys <= wallets.Keys
    ensures ok ==> after == PaidWallets(wallets, creditRefunds)
  {
    after := wallets;
    var left := creditRefunds.Keys;
    while left != {}
      invariant left <= creditRefunds.Keys && after == PaidWallets(wallets, creditRefunds - left)
      invariant creditRefunds.Keys - left <= wallets.Keys
      decreases |left|
    {
      var w :| w in left;
      if w !in after {
        return false, after;
      }
      after := after[w := after[w] + creditRefunds[w]];
      left := left - {w};
    }
    assert creditRefunds - left == creditRefunds;
    ok := true;
  }

  lemma PayoutToEnts(ents: map<EntKey, Entitlement>, rows: map<string, Task>, refunds: map<RefundKey, int>)
    requires EntsOk(rows, refunds)
    ensures PaidEnts(ents, refunds) == CreditedEnts(ents, rows)
  {
  }

  lemma PayoutToWallets(wallets: map<string, int>, rows: map<string, Task>, creditRefunds: map<string, int>)
    requires CreditsOk(rows, creditRefunds)
    ensures PaidWallets(wallets, creditRefunds) == CreditedWallets(wallets, rows)
  {
  }

  /** All payments find their row exactly when every recovered task's balance row exists. */
  lemma EveryOwedRowExists(db: Db, rows: map<string, Task>, refunds: map<RefundKey, int>,
                           creditRefunds: map<string, int>)
    requires SumsOk(rows, refunds, creditRefunds)
    ensures AllRowsExist(db, rows) <==>
      (forall key :: key in refunds ==> KeyOf(key) in db.ents) && creditRefunds.Keys <= db.wallets.Keys
  {
    if AllRowsExist(db, rows) {
      forall key | key in refunds ensures KeyOf(key) in db.ents {
        assert IsPaid(refunds, KeyOf(key));
        assert Owes(rows, EntRow(KeyOf(key)));
      }
      forall w | w in creditRefunds ensures w in db.wallets {
        assert Owes(rows, WalletRow(w));
      }
    }
    if (forall key :: key in refunds ==> KeyOf(key) in db.ents) && creditRefunds.Keys <= db.wallets.Keys {
      forall id | id in rows ensures HasRow(db, TaskAccount(rows[id])) {
        assert Owes(rows, TaskAccount(rows[id]));
        match TaskAccount(rows[id])
        case WalletRow(w) => assert w in creditRefunds.Keys;
        case EntRow(k) => assert IsPaid(refunds, k);
      }
    }
  }

  lemma RecoverByParts(db: Db, cutoff: int, now: int, ents: map<EntKey, Entitlement>, wallets: map<string, int>)
    requires AllRowsExist(db, StaleRows(db, cutoff))
    requires ents == CreditedEnts(db.ents, StaleRows(db, cutoff))
    requires wallets == CreditedWallets(db.wallets, StaleRows(db, cutoff))
    ensures Recover(db, cutoff, now) == Db(wallets, ents, MarkRecovered(db.tasks, StaleRows(db, cutoff), now))
  {
  }

  /** The statements of the recovery transaction, on the state it started from: marking the stale
      rows, accumulating and paying out is recovery, or nothing when a balance row is missing. */
  method RunRecovery(db: Db, cutoff: int, now: int)
    returns (ok: bool, wallets: map<string, int>, ents: map<EntKey, Entitlement>, tasks: map<string, Task>)
    ensures ok <==> AllRowsExist(db, StaleRows(db, cutoff))
    ensures Db(wallets, ents, tasks) == Recover(db, cutoff, now)
  {
    wallets, ents, tasks := db.wallets, db.ents, db.tasks;
    var rows := StaleRows(db, cutoff);
    var refunds, creditRefunds := Accumulate(rows);
    EveryOwedRowExists(db, rows, refunds, creditRefunds);
    var paidEnts, paidWallets;
    ok, paidEnts := PayEntitlements(ents, refunds);
    if !ok {
      return;
    }
    ok, paidWallets := PayWallets(wallets, creditRefunds);
    if !ok {
      return;
    }
    PayoutToEnts(ents, rows, refunds);
    PayoutToWallets(wallets, rows, creditRefunds);
    RecoverByParts(db, cutoff, now, paidEnts, paidWallets);
    wallets, ents, tasks := paidWallets, paidEnts, MarkRecovered(tasks, rows, now);
  }
}
