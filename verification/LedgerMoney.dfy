/** Conservation of credit over every run, and what a crash can lose. */
module LedgerMoney {
  import opened Totals
  import opened Rows
  import opened Recovery
  import opened Runs
  import opened Accounting
  import opened LedgerShape

  /** What a task took from an account and has not given back. */
  ghost function Outstanding(a: Account): (string, Entry) -> int {
    (id: string, e: Entry) => if e.account == a then e.units - e.returned else 0
  }

  ghost function Owed(book: map<string, Entry>, a: Account): int {
    Total(book, Outstanding(a))
  }

  /** Every account: what is on it plus what tasks hold of it is what came in. */
  ghost predicate Balanced(db: Db, book: map<string, Entry>, funded: map<Account, int>) {
    forall a :: Balance(db, a) + Owed(book, a) == FundedOn(funded, a)
  }

  predicate SameBalances(db: Db, after: Db) {
    after.wallets == db.wallets && after.ents == db.ents
  }

  lemma FrameKeepsBalanced(db: Db, after: Db, book: map<string, Entry>, funded: map<Account, int>)
    requires Balanced(db, book, funded) && SameBalances(db, after)
    ensures Balanced(after, book, funded)
  {
    forall a ensures Balance(after, a) == Balance(db, a) {
    }
  }

  /** Moving `n` between an account and one of its entries keeps every account balanced. */
  lemma MoveKeepsBalanced(db: Db, book: map<string, Entry>, funded: map<Account, int>, a: Account, n: int,
                          id: string, e: Entry)
    requires Balanced(db, book, funded) && HasRow(db, a)
    requires e.account == a && (id in book ==> book[id].account == a)
    requires n + e.units - e.returned == (if id in book then book[id].units - book[id].returned else 0)
    ensures Balanced(Credit(db, a, n), book[id := e], funded)
  {
    CreditMoves(db, a, n);
    forall b ensures Balance(Credit(db, a, n), b) + Owed(book[id := e], b) == FundedOn(funded, b) {
      TotalSet(book, Outstanding(b), id, e);
      assert Balance(db, b) + Owed(book, b) == FundedOn(funded, b);
    }
  }

  lemma CommitKeepsBalanced(s: State, id: string)
    requires Shape(s) && Balanced(s.db, s.book, s.funded) && RequestEnabled(s, id, Commit)
    ensures var u := DoCommit(s, id); Balanced(u.db, u.book, u.funded)
  {
    var row := s.creators[id].row;
    var a, n := TaskAccount(row), DebitAmount(row);
    WrittenFacts(s, id);
    assert id !in s.book;
    MoveKeepsBalanced(s.db, s.book, s.funded, a, -n, id, Entry(a, n, 0, 0));
    FrameKeepsBalanced(Credit(s.db, a, -n), DoCommit(s, id).db, DoCommit(s, id).book, s.funded);
  }

  lemma RefundKeepsBalanced(s: State, id: string)
    requires Shape(s) && Balanced(s.db, s.book, s.funded) && WorkEnabled(s, id, Refund)
    ensures var u := DoRefund(s, id); Balanced(u.db, u.book, u.funded)
  {
    WorkerFacts(s, id, Marked);
    var copy := s.workers[id].copy;
    var n := RefundAmount(copy);
    MoveKeepsBalanced(s.db, s.book, s.funded, TaskAccount(copy), n, id, GiveBack(s.book[id], n));
  }

  /** An inflow raises one account and what came into it alike. */
  lemma FundKeepsBalanced(db: Db, after: Db, book: map<string, Entry>, funded: map<Account, int>, a: Account, n: int)
    requires Balanced(db, book, funded)
    requires forall b :: Balance(after, b) == Balance(db, b) + (if a == b then n else 0)
    ensures Balanced(after, book, funded[a := FundedOn(funded, a) + n])
  {
    forall b ensures Balance(after, b) + Owed(book, b) == FundedOn(funded[a := FundedOn(funded, a) + n], b) {
      assert Balance(db, b) + Owed(book, b) == FundedOn(funded, b);
    }
  }

  lemma GrantMoves(db: Db, key: EntKey, n: int, m: int)
    ensures forall b :: Balance(db.(ents := Grant(db.ents, key, n, m)), b)
                     == Balance(db, b) + (if EntRow(key) == b then n else 0)
  {
  }

  lemma InflowKeepsBalanced(s: State, a: Inflow)
    requires Balanced(s.db, s.book, s.funded) && InflowEnabled(s, a)
    ensures var u := ApplyInflow(s, a); Balanced(u.db, u.book, u.funded)
  {
    match a
    case NewWallet(w) =>
      var after := s.db.(wallets := s.db.wallets[w := 0]);
      forall b ensures Balance(after, b) == Balance(s.db, b) {
      }
    case TopUp(w, n) =>
      CreditMoves(s.db, WalletRow(w), n);
      FundKeepsBalanced(s.db, Credit(s.db, WalletRow(w), n), s.book, s.funded, WalletRow(w), n);
    case Redeem(key, n, m) =>
      GrantMoves(s.db, key, n, m);
      FundKeepsBalanced(s.db, s.db.(ents := Grant(s.db.ents, key, n, m)), s.book, s.funded, EntRow(key), n);
  }

  /** What recovery writes into the history. */
  lemma RecoverBook(s: State, cutoff: int, now: int, id: string, a: Account)
    requires Shape(s) && AllRowsExist(s.db, StaleRows(s.db, cutoff)) && id in s.book
    ensures var rows := StaleRows(s.db, cutoff);
      && id in DoRecover(s, cutoff, now).book
      && Outstanding(a)(id, s.book[id])
         == Outstanding(a)(id, DoRecover(s, cutoff, now).book[id])
             + (if id in rows then RefundTo(a)(id, rows[id]) else 0)
  {
    assert EntryOk(s.book[id], s.db.tasks[id]);
  }

  lemma RecoverOwed(s: State, cutoff: int, now: int, a: Account)
    requires Shape(s) && AllRowsExist(s.db, StaleRows(s.db, cutoff))
    ensures Owed(s.book, a) == Owed(DoRecover(s, cutoff, now).book, a) + RefundSum(StaleRows(s.db, cutoff), a)
  {
    var rows := StaleRows(s.db, cutoff);
    var book := DoRecover(s, cutoff, now).book;
    forall id | id in s.book {
      RecoverBook(s, cutoff, now, id, a);
    }
    assert rows.Keys <= s.db.tasks.Keys == s.book.Keys == book.Keys;
    TotalAdd(s.book, Outstanding(a), book, Outstanding(a), rows, RefundTo(a));
  }

  lemma {:induction false} NobodyOwedWithoutRow(db: Db, rows: map<string, Task>, a: Account)
    requires AllRowsExist(db, rows) && !HasRow(db, a)
    ensures RefundSum(rows, a) == 0
    decreases |rows|
  {
    if rows != map[] {
      var id :| id in rows;
      assert (rows - {id}).Keys == rows.Keys - {id};
      TotalSplit(rows, RefundTo(a), id);
      NobodyOwedWithoutRow(db, rows - {id}, a);
    }
  }

  lemma RecoverKeepsBalanced(s: State, cutoff: int, now: int)
    requires Shape(s) && Balanced(s.db, s.book, s.funded)
    ensures var u := DoRecover(s, cutoff, now); Balanced(u.db, u.book, u.funded)
  {
    var rows := StaleRows(s.db, cutoff);
    if AllRowsExist(s.db, rows) {
      var u := DoRecover(s, cutoff, now);
      RecoverEffects(s.db, cutoff, now);
      forall a ensures Balance(u.db, a) + Owed(u.book, a) == FundedOn(u.funded, a) {
        RecoverOwed(s, cutoff, now, a);
        assert Balance(s.db, a) + Owed(s.book, a) == FundedOn(s.funded, a);
        if !HasRow(s.db, a) {
          NobodyOwedWithoutRow(s.db, rows, a);
        }
      }
    }
  }

  /** Only a commit of a create request and the refund statement of a worker move money. */
  lemma QuietRequests(s: State, id: string, a: Request)
    requires RequestEnabled(s, id, a) && !a.Commit?
    ensures var u := ApplyRequest(s, id, a); u.db == s.db && u.book == s.book && u.funded == s.funded
  {
  }

  lemma QuietWorks(s: State, id: string, a: Work)
    requires WorkEnabled(s, id, a) && !a.Refund?
    ensures var u := ApplyWork(s, id, a); SameBalances(s.db, u.db) && u.book == s.book && u.funded == s.funded
  {
  }

  lemma RequestKeepsBalanced(s: State, id: string, a: Request)
    requires Shape(s) && Balanced(s.db, s.book, s.funded) && RequestEnabled(s, id, a)
    ensures var u := ApplyRequest(s, id, a); Balanced(u.db, u.book, u.funded)
  {
    if a.Commit? {
      CommitKeepsBalanced(s, id);
    } else {
      QuietRequests(s, id, a);
    }
  }

  lemma WorkKeepsBalanced(s: State, id: string, a: Work)
    requires Shape(s) && Balanced(s.db, s.book, s.funded) && WorkEnabled(s, id, a)
    ensures var u := ApplyWork(s, id, a); Balanced(u.db, u.book, u.funded)
  {
    if a.Refund? {
      RefundKeepsBalanced(s, id);
    } else {
      QuietWorks(s, id, a);
      FrameKeepsBalanced(s.db, ApplyWork(s, id, a).db, s.book, s.funded);
    }
  }

  /** Every step keeps every account balanced. */
  lemma StepKeepsBalanced(s: State, a: Action)
    requires Shape(s) && Balanced(s.db, s.book, s.funded) && Enabled(s, a)
    ensures var u := Apply(s, a); Balanced(u.db, u.book, u.funded)
  {
    match a
    case Inflows(i) => InflowKeepsBalanced(s, i);
    case Requests(id, r) => RequestKeepsBalanced(s, id, r);
    case Works(id, w) => WorkKeepsBalanced(s, id, w);
    case Crash =>
    case RecoverStale(cutoff, now) => RecoverKeepsBalanced(s, cutoff, now);
    case Start =>
  }

  // ---- over whole runs ----

  ghost predicate Sound(s: State) {
    Shape(s) && Balanced(s.db, s.book, s.funded)
  }

  lemma StepIsSound(s: State, a: Action, u: State)
    requires Sound(s) && Step(s, a, u)
    ensures Sound(u)
  {
    StepKeepsShape(s, a);
    StepKeepsBalanced(s, a);
  }

  lemma RunIsSound(states: seq<State>, actions: seq<Action>, i: nat)
    requires IsRun(states, actions) && i < |states|
    ensures Shape(states[i]) && Balanced(states[i].db, states[i].book, states[i].funded)
  {
    InitialIsSound();
    forall s, a, u | Sound(s) && Step(s, a, u) ensures Sound(u) {
      StepIsSound(s, a, u);
    }
    KeptAlong(Step, Sound, states, actions, i);
  }

  lemma InitialIsSound()
    ensures Shape(Initial()) && Balanced(Initial().db, Initial().book, Initial().funded)
  {
    var none: map<string, Entry> := map[];
    forall a ensures Owed(none, a) == 0 {
    }
  }

  /** No worker stands between the statements of a failure. */
  predicate NobodyMidRefund(s: State) {
    forall id :: id in s.workers ==> s.workers[id].stage.Executing?
  }

  ghost function ReservedOn(a: Account): (string, Task) -> int {
    (id: string, t: Task) => if t.reserved && TaskAccount(t) == a then RefundAmount(t) else 0
  }

  lemma ReservedIsOutstanding(s: State, id: string, a: Account)
    requires Shape(s) && !s.crashed && NobodyMidRefund(s) && id in s.db.tasks
    ensures id in s.book && ReservedOn(a)(id, s.db.tasks[id]) == Outstanding(a)(id, s.book[id])
  {
    assert EntryOk(s.book[id], s.db.tasks[id]);
    assert LifeOk(s.db.tasks[id], s.book[id].refunds, StageOf(s.workers, id), id in s.cut, s.crashed);
  }

  /** Conservation: in every crash-free run, whenever no worker stands mid-refund, every balance
      together with what its reserved tasks hold is exactly what came in, and no balance is ever
      negative although billing was chosen from an unlocked snapshot. */
  lemma CreditIsConserved(states: seq<State>, actions: seq<Action>, i: nat, a: Account)
    requires IsRun(states, actions) && i < |states|
    ensures Balance(states[i].db, a) >= 0
    ensures !states[i].crashed && NobodyMidRefund(states[i]) ==>
      Balance(states[i].db, a) + Total(states[i].db.tasks, ReservedOn(a)) == Funded(states[i], a)
  {
    RunIsSound(states, actions, i);
    var s := states[i];
    assert Balance(s.db, a) + Owed(s.book, a) == FundedOn(s.funded, a);
    if !s.crashed && NobodyMidRefund(s) {
      forall id | id in s.db.tasks {
        ReservedIsOutstanding(s, id, a);
      }
      TotalMatch(s.db.tasks, ReservedOn(a), s.book, Outstanding(a));
    }
  }

  /** No task is refunded twice and none is both refunded and charged, whatever crashes. */
  lemma RefundedAtMostOnce(states: seq<State>, actions: seq<Action>, i: nat, id: string)
    requires IsRun(states, actions) && i < |states| && id in states[i].db.tasks
    ensures id in states[i].book
    ensures states[i].book[id].refunds <= 1
    ensures states[i].book[id].returned == (if states[i].book[id].refunds == 1 then states[i].book[id].units else 0)
    ensures states[i].db.tasks[id].charged ==> states[i].book[id].refunds == 0
    ensures states[i].db.tasks[id].charged <==> states[i].db.tasks[id].status.Done?
  {
    RunIsSound(states, actions, i);
    var s := states[i];
    assert EntryOk(s.book[id], s.db.tasks[id]);
    assert LifeOk(s.db.tasks[id], s.book[id].refunds, StageOf(s.workers, id), id in s.cut, s.crashed);
  }

  /** What queued, running and charged tasks legitimately keep of an account. */
  ghost function KeptFrom(a: Account): (string, Task) -> int {
    (id: string, t: Task) => if (IsActive(t) || t.charged) && TaskAccount(t) == a then RefundAmount(t) else 0
  }

  ghost function OwnedBy(a: Account): (string, Task) -> int {
    (id: string, t: Task) => if TaskAccount(t) == a then RefundAmount(t) else 0
  }

  /** The tasks whose worker died between the status update and the refund. */
  function CutRows(s: State): map<string, Task> {
    map id | id in s.cut && id in s.db.tasks :: s.db.tasks[id]
  }

  /** The tasks marked failed whose refund has not happened: the worker died at that point, or stands
      there. */
  function UnrefundedRows(s: State): map<string, Task> {
    map id | id in s.db.tasks && (id in s.cut || InStage(s, id, Marked)) :: s.db.tasks[id]
  }

  lemma UnrefundedIsOutstanding(s: State, id: string, a: Account)
    requires Shape(s) && id in s.db.tasks
    ensures id in s.book && Outstanding(a)(id, s.book[id])
      == KeptFrom(a)(id, s.db.tasks[id]) + (if id in UnrefundedRows(s) then OwnedBy(a)(id, s.db.tasks[id]) else 0)
  {
    assert EntryOk(s.book[id], s.db.tasks[id]);
    assert LifeOk(s.db.tasks[id], s.book[id].refunds, StageOf(s.workers, id), id in s.cut, s.crashed);
  }

  /** What came in and is neither on the account nor kept by an active or charged task. */
  ghost function Lost(s: State, a: Account): int {
    Funded(s, a) - Balance(s.db, a) - Total(s.db.tasks, KeptFrom(a))
  }

  /** In every state of every run, with any number of crashes and restarts and with workers at any
      point, what an account misses is exactly what its unrefunded failed tasks are owed. */
  lemma MissingIsUnrefunded(states: seq<State>, actions: seq<Action>, i: nat, a: Account)
    requires IsRun(states, actions) && i < |states|
    ensures Lost(states[i], a) == Total(UnrefundedRows(states[i]), OwnedBy(a))
  {
    RunIsSound(states, actions, i);
    var s := states[i];
    assert Balance(s.db, a) + Owed(s.book, a) == FundedOn(s.funded, a);
    forall id | id in s.db.tasks {
      UnrefundedIsOutstanding(s, id, a);
    }
    TotalAdd(s.book, Outstanding(a), s.db.tasks, KeptFrom(a), UnrefundedRows(s), OwnedBy(a));
  }

  /** What crashes can lose: whenever no worker stands mid-refund, the credit lost is exactly that of
      the tasks cut between the status update and the refund. */
  lemma OnlyCutTasksLoseCredit(states: seq<State>, actions: seq<Action>, i: nat, a: Account)
    requires IsRun(states, actions) && i < |states| && NobodyMidRefund(states[i])
    ensures Lost(states[i], a) == Total(CutRows(states[i]), OwnedBy(a))
  {
    MissingIsUnrefunded(states, actions, i, a);
    assert UnrefundedRows(states[i]) == CutRows(states[i]);
  }

  lemma OwnedIsPositive(rows: map<string, Task>, a: Account)
    ensures Total(rows, OwnedBy(a)) >= 0
    ensures Total(rows, OwnedBy(a)) == 0 <==> forall id :: id in rows ==> TaskAccount(rows[id]) != a
  {
    TotalNonNegative(rows, OwnedBy(a));
    if id :| id in rows && TaskAccount(rows[id]) == a {
      TotalSplit(rows, OwnedBy(a), id);
      TotalNonNegative(rows - {id}, OwnedBy(a));
    } else {
      var none: map<string, int> := map[];
      TotalAdd(rows, OwnedBy(a), rows, (id: string, t: Task) => 0, none, (id: string, n: int) => 0);
      NothingTotal(rows);
    }
  }

  lemma {:induction false} NothingTotal(rows: map<string, Task>)
    ensures Total(rows, (id: string, t: Task) => 0) == 0
    decreases |rows|
  {
    if id :| id in rows {
      assert (rows - {id}).Keys == rows.Keys - {id};
      TotalSplit(rows, (id: string, t: Task) => 0, id);
      NothingTotal(rows - {id});
    }
  }

  /** An account lost nothing exactly when none of its tasks was cut there. */
  lemma NothingLostIffNothingCut(states: seq<State>, actions: seq<Action>, i: nat, a: Account)
    requires IsRun(states, actions) && i < |states| && NobodyMidRefund(states[i])
    ensures Lost(states[i], a) >= 0
    ensures Lost(states[i], a) == 0
       <==> forall id :: id in CutRows(states[i]) ==> TaskAccount(CutRows(states[i])[id]) != a
  {
    OnlyCutTasksLoseCredit(states, actions, i, a);
    OwnedIsPositive(CutRows(states[i]), a);
  }
}
