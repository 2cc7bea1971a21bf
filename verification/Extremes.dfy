/** Runs that reach the bounds of the ledger: the concurrency bound is attained, and a crash can lose
    credit. In these runs every request reads the balances as they stand. */
module Extremes {
  import opened Totals
  import opened Rows
  import opened Routing
  import opened Runs
  import opened Accounting
  import opened LedgerMoney
  import opened LedgerCaps

  /** A step whose create request, if it begins one, reads the current balances. */
  ghost predicate TrueStep(s: State, a: Action, u: State) {
    && Step(s, a, u)
    && (a.Requests? && a.request.Begin? ==> ReadsAs(s.db, a.request.w, a.request.snapshot))
  }

  /** A run of such steps. */
  ghost predicate IsTrueRun(states: seq<State>, actions: seq<Action>) {
    IsRun(states, actions) && Follows(TrueStep, states, actions)
  }

  /** Some run of such steps from the empty database ends in this state. */
  ghost predicate Reachable(s: State) {
    Leads(TrueStep, Initial(), s)
  }

  /** These runs are runs of the ledger machine. */
  lemma ReachableByRun(s: State) returns (states: seq<State>, actions: seq<Action>)
    requires Reachable(s)
    ensures IsTrueRun(states, actions) && states[|actions|] == s
  {
    states, actions :| Follows(TrueStep, states, actions) && states[0] == Initial() && states[|actions|] == s;
    forall i | 0 <= i < |actions| ensures Step(states[i], actions[i], states[i + 1]) {
      StepAt(TrueStep, states, actions, i);
    }
  }

  lemma ReachRequest(s: State, id: string, r: Request)
    requires Reachable(s) && RequestEnabled(s, id, r) && (r.Begin? ==> ReadsAs(s.db, r.w, r.snapshot))
    ensures Reachable(ApplyRequest(s, id, r))
  {
    LeadsOn(TrueStep, Initial(), s, Requests(id, r), ApplyRequest(s, id, r));
  }

  lemma ReachInflow(s: State, i: Inflow)
    requires Reachable(s) && InflowEnabled(s, i)
    ensures Reachable(ApplyInflow(s, i))
  {
    LeadsOn(TrueStep, Initial(), s, Inflows(i), ApplyInflow(s, i));
  }

  lemma ReachWork(s: State, id: string, w: Work)
    requires Reachable(s) && WorkEnabled(s, id, w)
    ensures Reachable(ApplyWork(s, id, w))
  {
    LeadsOn(TrueStep, Initial(), s, Works(id, w), ApplyWork(s, id, w));
  }

  lemma ReachStarted()
    ensures Reachable(Initial().(up := true))
  {
    LeadsToItself(TrueStep, Initial());
    LeadsOn(TrueStep, Initial(), Initial(), Start, Initial().(up := true));
  }

  lemma ReachCrashed(s: State)
    requires Reachable(s)
    ensures Reachable(DoCrash(s))
  {
    LeadsOn(TrueStep, Initial(), s, Crash, DoCrash(s));
  }

  // ---- a wallet and two ways to pay for a picture of standard size ----

  const WALLET := "w"
  const SERVICE := IMAGE_SD
  const ENTITLEMENT := EntKey(WALLET, SERVICE)
  const PRICES := map[(SERVICE, "1K") := Price(1, true)]

  function CreditTask(): Task {
    QueuedRow(WALLET, Billing(SERVICE, "1K", 1, true), map[], "p", 0)
  }

  function EntitlementTask(): Task {
    QueuedRow(WALLET, Billing(SERVICE, "1K", 1, false), map[], "p", 0)
  }

  /** The same request, before and after the wallet has an entitlement. */
  function EarlyRequest(credits: int): Request {
    Begin(WALLET, Snapshot(credits, []), PRICES, map[], "p", 0)
  }

  function LateRequest(credits: int): Request {
    Begin(WALLET, Snapshot(credits, [SnapshotEntitlement(SERVICE, 1, DEFAULT_MAX_CONCURRENT)]), PRICES, map[], "p", 0)
  }

  predicate CanBegin(s: State, id: string) {
    s.up && id !in s.db.tasks && id !in s.creators && WALLET in s.db.wallets
  }

  lemma RequestsMean(s: State, id: string, credits: int)
    requires CanBegin(s, id)
    ensures credits >= 1 ==>
      && RequestEnabled(s, id, EarlyRequest(credits))
      && ApplyRequest(s, id, EarlyRequest(credits)) == DoBegin(s, id, CreditTask())
    ensures RequestEnabled(s, id, LateRequest(credits))
    ensures ApplyRequest(s, id, LateRequest(credits)) == DoBegin(s, id, EntitlementTask())
  {
    DefaultTier();
  }

  lemma ReachCreditBegun(s: State, id: string)
    requires Reachable(s) && CanBegin(s, id) && s.db.ents == map[] && s.db.wallets[WALLET] >= 1
    ensures Reachable(DoBegin(s, id, CreditTask()))
  {
    var credits := s.db.wallets[WALLET];
    RequestsMean(s, id, credits);
    ReachRequest(s, id, EarlyRequest(credits));
  }

  lemma ReachEntitlementBegun(s: State, id: string)
    requires Reachable(s) && CanBegin(s, id) && s.db.ents == map[ENTITLEMENT := Entitlement(1, DEFAULT_MAX_CONCURRENT)]
    ensures Reachable(DoBegin(s, id, EntitlementTask()))
  {
    var credits := s.db.wallets[WALLET];
    RequestsMean(s, id, credits);
    LateReads(s.db);
    ReachRequest(s, id, LateRequest(credits));
  }

  lemma LateReads(db: Db)
    requires WALLET in db.wallets && db.ents == map[ENTITLEMENT := Entitlement(1, DEFAULT_MAX_CONCURRENT)]
    ensures ReadsAs(db, WALLET, Snapshot(db.wallets[WALLET], [SnapshotEntitlement(SERVICE, 1, DEFAULT_MAX_CONCURRENT)]))
  {
    var ents := [SnapshotEntitlement(SERVICE, 1, DEFAULT_MAX_CONCURRENT)];
    assert ents[0] in ents;
  }

  /** A request that holds its balance row. */
  function InPhase(s: State, id: string, row: Task, phase: Phase): State {
    s.(creators := s.creators[id := Creator(row, phase)], locks := s.locks[TaskAccount(row) := id])
  }

  /** The row has something left, and its cap is the default one. */
  predicate CanPay(db: Db, row: Task) {
    && HasRow(db, TaskAccount(row)) && Balance(db, TaskAccount(row)) >= 1 && row.units == 1
    && (TaskAccount(row).EntRow? ==> db.ents[TaskAccount(row).key].maxConcurrent == DEFAULT_MAX_CONCURRENT)
  }

  lemma CanLockAfterBegin(s: State, id: string, row: Task)
    requires id !in s.creators && CanLock(s, TaskAccount(row))
    ensures CanLock(DoBegin(s, id, row), TaskAccount(row))
  {
  }

  lemma LockAfterBegin(s: State, id: string, row: Task)
    requires CanPay(s.db, row)
    ensures DoLock(DoBegin(s, id, row), id)
         == InPhase(s, id, row, Locked(Balance(s.db, TaskAccount(row)), DEFAULT_MAX_CONCURRENT))
  {
    var begun := DoBegin(s, id, row);
    var phase := Locked(Balance(s.db, TaskAccount(row)), DEFAULT_MAX_CONCURRENT);
    LockOfChosen(begun, id, row);
    assert begun.creators[id := Creator(row, phase)] == s.creators[id := Creator(row, phase)];
  }

  lemma LockOfChosen(s: State, id: string, row: Task)
    requires CanPay(s.db, row) && id in s.creators && s.creators[id] == Creator(row, Chosen)
    ensures DoLock(s, id) == InPhase(s, id, row, Locked(Balance(s.db, TaskAccount(row)), DEFAULT_MAX_CONCURRENT))
  {
  }

  lemma ReachLocked(s: State, id: string, row: Task)
    requires Reachable(DoBegin(s, id, row)) && id !in s.creators && CanLock(s, TaskAccount(row)) && CanPay(s.db, row)
    ensures Reachable(InPhase(s, id, row, Locked(Balance(s.db, TaskAccount(row)), DEFAULT_MAX_CONCURRENT)))
  {
    CanLockAfterBegin(s, id, row);
    LockAfterBegin(s, id, row);
    ReachRequest(DoBegin(s, id, row), id, Lock);
  }

  lemma ReachNextPhase(s: State, id: string, row: Task, from: Phase, to: Phase, r: Request)
    requires Reachable(InPhase(s, id, row, from)) && CanPay(s.db, row) && !r.Begin?
    requires RequestEnabled(InPhase(s, id, row, from), id, r)
    requires ApplyRequest(InPhase(s, id, row, from), id, r) == SetPhase(InPhase(s, id, row, from), id, to)
    ensures Reachable(InPhase(s, id, row, to))
  {
    ReachRequest(InPhase(s, id, row, from), id, r);
    assert SetPhase(InPhase(s, id, row, from), id, to) == InPhase(s, id, row, to);
  }

  /** A request that passed the count and has not inserted its task yet. */
  function Waiting(s: State, id: string, row: Task): State {
    InPhase(s, id, row, Admitted(Balance(s.db, TaskAccount(row)), DEFAULT_MAX_CONCURRENT))
  }

  lemma ReachWaiting(s: State, id: string, row: Task)
    requires Reachable(DoBegin(s, id, row)) && id !in s.creators && CanLock(s, TaskAccount(row)) && CanPay(s.db, row)
    requires ActiveTasks(s.db, row.wallet, row.service) < DEFAULT_MAX_CONCURRENT
    ensures Reachable(Waiting(s, id, row))
  {
    var balance := Balance(s.db, TaskAccount(row));
    ReachLocked(s, id, row);
    var cap := DEFAULT_MAX_CONCURRENT;
    ReachNextPhase(s, id, row, Locked(balance, cap), Admitted(balance, cap), Admit);
  }

  /** The committed task. */
  function Inserted(s: State, id: string, row: Task): State {
    var debited := Credit(s.db, TaskAccount(row), -1);
    s.(db := debited.(tasks := s.db.tasks[id := row]), book := s.book[id := Entry(TaskAccount(row), 1, 0, 0)])
  }

  lemma CommitOfWritten(s: State, id: string, row: Task, balance: int)
    requires id !in s.creators && TaskAccount(row) !in s.locks && CanPay(s.db, row)
    ensures DoCommit(InPhase(s, id, row, Written(balance, DEFAULT_MAX_CONCURRENT)), id) == Inserted(s, id, row)
  {
    var written := InPhase(s, id, row, Written(balance, DEFAULT_MAX_CONCURRENT));
    assert written.creators - {id} == s.creators && written.locks - {TaskAccount(row)} == s.locks;
  }

  /** The insert does not have to wait for the wallet row. */
  predicate CanWrite(s: State, row: Task) {
    TaskAccount(row) !in s.locks && (TaskAccount(row).EntRow? ==> WalletRow(row.wallet) !in s.locks)
  }

  lemma ReachWritten(s: State, id: string, row: Task, balance: int)
    requires Reachable(InPhase(s, id, row, Admitted(balance, DEFAULT_MAX_CONCURRENT)))
    requires CanPay(s.db, row) && CanWrite(s, row)
    ensures Reachable(InPhase(s, id, row, Written(balance, DEFAULT_MAX_CONCURRENT)))
  {
    var cap := DEFAULT_MAX_CONCURRENT;
    ReachNextPhase(s, id, row, Admitted(balance, cap), Written(balance, cap), Write);
  }

  lemma ReachInserted(s: State, id: string, row: Task)
    requires Reachable(Waiting(s, id, row)) && id !in s.creators && CanPay(s.db, row) && CanWrite(s, row)
    ensures Reachable(Inserted(s, id, row))
  {
    var balance := Balance(s.db, TaskAccount(row));
    ReachWritten(s, id, row, balance);
    ReachRequest(InPhase(s, id, row, Written(balance, DEFAULT_MAX_CONCURRENT)), id, Commit);
    CommitOfWritten(s, id, row, balance);
  }

  // ---- the concurrency bound is attained ----

  function Served(wallets: map<string, int>, funded: map<Account, int>): State {
    State(true, Db(wallets, map[], map[]), map[], map[], map[], map[], funded, {}, false)
  }

  /** An instance serving one wallet with some credit. */
  function Opened(credits: nat): State {
    Served(map[WALLET := credits], map[WalletRow(WALLET) := credits])
  }

  lemma ReachOpened(credits: nat)
    ensures Reachable(Opened(credits))
  {
    ReachStarted();
    ReachInflow(Served(map[], map[]), NewWallet(WALLET));
    ReachInflow(Served(map[WALLET := 0], map[]), TopUp(WALLET, credits));
    assert ApplyInflow(Served(map[WALLET := 0], map[]), TopUp(WALLET, credits)) == Opened(credits);
  }

  function Name(n: nat): (name: string)
    ensures |name| == n
  {
    seq(n, i requires 0 <= i < n => 'x')
  }

  /** The state after so many credit-billed tasks were created one after the other. */
  function Several(s: State, n: nat): State {
    if n == 0 then s else Inserted(Several(s, n - 1), Name(n), CreditTask())
  }

  predicate HasOpen(s: State, credits: int, tasks: nat) {
    && s.up && s.creators == map[] && s.locks == map[]
    && s.db.wallets == map[WALLET := credits] && s.db.ents == map[]
    && (forall id :: id in s.db.tasks ==> |id| <= tasks)
    && ActiveTasks(s.db, WALLET, SERVICE) == tasks
  }

  lemma InsertedIsActive(s: State, id: string, row: Task)
    requires id !in s.db.tasks && (row == CreditTask() || row == EntitlementTask())
    ensures ActiveTasks(Inserted(s, id, row).db, WALLET, SERVICE) == ActiveTasks(s.db, WALLET, SERVICE) + 1
  {
    ActiveAfterInsert(s.db, id, row, WALLET, SERVICE);
  }

  lemma OneMore(s: State, credits: int, n: nat)
    requires HasOpen(s, credits, n)
    ensures HasOpen(Inserted(s, Name(n + 1), CreditTask()), credits - 1, n + 1)
  {
    InsertedIsActive(s, Name(n + 1), CreditTask());
    InsertedRows(s, Name(n + 1), credits);
    KeysStayShort(s.db.tasks, Name(n + 1), CreditTask(), n);
  }

  lemma InsertedRows(s: State, id: string, credits: int)
    requires s.db.wallets == map[WALLET := credits]
    ensures var u := Inserted(s, id, CreditTask());
      && u.db.wallets == map[WALLET := credits - 1] && u.db.ents == s.db.ents
      && u.db.tasks == s.db.tasks[id := CreditTask()]
      && u.up == s.up && u.creators == s.creators && u.locks == s.locks
  {
  }

  lemma KeysStayShort(tasks: map<string, Task>, id: string, t: Task, n: nat)
    requires |id| <= n + 1 && forall x :: x in tasks ==> |x| <= n
    ensures forall x :: x in tasks[id := t] ==> |x| <= n + 1
  {
  }

  lemma ReachOneMore(s: State, credits: int, n: nat)
    requires Reachable(s) && HasOpen(s, credits, n) && credits >= 1 && n < DEFAULT_MAX_CONCURRENT
    ensures Reachable(Inserted(s, Name(n + 1), CreditTask()))
  {
    ReachCreditBegun(s, Name(n + 1));
    ReachWaiting(s, Name(n + 1), CreditTask());
    ReachInserted(s, Name(n + 1), CreditTask());
  }

  lemma OpenedIsOpen(credits: nat)
    ensures HasOpen(Opened(credits), credits, 0)
  {
    assert Where(Opened(credits).db.tasks, (t: Task) => ActiveFor(WALLET, SERVICE, t)) == {};
  }

  lemma {:induction false} ReachSeveral(credits: nat, n: nat)
    requires n <= credits && n <= DEFAULT_MAX_CONCURRENT
    ensures HasOpen(Several(Opened(credits), n), credits - n, n)
    ensures Reachable(Several(Opened(credits), n))
  {
    if n == 0 {
      ReachOpened(credits);
      OpenedIsOpen(credits);
    } else {
      ReachSeveral(credits, n - 1);
      var s := Several(Opened(credits), n - 1);
      ReachOneMore(s, credits - (n - 1), n - 1);
      OneMore(s, credits - (n - 1), n - 1);
    }
  }

  /** A licence for one picture is redeemed. */
  function WithEntitlement(s: State): State {
    DoRedeem(s, ENTITLEMENT, 1, DEFAULT_MAX_CONCURRENT)
  }

  lemma RedeemAfterBegin(s: State, a: string, row: Task)
    requires s.creators == map[] && s.locks == map[] && WALLET in s.db.wallets
    ensures InflowEnabled(DoBegin(s, a, row), Redeem(ENTITLEMENT, 1, DEFAULT_MAX_CONCURRENT))
    ensures DoRedeem(DoBegin(s, a, row), ENTITLEMENT, 1, DEFAULT_MAX_CONCURRENT) == DoBegin(WithEntitlement(s), a, row)
  {
  }

  /** The last credit-billed request reads its balances, and only then the licence is redeemed. */
  lemma ReachRedeemed(s: State, credits: int, n: nat, a: string)
    requires Reachable(s) && HasOpen(s, credits, n) && credits >= 1 && a !in s.db.tasks
    ensures Reachable(DoBegin(WithEntitlement(s), a, CreditTask()))
  {
    ReachCreditBegun(s, a);
    RedeemAfterBegin(s, a, CreditTask());
    ReachInflow(DoBegin(s, a, CreditTask()), Redeem(ENTITLEMENT, 1, DEFAULT_MAX_CONCURRENT));
  }

  /** A quiet state with both rows able to pay. */
  predicate Quiet(s: State) {
    && s.up && s.creators == map[] && s.locks == map[] && WALLET in s.db.wallets
    && s.db.ents == map[ENTITLEMENT := Entitlement(1, DEFAULT_MAX_CONCURRENT)]
    && CanPay(s.db, CreditTask()) && CanPay(s.db, EntitlementTask())
  }

  lemma RedeemedIsQuiet(s: State, credits: int, n: nat)
    requires HasOpen(s, credits, n) && credits >= 1
    ensures var u := WithEntitlement(s);
      Quiet(u) && u.db.tasks == s.db.tasks && ActiveTasks(u.db, WALLET, SERVICE) == n
  {
  }

  lemma WaitingLeavesRows(s: State, id: string, row: Task)
    ensures var u := Waiting(s, id, row);
      && u.db == s.db && u.up == s.up && u.creators.Keys == s.creators.Keys + {id}
      && u.locks.Keys == s.locks.Keys + {TaskAccount(row)}
  {
  }

  /** Both requests pass the count, each holding its own balance row. */
  lemma ReachBothWaiting(s: State, a: string, b: string)
    requires Quiet(s) && Reachable(DoBegin(s, a, CreditTask()))
    requires ActiveTasks(s.db, WALLET, SERVICE) < DEFAULT_MAX_CONCURRENT && b !in s.db.tasks && a != b
    ensures Reachable(Waiting(Waiting(s, a, CreditTask()), b, EntitlementTask()))
  {
    ReachWaiting(s, a, CreditTask());
    WaitingLeavesRows(s, a, CreditTask());
    ReachEntitlementBegun(Waiting(s, a, CreditTask()), b);
    ReachWaiting(Waiting(s, a, CreditTask()), b, EntitlementTask());
  }

  lemma PhasesCommute(s: State, a: string, r: Task, p: Phase, b: string, t: Task, q: Phase)
    requires a != b && TaskAccount(r) != TaskAccount(t)
    ensures InPhase(InPhase(s, a, r, p), b, t, q) == InPhase(InPhase(s, b, t, q), a, r, p)
  {
    var both, swapped := InPhase(InPhase(s, a, r, p), b, t, q), InPhase(InPhase(s, b, t, q), a, r, p);
    assert both.creators == swapped.creators && both.locks == swapped.locks;
  }

  lemma WaitingCommutes(s: State, a: string, b: string)
    requires a != b
    ensures Waiting(Waiting(s, a, CreditTask()), b, EntitlementTask())
        == Waiting(Waiting(s, b, EntitlementTask()), a, CreditTask())
  {
    var r, t := CreditTask(), EntitlementTask();
    PhasesCommute(s, a, r, Admitted(Balance(s.db, TaskAccount(r)), DEFAULT_MAX_CONCURRENT),
                  b, t, Admitted(Balance(s.db, TaskAccount(t)), DEFAULT_MAX_CONCURRENT));
  }

  lemma InsertCommutes(s: State, a: string, b: string)
    ensures Inserted(Waiting(s, b, EntitlementTask()), a, CreditTask())
        == Waiting(Inserted(s, a, CreditTask()), b, EntitlementTask())
  {
  }

  lemma AfterCredit(s: State, a: string)
    requires Quiet(s)
    ensures var u := Inserted(s, a, CreditTask());
      u.creators == map[] && u.locks == map[] && CanPay(u.db, EntitlementTask())
  {
  }

  /** The credit-billed request commits first; the other one, which waited for the wallet row, then. */
  lemma ReachBothInserted(s: State, a: string, b: string)
    requires Quiet(s) && a != b && Reachable(Waiting(Waiting(s, a, CreditTask()), b, EntitlementTask()))
    ensures Reachable(Inserted(Inserted(s, a, CreditTask()), b, EntitlementTask()))
  {
    WaitingCommutes(s, a, b);
    WaitingLeavesRows(s, b, EntitlementTask());
    ReachInserted(Waiting(s, b, EntitlementTask()), a, CreditTask());
    InsertCommutes(s, a, b);
    AfterCredit(s, a);
    ReachInserted(Inserted(s, a, CreditTask()), b, EntitlementTask());
  }

  lemma BothAreActive(s: State, a: string, b: string)
    requires Quiet(s) && a !in s.db.tasks && b !in s.db.tasks && a != b
    ensures var u := Inserted(Inserted(s, a, CreditTask()), b, EntitlementTask());
      && ActiveTasks(u.db, WALLET, SERVICE) == ActiveTasks(s.db, WALLET, SERVICE) + 2
      && JointCap(u.db, WALLET, SERVICE) == DEFAULT_MAX_CONCURRENT
  {
    InsertedIsActive(s, a, CreditTask());
    InsertedIsActive(Inserted(s, a, CreditTask()), b, EntitlementTask());
  }

  predicate Exceeds(s: State) {
    ActiveTasks(s.db, WALLET, SERVICE) == JointCap(s.db, WALLET, SERVICE) + 1
  }

  lemma ExceedFrom(s: State, credits: int, n: nat, a: string, b: string)
    requires Reachable(s) && HasOpen(s, credits, n) && credits >= 1 && n + 1 == DEFAULT_MAX_CONCURRENT
    requires a !in s.db.tasks && b !in s.db.tasks && a != b
    ensures var u := Inserted(Inserted(WithEntitlement(s), a, CreditTask()), b, EntitlementTask());
      Reachable(u) && Exceeds(u)
  {
    ReachRedeemed(s, credits, n, a);
    RedeemedIsQuiet(s, credits, n);
    ReachBothWaiting(WithEntitlement(s), a, b);
    ReachBothInserted(WithEntitlement(s), a, b);
    BothAreActive(WithEntitlement(s), a, b);
  }

  lemma ExceedAfter(n: nat)
    requires n + 1 == DEFAULT_MAX_CONCURRENT
    ensures exists s :: Reachable(s) && Exceeds(s)
  {
    var s := Several(Opened(n + 1), n);
    ReachSeveral(n + 1, n);
    ExceedFrom(s, 1, n, Name(n + 1), Name(n + 2));
  }

  /** With both billing sources in use the bound is attained: seven tasks are active at once although
      each request alone observed the cap of six, and every request read true balances. */
  lemma CapIsExceededByOne()
    ensures exists states, actions :: IsTrueRun(states, actions) && Exceeds(states[|actions|])
  {
    ExceedAfter(5);
    var s :| Reachable(s) && Exceeds(s);
    var states, actions := ReachableByRun(s);
  }

  // ---- a crash can lose credit ----

  /** One task, its worker, and what became of both. */
  function OneTask(up: bool, status: Status, workers: map<string, Worker>, cut: set<string>, crashed: bool): State {
    State(up, Db(map[WALLET := 0], map[], map[Name(1) := CreditTask().(status := status)]),
          map[], map[], workers, map[Name(1) := Entry(WalletRow(WALLET), 1, 0, 0)], Opened(1).funded, cut, crashed)
  }

  function WorkerIn(stage: Accounting.Stage): map<string, Worker> {
    map[Name(1) := Worker(CreditTask().(status := Running), stage)]
  }

  lemma ReachQueued()
    ensures Reachable(OneTask(true, Queued, map[], {}, false))
  {
    ReachSeveral(1, 1);
    QueuedIsInserted();
  }

  lemma QueuedIsInserted()
    ensures Several(Opened(1), 1) == OneTask(true, Queued, map[], {}, false)
  {
    assert Several(Opened(1), 0) == Opened(1);
  }

  lemma ReachClaimed()
    ensures Reachable(OneTask(true, Running, WorkerIn(Executing), {}, false))
  {
    var queued := OneTask(true, Queued, map[], {}, false);
    ReachQueued();
    ReachWork(queued, Name(1), Claim(0));
    assert ApplyWork(queued, Name(1), Claim(0))
        == OneTask(true, Running, WorkerIn(Executing), {}, false);
  }

  lemma ReachMarked()
    ensures Reachable(OneTask(true, Failed, WorkerIn(Marked), {}, false))
  {
    var claimed := OneTask(true, Running, WorkerIn(Executing), {}, false);
    ReachClaimed();
    ReachWork(claimed, Name(1), FailMark(0));
    assert ApplyWork(claimed, Name(1), FailMark(0))
        == OneTask(true, Failed, WorkerIn(Marked), {}, false);
  }

  /** A worker died after the status update of a failure and before the refund. */
  lemma ReachCut()
    ensures Reachable(OneTask(false, Failed, map[], {Name(1)}, true))
  {
    var marked := OneTask(true, Failed, WorkerIn(Marked), {}, false);
    ReachMarked();
    ReachCrashed(marked);
    assert DoCrash(marked).cut == {Name(1)};
  }

  /** A crash at that point does lose a credit. */
  lemma CrashCanLoseCredit()
    ensures exists states, actions ::
      && IsTrueRun(states, actions) && NobodyMidRefund(states[|actions|])
      && Lost(states[|actions|], WalletRow(WALLET)) == 1
  {
    ReachCut();
    var s := OneTask(false, Failed, map[], {Name(1)}, true);
    var none: map<string, Task> := map[];
    TotalSet(none, KeptFrom(WalletRow(WALLET)), Name(1), s.db.tasks[Name(1)]);
    assert none[Name(1) := s.db.tasks[Name(1)]] == s.db.tasks;
    var states, actions := ReachableByRun(s);
    assert NobodyMidRefund(s);
  }
}
