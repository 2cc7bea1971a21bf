/** How many active tasks of a wallet and service can exist at once while creators interleave. */
module LedgerCaps {
  import opened Totals
  import opened Rows
  import opened Recovery
  import opened Runs
  import opened Accounting
  import opened LedgerShape
  import opened LedgerMoney

  /** A creator that passed the count and may still insert. */
  predicate IsAdmitted(c: Creator, service: string) {
    c.row.service == service && (c.phase.Admitted? || c.phase.Written?)
  }

  /** The place reserved by the holder of one balance row, if it creates for this service. */
  function Slot(s: State, a: Account, service: string): nat {
    if a in s.locks && s.locks[a] in s.creators && IsAdmitted(s.creators[s.locks[a]], service) then 1 else 0
  }

  function CreditSlot(s: State, w: string, service: string): nat {
    Slot(s, WalletRow(w), service)
  }

  function EntitlementSlot(s: State, w: string, service: string): nat {
    Slot(s, EntRow(EntKey(w, service)), service)
  }

  /** Committed active tasks and places reserved by admitted creators. */
  function Load(s: State, w: string, service: string): nat {
    ActiveTasks(s.db, w, service) + CreditSlot(s, w, service) + EntitlementSlot(s, w, service)
  }

  /** The cap that creators of one billing source read. */
  function SourceCap(db: Db, w: string, service: string, credits: bool): int {
    var k := EntKey(w, service);
    if credits then DEFAULT_MAX_CONCURRENT
    else if k in db.ents then EffectiveMax(db.ents[k].maxConcurrent) else 0
  }

  /** max(6, max_concurrent of the entitlement) */
  function JointCap(db: Db, w: string, service: string): int {
    var k := EntKey(w, service);
    MaxInt(DEFAULT_MAX_CONCURRENT, if k in db.ents then db.ents[k].maxConcurrent else 0)
  }

  // ---- what steps do to the active count ----

  lemma ActiveMonotone(db: Db, after: Db, w: string, service: string)
    requires forall id :: id in after.tasks && ActiveFor(w, service, after.tasks[id]) ==>
      id in db.tasks && ActiveFor(w, service, db.tasks[id])
    ensures ActiveTasks(after, w, service) <= ActiveTasks(db, w, service)
  {
    CountMonotone(after.tasks, db.tasks, (t: Task) => ActiveFor(w, service, t), (t: Task) => ActiveFor(w, service, t));
  }

  lemma ActiveAfterInsert(db: Db, id: string, row: Task, w: string, service: string)
    requires id !in db.tasks
    ensures ActiveTasks(db.(tasks := db.tasks[id := row]), w, service)
         == ActiveTasks(db, w, service) + (if ActiveFor(w, service, row) then 1 else 0)
  {
    CountSet(db.tasks, (t: Task) => ActiveFor(w, service, t), id, row);
  }

  /** The task row after a worker step. */
  function RowAfter(t: Task, a: Work): Task {
    match a
    case Claim(now) => t.(status := Running, updatedAt := now)
    case Fallback(profile, now) => t.(profile := profile, updatedAt := now)
    case Complete(now) => t.(status := Done, charged := true, updatedAt := now)
    case Abandon => t
    case FailMark(now) => t.(status := Failed, updatedAt := now)
    case Refund => t
    case ClearFlag(now) => t.(reserved := false, updatedAt := now)
  }

  lemma RefundLeavesRows(s: State, id: string)
    requires id in s.workers && id in s.db.tasks
    ensures DoRefund(s, id).db.tasks == s.db.tasks[id := s.db.tasks[id]]
  {
    assert s.db.tasks[id := s.db.tasks[id]] == s.db.tasks;
  }

  /** A worker step rewrites its own task and no other row. */
  lemma WorkRewritesOne(s: State, id: string, a: Work)
    requires WorkEnabled(s, id, a) && id in s.db.tasks
    requires a.FailMark? ==> s.db.tasks[id].status.Running?
    ensures var u := ApplyWork(s, id, a);
      u.locks == s.locks && u.creators == s.creators && u.db.tasks == s.db.tasks[id := RowAfter(s.db.tasks[id], a)]
  {
    if a.Refund? {
      RefundLeavesRows(s, id);
    }
    assert a.Abandon? ==> s.db.tasks[id := s.db.tasks[id]] == s.db.tasks;
  }

  lemma ActiveAfterRewrite(db: Db, after: Db, id: string, t: Task, w: string, service: string)
    requires id in db.tasks && after.tasks == db.tasks[id := t] && SameDebt(t, db.tasks[id])
    requires IsActive(t) ==> IsActive(db.tasks[id])
    ensures ActiveTasks(after, w, service) <= ActiveTasks(db, w, service)
  {
    ActiveMonotone(db, after, w, service);
  }

  lemma WorkRowFacts(s: State, id: string, a: Work)
    requires Shape(s) && WorkEnabled(s, id, a)
    ensures id in s.db.tasks && (a.FailMark? ==> s.db.tasks[id].status.Running?)
    ensures IsActive(RowAfter(s.db.tasks[id], a)) ==> IsActive(s.db.tasks[id])
  {
    if !a.Claim? {
      WorkerFacts(s, id, s.workers[id].stage);
    }
  }

  lemma WorkLoad(s: State, id: string, a: Work, w: string, service: string)
    requires Shape(s) && WorkEnabled(s, id, a)
    ensures Load(ApplyWork(s, id, a), w, service) <= Load(s, w, service)
  {
    WorkRowFacts(s, id, a);
    WorkRewritesOne(s, id, a);
    ActiveAfterRewrite(s.db, ApplyWork(s, id, a).db, id, RowAfter(s.db.tasks[id], a), w, service);
  }

  lemma RecoverLoad(s: State, cutoff: int, now: int, w: string, service: string)
    requires Shape(s)
    ensures Load(DoRecover(s, cutoff, now), w, service) <= Load(s, w, service)
  {
    if AllRowsExist(s.db, StaleRows(s.db, cutoff)) {
      RecoverEffects(s.db, cutoff, now);
    }
    ActiveMonotone(s.db, DoRecover(s, cutoff, now).db, w, service);
  }

  /** Dropping a request frees its place; committing turns the place into a task. */
  lemma DropLoad(s: State, id: string, w: string, service: string)
    requires Shape(s) && id in s.creators
    ensures Load(Drop(s, id), w, service) <= Load(s, w, service)
  {
  }

  lemma CommitLoad(s: State, id: string, w: string, service: string)
    requires Shape(s) && RequestEnabled(s, id, Commit)
    ensures Load(DoCommit(s, id), w, service) <= Load(s, w, service)
  {
    var row := s.creators[id].row;
    WrittenFacts(s, id);
    CreditMoves(s.db, TaskAccount(row), -DebitAmount(row));
    ActiveAfterInsert(Credit(s.db, TaskAccount(row), -DebitAmount(row)), id, row, w, service);
  }

  predicate AdmissionPasses(s: State, id: string)
  {
    && id in s.creators && s.creators[id].phase.Locked?
    && ActiveTasks(s.db, s.creators[id].row.wallet, s.creators[id].row.service) < s.creators[id].phase.cap
  }

  lemma AdmittedSlots(s: State, id: string, w: string, service: string)
    requires Shape(s) && AdmissionPasses(s, id)
    ensures var row := s.creators[id].row;
      var mine := row.wallet == w && row.service == service;
      && Load(DoAdmit(s, id), w, service) == Load(s, w, service) + (if mine then 1 else 0)
      && Slot(s, TaskAccount(row), service) == 0
  {
    var a := TaskAccount(s.creators[id].row);
    assert a in s.locks && s.locks[a] == id;
    var u := DoAdmit(s, id);
    forall b, v ensures b != a ==> Slot(u, b, v) == Slot(s, b, v) {
    }
  }

  /** The only step that raises the load: an admission, of one place, below the creator's cap. */
  lemma AdmitLoad(s: State, id: string, w: string, service: string)
    requires Shape(s) && RequestEnabled(s, id, Admit)
    ensures var row := s.creators[id].row;
      var mine := AdmissionPasses(s, id) && row.wallet == w && row.service == service;
      && (!mine ==> Load(DoAdmit(s, id), w, service) <= Load(s, w, service))
      && (mine ==> Load(DoAdmit(s, id), w, service) == Load(s, w, service) + 1
                   && Slot(s, TaskAccount(row), service) == 0
                   && ActiveTasks(s.db, w, service) < SourceCap(s.db, w, service, TaskAccount(row).WalletRow?))
  {
    if AdmissionPasses(s, id) {
      AdmittedSlots(s, id, w, service);
      assert HoldOk(s.db, s.creators[id]);
    } else {
      assert DoAdmit(s, id) == Drop(s, id);
      DropLoad(s, id, w, service);
    }
  }

  lemma BeginLoad(s: State, id: string, row: Task, w: string, service: string)
    requires id !in s.creators
    ensures Load(DoBegin(s, id, row), w, service) <= Load(s, w, service)
  {
  }

  lemma WrittenSlot(s: State, id: string, balance: int, cap: int, a: Account, service: string)
    requires id in s.creators && s.creators[id].phase.Admitted?
    ensures Slot(SetPhase(s, id, Written(balance, cap)), a, service) == Slot(s, a, service)
  {
  }

  lemma WriteLoad(s: State, id: string, w: string, service: string)
    requires Shape(s) && id in s.creators && s.creators[id].phase.Admitted?
    ensures Load(DoWrite(s, id), w, service) <= Load(s, w, service)
  {
    var phase := s.creators[id].phase;
    DropLoad(s, id, w, service);
    WrittenSlot(s, id, phase.balance, phase.cap, WalletRow(w), service);
    WrittenSlot(s, id, phase.balance, phase.cap, EntRow(EntKey(w, service)), service);
  }

  lemma LockLoad(s: State, id: string, w: string, service: string)
    requires Shape(s) && id in s.creators && s.creators[id].phase.Chosen? && TaskAccount(s.creators[id].row) !in s.locks
    ensures Load(DoLock(s, id), w, service) <= Load(s, w, service)
  {
    DropLoad(s, id, w, service);
  }

  lemma RequestLoad(s: State, id: string, a: Request, w: string, service: string)
    requires Shape(s) && RequestEnabled(s, id, a) && !a.Admit?
    ensures Load(ApplyRequest(s, id, a), w, service) <= Load(s, w, service)
  {
    match a
    case Begin(_, _, _, _, _, _) => BeginLoad(s, id, ApplyRequest(s, id, a).creators[id].row, w, service);
    case Lock => LockLoad(s, id, w, service);
    case Write => WriteLoad(s, id, w, service);
    case Commit => CommitLoad(s, id, w, service);
    case Abort => DropLoad(s, id, w, service);
  }

  /** A step either admits one creator of this wallet and service below its cap, or does not raise
      the load; and caps never fall. */
  lemma StepLoad(s: State, a: Action, w: string, service: string)
    requires Shape(s) && Enabled(s, a)
    ensures var admits := a.Requests? && a.request.Admit? && AdmissionPasses(s, a.id)
                          && s.creators[a.id].row.wallet == w && s.creators[a.id].row.service == service;
      && (!admits ==> Load(Apply(s, a), w, service) <= Load(s, w, service))
      && (admits ==>
            var account := TaskAccount(s.creators[a.id].row);
            && Load(Apply(s, a), w, service) == Load(s, w, service) + 1
            && Slot(s, account, service) == 0
            && ActiveTasks(s.db, w, service) < SourceCap(s.db, w, service, account.WalletRow?))
  {
    match a
    case Inflows(i) => InflowLoad(s, i, w, service);
    case Requests(id, r) =>
      if r.Admit? { AdmitLoad(s, id, w, service); } else { RequestLoad(s, id, r, w, service); }
    case Works(id, work) => WorkLoad(s, id, work, w, service);
    case Crash =>
    case RecoverStale(cutoff, now) => RecoverLoad(s, cutoff, now, w, service);
    case Start =>
  }

  lemma InflowLoad(s: State, a: Inflow, w: string, service: string)
    requires InflowEnabled(s, a)
    ensures Load(ApplyInflow(s, a), w, service) == Load(s, w, service)
  {
    assert ApplyInflow(s, a).db.tasks == s.db.tasks;
  }

  predicate CapsKept(db: Db, after: Db) {
    forall k :: k in db.ents ==> k in after.ents && after.ents[k].maxConcurrent >= db.ents[k].maxConcurrent
  }

  lemma WorkKeepsCaps(s: State, id: string, a: Work)
    requires WorkEnabled(s, id, a)
    ensures CapsKept(s.db, ApplyWork(s, id, a).db)
  {
    if a.Refund? {
      CreditMoves(s.db, TaskAccount(s.workers[id].copy), RefundAmount(s.workers[id].copy));
    } else {
      QuietWorks(s, id, a);
    }
  }

  lemma RequestKeepsCaps(s: State, id: string, a: Request)
    requires RequestEnabled(s, id, a)
    ensures CapsKept(s.db, ApplyRequest(s, id, a).db)
  {
    if a.Commit? {
      CreditMoves(s.db, TaskAccount(s.creators[id].row), -DebitAmount(s.creators[id].row));
    } else {
      QuietRequests(s, id, a);
    }
  }

  lemma InflowKeepsCaps(s: State, a: Inflow)
    requires InflowEnabled(s, a)
    ensures CapsKept(s.db, ApplyInflow(s, a).db)
  {
  }

  lemma RecoverKeepsCaps(s: State, cutoff: int, now: int)
    ensures CapsKept(s.db, DoRecover(s, cutoff, now).db)
  {
    if AllRowsExist(s.db, StaleRows(s.db, cutoff)) {
      RecoverEffects(s.db, cutoff, now);
    }
  }

  lemma StepKeepsCaps(s: State, a: Action)
    requires Enabled(s, a)
    ensures CapsKept(s.db, Apply(s, a).db)
  {
    match a
    case Inflows(i) => InflowKeepsCaps(s, i);
    case Requests(id, r) => RequestKeepsCaps(s, id, r);
    case Works(id, work) => WorkKeepsCaps(s, id, work);
    case Crash =>
    case RecoverStale(cutoff, now) => RecoverKeepsCaps(s, cutoff, now);
    case Start =>
  }

  lemma CapsNeverFall(db: Db, after: Db, w: string, service: string)
    requires CapsKept(db, after) && BalancesOk(db) && BalancesOk(after)
    ensures JointCap(db, w, service) <= JointCap(after, w, service)
    ensures forall credits :: SourceCap(db, w, service, credits) <= SourceCap(after, w, service, credits)
  {
  }

  // ---- over whole runs ----

  lemma JointCapStep(s: State, a: Action, u: State, w: string, service: string)
    requires Shape(s) && Enabled(s, a) && u == Apply(s, a)
    requires Load(s, w, service) <= JointCap(s.db, w, service) + 1
    ensures Load(u, w, service) <= JointCap(u.db, w, service) + 1
  {
    StepKeepsShape(s, a);
    StepLoad(s, a, w, service);
    StepKeepsCaps(s, a);
    CapsNeverFall(s.db, u.db, w, service);
  }

  lemma NothingIsActiveAtFirst(w: string, service: string)
    ensures Load(Initial(), w, service) == 0
  {
    assert Where(Initial().db.tasks, (t: Task) => ActiveFor(w, service, t)) == {};
  }

  ghost predicate JointlyCapped(s: State, w: string, service: string) {
    Sound(s) && Load(s, w, service) <= JointCap(s.db, w, service) + 1
  }

  lemma JointCapHolds(states: seq<State>, actions: seq<Action>, i: nat, w: string, service: string)
    requires IsRun(states, actions) && i < |states|
    ensures Load(states[i], w, service) <= JointCap(states[i].db, w, service) + 1
  {
    NothingIsActiveAtFirst(w, service);
    RunIsSound(states, actions, 0);
    forall s, a, u | JointlyCapped(s, w, service) && Step(s, a, u) ensures JointlyCapped(u, w, service) {
      StepIsSound(s, a, u);
      JointCapStep(s, a, u, w, service);
    }
    KeptAlong(Step, (s: State) => JointlyCapped(s, w, service), states, actions, i);
  }

  // ---- exactly when the joint cap is kept ----

  /** The balance row from which the same wallet and service could also be paid. */
  function OtherRow(row: Task): Account {
    if TaskAccount(row).WalletRow? then EntRow(EntKey(row.wallet, row.service)) else WalletRow(row.wallet)
  }

  /** The last free place goes to a request while another one, paid from the other row, was already
      promised a place. */
  predicate Collides(s: State, row: Task) {
    && Slot(s, OtherRow(row), row.service) == 1
    && ActiveTasks(s.db, row.wallet, row.service) + 1 == JointCap(s.db, row.wallet, row.service)
  }

  /** An admission keeps the joint cap exactly when it does not collide. */
  lemma AdmissionKeepsCapIff(s: State, id: string)
    requires Shape(s) && AdmissionPasses(s, id)
    ensures var row := s.creators[id].row;
      Load(DoAdmit(s, id), row.wallet, row.service) <= JointCap(s.db, row.wallet, row.service) <==> !Collides(s, row)
  {
    var row := s.creators[id].row;
    AdmitLoad(s, id, row.wallet, row.service);
    assert BalancesOk(s.db);
  }

  /** The step admits a request for this wallet and service into a collision. */
  predicate CollidesAt(s: State, a: Action, w: string, service: string) {
    && a.Requests? && a.request.Admit? && AdmissionPasses(s, a.id)
    && s.creators[a.id].row.wallet == w && s.creators[a.id].row.service == service
    && Collides(s, s.creators[a.id].row)
  }

  lemma AdmitKeepsRows(s: State, id: string)
    requires RequestEnabled(s, id, Admit)
    ensures DoAdmit(s, id).db == s.db
  {
  }

  lemma CollisionBreaksCap(s: State, a: Action, w: string, service: string)
    requires Shape(s) && Enabled(s, a) && CollidesAt(s, a, w, service)
    ensures Load(Apply(s, a), w, service) > JointCap(Apply(s, a).db, w, service)
  {
    AdmissionKeepsCapIff(s, a.id);
    AdmitKeepsRows(s, a.id);
  }

  lemma AdmissionKeepsCap(s: State, id: string, w: string, service: string)
    requires Shape(s) && RequestEnabled(s, id, Admit) && !CollidesAt(s, Requests(id, Admit), w, service)
    requires Load(s, w, service) <= JointCap(s.db, w, service)
    ensures Load(DoAdmit(s, id), w, service) <= JointCap(s.db, w, service)
  {
    AdmitLoad(s, id, w, service);
    if AdmissionPasses(s, id) {
      AdmissionKeepsCapIff(s, id);
    }
  }

  lemma OtherStepKeepsCap(s: State, a: Action, w: string, service: string)
    requires Shape(s) && Enabled(s, a) && !(a.Requests? && a.request.Admit?)
    requires Load(s, w, service) <= JointCap(s.db, w, service)
    ensures Load(Apply(s, a), w, service) <= JointCap(Apply(s, a).db, w, service)
  {
    StepKeepsShape(s, a);
    StepLoad(s, a, w, service);
    StepKeepsCaps(s, a);
    CapsNeverFall(s.db, Apply(s, a).db, w, service);
  }

  lemma StepKeepsCapWithout(s: State, a: Action, u: State, w: string, service: string)
    requires Shape(s) && Enabled(s, a) && u == Apply(s, a) && !CollidesAt(s, a, w, service)
    requires Load(s, w, service) <= JointCap(s.db, w, service)
    ensures Load(u, w, service) <= JointCap(u.db, w, service)
  {
    if a.Requests? && a.request.Admit? {
      AdmissionKeepsCap(s, a.id, w, service);
      AdmitKeepsRows(s, a.id);
    } else {
      OtherStepKeepsCap(s, a, w, service);
    }
  }

  ghost predicate WithinCap(s: State, w: string, service: string) {
    Sound(s) && Load(s, w, service) <= JointCap(s.db, w, service)
  }

  lemma NoCollisionKeepsCap(states: seq<State>, actions: seq<Action>, i: nat, w: string, service: string)
    requires IsRun(states, actions) && i < |states|
    requires forall j :: 0 <= j < i ==> !CollidesAt(states[j], actions[j], w, service)
    ensures Load(states[i], w, service) <= JointCap(states[i].db, w, service)
  {
    NothingIsActiveAtFirst(w, service);
    RunIsSound(states, actions, 0);
    forall s, a, u | WithinCap(s, w, service) && !CollidesAt(s, a, w, service) && Step(s, a, u)
      ensures WithinCap(u, w, service)
    {
      StepIsSound(s, a, u);
      StepKeepsCapWithout(s, a, u, w, service);
    }
    KeptWhile(Step, (s: State) => WithinCap(s, w, service),
              (s: State, a: Action) => !CollidesAt(s, a, w, service), states, actions, i);
  }

  /** Over a run, active tasks together with places promised to admitted requests stay within
      max(6, max_concurrent) if and only if no admission collides. */
  lemma CapIsKeptIff(states: seq<State>, actions: seq<Action>, n: nat, w: string, service: string)
    requires IsRun(states, actions) && n <= |actions|
    ensures (forall i :: 0 <= i <= n ==> Load(states[i], w, service) <= JointCap(states[i].db, w, service))
       <==> (forall i :: 0 <= i < n ==> !CollidesAt(states[i], actions[i], w, service))
  {
    if forall i :: 0 <= i < n ==> !CollidesAt(states[i], actions[i], w, service) {
      forall i | 0 <= i <= n ensures Load(states[i], w, service) <= JointCap(states[i].db, w, service) {
        NoCollisionKeepsCap(states, actions, i, w, service);
      }
    } else {
      var i :| 0 <= i < n && CollidesAt(states[i], actions[i], w, service);
      RunIsSound(states, actions, i);
      StepAt(Step, states, actions, i);
      CollisionBreaksCap(states[i], actions[i], w, service);
      assert Load(states[i + 1], w, service) > JointCap(states[i + 1].db, w, service);
    }
  }

  /** Every create request for this wallet and service is billed to the one source. */
  ghost predicate OnlySource(s: State, w: string, service: string, credits: bool) {
    forall id :: id in s.creators && s.creators[id].row.wallet == w && s.creators[id].row.service == service ==>
      (s.creators[id].row.source == SOURCE_CREDITS) == credits
  }

  lemma OtherSlotEmpty(s: State, w: string, service: string, credits: bool)
    requires Shape(s) && OnlySource(s, w, service, credits)
    ensures credits ==> EntitlementSlot(s, w, service) == 0
    ensures !credits ==> CreditSlot(s, w, service) == 0
  {
  }

  lemma SourceCapStep(s: State, a: Action, u: State, w: string, service: string, credits: bool)
    requires Shape(s) && Enabled(s, a) && u == Apply(s, a) && OnlySource(s, w, service, credits)
    requires Load(s, w, service) <= SourceCap(s.db, w, service, credits)
    ensures Load(u, w, service) <= SourceCap(u.db, w, service, credits)
  {
    StepKeepsShape(s, a);
    StepLoad(s, a, w, service);
    StepKeepsCaps(s, a);
    CapsNeverFall(s.db, u.db, w, service);
    OtherSlotEmpty(s, w, service, credits);
  }

  /** With a single billing source in use, the cap that its creators read is never exceeded. */
  ghost predicate SourceCapped(s: State, w: string, service: string, credits: bool) {
    Sound(s) && Load(s, w, service) <= SourceCap(s.db, w, service, credits)
  }

  lemma SourceCapHolds(states: seq<State>, actions: seq<Action>, i: nat, w: string, service: string, credits: bool)
    requires IsRun(states, actions) && i < |states|
    requires forall j :: 0 <= j <= i ==> OnlySource(states[j], w, service, credits)
    ensures Load(states[i], w, service) <= SourceCap(states[i].db, w, service, credits)
  {
    NothingIsActiveAtFirst(w, service);
    RunIsSound(states, actions, 0);
    forall s, a, u | SourceCapped(s, w, service, credits) && OnlySource(s, w, service, credits) && Step(s, a, u)
      ensures SourceCapped(u, w, service, credits)
    {
      StepIsSound(s, a, u);
      SourceCapStep(s, a, u, w, service, credits);
    }
    KeptWhile(Step, (s: State) => SourceCapped(s, w, service, credits),
              (s: State, a: Action) => OnlySource(s, w, service, credits), states, actions, i);
  }

  /** Inserted but not yet committed tasks of a wallet and service. */
  function PendingTasks(s: State, w: string, service: string): nat {
    Count(s.creators, (c: Creator) => c.row.wallet == w && c.row.service == service && c.phase.Written?)
  }

  /** Uncommitted tasks hold their place: at most one per balance row. */
  lemma PendingFitsSlots(s: State, w: string, service: string)
    requires Shape(s)
    ensures PendingTasks(s, w, service) <= CreditSlot(s, w, service) + EntitlementSlot(s, w, service)
  {
    var a, b := WalletRow(w), EntRow(EntKey(w, service));
    var pending := Where(s.creators, (c: Creator) => c.row.wallet == w && c.row.service == service && c.phase.Written?);
    var byCredit := if CreditSlot(s, w, service) == 1 then {s.locks[a]} else {};
    var byEnt := if EntitlementSlot(s, w, service) == 1 then {s.locks[b]} else {};
    forall id | id in pending ensures id in byCredit + byEnt {
      var account := TaskAccount(s.creators[id].row);
      assert account in s.locks && s.locks[account] == id;
      assert account == a || account == b;
    }
    SubsetSize(pending, byCredit + byEnt);
  }

  /** The excess shows in the active tasks themselves exactly while every admitted request has
      inserted its task. */
  lemma ExcessShowsIff(states: seq<State>, actions: seq<Action>, i: nat, w: string, service: string)
    requires IsRun(states, actions) && i < |states|
    ensures var s := states[i];
      ActiveTasks(s.db, w, service) + PendingTasks(s, w, service) > JointCap(s.db, w, service)
      <==> Load(s, w, service) > JointCap(s.db, w, service)
           && PendingTasks(s, w, service) == CreditSlot(s, w, service) + EntitlementSlot(s, w, service)
  {
    RunIsSound(states, actions, i);
    PendingFitsSlots(states[i], w, service);
    JointCapHolds(states, actions, i, w, service);
  }

  /** Committed plus pending active tasks of a wallet and service never exceed
      max(6, max_concurrent) + 1, in any interleaving of creators, workers and redemptions; and with
      one billing source in use they never exceed that source's own cap. */
  lemma ConcurrencyIsCapped(states: seq<State>, actions: seq<Action>, i: nat, w: string, service: string)
    requires IsRun(states, actions) && i < |states|
    ensures var active := ActiveTasks(states[i].db, w, service) + PendingTasks(states[i], w, service);
      var k, ents := EntKey(w, service), states[i].db.ents;
      var own := if k !in ents then 0 else if ents[k].maxConcurrent <= 0 then 6 else ents[k].maxConcurrent;
      && active <= (if own > 6 then own else 6) + 1
      && ((forall j :: 0 <= j <= i ==> OnlySource(states[j], w, service, true)) ==> active <= 6)
      && ((forall j :: 0 <= j <= i ==> OnlySource(states[j], w, service, false)) ==> active <= own)
  {
    RunIsSound(states, actions, i);
    PendingFitsSlots(states[i], w, service);
    JointCapHolds(states, actions, i, w, service);
    if forall j :: 0 <= j <= i ==> OnlySource(states[j], w, service, true) {
      SourceCapHolds(states, actions, i, w, service, true);
    }
    if forall j :: 0 <= j <= i ==> OnlySource(states[j], w, service, false) {
      SourceCapHolds(states, actions, i, w, service, false);
    }
  }
}
