/** Stale recovery by any replica, at any time, against live workers: a timed state machine with a
    shared clock and a fixed upstream timeout. */
module Timing {
  import opened Rows
  import opened Recovery
  import opened Runs

  /** A worker since the row's last timestamp: whether it is inside an upstream call, whether that
      call was already made; the time spent in calls before a fallback that wrote no timestamp, in the
      present call, and outside (uploads, bookkeeping, and the delay between reading the clock and the
      write taking effect); and whether the copy of the row it read entitles it to a refund. */
  datatype Live = Live(calling: bool, called: bool, carried: nat, call: nat, outside: nat, refundable: bool)

  /** All the time a worker has used since the row's last timestamp. */
  function Age(w: Live): nat {
    w.carried + w.call + w.outside
  }

  /** `recovered` and `refunds` are history: the tasks some recovery has refunded, and how often each
      task was given back by its worker or by a recovery. */
  datatype State = State(
    now: int, tasks: map<string, Task>, live: map<string, Live>, recovered: set<string>, refunds: map<string, nat>)

  datatype Action =
    | Insert(id: string, row: Task)
    | Tick(d: nat)
    | Claim(id: string, stamp: int)
    | StartCall(id: string)
    | EndCall(id: string)
    | Fallback(id: string, stamp: int, written: bool)
    | Finish(id: string)
    | Fail(id: string)
    | Die(id: string)
    | RecoverAt(reading: int)

  function StaleIds(tasks: map<string, Task>, cutoff: int): set<string> {
    set id | id in tasks && Stale(tasks[id], cutoff)
  }

  function RefundCount(refunds: map<string, nat>, id: string): nat {
    if id in refunds then refunds[id] else 0
  }

  /** Each of the tasks was given back once more. */
  function GivenBack(refunds: map<string, nat>, ids: set<string>): map<string, nat> {
    map id | id in refunds.Keys + ids :: RefundCount(refunds, id) + (if id in ids then 1 else 0)
  }

  function Cutoff(reading: int, timeout: nat): int {
    reading - (timeout + STALE_GRACE)
  }

  /** Time may pass only as far as every worker's current budget allows: the upstream timer while
      calling, the grace while outside. */
  predicate MayPass(w: Live, d: nat, timeout: nat) {
    if w.calling then w.call + d <= timeout else w.outside + d <= STALE_GRACE
  }

  function Pass(w: Live, d: nat): Live {
    if w.calling then w.(call := w.call + d) else w.(outside := w.outside + d)
  }

  predicate IsStamp(s: State, stamp: int) {
    stamp <= s.now <= stamp + STALE_GRACE
  }

  predicate Enabled(s: State, a: Action, timeout: nat) {
    match a
    case Insert(id, row) => id !in s.tasks && row.status.Queued? && !row.charged
    case Tick(d) => forall id :: id in s.live ==> MayPass(s.live[id], d, timeout)
    case Claim(id, stamp) => id in s.tasks && s.tasks[id].status.Queued? && IsStamp(s, stamp)
    case StartCall(id) => id in s.live && !s.live[id].calling && !s.live[id].called
    case EndCall(id) => id in s.live && s.live[id].calling
    case Fallback(id, stamp, _) =>
      id in s.live && id in s.tasks && !s.live[id].calling && s.live[id].called && IsStamp(s, stamp)
    case Finish(id) => id in s.live && id in s.tasks && !s.live[id].calling
    case Fail(id) => id in s.live && id in s.tasks && !s.live[id].calling
    case Die(id) => id in s.live
    case RecoverAt(reading) => reading <= s.now
  }

  function Apply(s: State, a: Action, timeout: nat): State
    requires Enabled(s, a, timeout)
  {
    match a
    case Insert(id, row) => s.(tasks := s.tasks[id := row])
    case Tick(d) => s.(now := s.now + d, live := map id | id in s.live :: Pass(s.live[id], d))
    case Claim(id, stamp) =>
      s.(tasks := s.tasks[id := s.tasks[id].(status := Running, updatedAt := stamp)],
         live := s.live[id := Live(false, false, 0, 0, s.now - stamp, Refundable(s.tasks[id]))])
    case StartCall(id) => s.(live := s.live[id := s.live[id].(calling := true)])
    case EndCall(id) => s.(live := s.live[id := s.live[id].(calling := false, called := true)])
    case Fallback(id, stamp, written) =>
      if written then
        s.(tasks := s.tasks[id := s.tasks[id].(updatedAt := stamp)],
           live := s.live[id := Live(false, false, 0, 0, s.now - stamp, s.live[id].refundable)])
      else
        var w := s.live[id];
        s.(live := s.live[id := w.(called := false, carried := w.carried + w.call, call := 0)])
    case Finish(id) =>
      s.(tasks := s.tasks[id := s.tasks[id].(status := Done, charged := true, updatedAt := s.now)],
         live := s.live - {id})
    case Fail(id) =>
      s.(tasks := if s.tasks[id].status.Running?
                  then s.tasks[id := s.tasks[id].(status := Failed, reserved := false, updatedAt := s.now)]
                  else s.tasks[id := s.tasks[id].(reserved := false, updatedAt := s.now)],
         live := s.live - {id},
         refunds := if s.live[id].refundable then GivenBack(s.refunds, {id}) else s.refunds)
    case Die(id) => s.(live := s.live - {id})
    case RecoverAt(reading) =>
      var ids := StaleIds(s.tasks, Cutoff(reading, timeout));
      s.(tasks := map id | id in s.tasks :: if id in ids then Recovered(s.tasks[id], s.now) else s.tasks[id],
         recovered := s.recovered + ids, refunds := GivenBack(s.refunds, ids))
  }

  ghost predicate Step(s: State, a: Action, u: State, timeout: nat) {
    Enabled(s, a, timeout) && u == Apply(s, a, timeout)
  }

  ghost function StepOf(timeout: nat): (State, Action, State) -> bool {
    (s: State, a: Action, u: State) => Step(s, a, u, timeout)
  }

  function Start(now: int): State {
    State(now, map[], map[], {}, map[])
  }

  ghost predicate IsRun(states: seq<State>, actions: seq<Action>, timeout: nat) {
    Follows(StepOf(timeout), states, actions) && states[0] == Start(states[0].now)
  }

  /** The age of a live worker's row is exactly the time the worker has used, unless a recovery has
      already taken the row from it. */
  predicate AgeOk(s: State, id: string, timeout: nat)
    requires id in s.live
  {
    var w := s.live[id];
    && id in s.tasks && w.call <= timeout && w.outside <= STALE_GRACE
    && (!w.calling && !w.called ==> w.call == 0)
    && (if id in s.recovered then !s.tasks[id].status.Running?
        else s.tasks[id].status.Running? && s.tasks[id].updatedAt + Age(w) == s.now
             && Refundable(s.tasks[id]) == w.refundable)
  }

  ghost predicate Aged(s: State, timeout: nat) {
    && (forall id :: id in s.live ==> AgeOk(s, id, timeout))
    && (forall id :: id in s.recovered ==> id in s.tasks && (s.tasks[id].status.Failed? || s.tasks[id].status.Done?))
  }

  lemma TickIsAged(s: State, d: nat, timeout: nat)
    requires Aged(s, timeout) && Enabled(s, Tick(d), timeout)
    ensures Aged(Apply(s, Tick(d), timeout), timeout)
  {
    var u := Apply(s, Tick(d), timeout);
    forall id | id in u.live ensures AgeOk(u, id, timeout) {
      assert AgeOk(s, id, timeout) && MayPass(s.live[id], d, timeout);
    }
  }

  lemma ClaimIsAged(s: State, id: string, stamp: int, timeout: nat)
    requires Aged(s, timeout) && Enabled(s, Claim(id, stamp), timeout)
    ensures Aged(Apply(s, Claim(id, stamp), timeout), timeout)
  {
  }

  lemma FallbackIsAged(s: State, id: string, stamp: int, written: bool, timeout: nat)
    requires Aged(s, timeout) && Enabled(s, Fallback(id, stamp, written), timeout)
    ensures Aged(Apply(s, Fallback(id, stamp, written), timeout), timeout)
  {
    assert AgeOk(s, id, timeout);
  }

  lemma EndIsAged(s: State, a: Action, timeout: nat)
    requires Aged(s, timeout) && Enabled(s, a, timeout) && (a.Finish? || a.Fail?)
    ensures Aged(Apply(s, a, timeout), timeout)
  {
    assert AgeOk(s, a.id, timeout);
  }

  lemma RecoveryIsAged(s: State, reading: int, timeout: nat)
    requires Aged(s, timeout) && reading <= s.now
    ensures Aged(Apply(s, RecoverAt(reading), timeout), timeout)
  {
    var u := Apply(s, RecoverAt(reading), timeout);
    forall id | id in u.live ensures AgeOk(u, id, timeout) {
      assert AgeOk(s, id, timeout);
    }
  }

  lemma QuietIsAged(s: State, a: Action, timeout: nat)
    requires Aged(s, timeout) && Enabled(s, a, timeout) && (a.Insert? || a.StartCall? || a.EndCall? || a.Die?)
    ensures Aged(Apply(s, a, timeout), timeout)
  {
  }

  lemma StepIsAged(s: State, a: Action, timeout: nat)
    requires Aged(s, timeout) && Enabled(s, a, timeout)
    ensures Aged(Apply(s, a, timeout), timeout)
  {
    match a
    case Tick(d) => TickIsAged(s, d, timeout);
    case Claim(id, stamp) => ClaimIsAged(s, id, stamp, timeout);
    case Fallback(id, stamp, written) => FallbackIsAged(s, id, stamp, written, timeout);
    case Finish(id) => EndIsAged(s, a, timeout);
    case Fail(id) => EndIsAged(s, a, timeout);
    case RecoverAt(reading) => RecoveryIsAged(s, reading, timeout);
    case _ => QuietIsAged(s, a, timeout);
  }

  lemma RunIsAged(states: seq<State>, actions: seq<Action>, timeout: nat, i: nat)
    requires IsRun(states, actions, timeout) && i < |states|
    ensures Aged(states[i], timeout)
  {
    forall s, a: Action, u | Aged(s, timeout) && StepOf(timeout)(s, a, u) ensures Aged(u, timeout) {
      StepIsAged(s, a, timeout);
    }
    KeptAlong(StepOf(timeout), (s: State) => Aged(s, timeout), states, actions, i);
  }

  // ---- exactly when a recovery disturbs a live worker ----

  /** The worker has used more than the timeout and the grace, as a recovery sees it that read the
      clock a little earlier; its refund is still its own. */
  predicate IsExposed(s: State, id: string, reading: int, timeout: nat)
    requires id in s.live
  {
    id !in s.recovered && s.live[id].refundable && Age(s.live[id]) - (s.now - reading) > timeout + STALE_GRACE
  }

  lemma StaleIffExposed(s: State, id: string, reading: int, timeout: nat)
    requires Aged(s, timeout) && id in s.live
    ensures id in StaleIds(s.tasks, Cutoff(reading, timeout)) <==> IsExposed(s, id, reading, timeout)
  {
    assert AgeOk(s, id, timeout);
  }

  /** In every run, whatever timestamps are written: a recovery picks the task of a live worker if and
      only if the worker is exposed. */
  lemma RecoveryDisturbsIff(states: seq<State>, actions: seq<Action>, timeout: nat, i: nat, id: string)
    requires IsRun(states, actions, timeout) && i < |actions| && actions[i].RecoverAt? && id in states[i].live
    ensures id in StaleIds(states[i].tasks, Cutoff(actions[i].reading, timeout))
       <==> IsExposed(states[i], id, actions[i].reading, timeout)
  {
    RunIsAged(states, actions, timeout, i);
    StaleIffExposed(states[i], id, actions[i].reading, timeout);
  }

  // ---- with every timestamp written nobody is exposed ----

  ghost predicate Timely(s: State, timeout: nat) {
    Aged(s, timeout) && Undisturbed(s)
  }

  /** No live worker lost its task, and no task that was given back is charged or given back again. */
  ghost predicate Undisturbed(s: State) {
    && (forall id :: id in s.live ==> s.live[id].carried == 0 && id !in s.recovered)
    && (forall id :: id in s.recovered ==> id in s.tasks && s.tasks[id].status.Failed? && !s.tasks[id].charged)
    && (forall id :: id in s.tasks && !s.tasks[id].status.Done? ==> !s.tasks[id].charged)
    && RefundsOk(s)
  }

  /** At most one refund, of a task that failed and stays so. */
  ghost predicate RefundsOk(s: State) {
    forall id :: id in s.refunds && s.refunds[id] > 0 ==>
      s.refunds[id] == 1 && id in s.tasks && s.tasks[id].status.Failed?
  }

  /** Every fallback's timestamp write succeeds. */
  predicate BumpsWritten(actions: seq<Action>) {
    forall i :: 0 <= i < |actions| && actions[i].Fallback? ==> actions[i].written
  }

  /** Recovery never picks the task of a live worker. */
  lemma LiveIsNotStale(s: State, reading: int, timeout: nat)
    requires Timely(s, timeout) && reading <= s.now
    ensures StaleIds(s.tasks, Cutoff(reading, timeout)) !! s.live.Keys
  {
    forall id | id in s.live ensures id !in StaleIds(s.tasks, Cutoff(reading, timeout)) {
      StaleIffExposed(s, id, reading, timeout);
      assert AgeOk(s, id, timeout);
    }
  }

  lemma EndIsTimely(s: State, a: Action, timeout: nat)
    requires Timely(s, timeout) && Enabled(s, a, timeout) && (a.Finish? || a.Fail?)
    ensures Timely(Apply(s, a, timeout), timeout)
  {
    StepIsAged(s, a, timeout);
    assert AgeOk(s, a.id, timeout);
  }

  lemma RecoveryIsTimely(s: State, reading: int, timeout: nat)
    requires Timely(s, timeout) && reading <= s.now
    ensures Timely(Apply(s, RecoverAt(reading), timeout), timeout)
  {
    StepIsAged(s, RecoverAt(reading), timeout);
    LiveIsNotStale(s, reading, timeout);
  }

  lemma FallbackIsTimely(s: State, id: string, stamp: int, timeout: nat)
    requires Timely(s, timeout) && Enabled(s, Fallback(id, stamp, true), timeout)
    ensures Timely(Apply(s, Fallback(id, stamp, true), timeout), timeout)
  {
    StepIsAged(s, Fallback(id, stamp, true), timeout);
    assert AgeOk(s, id, timeout);
  }

  lemma QuietIsUndisturbed(s: State, a: Action, timeout: nat)
    requires Undisturbed(s) && Enabled(s, a, timeout)
    requires a.Insert? || a.Tick? || a.Claim? || a.StartCall? || a.EndCall? || a.Die?
    ensures Undisturbed(Apply(s, a, timeout))
  {
  }

  lemma QuietIsTimely(s: State, a: Action, timeout: nat)
    requires Timely(s, timeout) && Enabled(s, a, timeout)
    requires a.Insert? || a.Tick? || a.Claim? || a.StartCall? || a.EndCall? || a.Die?
    ensures Timely(Apply(s, a, timeout), timeout)
  {
    StepIsAged(s, a, timeout);
    QuietIsUndisturbed(s, a, timeout);
  }

  lemma StepIsTimely(s: State, a: Action, timeout: nat)
    requires Timely(s, timeout) && Enabled(s, a, timeout) && (a.Fallback? ==> a.written)
    ensures Timely(Apply(s, a, timeout), timeout)
  {
    match a
    case Finish(_) => EndIsTimely(s, a, timeout);
    case Fail(_) => EndIsTimely(s, a, timeout);
    case RecoverAt(reading) => RecoveryIsTimely(s, reading, timeout);
    case Fallback(id, stamp, _) => FallbackIsTimely(s, id, stamp, timeout);
    case _ => QuietIsTimely(s, a, timeout);
  }

  lemma RunIsTimely(states: seq<State>, actions: seq<Action>, timeout: nat, i: nat)
    requires IsRun(states, actions, timeout) && BumpsWritten(actions) && i < |states|
    ensures Timely(states[i], timeout)
  {
    forall s, a: Action, u | Timely(s, timeout) && (a.Fallback? ==> a.written) && StepOf(timeout)(s, a, u)
      ensures Timely(u, timeout)
    {
      StepIsTimely(s, a, timeout);
    }
    KeptWhile(StepOf(timeout), (s: State) => Timely(s, timeout),
              (s: State, a: Action) => a.Fallback? ==> a.written, states, actions, i);
  }

  /** Timed safety: when every fallback's timestamp is written, no recovery picks a task that a live
      worker is executing, and no recovered task is ever charged, although the completing update
      does not look at the status. */
  lemma RecoveryIsSafe(states: seq<State>, actions: seq<Action>, timeout: nat, i: nat)
    requires IsRun(states, actions, timeout) && BumpsWritten(actions) && i < |states|
    ensures i < |actions| && actions[i].RecoverAt? ==>
      StaleIds(states[i].tasks, Cutoff(actions[i].reading, timeout)) !! states[i].live.Keys
    ensures forall id :: id in states[i].recovered ==>
      && id !in states[i].live && id in states[i].tasks && states[i].tasks[id].status.Failed?
      && !states[i].tasks[id].charged
  {
    RunIsTimely(states, actions, timeout, i);
    var s := states[i];
    if i < |actions| && actions[i].RecoverAt? {
      StepAt(StepOf(timeout), states, actions, i);
      LiveIsNotStale(s, actions[i].reading, timeout);
    }
  }

  /** With replicas, too, no task is given back twice, by its worker and by a recovery in either
      order, and none is both given back and charged. */
  lemma RefundedOnce(states: seq<State>, actions: seq<Action>, timeout: nat, i: nat, id: string)
    requires IsRun(states, actions, timeout) && BumpsWritten(actions) && i < |states|
    ensures RefundCount(states[i].refunds, id) <= 1
    ensures RefundCount(states[i].refunds, id) == 1 ==>
      id in states[i].tasks && states[i].tasks[id].status.Failed? && !states[i].tasks[id].charged
  {
    RunIsTimely(states, actions, timeout, i);
  }

  // ---- without the timestamp ----

  /** Some run ends in this state. */
  ghost predicate Reachable(s: State, timeout: nat) {
    Leads(StepOf(timeout), Start(0), s)
  }

  lemma ReachableByRun(s: State, timeout: nat) returns (states: seq<State>, actions: seq<Action>)
    requires Reachable(s, timeout)
    ensures IsRun(states, actions, timeout) && states[|actions|] == s
  {
    states, actions :| Follows(StepOf(timeout), states, actions) && states[0] == Start(0) && states[|actions|] == s;
  }

  lemma ReachNext(s: State, a: Action, u: State, timeout: nat)
    requires Reachable(s, timeout) && Enabled(s, a, timeout) && u == Apply(s, a, timeout)
    ensures Reachable(u, timeout)
  {
    assert StepOf(timeout)(s, a, u);
    LeadsOn(StepOf(timeout), Start(0), s, a, u);
  }

  function RunningRow(row: Task): Task {
    row.(status := Running, updatedAt := 0)
  }

  /** One running task whose row was stamped at time zero, and its worker. */
  function Working(now: int, row: Task, w: Live): State {
    State(now, map["t" := RunningRow(row)], map["t" := w], {}, map[])
  }

  /** A worker that used its whole upstream timer, with the row's timestamp still at zero. */
  lemma ReachFirstCallDone(timeout: nat, row: Task)
    requires row.status.Queued? && Refundable(row)
    ensures Reachable(Working(timeout, row, Live(false, true, 0, timeout, 0, true)), timeout)
  {
    LeadsToItself(StepOf(timeout), Start(0));
    var queued := State(0, map["t" := row], map[], {}, map[]);
    ReachNext(Start(0), Insert("t", row), queued, timeout);
    ReachNext(queued, Claim("t", 0), Working(0, row, Live(false, false, 0, 0, 0, true)), timeout);
    ReachNext(Working(0, row, Live(false, false, 0, 0, 0, true)), StartCall("t"),
              Working(0, row, Live(true, false, 0, 0, 0, true)), timeout);
    ReachNext(Working(0, row, Live(true, false, 0, 0, 0, true)), Tick(timeout),
              Working(timeout, row, Live(true, false, 0, timeout, 0, true)), timeout);
    ReachNext(Working(timeout, row, Live(true, false, 0, timeout, 0, true)), EndCall("t"),
              Working(timeout, row, Live(false, true, 0, timeout, 0, true)), timeout);
  }

  /** The same worker in its second call, after a fallback whose timestamp was not written. */
  lemma ReachSecondCall(timeout: nat, row: Task)
    requires row.status.Queued? && Refundable(row)
    ensures var w := Live(true, false, timeout, timeout, STALE_GRACE, true);
      Reachable(Working(2 * timeout + STALE_GRACE, row, w), timeout)
  {
    ReachFirstCallDone(timeout, row);
    var late := timeout + STALE_GRACE;
    ReachNext(Working(timeout, row, Live(false, true, 0, timeout, 0, true)), Fallback("t", timeout, false),
              Working(timeout, row, Live(false, false, timeout, 0, 0, true)), timeout);
    ReachNext(Working(timeout, row, Live(false, false, timeout, 0, 0, true)), Tick(STALE_GRACE),
              Working(late, row, Live(false, false, timeout, 0, STALE_GRACE, true)), timeout);
    ReachNext(Working(late, row, Live(false, false, timeout, 0, STALE_GRACE, true)), StartCall("t"),
              Working(late, row, Live(true, false, timeout, 0, STALE_GRACE, true)), timeout);
    ReachNext(Working(late, row, Live(true, false, timeout, 0, STALE_GRACE, true)), Tick(timeout),
              Working(2 * timeout + STALE_GRACE, row, Live(true, false, timeout, timeout, STALE_GRACE, true)), timeout);
  }

  /** The task was recovered under its worker, whose second call has just ended. */
  function RecoveredUnder(timeout: nat, row: Task): State {
    var now := 2 * timeout + STALE_GRACE;
    var w := Live(false, true, timeout, timeout, STALE_GRACE, true);
    State(now, map["t" := Recovered(RunningRow(row), now)], map["t" := w], {"t"}, map["t" := 1])
  }

  lemma ReachRecoveredUnder(timeout: nat, row: Task)
    requires timeout > 0 && row.status.Queued? && Refundable(row)
    ensures Reachable(RecoveredUnder(timeout, row), timeout)
  {
    var now := 2 * timeout + STALE_GRACE;
    var working := Working(now, row, Live(true, false, timeout, timeout, STALE_GRACE, true));
    var recovered := RecoveredUnder(timeout, row).(live := working.live);
    ReachSecondCall(timeout, row);
    assert StaleIds(working.tasks, Cutoff(now, timeout)) == {"t"};
    ReachNext(working, RecoverAt(now), recovered, timeout);
    ReachNext(recovered, EndCall("t"), RecoveredUnder(timeout, row), timeout);
  }

  predicate IsRecoveredAndCharged(s: State, id: string) {
    id in s.recovered && id in s.tasks && s.tasks[id].charged
  }

  /** The timestamp write is needed: for every positive timeout there is a run with one unwritten
      bump in which a task is recovered while its worker is still calling, and then charged. */
  lemma UnwrittenBumpBreaksSafety(timeout: nat, row: Task)
    requires timeout > 0 && row.status.Queued? && Refundable(row)
    ensures exists states, actions ::
      IsRun(states, actions, timeout) && IsRecoveredAndCharged(states[|actions|], "t")
  {
    ReachRecoveredUnder(timeout, row);
    var s := RecoveredUnder(timeout, row);
    var charged := Apply(s, Finish("t"), timeout);
    ReachNext(s, Finish("t"), charged, timeout);
    var states, actions := ReachableByRun(charged, timeout);
    assert IsRecoveredAndCharged(charged, "t");
  }

  /** ... and another in which it is given back twice. */
  lemma UnwrittenBumpRefundsTwice(timeout: nat, row: Task)
    requires timeout > 0 && row.status.Queued? && Refundable(row)
    ensures exists states: seq<State>, actions ::
      IsRun(states, actions, timeout) && RefundCount(states[|actions|].refunds, "t") == 2
  {
    ReachRecoveredUnder(timeout, row);
    var s := RecoveredUnder(timeout, row);
    var failed := Apply(s, Fail("t"), timeout);
    ReachNext(s, Fail("t"), failed, timeout);
    assert RefundCount(failed.refunds, "t") == 2;
    var states, actions := ReachableByRun(failed, timeout);
  }
}
