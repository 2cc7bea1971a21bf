/** What every run of the scheduler keeps: the global limit, the provider caps, the tier of a task,
    and progress. */
module SchedulerSafety {
  import opened Totals
  import opened Rows
  import opened Routing
  import opened Profiles
  import opened Claims
  import opened Scheduler
  import opened Runs

  /** Running on the provider it was claimed for. */
  predicate IsNative(p: string, e: Entry) {
    e.row.status.Running? && e.row.profile == p && e.tried != [] && e.tried[0] == p
  }

  /** Running on a provider it fell back into. */
  predicate HasFallen(p: string, e: Entry) {
    RunsOn(p, e.row) && !IsNative(p, e)
  }

  function Native(entries: map<string, Entry>, p: string): nat {
    Count(entries, (e: Entry) => IsNative(p, e))
  }

  function Fallen(entries: map<string, Entry>, p: string): nat {
    Count(entries, (e: Entry) => HasFallen(p, e))
  }

  function RunningCount(entries: map<string, Entry>): nat {
    Count(entries, (e: Entry) => e.row.status.Running?)
  }

  function QueuedCount(entries: map<string, Entry>): nat {
    Count(entries, (e: Entry) => e.row.status.Queued?)
  }

  /** The claim query counts native and fallen tasks alike. */
  lemma RunningSplits(s: State, p: string)
    ensures RunningOn(Tasks(s), p) == Native(s.entries, p) + Fallen(s.entries, p)
    ensures RunningTotal(Tasks(s)) == RunningCount(s.entries)
  {
    var native := Where(s.entries, (e: Entry) => IsNative(p, e));
    var fallen := Where(s.entries, (e: Entry) => HasFallen(p, e));
    assert Where(Tasks(s), (t: Task) => RunsOn(p, t)) == native + fallen;
    assert native !! fallen;
    assert Where(Tasks(s), (t: Task) => IsRunning(t)) == Where(s.entries, (e: Entry) => e.row.status.Running?);
  }

  predicate IsHdProvider(profiles: Table, p: string) {
    p in profiles && profiles[p].bucket == "hd"
  }

  /** A task whose stored tier is 2K or 4K is billed to the HD service and only ever on HD providers. */
  predicate TierOk(profiles: Table, e: Entry) {
    IsHdTier(StringParam(e.row.params, "size_tier")) ==>
      && e.row.service == IMAGE_HD && IsHdProvider(profiles, e.row.profile)
      && forall p :: p in e.tried ==> IsHdProvider(profiles, p)
  }

  /** A task is untried while queued; afterwards one or two different providers were called, the
      first of them the one it was claimed for. */
  predicate TriedOk(e: Entry) {
    && (e.row.status.Queued? <==> e.tried == [])
    && |e.tried| <= 2 && (|e.tried| == 2 ==> e.tried[0] != e.tried[1])
    && (|e.tried| == 1 ==> e.row.profile == e.tried[0])
  }

  ghost predicate EntriesOk(entries: map<string, Entry>, profiles: Table) {
    forall id :: id in entries ==> TierOk(profiles, entries[id]) && TriedOk(entries[id])
  }

  ghost predicate CapsOk(entries: map<string, Entry>, profiles: Table, defaultCap: int) {
    forall p :: Native(entries, p) <= ProviderCap(profiles, p, defaultCap)
  }

  /** What the lock holder has established so far still holds. */
  ghost predicate ClaimerOk(s: State) {
    match s.claimer
    case Nobody => true
    case Holding(limit) => limit <= s.maxLimit
    case Counted(limit) => limit <= s.maxLimit && RunningCount(s.entries) < limit
    case Picked(limit, id) =>
      && limit <= s.maxLimit && RunningCount(s.entries) < limit
      && id in s.entries && s.entries[id].row.status.Queued?
      && Native(s.entries, s.entries[id].row.profile)
         < ProviderCap(s.profiles, s.entries[id].row.profile, s.defaultCap)
  }

  ghost predicate Safe(s: State) {
    && s.defaultCap >= 0 && RunningCount(s.entries) <= s.maxLimit
    && EntriesOk(s.entries, s.profiles) && CapsOk(s.entries, s.profiles, s.defaultCap) && ClaimerOk(s)
  }

  // ---- one entry changes ----

  lemma EntrySet(entries: map<string, Entry>, id: string, e: Entry)
    ensures forall p :: (
      Native(entries[id := e], p)
      == Native(entries, p) + (if IsNative(p, e) then 1 else 0)
         - (if id in entries && IsNative(p, entries[id]) then 1 else 0))
    ensures RunningCount(entries[id := e]) == RunningCount(entries)
      + (if e.row.status.Running? then 1 else 0) - (if id in entries && entries[id].row.status.Running? then 1 else 0)
    ensures QueuedCount(entries[id := e]) == QueuedCount(entries)
      + (if e.row.status.Queued? then 1 else 0) - (if id in entries && entries[id].row.status.Queued? then 1 else 0)
  {
    forall p
      ensures Native(entries[id := e], p)
        == Native(entries, p) + (if IsNative(p, e) then 1 else 0)
           - (if id in entries && IsNative(p, entries[id]) then 1 else 0)
    {
      CountSet(entries, (e: Entry) => IsNative(p, e), id, e);
    }
    CountSet(entries, (e: Entry) => e.row.status.Running?, id, e);
    CountSet(entries, (e: Entry) => e.row.status.Queued?, id, e);
  }

  /** Rewriting an entry without adding a running or native task keeps the state safe. */
  lemma QuietRewrite(s: State, id: string, e: Entry)
    requires Safe(s) && TierOk(s.profiles, e) && TriedOk(e)
    requires id in s.entries ==> !s.entries[id].row.status.Queued?
    requires e.row.status.Running? ==> id in s.entries && s.entries[id].row.status.Running?
    requires forall p :: IsNative(p, e) ==> id in s.entries && IsNative(p, s.entries[id])
    ensures Safe(SetEntry(s, id, e))
  {
    EntrySet(s.entries, id, e);
    QuietCaps(s.entries, s.profiles, s.defaultCap, id, e);
    QuietClaimer(s, id, e);
  }

  lemma QuietCaps(entries: map<string, Entry>, profiles: Table, defaultCap: int, id: string, e: Entry)
    requires CapsOk(entries, profiles, defaultCap)
    requires forall p :: IsNative(p, e) ==> id in entries && IsNative(p, entries[id])
    ensures CapsOk(entries[id := e], profiles, defaultCap)
    ensures forall p :: Native(entries[id := e], p) <= Native(entries, p)
  {
    EntrySet(entries, id, e);
  }

  lemma QuietClaimer(s: State, id: string, e: Entry)
    requires ClaimerOk(s) && (id in s.entries ==> !s.entries[id].row.status.Queued?)
    requires RunningCount(s.entries[id := e]) <= RunningCount(s.entries)
    requires forall p :: Native(s.entries[id := e], p) <= Native(s.entries, p)
    ensures ClaimerOk(SetEntry(s, id, e))
  {
  }

  lemma ClaimIsSafe(s: State, now: int)
    requires Safe(s) && s.claimer.Picked?
    ensures s.claimer.id in s.entries && Safe(DoCommitClaim(s, s.claimer.id, now))
  {
    var id := s.claimer.id;
    var row := s.entries[id].row;
    EntrySet(s.entries, id, Entry(row.(status := Running, updatedAt := now), [row.profile]));
  }

  lemma EnqueueIsSafe(s: State, a: Action)
    requires Safe(s) && a.Enqueue? && Enabled(s, a)
    ensures Safe(Apply(s, a))
  {
    var choice := CreationChoice(a.seen, a.snapshot, a.prices, a.params, a.now).value;
    var e := Entry(QueuedRow(a.w, choice.0, a.params, choice.1, a.now), []);
    var tier := NormalizeTaskSize(a.params).1;
    BillingIsRoutable(a.snapshot, tier, a.prices);
    StoredTierAgrees(a.params);
    SelectedIsBest(a.seen, CandidateBuckets(choice.0.service, tier).value, [], a.now);
    QuietRewrite(s, a.id, e);
  }

  lemma FallbackIsSafe(s: State, a: Action)
    requires Safe(s) && a.Fallback? && Enabled(s, a)
    ensures Safe(Apply(s, a))
  {
    var e := s.entries[a.id];
    var buckets := CandidateBuckets(e.row.service, StringParam(e.row.params, "size_tier")).value;
    var next := FallbackChoice(a.seen, e.row, e.tried, a.now).value;
    SelectedIsBest(a.seen, buckets, e.tried, a.now);
    assert next != e.tried[0];
    var after := Entry(if a.written then e.row.(profile := next, updatedAt := a.now) else e.row, e.tried + [next]);
    QuietRewrite(s, a.id, after);
  }

  lemma PickIsSafe(s: State, id: string)
    requires Safe(s) && Enabled(s, Pick(id))
    ensures Safe(Apply(s, Pick(id)))
  {
    RunningSplits(s, s.entries[id].row.profile);
  }

  lemma FinishIsSafe(s: State, a: Action)
    requires Safe(s) && a.Finish? && Enabled(s, a)
    ensures Safe(Apply(s, a))
  {
    var e := s.entries[a.id];
    QuietRewrite(s, a.id, e.(row := e.row.(status := a.status, updatedAt := a.now)));
  }

  lemma StepIsSafe(s: State, a: Action)
    requires Safe(s) && Enabled(s, a)
    ensures Safe(Apply(s, a))
  {
    match a
    case Enqueue(_, _, _, _, _, _, _) => EnqueueIsSafe(s, a);
    case Acquire(_) =>
    case CountSlots => RunningSplits(s, "");
    case Pick(id) => PickIsSafe(s, id);
    case FindNone =>
    case CommitClaim(now) => ClaimIsSafe(s, now);
    case AbortClaim =>
    case Fallback(_, _, _, _) => FallbackIsSafe(s, a);
    case Finish(_, _, _) => FinishIsSafe(s, a);
    case ChangeProfiles(_) =>
  }

  // ---- over whole runs ----

  lemma InitialIsSafe(profiles: Table, defaultCap: int)
    requires defaultCap >= 0
    ensures Safe(Initial(profiles, defaultCap))
  {
    var none: map<string, Entry> := map[];
    forall p ensures Native(none, p) == 0 {
      assert Where(none, (e: Entry) => IsNative(p, e)) == {};
    }
    assert Where(none, (e: Entry) => e.row.status.Running?) == {};
  }

  lemma RunIsSafe(states: seq<State>, actions: seq<Action>, i: nat)
    requires IsRun(states, actions) && states[0].defaultCap >= 0 && i < |states|
    ensures Safe(states[i])
  {
    InitialIsSafe(states[0].profiles, states[0].defaultCap);
    forall s, a, u | Safe(s) && Step(s, a, u) ensures Safe(u) {
      StepIsSafe(s, a);
    }
    KeptAlong(Step, Safe, states, actions, i);
  }

  lemma {:induction false} LimitReadBounds(states: seq<State>, actions: seq<Action>, i: nat, limit: int)
    requires IsRun(states, actions) && i < |states| && limit >= 0
    requires forall j :: 0 <= j < i && actions[j].Acquire? ==> actions[j].limit <= limit
    ensures states[i].maxLimit <= limit
  {
    if i > 0 {
      LimitReadBounds(states, actions, i - 1, limit);
      StepAt(Step, states, actions, i - 1);
    }
  }

  /** Over every run of concurrent claimers, running tasks never exceed the largest global limit any
      of them read. */
  lemma GlobalLimitHolds(states: seq<State>, actions: seq<Action>, i: nat, limit: int)
    requires IsRun(states, actions) && states[0].defaultCap >= 0 && i < |states| && limit >= 0
    requires forall j :: 0 <= j < i && actions[j].Acquire? ==> actions[j].limit <= limit
    ensures RunningTotal(Tasks(states[i])) <= limit
  {
    RunIsSafe(states, actions, i);
    LimitReadBounds(states, actions, i, limit);
    RunningSplits(states[i], "");
  }

  /** Native tasks run on the provider they called first, fallen ones on one they called later. */
  lemma NativeAndFallen(s: State, p: string)
    ensures Native(s.entries, p)
         == |set id | id in s.entries && s.entries[id].row.status.Running? && s.entries[id].row.profile == p
                      && s.entries[id].tried != [] && s.entries[id].tried[0] == p|
    ensures Fallen(s.entries, p)
         == |set id | id in s.entries && s.entries[id].row.status.Running? && s.entries[id].row.profile == p
                      && (s.entries[id].tried == [] || s.entries[id].tried[0] != p)|
  {
    assert Where(s.entries, (e: Entry) => IsNative(p, e))
        == set id | id in s.entries && s.entries[id].row.status.Running? && s.entries[id].row.profile == p
                    && s.entries[id].tried != [] && s.entries[id].tried[0] == p;
    assert Where(s.entries, (e: Entry) => HasFallen(p, e))
        == set id | id in s.entries && s.entries[id].row.status.Running? && s.entries[id].row.profile == p
                    && (s.entries[id].tried == [] || s.entries[id].tried[0] != p);
  }

  /** Tasks still on the provider they were claimed for never exceed its own max_concurrent, or the
      default where that is not positive; everything running on it exceeds that by no more than the
      tasks that fell back into it. */
  lemma ProviderCapHolds(states: seq<State>, actions: seq<Action>, i: nat, p: string)
    requires IsRun(states, actions) && states[0].defaultCap >= 0 && i < |states|
    ensures var s := states[i];
      var cap := if p in s.profiles && s.profiles[p].maxConcurrent > 0 then s.profiles[p].maxConcurrent
                 else s.defaultCap;
      && Native(s.entries, p) <= cap
      && RunningOn(Tasks(s), p) <= cap + Fallen(s.entries, p)
  {
    RunIsSafe(states, actions, i);
    RunningSplits(states[i], p);
  }

  /** A fallback leaves for a provider that was not called before. */
  lemma FallbackTarget(s: State, a: Action)
    requires Safe(s) && a.Fallback? && Enabled(s, a)
    ensures var e := s.entries[a.id];
      FallbackChoice(a.seen, e.row, e.tried, a.now).value !in e.tried && e.row.profile in e.tried
  {
    var e := s.entries[a.id];
    var buckets := CandidateBuckets(e.row.service, StringParam(e.row.params, "size_tier")).value;
    SelectedIsBest(a.seen, buckets, e.tried, a.now);
    assert TriedOk(e);
  }

  lemma MovedTaskCounts(s: State, id: string, next: string, now: int)
    requires id in s.entries && s.entries[id].row.status.Running? && s.entries[id].row.profile != next
    ensures var u := DoFallback(s, id, next, true, now);
      RunningOn(Tasks(u), next) == RunningOn(Tasks(s), next) + 1
  {
    var moved := s.entries[id].row.(profile := next, updatedAt := now);
    CountSet(Tasks(s), (t: Task) => RunsOn(next, t), id, moved);
    assert Tasks(DoFallback(s, id, next, true, now)) == Tasks(s)[id := moved];
  }

  /** A fallback checks no capacity: right after it the new provider is within its cap exactly when it
      had room before. */
  lemma FallbackMayExceedCap(s: State, a: Action)
    requires Safe(s) && a.Fallback? && a.written && Enabled(s, a)
    ensures var next := FallbackChoice(a.seen, s.entries[a.id].row, s.entries[a.id].tried, a.now).value;
      var cap := if next in s.profiles && s.profiles[next].maxConcurrent > 0 then s.profiles[next].maxConcurrent
                 else s.defaultCap;
      RunningOn(Tasks(Apply(s, a)), next) <= cap <==> RunningOn(Tasks(s), next) < cap
  {
    FallbackTarget(s, a);
    var e := s.entries[a.id];
    MovedTaskCounts(s, a.id, FallbackChoice(a.seen, e.row, e.tried, a.now).value, a.now);
  }

  // ---- tier ----

  lemma StepKeepsRequest(s: State, a: Action, u: State, id: string)
    requires Enabled(s, a) && u == Apply(s, a) && id in s.entries
    ensures id in u.entries && u.entries[id].row.params == s.entries[id].row.params
    ensures !s.entries[id].row.status.Queued? ==> !u.entries[id].row.status.Queued?
  {
  }

  lemma {:induction false} RequestIsKept(states: seq<State>, actions: seq<Action>, i: nat, j: nat, id: string)
    requires IsRun(states, actions) && i <= j < |states| && id in states[i].entries
    ensures id in states[j].entries && states[j].entries[id].row.params == states[i].entries[id].row.params
    ensures !states[i].entries[id].row.status.Queued? ==> !states[j].entries[id].row.status.Queued?
  {
    if i < j {
      RequestIsKept(states, actions, i, j - 1, id);
      StepAt(Step, states, actions, j - 1);
      StepKeepsRequest(states[j - 1], actions[j - 1], states[j], id);
    }
  }

  /** A task created as 2K or 4K is, at every later time, billed to the HD service and on HD
      providers only, whether at creation or after a fallback. */
  lemma HdTaskStaysHd(states: seq<State>, actions: seq<Action>, i: nat, j: nat)
    requires IsRun(states, actions) && states[0].defaultCap >= 0 && i < j < |states|
    requires actions[i].Enqueue? && NormalizeTaskSize(actions[i].params).1 in {"2K", "4K"}
    ensures actions[i].id in states[j].entries
    ensures var e, profiles := states[j].entries[actions[i].id], states[j].profiles;
      && e.row.service == "image-2-hd" && e.row.profile in profiles && profiles[e.row.profile].bucket == "hd"
      && forall p :: p in e.tried ==> p in profiles && profiles[p].bucket == "hd"
  {
    NormalTierOfNormal(NormalizeTaskSize(actions[i].params).1);
    StepAt(Step, states, actions, i);
    RequestIsKept(states, actions, i + 1, j, actions[i].id);
    StoredTierAgrees(actions[i].params);
    RunIsSafe(states, actions, j);
    assert TierOk(states[j].profiles, states[j].entries[actions[i].id]);
  }

  /** A task that is not HD goes to an hd provider only when no 1k provider is left for it. */
  lemma StandardTaskPrefersOneK(seen: Table, service: string, tier: string, exclude: seq<string>, now: int, o: string)
    requires !IsHdTier(tier) && CandidateBuckets(service, tier).Some?
    requires o in seen && Eligible(seen[o], CandidateBuckets(service, tier).value, now) && o !in exclude
    requires Select(seen, CandidateBuckets(service, tier).value, exclude, now).Some? && seen[o].bucket == "1k"
    ensures var id := Select(seen, CandidateBuckets(service, tier).value, exclude, now).value;
      id in seen && seen[id].bucket == "1k"
  {
    var buckets := CandidateBuckets(service, tier).value;
    SelectedIsBest(seen, buckets, exclude, now);
    assert buckets == ["1k", "hd"] && Position(buckets, "1k") == 0;
    assert buckets[1..] == ["hd"] && Position(buckets, "hd") == 1 + Position(["hd"], "hd");
  }

  // ---- progress ----

  /** Twice the queued tasks plus the running ones. */
  function Measure(s: State): nat {
    2 * QueuedCount(s.entries) + RunningCount(s.entries)
  }

  /** A claim that takes a task, or a completion. */
  predicate Advances(s: State, a: Action) {
    || (a.CommitClaim? && s.claimer.Picked? && s.claimer.id in s.entries && s.entries[s.claimer.id].row.status.Queued?)
    || a.Finish?
  }

  lemma StepMeasure(s: State, a: Action)
    requires Enabled(s, a) && !a.Enqueue?
    ensures Measure(Apply(s, a)) == Measure(s) - (if Advances(s, a) then 1 else 0)
  {
    match a
    case CommitClaim(now) =>
      var id := s.claimer.id;
      var row := s.entries[id].row;
      EntrySet(s.entries, id, Entry(row.(status := Running, updatedAt := now), [row.profile]));
    case Fallback(id, seen, written, now) =>
      EntrySet(s.entries, id, Apply(s, a).entries[id]);
    case Finish(id, status, now) =>
      EntrySet(s.entries, id, Apply(s, a).entries[id]);
    case _ =>
  }

  /** How many of the first actions of a run were claims or completions. */
  function Advanced(states: seq<State>, actions: seq<Action>, i: nat, j: nat): nat
    requires i <= j <= |actions| && |states| == |actions| + 1
    decreases j
  {
    if i == j then 0
    else Advanced(states, actions, i, j - 1) + (if Advances(states[j - 1], actions[j - 1]) then 1 else 0)
  }

  /** Without new tasks, claims and completions use up the measure one by one: there are never more
      of them than twice the queued plus the running tasks at the start. */
  lemma {:induction false} ProgressIsCounted(states: seq<State>, actions: seq<Action>, i: nat, j: nat)
    requires IsRun(states, actions) && i <= j < |states|
    requires forall k :: i <= k < j ==> !actions[k].Enqueue?
    ensures Measure(states[j]) + Advanced(states, actions, i, j) == Measure(states[i])
  {
    if i < j {
      ProgressIsCounted(states, actions, i, j - 1);
      StepAt(Step, states, actions, j - 1);
      StepMeasure(states[j - 1], actions[j - 1]);
    }
  }

  /** In every reachable state a claimed task never returns to the queue, and its worker has called
      one provider or two different ones. */
  lemma ClaimedTasksMoveOn(states: seq<State>, actions: seq<Action>, i: nat, j: nat, id: string)
    requires IsRun(states, actions) && states[0].defaultCap >= 0 && i <= j < |states|
    requires id in states[i].entries && !states[i].entries[id].row.status.Queued?
    ensures id in states[j].entries && !states[j].entries[id].row.status.Queued?
    ensures var tried := states[j].entries[id].tried;
      1 <= |tried| <= 2 && (|tried| == 2 ==> tried[0] != tried[1])
  {
    RequestIsKept(states, actions, i, j, id);
    RunIsSafe(states, actions, j);
    assert TriedOk(states[j].entries[id]);
  }
}
