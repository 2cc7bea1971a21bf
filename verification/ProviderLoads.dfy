/** Exactly when a provider runs more tasks than its cap: which steps put a task on it, and which of
    them find no room. */
module ProviderLoads {
  import opened Text
  import opened Totals
  import opened Rows
  import opened Claims
  import opened Runs
  import opened Scheduler

  function Load(s: State, p: string): nat {
    RunningOn(Tasks(s), p)
  }

  function Cap(s: State, p: string): int {
    ProviderCap(s.profiles, p, s.defaultCap)
  }

  /** A running task moves to the provider from another one. */
  predicate FallsInto(s: State, a: Action, p: string) {
    && a.Fallback? && a.written && a.id in s.entries
    && s.entries[a.id].row.status.Running? && s.entries[a.id].row.profile != p
    && FallbackChoice(a.seen, s.entries[a.id].row, s.entries[a.id].tried, a.now) == Some(p)
  }

  /** The claim of a queued task of the provider is committed. */
  predicate ClaimsOn(s: State, a: Action, p: string) {
    && a.CommitClaim? && s.claimer.Picked? && s.claimer.id in s.entries
    && s.entries[s.claimer.id].row.status.Queued? && s.entries[s.claimer.id].row.profile == p
  }

  predicate Enters(s: State, a: Action, p: string) {
    FallsInto(s, a, p) || ClaimsOn(s, a, p)
  }

  /** A task is put on the provider while it has no room. */
  predicate Overfills(s: State, a: Action, p: string) {
    Enters(s, a, p) && Load(s, p) >= Cap(s, p)
  }

  // ---- one step ----

  lemma EntryCounts(s: State, id: string, e: Entry, p: string)
    ensures Load(SetEntry(s, id, e), p)
         == Load(s, p) + (if RunsOn(p, e.row) then 1 else 0)
            - (if id in s.entries && RunsOn(p, s.entries[id].row) then 1 else 0)
  {
    CountSet(Tasks(s), (t: Task) => RunsOn(p, t), id, e.row);
    assert Tasks(SetEntry(s, id, e)) == Tasks(s)[id := e.row];
  }

  lemma SameTasks(s: State, u: State, p: string)
    requires u.entries == s.entries
    ensures Load(u, p) == Load(s, p)
  {
    assert Tasks(u) == Tasks(s);
  }

  lemma ClaimCounts(s: State, now: int, p: string)
    requires s.claimer.Picked? && s.claimer.id in s.entries
    ensures Load(DoCommitClaim(s, s.claimer.id, now), p)
         == Load(s, p) + (if ClaimsOn(s, CommitClaim(now), p) then 1 else 0)
  {
    var row := s.entries[s.claimer.id].row;
    var after := Entry(row.(status := Running, updatedAt := now), [row.profile]);
    var u := DoCommitClaim(s, s.claimer.id, now);
    if row.status.Queued? {
      EntryCounts(s, s.claimer.id, after, p);
      SameTasks(SetEntry(s, s.claimer.id, after), u, p);
    } else {
      SameTasks(s, u, p);
    }
  }

  lemma FallbackCounts(s: State, id: string, next: string, written: bool, now: int, p: string)
    requires id in s.entries && s.entries[id].row.status.Running?
    ensures var u := DoFallback(s, id, next, written, now);
      var enters := written && next == p && s.entries[id].row.profile != p;
      && Load(u, p) <= Load(s, p) + (if enters then 1 else 0)
      && (enters ==> Load(u, p) == Load(s, p) + 1)
  {
    EntryCounts(s, id, DoFallback(s, id, next, written, now).entries[id], p);
  }

  /** A step raises the load of a provider exactly when it puts a task on it, and then by one. */
  lemma StepCounts(s: State, a: Action, u: State, p: string)
    requires Enabled(s, a) && u == Apply(s, a)
    ensures Load(u, p) <= Load(s, p) + (if Enters(s, a, p) then 1 else 0)
    ensures Enters(s, a, p) ==> Load(u, p) == Load(s, p) + 1
  {
    match a
    case Enqueue(id, _, _, _, _, _, _) => EntryCounts(s, id, u.entries[id], p);
    case CommitClaim(now) => ClaimCounts(s, now, p);
    case Fallback(id, seen, written, now) =>
      var next := FallbackChoice(seen, s.entries[id].row, s.entries[id].tried, now).value;
      FallbackCounts(s, id, next, written, now, p);
    case Finish(id, _, _) => EntryCounts(s, id, u.entries[id], p);
    case _ => SameTasks(s, u, p);
  }

  lemma CapStays(s: State, a: Action, u: State, p: string)
    requires Enabled(s, a) && u == Apply(s, a)
    ensures Cap(u, p) == Cap(s, p) && u.defaultCap == s.defaultCap
  {
  }

  /** The step keeps a provider within its cap exactly when it does not overfill it. */
  lemma StepKeepsCapIff(s: State, a: Action, u: State, p: string)
    requires Enabled(s, a) && u == Apply(s, a) && Load(s, p) <= Cap(s, p)
    ensures Load(u, p) <= Cap(u, p) <==> !Overfills(s, a, p)
  {
    StepCounts(s, a, u, p);
    CapStays(s, a, u, p);
  }

  lemma OverfillingExceeds(s: State, a: Action, u: State, p: string)
    requires Enabled(s, a) && u == Apply(s, a) && Overfills(s, a, p)
    ensures Load(u, p) > Cap(u, p)
  {
    StepCounts(s, a, u, p);
    CapStays(s, a, u, p);
  }

  // ---- over whole runs ----

  ghost predicate WithinCap(s: State, p: string) {
    Load(s, p) <= Cap(s, p)
  }

  lemma WithinCapAtFirst(s: State, p: string)
    requires s == Initial(s.profiles, s.defaultCap) && s.defaultCap >= 0
    ensures WithinCap(s, p)
  {
    assert Where(Tasks(s), (t: Task) => RunsOn(p, t)) == {};
  }

  lemma NoOverfillKeepsCap(states: seq<State>, actions: seq<Action>, i: nat, p: string)
    requires IsRun(states, actions) && states[0].defaultCap >= 0 && i < |states|
    requires forall j :: 0 <= j < i ==> !Overfills(states[j], actions[j], p)
    ensures WithinCap(states[i], p)
  {
    WithinCapAtFirst(states[0], p);
    forall s, a, u | WithinCap(s, p) && !Overfills(s, a, p) && Step(s, a, u) ensures WithinCap(u, p) {
      StepKeepsCapIff(s, a, u, p);
    }
    KeptWhile(Step, (s: State) => WithinCap(s, p), (s: State, a: Action) => !Overfills(s, a, p), states, actions, i);
  }

  /** The cap of a provider is its own max_concurrent where that is positive, else the default. Over a
      run the tasks running on it stay within that cap if and only if no fallback into it and no commit
      of a claim on it happens while as many as the cap run there. */
  lemma ProviderCapKeptIff(states: seq<State>, actions: seq<Action>, n: nat, p: string)
    requires IsRun(states, actions) && states[0].defaultCap >= 0 && n <= |actions|
    ensures var profiles := states[0].profiles;
      var cap := if p in profiles && profiles[p].maxConcurrent > 0 then profiles[p].maxConcurrent
                 else states[0].defaultCap;
      (forall i :: 0 <= i <= n ==> RunningOn(Tasks(states[i]), p) <= cap)
      <==> (forall i :: 0 <= i < n && Enters(states[i], actions[i], p) ==> RunningOn(Tasks(states[i]), p) < cap)
  {
    forall i | 0 <= i <= n ensures Cap(states[i], p) == Cap(states[0], p) {
      CapNeverMoves(states, actions, i, p);
    }
    KeptIffNotOverfilled(states, actions, n, p);
  }

  lemma CapNeverMoves(states: seq<State>, actions: seq<Action>, i: nat, p: string)
    requires IsRun(states, actions) && i < |states|
    ensures Cap(states[i], p) == Cap(states[0], p)
  {
    var cap := Cap(states[0], p);
    forall s, a, u | Cap(s, p) == cap && Step(s, a, u) ensures Cap(u, p) == cap {
      CapStays(s, a, u, p);
    }
    KeptAlong(Step, (s: State) => Cap(s, p) == cap, states, actions, i);
  }

  lemma KeptIffNotOverfilled(states: seq<State>, actions: seq<Action>, n: nat, p: string)
    requires IsRun(states, actions) && states[0].defaultCap >= 0 && n <= |actions|
    ensures (forall i :: 0 <= i <= n ==> Load(states[i], p) <= Cap(states[i], p))
       <==> (forall i :: 0 <= i < n ==> !Overfills(states[i], actions[i], p))
  {
    if forall i :: 0 <= i < n ==> !Overfills(states[i], actions[i], p) {
      forall i | 0 <= i <= n ensures Load(states[i], p) <= Cap(states[i], p) {
        NoOverfillKeepsCap(states, actions, i, p);
      }
    } else {
      var i :| 0 <= i < n && Overfills(states[i], actions[i], p);
      StepAt(Step, states, actions, i);
      OverfillingExceeds(states[i], actions[i], states[i + 1], p);
    }
  }

  // ---- when the commit of a claim overfills ----

  /** The claim committed at `i` picked its task at `j`. */
  predicate PickedAt(states: seq<State>, actions: seq<Action>, j: nat, i: nat)
    requires |states| == |actions| + 1 && i < |states|
  {
    && states[i].claimer.Picked? && j < i && actions[j] == Pick(states[i].claimer.id)
    && forall k :: j < k <= i ==> states[k].claimer == states[i].claimer
  }

  lemma ClaimerStep(s: State, a: Action, u: State)
    requires Enabled(s, a) && u == Apply(s, a) && u.claimer.Picked?
    ensures a == Pick(u.claimer.id) || s.claimer == u.claimer
    ensures a.Pick? ==> CanTake(Tasks(s), s.profiles, s.defaultCap, u.claimer.id) && u.entries == s.entries
    ensures !a.CommitClaim?
  {
  }

  lemma PickFindsRoom(s: State, a: Action, u: State)
    requires Enabled(s, a) && u == Apply(s, a) && a.Pick?
    ensures u.claimer.id in u.entries
    ensures var row := u.entries[u.claimer.id].row;
      row.status.Queued? && Load(u, row.profile) < Cap(u, row.profile)
  {
    SameTasks(s, u, s.entries[a.id].row.profile);
  }

  /** A queued task that nobody claims stays as it is. */
  lemma QueuedStays(s: State, a: Action, u: State, id: string)
    requires Enabled(s, a) && u == Apply(s, a) && id in s.entries && s.entries[id].row.status.Queued? && !a.CommitClaim?
    ensures id in u.entries && u.entries[id] == s.entries[id]
  {
  }

  /** Since the pick, the provider kept its room unless a task fell back into it. */
  ghost predicate HasRoomSince(states: seq<State>, actions: seq<Action>, j: nat, i: nat)
    requires |states| == |actions| + 1 && i < |states| && states[i].claimer.Picked?
  {
    var s, id := states[i], states[i].claimer.id;
    && id in s.entries && s.entries[id].row.status.Queued?
    && ((forall k :: j < k < i ==> !FallsInto(states[k], actions[k], s.entries[id].row.profile)) ==>
          Load(s, s.entries[id].row.profile) < Cap(s, s.entries[id].row.profile))
  }

  lemma RoomStep(states: seq<State>, actions: seq<Action>, j: nat, i: nat)
    requires IsRun(states, actions) && i + 1 < |states| && j < i
    requires states[i].claimer.Picked? && states[i + 1].claimer == states[i].claimer
    requires HasRoomSince(states, actions, j, i) && !actions[i].CommitClaim?
    ensures HasRoomSince(states, actions, j, i + 1)
  {
    var s, a, u, id := states[i], actions[i], states[i + 1], states[i].claimer.id;
    var p := s.entries[id].row.profile;
    StepAt(Step, states, actions, i);
    QueuedStays(s, a, u, id);
    StepCounts(s, a, u, p);
    CapStays(s, a, u, p);
  }

  lemma PickedJustNow(states: seq<State>, actions: seq<Action>, j: nat)
    requires IsRun(states, actions) && j < |actions| && actions[j].Pick? && states[j + 1].claimer.Picked?
    ensures PickedAt(states, actions, j, j + 1) && HasRoomSince(states, actions, j, j + 1)
  {
    StepAt(Step, states, actions, j);
    ClaimerStep(states[j], actions[j], states[j + 1]);
    PickFindsRoom(states[j], actions[j], states[j + 1]);
  }

  lemma PickGoesOn(states: seq<State>, actions: seq<Action>, j: nat, i: nat)
    requires IsRun(states, actions) && i + 1 < |states| && PickedAt(states, actions, j, i)
    requires HasRoomSince(states, actions, j, i) && states[i + 1].claimer == states[i].claimer
    requires !actions[i].CommitClaim?
    ensures PickedAt(states, actions, j, i + 1) && HasRoomSince(states, actions, j, i + 1)
  {
    RoomStep(states, actions, j, i);
  }

  lemma PickHasOrigin(states: seq<State>, actions: seq<Action>, i: nat)
    requires IsRun(states, actions) && i < |states| && states[i].claimer.Picked?
    ensures i > 0 && !actions[i - 1].CommitClaim?
    ensures !actions[i - 1].Pick? ==> states[i - 1].claimer == states[i].claimer
  {
    assert i > 0;
    StepAt(Step, states, actions, i - 1);
    ClaimerStep(states[i - 1], actions[i - 1], states[i]);
  }

  lemma {:induction false} PickExists(states: seq<State>, actions: seq<Action>, i: nat) returns (j: nat)
    requires IsRun(states, actions) && i < |states| && states[i].claimer.Picked?
    ensures PickedAt(states, actions, j, i) && HasRoomSince(states, actions, j, i)
    decreases i
  {
    PickHasOrigin(states, actions, i);
    if actions[i - 1].Pick? {
      j := i - 1;
      PickedJustNow(states, actions, j);
    } else {
      j := PickExists(states, actions, i - 1);
      PickGoesOn(states, actions, j, i - 1);
    }
  }

  /** The commit of a claim overfills its provider only if a task fell back into the provider after
      the claim had picked its own. */
  lemma ClaimOverfillsAfterFallback(states: seq<State>, actions: seq<Action>, i: nat, p: string)
    requires IsRun(states, actions) && i < |actions| && ClaimsOn(states[i], actions[i], p)
    ensures Overfills(states[i], actions[i], p) ==>
      exists j: nat, k: nat :: j < k < i && PickedAt(states, actions, j, i) && FallsInto(states[k], actions[k], p)
  {
    var j := PickExists(states, actions, i);
    if Overfills(states[i], actions[i], p) {
      var k: nat :| j < k < i && FallsInto(states[k], actions[k], p);
    }
  }
}
