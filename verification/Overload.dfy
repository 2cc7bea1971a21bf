/** Two runs of the scheduler that overload a provider, one by a fallback and one by the commit of a
    claim. Every selection in them reads the provider table as it stands, and writes its bookkeeping. */
module Overload {
  import opened Text
  import opened Totals
  import opened Rows
  import opened Routing
  import opened Profiles
  import opened Claims
  import opened Runs
  import opened Scheduler
  import opened ProviderLoads

  /** A step whose selection, if it makes one, reads the current providers. */
  ghost predicate TrueStep(s: State, a: Action, u: State) {
    && Step(s, a, u)
    && (a.Enqueue? || a.Fallback? ==> a.seen == s.profiles)
  }

  /** A run of such steps. */
  ghost predicate IsTrueRun(states: seq<State>, actions: seq<Action>) {
    IsRun(states, actions) && forall i :: 0 <= i < |actions| ==> TrueStep(states[i], actions[i], states[i + 1])
  }

  /** No fallback moves a task to a provider without room. */
  predicate FallsWithRoom(s: State, a: Action) {
    a.Fallback? ==> !Overfills(s, a, "p") && !Overfills(s, a, "q")
  }

  /** The true steps, all of them or those whose fallbacks find room. */
  ghost function TrueSteps(roomy: bool): (State, Action, State) -> bool {
    (s: State, a: Action, u: State) => TrueStep(s, a, u) && (roomy ==> FallsWithRoom(s, a))
  }

  /** Some run of such steps over the two providers below ends in this state. */
  ghost predicate Reachable(roomy: bool, s: State) {
    Leads(TrueSteps(roomy), Initial(Fresh(), 1), s)
  }

  /** These runs are runs of the scheduler machine. */
  lemma ReachableByRun(roomy: bool, s: State) returns (states: seq<State>, actions: seq<Action>)
    requires Reachable(roomy, s)
    ensures IsTrueRun(states, actions) && states[|actions|] == s && states[0] == Initial(Fresh(), 1)
    ensures roomy ==> forall i :: 0 <= i < |actions| ==> FallsWithRoom(states[i], actions[i])
  {
    states, actions :| Follows(TrueSteps(roomy), states, actions) && states[0] == Initial(Fresh(), 1)
        && states[|actions|] == s;
    forall i | 0 <= i < |actions|
      ensures TrueStep(states[i], actions[i], states[i + 1]) && Step(states[i], actions[i], states[i + 1])
      ensures roomy ==> FallsWithRoom(states[i], actions[i])
    {
      StepAt(TrueSteps(roomy), states, actions, i);
    }
  }

  lemma ReachNext(roomy: bool, s: State, a: Action, u: State)
    requires Reachable(roomy, s) && TrueStep(s, a, u) && (roomy ==> FallsWithRoom(s, a))
    ensures Reachable(roomy, u)
  {
    LeadsOn(TrueSteps(roomy), Initial(Fresh(), 1), s, a, u);
  }

  // ---- two providers that may run one task each ----

  const BUCKETS := ["1k", "hd"]

  /** Nothing was selected yet; then `p`, for the first task; then `q`, for the second; then the call
      to `p` failed. */
  function Fresh(): Table {
    var unused := Profile("1k", 1, 1, true, true, 0, 0, 0, None, None, None);
    map["p" := unused, "q" := unused]
  }

  function OnceSelected(): Table {
    Selected(Fresh(), "p", 0)
  }

  function TwiceSelected(): Table {
    Selected(OnceSelected(), "q", 1)
  }

  function OnceFailed(): Table {
    RecordFailure(TwiceSelected(), "p", TwiceSelected()["p"], 3)
  }

  /** A provider is selected when the only other one is excluded or comes later. */
  lemma Picks(t: Table, exclude: seq<string>, now: int, id: string, other: string)
    requires t.Keys == {id, other} && Eligible(t[id], BUCKETS, now) && id !in exclude && |exclude| < QUERY_LIMIT
    requires other in exclude || !Before(t, BUCKETS, other, id)
    ensures Select(t, BUCKETS, exclude, now) == Some(id)
  {
    SelectReturnsBest(t, BUCKETS, exclude, now);
  }

  lemma AllEligible(now: int)
    ensures Eligible(Fresh()["p"], BUCKETS, now) && Eligible(OnceSelected()["q"], BUCKETS, now)
    ensures Eligible(OnceFailed()["q"], BUCKETS, now)
  {
    assert BUCKETS[0] == "1k";
  }

  lemma FirstPick()
    ensures Select(Fresh(), BUCKETS, [], 0) == Some("p")
  {
    AllEligible(0);
    Picks(Fresh(), [], 0, "p", "q");
  }

  lemma SecondPick()
    ensures Select(OnceSelected(), BUCKETS, [], 1) == Some("q")
  {
    AllEligible(1);
    Picks(OnceSelected(), [], 1, "q", "p");
  }

  lemma FallbackPick()
    ensures Select(OnceFailed(), BUCKETS, ["p"], 3) == Some("q")
  {
    AllEligible(3);
    Picks(OnceFailed(), ["p"], 3, "q", "p");
  }

  // ---- two requests of standard size, paid by an entitlement to two pictures ----

  function PicturesLeft(n: int): Snapshot {
    Snapshot(0, [SnapshotEntitlement(IMAGE_SD, n, 2)])
  }

  function StandardBilling(): Billing {
    Billing(IMAGE_SD, "1K", 1, false)
  }

  function Row(p: string, created: int): Task {
    QueuedRow("w", StandardBilling(), map[], p, created)
  }

  lemma Chosen(t: Table, left: int, now: int, p: string)
    requires left >= 1 && Select(t, BUCKETS, [], now) == Some(p)
    ensures CreationChoice(t, PicturesLeft(left), map[], map[], now) == Some((StandardBilling(), p))
  {
    DefaultTier();
  }

  lemma ChosenNext(t: Table, row: Task, tried: seq<string>, now: int, q: string)
    requires Select(t, BUCKETS, tried, now) == Some(q)
    requires row.service == IMAGE_SD && row.params == WriteBack(map[])
    ensures FallbackChoice(t, row, tried, now) == Some(q)
  {
    DefaultTier();
  }

  lemma ReachCreation(roomy: bool, s: State, id: string, left: int, now: int, p: string)
    requires Reachable(roomy, s) && id !in s.entries && left >= 1 && Select(s.profiles, BUCKETS, [], now) == Some(p)
    ensures Reachable(roomy, SetEntry(s, id, Entry(Row(p, now), [])))
  {
    Chosen(s.profiles, left, now, p);
    ReachNext(roomy, s, Enqueue(id, "w", PicturesLeft(left), map[], map[], s.profiles, now),
              SetEntry(s, id, Entry(Row(p, now), [])));
  }

  lemma ReachProfiles(roomy: bool, s: State, t: Table)
    requires Reachable(roomy, s) && SameProviders(s.profiles, t)
    ensures Reachable(roomy, s.(profiles := t))
  {
    ReachNext(roomy, s, ChangeProfiles(t), s.(profiles := t));
  }

  /** A claim up to the pick, under a global limit of two. */
  lemma ReachPicked(roomy: bool, s: State, id: string)
    requires Reachable(roomy, s) && s.claimer.Nobody? && RunningTotal(Tasks(s)) < 2
    requires id in s.entries && IsNext(Tasks(s), s.profiles, s.defaultCap, id)
    ensures Reachable(roomy, s.(claimer := Picked(2, id), maxLimit := MaxInt(s.maxLimit, 2)))
  {
    var held := s.(claimer := Holding(2), maxLimit := MaxInt(s.maxLimit, 2));
    assert Tasks(held) == Tasks(s) && Tasks(held.(claimer := Counted(2))) == Tasks(s);
    ReachNext(roomy, s, Acquire(2), held);
    ReachNext(roomy, held, CountSlots, held.(claimer := Counted(2)));
    ReachNext(roomy, held.(claimer := Counted(2)), Pick(id), held.(claimer := Picked(2, id)));
  }

  /** One undisturbed claim. */
  lemma ReachClaimed(roomy: bool, s: State, id: string, now: int)
    requires Reachable(roomy, s) && s.claimer.Nobody? && RunningTotal(Tasks(s)) < 2
    requires id in s.entries && IsNext(Tasks(s), s.profiles, s.defaultCap, id)
    ensures Reachable(roomy, DoCommitClaim(s.(claimer := Picked(2, id), maxLimit := MaxInt(s.maxLimit, 2)), id, now))
  {
    var picked := s.(claimer := Picked(2, id), maxLimit := MaxInt(s.maxLimit, 2));
    ReachPicked(roomy, s, id);
    ReachNext(roomy, picked, CommitClaim(now), DoCommitClaim(picked, id, now));
  }

  lemma ReachFallback(roomy: bool, s: State, id: string, now: int, q: string)
    requires Reachable(roomy, s) && id in s.entries
    requires s.entries[id].row.status.Running? && |s.entries[id].tried| == 1
    requires FallbackChoice(s.profiles, s.entries[id].row, s.entries[id].tried, now) == Some(q)
    requires roomy ==> Load(s, q) < Cap(s, q)
    ensures Reachable(roomy, DoFallback(s, id, q, true, now))
  {
    ReachNext(roomy, s, Fallback(id, s.profiles, true, now), DoFallback(s, id, q, true, now));
  }

  // ---- the run ----

  /** The two tasks, at a stage of the run. */
  function Stage(first: Entry, second: Entry, profiles: Table, maxLimit: int): State {
    State(map["1" := first, "2" := second], profiles, 1, Nobody, maxLimit)
  }

  function Waiting(p: string, created: int): Entry {
    Entry(Row(p, created), [])
  }

  function Called(p: string, created: int): Entry {
    Entry(Row(p, created).(status := Running, updatedAt := 2), [p])
  }

  lemma StageCounts(first: Entry, second: Entry, profiles: Table, maxLimit: int, p: string)
    ensures var tasks := Tasks(Stage(first, second, profiles, maxLimit));
      && RunningOn(tasks, p) == (if RunsOn(p, first.row) then 1 else 0) + (if RunsOn(p, second.row) then 1 else 0)
      && RunningTotal(tasks) == (if IsRunning(first.row) then 1 else 0) + (if IsRunning(second.row) then 1 else 0)
  {
    var none: map<string, Task> := map[];
    var one := none["1" := first.row];
    CountSet(none, (t: Task) => RunsOn(p, t), "1", first.row);
    CountSet(one, (t: Task) => RunsOn(p, t), "2", second.row);
    CountSet(none, (t: Task) => IsRunning(t), "1", first.row);
    CountSet(one, (t: Task) => IsRunning(t), "2", second.row);
    assert Tasks(Stage(first, second, profiles, maxLimit)) == one["2" := second.row];
  }

  lemma ReachFirstQueued(roomy: bool)
    ensures Reachable(roomy, State(map["1" := Waiting("p", 0)], OnceSelected(), 1, Nobody, 0))
  {
    var start := Initial(Fresh(), 1);
    LeadsToItself(TrueSteps(roomy), start);
    FirstPick();
    ReachCreation(roomy, start, "1", 2, 0, "p");
    ReachProfiles(roomy, SetEntry(start, "1", Waiting("p", 0)), OnceSelected());
  }

  lemma ReachQueued(roomy: bool)
    ensures Reachable(roomy, Stage(Waiting("p", 0), Waiting("q", 1), TwiceSelected(), 0))
  {
    var one := State(map["1" := Waiting("p", 0)], OnceSelected(), 1, Nobody, 0);
    ReachFirstQueued(roomy);
    SecondPick();
    ReachCreation(roomy, one, "2", 1, 1, "q");
    ReachProfiles(roomy, SetEntry(one, "2", Waiting("q", 1)), TwiceSelected());
  }

  lemma FirstIsNext()
    ensures IsNext(Tasks(Stage(Waiting("p", 0), Waiting("q", 1), TwiceSelected(), 0)), TwiceSelected(), 1, "1")
  {
    StageCounts(Waiting("p", 0), Waiting("q", 1), TwiceSelected(), 0, "p");
  }

  lemma SecondIsNext()
    ensures IsNext(Tasks(Stage(Called("p", 0), Waiting("q", 1), TwiceSelected(), 2)), TwiceSelected(), 1, "2")
  {
    StageCounts(Called("p", 0), Waiting("q", 1), TwiceSelected(), 2, "q");
  }

  lemma ReachOneRunning(roomy: bool)
    ensures Reachable(roomy, Stage(Called("p", 0), Waiting("q", 1), TwiceSelected(), 2))
  {
    var s := Stage(Waiting("p", 0), Waiting("q", 1), TwiceSelected(), 0);
    ReachQueued(roomy);
    FirstIsNext();
    StageCounts(Waiting("p", 0), Waiting("q", 1), TwiceSelected(), 0, "p");
    ReachClaimed(roomy, s, "1", 2);
    assert DoCommitClaim(s.(claimer := Picked(2, "1"), maxLimit := 2), "1", 2)
        == Stage(Called("p", 0), Waiting("q", 1), TwiceSelected(), 2);
  }

  lemma ReachTwoRunning(roomy: bool)
    ensures Reachable(roomy, Stage(Called("p", 0), Called("q", 1), TwiceSelected(), 2))
  {
    var s := Stage(Called("p", 0), Waiting("q", 1), TwiceSelected(), 2);
    ReachOneRunning(roomy);
    SecondIsNext();
    StageCounts(Called("p", 0), Waiting("q", 1), TwiceSelected(), 2, "q");
    ReachClaimed(roomy, s, "2", 2);
    assert DoCommitClaim(s.(claimer := Picked(2, "2"), maxLimit := 2), "2", 2)
        == Stage(Called("p", 0), Called("q", 1), TwiceSelected(), 2);
  }

  /** The first task after its call to `p` failed and it moved on to `q`. */
  function Fallen(): Entry {
    Entry(Row("q", 0).(status := Running, updatedAt := 3), ["p", "q"])
  }

  lemma StageMoved(first: Entry, second: Entry, profiles: Table, now: int, q: string)
    ensures DoFallback(Stage(first, second, profiles, 2), "1", q, true, now)
         == Stage(Entry(first.row.(profile := q, updatedAt := now), first.tried + [q]), second, profiles, 2)
  {
  }

  lemma MoveFirst(roomy: bool, s: State, first: Entry, second: Entry, profiles: Table, now: int, q: string)
    requires s == Stage(first, second, profiles, 2).(claimer := s.claimer) && Reachable(roomy, s)
    requires first.row.status.Running? && |first.tried| == 1
    requires FallbackChoice(profiles, first.row, first.tried, now) == Some(q)
    requires roomy ==> Load(s, q) < Cap(s, q)
    ensures var moved := Entry(first.row.(profile := q, updatedAt := now), first.tried + [q]);
      Reachable(roomy, Stage(moved, second, profiles, 2).(claimer := s.claimer))
  {
    ReachFallback(roomy, s, "1", now, q);
    StageMoved(first, second, profiles, now, q);
  }

  // ---- first way over the cap: the fallback finds no room ----

  lemma ReachFailed()
    ensures Reachable(false, Stage(Called("p", 0), Called("q", 1), OnceFailed(), 2))
  {
    ReachTwoRunning(false);
    ReachProfiles(false, Stage(Called("p", 0), Called("q", 1), TwiceSelected(), 2), OnceFailed());
  }

  lemma FirstFallsBack()
    ensures FallbackChoice(OnceFailed(), Called("p", 0).row, ["p"], 3) == Some("q")
    ensures Entry(Called("p", 0).row.(profile := "q", updatedAt := 3), ["p"] + ["q"]) == Fallen()
  {
    FallbackPick();
    ChosenNext(OnceFailed(), Called("p", 0).row, ["p"], 3, "q");
    assert ["p"] + ["q"] == ["p", "q"];
  }

  lemma ReachFallen()
    ensures Reachable(false, Stage(Fallen(), Called("q", 1), OnceFailed(), 2))
  {
    ReachFailed();
    FirstFallsBack();
    var s := Stage(Called("p", 0), Called("q", 1), OnceFailed(), 2);
    MoveFirst(false, s, Called("p", 0), Called("q", 1), OnceFailed(), 3, "q");
  }

  lemma TwoOnQ(second: Entry)
    requires RunsOn("q", second.row)
    ensures var s := Stage(Fallen(), second, OnceFailed(), 2);
      Load(s, "q") == 2 && Cap(s, "q") == 1
  {
    StageCounts(Fallen(), second, OnceFailed(), 2, "q");
  }

  /** Two providers capped at one task each: after the first task fell back to the second provider,
      that one runs two. */
  lemma FallbackOverloads()
    ensures exists states, actions ::
      IsTrueRun(states, actions) && Load(states[|actions|], "q") == Cap(states[|actions|], "q") + 1
  {
    ReachFallen();
    TwoOnQ(Called("q", 1));
    var states, actions := ReachableByRun(false, Stage(Fallen(), Called("q", 1), OnceFailed(), 2));
  }

  // ---- second way: the fallback finds room that a claim has already counted on ----

  /** The claim of the second task has picked it but not committed. */
  function Picking(s: State): State {
    s.(claimer := Picked(2, "2"))
  }

  lemma ReachPicking()
    ensures Reachable(true, Picking(Stage(Called("p", 0), Waiting("q", 1), TwiceSelected(), 2)))
  {
    var s := Stage(Called("p", 0), Waiting("q", 1), TwiceSelected(), 2);
    ReachOneRunning(true);
    SecondIsNext();
    StageCounts(Called("p", 0), Waiting("q", 1), TwiceSelected(), 2, "q");
    ReachPicked(true, s, "2");
  }

  lemma QueuedLeavesRoom()
    ensures var s := Picking(Stage(Called("p", 0), Waiting("q", 1), OnceFailed(), 2));
      Load(s, "q") == 0 && Cap(s, "q") == 1
  {
    var s := Stage(Called("p", 0), Waiting("q", 1), OnceFailed(), 2);
    StageCounts(Called("p", 0), Waiting("q", 1), OnceFailed(), 2, "q");
    SameTasks(s, Picking(s), "q");
  }

  lemma ReachOvertaken()
    ensures Reachable(true, Picking(Stage(Fallen(), Waiting("q", 1), OnceFailed(), 2)))
  {
    var s := Picking(Stage(Called("p", 0), Waiting("q", 1), OnceFailed(), 2));
    ReachPicking();
    ReachProfiles(true, Picking(Stage(Called("p", 0), Waiting("q", 1), TwiceSelected(), 2)), OnceFailed());
    FirstFallsBack();
    QueuedLeavesRoom();
    MoveFirst(true, s, Called("p", 0), Waiting("q", 1), OnceFailed(), 3, "q");
  }

  /** The second task after its claim. */
  function ClaimedLate(): Entry {
    Entry(Row("q", 1).(status := Running, updatedAt := 4), ["q"])
  }

  lemma ReachClaimedLate()
    ensures Reachable(true, Stage(Fallen(), ClaimedLate(), OnceFailed(), 2))
  {
    var s := Picking(Stage(Fallen(), Waiting("q", 1), OnceFailed(), 2));
    ReachOvertaken();
    ReachNext(true, s, CommitClaim(4), DoCommitClaim(s, "2", 4));
    assert DoCommitClaim(s, "2", 4) == Stage(Fallen(), ClaimedLate(), OnceFailed(), 2);
  }

  /** A claim picks a task for a free provider, the one fallback of the run moves another task there
      and finds room, and then the claim commits: the provider runs two tasks all the same. */
  lemma ClaimOverloads()
    ensures exists states, actions ::
      && IsTrueRun(states, actions) && Load(states[|actions|], "q") == Cap(states[|actions|], "q") + 1
      && forall i :: 0 <= i < |actions| ==> FallsWithRoom(states[i], actions[i])
  {
    ReachClaimedLate();
    TwoOnQ(ClaimedLate());
    var states, actions := ReachableByRun(true, Stage(Fallen(), ClaimedLate(), OnceFailed(), 2));
  }
}
