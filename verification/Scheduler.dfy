/** Claiming, provider fallback and completion as a state machine: claimers serialised by the
    advisory lock over three statements, workers moving tasks to a second provider with no capacity
    check, and the provider table changing underneath. */
module Scheduler {
  import opened Text
  import opened Rows
  import opened Routing
  import opened Profiles
  import opened Claims
  import opened Runs

  /** A task row with the list of providers its worker has called so far; empty until claimed. */
  datatype Entry = Entry(row: Task, tried: seq<string>)

  /** The holder of the advisory lock: before the global count, after it, after the row was picked. */
  datatype Claimer = Nobody | Holding(limit: int) | Counted(limit: int) | Picked(limit: int, id: string)

  /** `maxLimit` is history: the largest global limit a lock holder has read. */
  datatype State = State(
    entries: map<string, Entry>, profiles: Table, defaultCap: int, claimer: Claimer, maxLimit: int)

  datatype Action =
    | Enqueue(id: string, w: string, snapshot: Snapshot, prices: map<(string, string), Price>,
              params: map<string, string>, seen: Table, now: int)
    | Acquire(limit: int)
    | CountSlots
    | Pick(id: string)
    | FindNone
    | CommitClaim(now: int)
    | AbortClaim
    | Fallback(id: string, seen: Table, written: bool, now: int)
    | Finish(id: string, status: Status, now: int)
    | ChangeProfiles(profiles: Table)

  function Tasks(s: State): map<string, Task> {
    map id | id in s.entries :: s.entries[id].row
  }

  /** Providers may be selected, fail, cool down or be switched off, but keep bucket and cap. */
  predicate SameProviders(t: Table, u: Table) {
    && t.Keys == u.Keys
    && forall p :: p in t ==> t[p].bucket == u[p].bucket && t[p].maxConcurrent == u[p].maxConcurrent
  }

  /** The providers a request with these parameters is assigned from at creation. */
  function CreationChoice(seen: Table, snapshot: Snapshot, prices: map<(string, string), Price>,
                          params: map<string, string>, now: int): Option<(Billing, string)> {
    var tier := NormalizeTaskSize(params).1;
    var billing := SelectBilling(snapshot, tier, prices);
    if billing.None? then None
    else
      var buckets := CandidateBuckets(billing.value.service, tier);
      if buckets.None? then None
      else
        var profile := Select(seen, buckets.value, [], now);
        if profile.None? then None else Some((billing.value, profile.value))
  }

  /** The provider a worker falls back to: routed by the parameters stored with the task. */
  function FallbackChoice(seen: Table, row: Task, tried: seq<string>, now: int): Option<string> {
    var buckets := CandidateBuckets(row.service, StringParam(row.params, "size_tier"));
    if buckets.None? then None else Select(seen, buckets.value, tried, now)
  }

  predicate Enabled(s: State, a: Action) {
    match a
    case Enqueue(id, w, snapshot, prices, params, seen, now) =>
      && id !in s.entries && SameProviders(seen, s.profiles)
      && CreationChoice(seen, snapshot, prices, params, now).Some?
    case Acquire(_) => s.claimer.Nobody?
    case CountSlots => s.claimer.Holding?
    case Pick(id) => s.claimer.Counted? && IsNext(Tasks(s), s.profiles, s.defaultCap, id)
    case FindNone =>
      s.claimer.Counted? && forall id :: id in s.entries ==> !CanTake(Tasks(s), s.profiles, s.defaultCap, id)
    case CommitClaim(_) => s.claimer.Picked? && s.claimer.id in s.entries
    case AbortClaim => !s.claimer.Nobody?
    case Fallback(id, seen, _, now) =>
      && id in s.entries && s.entries[id].row.status.Running? && |s.entries[id].tried| == 1
      && SameProviders(seen, s.profiles)
      && FallbackChoice(seen, s.entries[id].row, s.entries[id].tried, now).Some?
    case Finish(id, status, _) =>
      id in s.entries && s.entries[id].row.status.Running? && (status.Done? || status.Failed?)
    case ChangeProfiles(profiles) => SameProviders(s.profiles, profiles)
  }

  function SetEntry(s: State, id: string, e: Entry): State {
    s.(entries := s.entries[id := e])
  }

  /** The claim: the row turns running and its worker starts on the row's own provider. */
  function DoCommitClaim(s: State, id: string, now: int): State
    requires id in s.entries
  {
    var row := s.entries[id].row;
    if row.status.Queued?
    then SetEntry(s, id, Entry(row.(status := Running, updatedAt := now), [row.profile])).(claimer := Nobody)
    else s.(claimer := Nobody)
  }

  function DoFallback(s: State, id: string, next: string, written: bool, now: int): State
    requires id in s.entries
  {
    var e := s.entries[id];
    SetEntry(s, id, Entry(if written then e.row.(profile := next, updatedAt := now) else e.row, e.tried + [next]))
  }

  function Apply(s: State, a: Action): State
    requires Enabled(s, a)
  {
    match a
    case Enqueue(id, w, snapshot, prices, params, seen, now) =>
      var choice := CreationChoice(seen, snapshot, prices, params, now).value;
      SetEntry(s, id, Entry(QueuedRow(w, choice.0, params, choice.1, now), []))
    case Acquire(limit) => s.(claimer := Holding(limit), maxLimit := MaxInt(s.maxLimit, limit))
    case CountSlots =>
      if RunningTotal(Tasks(s)) < s.claimer.limit
      then s.(claimer := Counted(s.claimer.limit)) else s.(claimer := Nobody)
    case Pick(id) => s.(claimer := Picked(s.claimer.limit, id))
    case FindNone => s.(claimer := Nobody)
    case CommitClaim(now) => DoCommitClaim(s, s.claimer.id, now)
    case AbortClaim => s.(claimer := Nobody)
    case Fallback(id, seen, written, now) =>
      DoFallback(s, id, FallbackChoice(seen, s.entries[id].row, s.entries[id].tried, now).value, written, now)
    case Finish(id, status, now) =>
      SetEntry(s, id, s.entries[id].(row := s.entries[id].row.(status := status, updatedAt := now)))
    case ChangeProfiles(profiles) => s.(profiles := profiles)
  }

  function Initial(profiles: Table, defaultCap: int): State {
    State(map[], profiles, defaultCap, Nobody, 0)
  }

  ghost predicate Step(s: State, a: Action, u: State) {
    Enabled(s, a) && u == Apply(s, a)
  }

  /** A run from an empty queue over some providers. */
  ghost predicate IsRun(states: seq<State>, actions: seq<Action>) {
    && Follows(Step, states, actions)
    && states[0] == Initial(states[0].profiles, states[0].defaultCap)
  }
}
