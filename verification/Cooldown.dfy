/** The cooldown of a failing provider over whole histories of outcomes. */
module Cooldown {
  import opened Text
  import opened Profiles

  /** One recorded outcome of one provider. */
  datatype Outcome = Success | Failure(at: int)

  /** A serial history: every outcome is recorded from a fresh reading of the row. */
  function Replay(p: Profile, history: seq<Outcome>): Profile {
    if history == [] then p
    else Record(Replay(p, history[..|history| - 1]), history[|history| - 1])
  }

  function Record(p: Profile, o: Outcome): Profile {
    match o
    case Success => Succeeded(p)
    case Failure(at) => FailedAt(p, p, at)
  }

  /** The number of failures since the last success. */
  function TrailingFailures(history: seq<Outcome>): nat {
    if history == [] || history[|history| - 1].Success? then 0
    else 1 + TrailingFailures(history[..|history| - 1])
  }

  ghost predicate Rested(p: Profile) {
    p.failureCount == 0 && p.disabledUntil.None?
  }

  /** The failure count is the length of the trailing failure run, and the provider is disabled
      until five minutes after its last failure exactly when that run has two failures or more. */
  lemma {:induction false} CooldownFollowsHistory(p: Profile, history: seq<Outcome>)
    requires Rested(p)
    ensures var q := Replay(p, history);
      && q.failureCount == TrailingFailures(history)
      && q.disabledUntil == (if TrailingFailures(history) >= 2
                             then Some(history[|history| - 1].at + 300_000_000_000) else None)
  {
    if history != [] {
      CooldownFollowsHistory(p, history[..|history| - 1]);
    }
  }

  /** A provider in cooldown is not selected, whatever else holds of the table. */
  lemma CooldownIsRespected(t: Table, buckets: seq<string>, exclude: seq<string>, now: int, id: string,
                            p: Profile, history: seq<Outcome>)
    requires Rested(p) && id in t && t[id].disabledUntil == Replay(p, history).disabledUntil
    requires TrailingFailures(history) >= 2 && now < history[|history| - 1].at + 300_000_000_000
    ensures Select(t, buckets, exclude, now) != Some(id)
  {
    CooldownFollowsHistory(p, history);
    if Select(t, buckets, exclude, now).Some? {
      SelectedIsBest(t, buckets, exclude, now);
    }
  }

  /** Concurrent workers: each outcome may be recorded from a reading of the row as it was after
      any earlier number of outcomes. Outcome i was recorded from the row
      as it was after `seen[i]` outcomes. */
  ghost predicate IsConcurrentHistory(rows: seq<Profile>, outcomes: seq<Outcome>, seen: seq<nat>) {
    && |rows| == |outcomes| + 1 && |seen| == |outcomes|
    && forall i :: 0 <= i < |outcomes| ==>
         && seen[i] <= i
         && rows[i + 1] == (match outcomes[i]
                            case Success => Succeeded(rows[i])
                            case Failure(at) => FailedAt(rows[i], rows[seen[i]], at))
  }

  function Failures(outcomes: seq<Outcome>): nat {
    if outcomes == [] then 0
    else Failures(outcomes[..|outcomes| - 1]) + (if outcomes[|outcomes| - 1].Failure? then 1 else 0)
  }

  lemma {:induction false} FailuresGrow(outcomes: seq<Outcome>, i: nat, j: nat)
    requires i <= j <= |outcomes|
    ensures Failures(outcomes[..i]) <= Failures(outcomes[..j])
  {
    if i < j {
      FailuresGrow(outcomes, i, j - 1);
      assert outcomes[..j][..j - 1] == outcomes[..j - 1];
    }
  }

  /** Stale readings can lose failures or revive them, but never count more than were recorded. */
  lemma {:induction false} StaleCountIsBounded(rows: seq<Profile>, outcomes: seq<Outcome>, seen: seq<nat>, i: nat)
    requires IsConcurrentHistory(rows, outcomes, seen) && Rested(rows[0]) && i <= |outcomes|
    ensures 0 <= rows[i].failureCount <= Failures(outcomes[..i])
    decreases i
  {
    if i > 0 {
      StaleCountIsBounded(rows, outcomes, seen, i - 1);
      StaleCountIsBounded(rows, outcomes, seen, seen[i - 1]);
      FailuresGrow(outcomes, seen[i - 1], i - 1);
      assert outcomes[..i][..i - 1] == outcomes[..i - 1];
      assert rows[i - 1 + 1] == rows[i];
    }
  }
}
