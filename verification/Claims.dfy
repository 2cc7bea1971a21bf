/** The claim query: which queued task a worker may take. */
module Claims {
  import opened Totals
  import opened Rows
  import opened Profiles

  /** The cap of a provider: its own setting when positive, else the default. */
  function ProviderCap(profiles: Table, p: string, defaultCap: int): int {
    if p in profiles && profiles[p].maxConcurrent > 0 then profiles[p].maxConcurrent else defaultCap
  }

  predicate RunsOn(p: string, t: Task) {
    t.status.Running? && t.profile == p
  }

  function RunningOn(tasks: map<string, Task>, p: string): nat {
    Count(tasks, (t: Task) => RunsOn(p, t))
  }

  /** The count of the running tasks with this provider. */
  lemma RunningOnCounts(tasks: map<string, Task>, p: string)
    ensures RunningOn(tasks, p) == |set id | id in tasks && tasks[id].status.Running? && tasks[id].profile == p|
  {
    assert Where(tasks, (t: Task) => RunsOn(p, t))
        == set id | id in tasks && tasks[id].status.Running? && tasks[id].profile == p;
  }

  function RunningTotal(tasks: map<string, Task>): nat {
    Count(tasks, (t: Task) => IsRunning(t))
  }

  /** The count of all running tasks. */
  lemma RunningTotalCounts(tasks: map<string, Task>)
    ensures RunningTotal(tasks) == |set id | id in tasks && tasks[id].status.Running?|
  {
    assert Where(tasks, (t: Task) => IsRunning(t)) == set id | id in tasks && tasks[id].status.Running?;
  }

  /** A queued task whose provider exists and is below its cap. */
  predicate CanTake(tasks: map<string, Task>, profiles: Table, defaultCap: int, id: string) {
    && id in tasks && tasks[id].status.Queued? && tasks[id].profile in profiles
    && RunningOn(tasks, tasks[id].profile) < ProviderCap(profiles, tasks[id].profile, defaultCap)
  }

  /** An oldest one among them; the query leaves ties open. */
  predicate IsNext(tasks: map<string, Task>, profiles: Table, defaultCap: int, id: string) {
    && CanTake(tasks, profiles, defaultCap, id)
    && forall o :: o in tasks && CanTake(tasks, profiles, defaultCap, o) ==> tasks[id].createdAt <= tasks[o].createdAt
  }

  lemma {:induction false} OldestExists(tasks: map<string, Task>, ids: set<string>)
    requires ids != {} && ids <= tasks.Keys
    ensures exists id :: id in ids && forall o :: o in ids ==> tasks[id].createdAt <= tasks[o].createdAt
    decreases |ids|
  {
    var x :| x in ids;
    if ids == {x} {
      assert forall o :: o in ids ==> tasks[x].createdAt <= tasks[o].createdAt;
    } else {
      OldestExists(tasks, ids - {x});
      var y :| y in ids - {x} && forall o :: o in ids - {x} ==> tasks[y].createdAt <= tasks[o].createdAt;
      var best := if tasks[x].createdAt <= tasks[y].createdAt then x else y;
      assert forall o :: o in ids ==> o == x || o in ids - {x};
      assert best in ids && forall o :: o in ids ==> tasks[best].createdAt <= tasks[o].createdAt;
    }
  }

  /** Nothing can be taken exactly when as many tasks as its cap run on the provider of each queued task:
      the provider's own max_concurrent where positive, else the default. */
  lemma NoneCanTake(tasks: map<string, Task>, profiles: Table, defaultCap: int)
    ensures (forall id :: id in tasks ==> !CanTake(tasks, profiles, defaultCap, id)) <==>
      forall o :: o in tasks && tasks[o].status.Queued? && tasks[o].profile in profiles ==>
        var own := profiles[tasks[o].profile].maxConcurrent;
        RunningOn(tasks, tasks[o].profile) >= if own > 0 then own else defaultCap
  {
  }

  /** The query finds a task exactly when some queued task's provider has room by its own cap; what it
      finds is such a task, and none of the others is older. */
  lemma NextExists(tasks: map<string, Task>, profiles: Table, defaultCap: int)
    ensures (exists id :: IsNext(tasks, profiles, defaultCap, id)) <==>
      exists id :: id in tasks && tasks[id].status.Queued? && tasks[id].profile in profiles
        && var own := profiles[tasks[id].profile].maxConcurrent;
           RunningOn(tasks, tasks[id].profile) < (if own > 0 then own else defaultCap)
    ensures forall id :: IsNext(tasks, profiles, defaultCap, id) ==>
      && id in tasks && tasks[id].status.Queued? && tasks[id].profile in profiles
      && (var own := profiles[tasks[id].profile].maxConcurrent;
          RunningOn(tasks, tasks[id].profile) < (if own > 0 then own else defaultCap))
      && forall o :: o in tasks && tasks[o].status.Queued? && tasks[o].profile in profiles ==>
           var own := profiles[tasks[o].profile].maxConcurrent;
           RunningOn(tasks, tasks[o].profile) < (if own > 0 then own else defaultCap) ==>
             tasks[id].createdAt <= tasks[o].createdAt
  {
    var ids := set id | id in tasks && CanTake(tasks, profiles, defaultCap, id);
    if ids == {} {
      assert forall id :: id in tasks ==> id !in ids;
      assert forall id :: id in tasks ==> !CanTake(tasks, profiles, defaultCap, id);
    } else {
      OldestExists(tasks, ids);
      var id :| id in ids && forall o :: o in ids ==> tasks[id].createdAt <= tasks[o].createdAt;
      assert IsNext(tasks, profiles, defaultCap, id);
    }
  }
}
