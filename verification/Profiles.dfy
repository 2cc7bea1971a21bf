/** Provider selection: the ordering query, exclusion, and what a selection writes. */
module Profiles {
  import opened Clock
  import opened Text

  const QUERY_LIMIT := 50

  /** A row of `service_profiles`. */
  datatype Profile = Profile(
    bucket: string, priority: int, maxConcurrent: int, active: bool, hasKey: bool,
    selectionCount: int, successCount: int, failureCount: int,
    lastSelected: Option<int>, lastFailed: Option<int>, disabledUntil: Option<int>)

  type Table = map<string, Profile>

  /** The WHERE clause of the selection query. */
  predicate Eligible(p: Profile, buckets: seq<string>, now: int) {
    && p.bucket in buckets && p.active && p.hasKey
    && (p.disabledUntil.None? || p.disabledUntil.value <= now)
  }

  function EligibleIds(t: Table, buckets: seq<string>, now: int): set<string> {
    set id | id in t && Eligible(t[id], buckets, now)
  }

  /** array_position: the first place of a bucket in the candidate list. */
  function Position(buckets: seq<string>, bucket: string): nat {
    if buckets == [] || buckets[0] == bucket then 0 else 1 + Position(buckets[1..], bucket)
  }

  /** ASC NULLS FIRST, strictly */
  predicate SelectedEarlier(a: Option<int>, b: Option<int>) {
    b.Some? && (a.None? || a.value < b.value)
  }

  /** The ORDER BY clause: `i` comes no later than `j`. */
  predicate Before(t: Table, buckets: seq<string>, i: string, j: string)
    requires i in t && j in t
  {
    var p, q := t[i], t[j];
    var a, b := Position(buckets, p.bucket), Position(buckets, q.bucket);
    if a != b then a < b
    else if p.priority != q.priority then p.priority < q.priority
    else if p.lastSelected != q.lastSelected then SelectedEarlier(p.lastSelected, q.lastSelected)
    else if p.selectionCount != q.selectionCount then p.selectionCount < q.selectionCount
    else LexLeq(i, j)
  }

  lemma {:induction false} PositionIs(buckets: seq<string>, bucket: string, n: nat)
    requires n < |buckets| && buckets[n] == bucket && forall k :: 0 <= k < n ==> buckets[k] != bucket
    ensures Position(buckets, bucket) == n
  {
    if n > 0 {
      PositionIs(buckets[1..], bucket, n - 1);
    }
  }

  /** A row comes before another one by the place of its bucket in the list, then by the smaller
      priority, then by the longer time since its selection, then by fewer selections, then by id. */
  lemma BeforeComparesInTurn(t: Table, buckets: seq<string>, i: string, j: string, a: nat, b: nat)
    requires i in t && j in t
    requires a < |buckets| && buckets[a] == t[i].bucket && forall k :: 0 <= k < a ==> buckets[k] != t[i].bucket
    requires b < |buckets| && buckets[b] == t[j].bucket && forall k :: 0 <= k < b ==> buckets[k] != t[j].bucket
    ensures var p, q := t[i], t[j];
      Before(t, buckets, i, j) <==>
        || a < b
        || (a == b && p.priority < q.priority)
        || (a == b && p.priority == q.priority && q.lastSelected.Some?
            && (p.lastSelected.None? || p.lastSelected.value < q.lastSelected.value))
        || (a == b && p.priority == q.priority && p.lastSelected == q.lastSelected
            && p.selectionCount < q.selectionCount)
        || (a == b && p.priority == q.priority && p.lastSelected == q.lastSelected
            && p.selectionCount == q.selectionCount
            && (i <= j || exists k :: 0 <= k < |i| && k < |j| && i[..k] == j[..k] && i[k] < j[k]))
  {
    PositionIs(buckets, t[i].bucket, a);
    PositionIs(buckets, t[j].bucket, b);
    LexLeqMeans(i, j);
  }

  lemma BeforeIsTotalOrder(t: Table, buckets: seq<string>, i: string, j: string, k: string)
    requires i in t && j in t && k in t
    ensures Before(t, buckets, i, j) || Before(t, buckets, j, i)
    ensures Before(t, buckets, i, j) && Before(t, buckets, j, i) ==> i == j
    ensures Before(t, buckets, i, j) && Before(t, buckets, j, k) ==> Before(t, buckets, i, k)
  {
    LexTotal(i, j);
    if LexLeq(i, j) && LexLeq(j, i) {
      LexAntisymmetric(i, j);
    }
    if LexLeq(i, j) && LexLeq(j, k) {
      LexTransitive(i, j, k);
    }
  }

  predicate IsFirst(t: Table, buckets: seq<string>, ids: set<string>, id: string)
    requires ids <= t.Keys
  {
    id in ids && forall o :: o in ids ==> Before(t, buckets, id, o)
  }

  lemma {:induction false} HasFirst(t: Table, buckets: seq<string>, ids: set<string>)
    requires ids <= t.Keys && ids != {}
    ensures exists id :: IsFirst(t, buckets, ids, id)
    decreases |ids|
  {
    var x :| x in ids;
    BeforeIsTotalOrder(t, buckets, x, x, x);
    if ids == {x} {
      assert IsFirst(t, buckets, ids, x);
    } else {
      HasFirst(t, buckets, ids - {x});
      var y :| IsFirst(t, buckets, ids - {x}, y);
      BeforeIsTotalOrder(t, buckets, x, y, x);
      var best := if Before(t, buckets, x, y) then x else y;
      forall o | o in ids ensures Before(t, buckets, best, o) {
        BeforeIsTotalOrder(t, buckets, x, y, o);
      }
      assert IsFirst(t, buckets, ids, best);
    }
  }

  lemma FirstIsUnique(t: Table, buckets: seq<string>, ids: set<string>)
    requires ids <= t.Keys
    ensures forall a, b :: IsFirst(t, buckets, ids, a) && IsFirst(t, buckets, ids, b) ==> a == b
  {
    forall a, b | IsFirst(t, buckets, ids, a) && IsFirst(t, buckets, ids, b) ensures a == b {
      BeforeIsTotalOrder(t, buckets, a, b, a);
    }
  }

  /** The chosen rows in ORDER BY order. */
  function Ordered(t: Table, buckets: seq<string>, ids: set<string>): seq<string>
    requires ids <= t.Keys
    decreases |ids|
  {
    if ids == {} then []
    else
      HasFirst(t, buckets, ids);
      FirstIsUnique(t, buckets, ids);
      var id :| IsFirst(t, buckets, ids, id);
      [id] + Ordered(t, buckets, ids - {id})
  }

  /** `all` lists the given rows without repetition and in order. */
  ghost predicate Lists(t: Table, buckets: seq<string>, ids: set<string>, all: seq<string>)
    requires ids <= t.Keys
  {
    && (forall id :: id in all <==> id in ids)
    && (forall i, j :: 0 <= i < j < |all| ==> all[i] != all[j] && Before(t, buckets, all[i], all[j]))
  }

  lemma ListsMore(t: Table, buckets: seq<string>, ids: set<string>, id: string, rest: seq<string>)
    requires ids <= t.Keys && IsFirst(t, buckets, ids, id) && Lists(t, buckets, ids - {id}, rest)
    ensures Lists(t, buckets, ids, [id] + rest)
  {
    var all := [id] + rest;
    assert forall x :: x in all <==> x == id || x in rest;
    assert forall i :: 0 <= i < |all| ==> all[i] in all;
    forall i, j | 0 <= i < j < |all| ensures all[i] != all[j] && Before(t, buckets, all[i], all[j]) {
      assert all[j] == rest[j - 1] && rest[j - 1] in rest;
      if i > 0 {
        assert all[i] == rest[i - 1];
      }
    }
  }

  lemma {:induction false} OrderedIsSorted(t: Table, buckets: seq<string>, ids: set<string>)
    requires ids <= t.Keys
    ensures Lists(t, buckets, ids, Ordered(t, buckets, ids)) && |Ordered(t, buckets, ids)| == |ids|
    decreases |ids|
  {
    if ids != {} {
      HasFirst(t, buckets, ids);
      FirstIsUnique(t, buckets, ids);
      var id :| IsFirst(t, buckets, ids, id);
      OrderedIsSorted(t, buckets, ids - {id});
      ListsMore(t, buckets, ids, id, Ordered(t, buckets, ids - {id}));
    }
  }

  /** The rows of the selection query. */
  function Query(t: Table, buckets: seq<string>, now: int): seq<string> {
    var rows := Ordered(t, buckets, EligibleIds(t, buckets, now));
    if |rows| <= QUERY_LIMIT then rows else rows[..QUERY_LIMIT]
  }

  /** The first row that is not excluded. */
  function FirstAllowed(rows: seq<string>, exclude: seq<string>): Option<string> {
    if rows == [] then None
    else if rows[0] in exclude then FirstAllowed(rows[1..], exclude)
    else Some(rows[0])
  }

  /** selectServiceProfileFromBuckets, without its bookkeeping write */
  function Select(t: Table, buckets: seq<string>, exclude: seq<string>, now: int): Option<string> {
    FirstAllowed(Query(t, buckets, now), exclude)
  }

  /** The bookkeeping write of a selection. */
  function Selected(t: Table, id: string, now: int): Table {
    if id in t
    then t[id := t[id].(selectionCount := t[id].selectionCount + 1, lastSelected := Some(now))]
    else t
  }

  /** The provider a selection is meant to return: the first in order among those allowed. */
  predicate IsBest(t: Table, buckets: seq<string>, exclude: seq<string>, now: int, id: string) {
    && id in t && Eligible(t[id], buckets, now) && id !in exclude
    && forall o :: o in t && Eligible(t[o], buckets, now) && o !in exclude ==> Before(t, buckets, id, o)
  }

  lemma {:induction false} FirstAllowedAt(rows: seq<string>, exclude: seq<string>)
    ensures match FirstAllowed(rows, exclude)
      case None => forall i :: 0 <= i < |rows| ==> rows[i] in exclude
      case Some(id) => exists i :: 0 <= i < |rows| && rows[i] == id && id !in exclude
                                   && forall j :: 0 <= j < i ==> rows[j] in exclude
  {
    if rows == [] {
    } else if rows[0] in exclude {
      FirstAllowedAt(rows[1..], exclude);
      var r := FirstAllowed(rows[1..], exclude);
      assert forall j :: 1 <= j < |rows| ==> rows[j] == rows[1..][j - 1];
      if r.Some? {
        var i :| 0 <= i < |rows[1..]| && rows[1..][i] == r.value && forall j :: 0 <= j < i ==> rows[1..][j] in exclude;
        assert rows[i + 1] == r.value;
      }
    } else {
      assert rows[0] !in exclude;
    }
  }

  lemma {:induction false} DistinctFit(rows: seq<string>, exclude: seq<string>)
    requires forall i, j :: 0 <= i < j < |rows| ==> rows[i] != rows[j]
    requires forall i :: 0 <= i < |rows| ==> rows[i] in exclude
    ensures |rows| <= |exclude|
  {
    if rows != [] {
      var k :| 0 <= k < |exclude| && exclude[k] == rows[0];
      var fewer := exclude[..k] + exclude[k + 1..];
      forall i | 1 <= i < |rows| ensures rows[i] in fewer {
        var m :| 0 <= m < |exclude| && exclude[m] == rows[i];
        assert m != k;
        assert exclude[m] in fewer by {
          if m < k { assert fewer[m] == exclude[m]; } else { assert fewer[m - 1] == exclude[m]; }
        }
      }
      DistinctFit(rows[1..], fewer);
    }
  }

  lemma FirstIsBefore(t: Table, buckets: seq<string>, ids: set<string>, exclude: seq<string>,
                      all: seq<string>, i: nat, o: string)
    requires ids <= t.Keys && Lists(t, buckets, ids, all)
    requires i < |all| && o in ids && o !in exclude
    requires forall j :: 0 <= j < i ==> all[j] in exclude
    ensures Before(t, buckets, all[i], o)
  {
    var j :| 0 <= j < |all| && all[j] == o;
    assert i <= j;
    BeforeIsTotalOrder(t, buckets, o, o, o);
  }

  lemma FirstAllowedIsFirst(t: Table, buckets: seq<string>, ids: set<string>, exclude: seq<string>,
                            all: seq<string>, rows: seq<string>)
    requires ids <= t.Keys && Lists(t, buckets, ids, all) && rows <= all
    requires FirstAllowed(rows, exclude).Some?
    ensures var id := FirstAllowed(rows, exclude).value;
      id in ids && id !in exclude && forall o :: o in ids && o !in exclude ==> Before(t, buckets, id, o)
  {
    FirstAllowedAt(rows, exclude);
    var id := FirstAllowed(rows, exclude).value;
    var i :| 0 <= i < |rows| && rows[i] == id && forall j :: 0 <= j < i ==> rows[j] in exclude;
    assert all[i] in all;
    forall o | o in ids && o !in exclude ensures Before(t, buckets, id, o) {
      FirstIsBefore(t, buckets, ids, exclude, all, i, o);
    }
  }

  lemma SelectedIsBest(t: Table, buckets: seq<string>, exclude: seq<string>, now: int)
    requires Select(t, buckets, exclude, now).Some?
    ensures IsBest(t, buckets, exclude, now, Select(t, buckets, exclude, now).value)
  {
    var ids := EligibleIds(t, buckets, now);
    OrderedIsSorted(t, buckets, ids);
    FirstAllowedIsFirst(t, buckets, ids, exclude, Ordered(t, buckets, ids), Query(t, buckets, now));
  }

  lemma NothingSelected(t: Table, buckets: seq<string>, exclude: seq<string>, now: int)
    requires Select(t, buckets, exclude, now).None? && |exclude| < QUERY_LIMIT
    ensures forall o :: o in t && Eligible(t[o], buckets, now) ==> o in exclude
  {
    var all := Ordered(t, buckets, EligibleIds(t, buckets, now));
    var rows := Query(t, buckets, now);
    OrderedIsSorted(t, buckets, EligibleIds(t, buckets, now));
    FirstAllowedAt(rows, exclude);
    DistinctFit(rows, exclude);
    assert rows == all;
    forall o | o in t && Eligible(t[o], buckets, now) ensures o in exclude {
      assert o in all;
    }
  }

  /** With fewer than fifty exclusions the row limit never hides a provider: a selection returns
      the first in order of those that are active, have a key, are not cooling down, serve one of the
      buckets and are not excluded, and fails exactly when there is none. */
  lemma SelectReturnsBest(t: Table, buckets: seq<string>, exclude: seq<string>, now: int)
    requires |exclude| < 50
    ensures var r := Select(t, buckets, exclude, now);
      && (r.Some? ==>
            && r.value in t && t[r.value].active && t[r.value].hasKey && t[r.value].bucket in buckets
            && (t[r.value].disabledUntil.None? || t[r.value].disabledUntil.value <= now) && r.value !in exclude
            && forall o :: o in t && o !in exclude && t[o].active && t[o].hasKey && t[o].bucket in buckets
                           && (t[o].disabledUntil.None? || t[o].disabledUntil.value <= now) ==>
                 Before(t, buckets, r.value, o))
      && (r.None? <==>
            forall o :: o in t && o !in exclude ==>
              || !t[o].active || !t[o].hasKey || t[o].bucket !in buckets
              || (t[o].disabledUntil.Some? && t[o].disabledUntil.value > now))
  {
    if Select(t, buckets, exclude, now).Some? {
      SelectedIsBest(t, buckets, exclude, now);
    } else {
      NothingSelected(t, buckets, exclude, now);
    }
  }

  // ---- outcomes ----

  const COOLDOWN_FAILURES := 2
  const COOLDOWN := 5 * 60 * SECOND

  /** recordServiceProfileSuccess, on the row */
  function Succeeded(p: Profile): Profile {
    p.(successCount := p.successCount + 1, failureCount := 0, disabledUntil := None)
  }

  /** recordServiceProfileFailure, on the row: the new count comes from the caller's reading. */
  function FailedAt(p: Profile, reading: Profile, now: int): Profile {
    var failures := reading.failureCount + 1;
    p.(failureCount := failures, lastFailed := Some(now),
       disabledUntil := if failures >= COOLDOWN_FAILURES then Some(now + COOLDOWN) else None)
  }

  function RecordSuccess(t: Table, id: string): Table {
    if id in t then t[id := Succeeded(t[id])] else t
  }

  function RecordFailure(t: Table, id: string, reading: Profile, now: int): Table {
    if id in t then t[id := FailedAt(t[id], reading, now)] else t
  }
}
