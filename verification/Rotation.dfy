/** Least-recently-selected rotation over serial selections. */
module Rotation {
  import opened Text
  import opened Profiles

  /** `id` is tied for the front of the order on bucket and priority. */
  predicate Leads(t: Table, buckets: seq<string>, now: int, id: string) {
    && id in t && Eligible(t[id], buckets, now)
    && forall o :: o in t && Eligible(t[o], buckets, now) ==>
         var a, b := Position(buckets, t[id].bucket), Position(buckets, t[o].bucket);
         a < b || (a == b && t[id].priority <= t[o].priority)
  }

  /** The providers that share the front of the order. */
  function Group(t: Table, buckets: seq<string>, now: int): set<string> {
    set id | id in t && Leads(t, buckets, now, id)
  }

  /** One selection after another, each writing its bookkeeping before the next one reads. */
  ghost predicate IsRun(tables: seq<Table>, picks: seq<string>, times: seq<int>, buckets: seq<string>) {
    && |tables| == |picks| + 1 && |times| == |picks|
    && (forall i :: 0 <= i < |picks| ==> Select(tables[i], buckets, [], times[i]) == Some(picks[i]))
    && (forall i :: 0 <= i < |picks| ==> tables[i + 1] == Selected(tables[i], picks[i], times[i]))
    && (forall i, j :: 0 <= i < j < |times| ==> times[i] < times[j])
  }

  /** Nobody becomes eligible or stops being so during the run, and every earlier selection of the
      group lies before the first one of the run. */
  ghost predicate Undisturbed(tables: seq<Table>, times: seq<int>, buckets: seq<string>)
    requires |tables| == |times| + 1
  {
    && (forall i :: 0 <= i < |times| ==>
          EligibleIds(tables[0], buckets, times[i]) == EligibleIds(tables[0], buckets, times[0]))
    && (|times| > 0 ==> forall id :: id in Group(tables[0], buckets, times[0]) ==>
          tables[0][id].lastSelected.None? || tables[0][id].lastSelected.value < times[0])
  }

  /** Selections leave everything but their own bookkeeping alone. */
  ghost predicate SameSettings(t: Table, u: Table) {
    && t.Keys == u.Keys
    && forall id :: id in t ==>
         u[id].(selectionCount := t[id].selectionCount, lastSelected := t[id].lastSelected) == t[id]
  }

  lemma {:induction false} RunKeepsSettings(tables: seq<Table>, picks: seq<string>, times: seq<int>,
                                            buckets: seq<string>, i: nat)
    requires IsRun(tables, picks, times, buckets) && i <= |picks|
    ensures SameSettings(tables[0], tables[i])
  {
    if i > 0 {
      RunKeepsSettings(tables, picks, times, buckets, i - 1);
      assert tables[i - 1 + 1] == Selected(tables[i - 1], picks[i - 1], times[i - 1]);
    }
  }

  lemma GroupIsStable(t: Table, u: Table, buckets: seq<string>, now: int, later: int)
    requires SameSettings(t, u) && EligibleIds(t, buckets, later) == EligibleIds(t, buckets, now)
    ensures EligibleIds(u, buckets, later) == EligibleIds(t, buckets, now)
    ensures Group(u, buckets, later) == Group(t, buckets, now)
  {
    forall id | id in t
      ensures Eligible(u[id], buckets, later) <==> Eligible(t[id], buckets, now)
    {
      assert id in EligibleIds(t, buckets, later) <==> id in EligibleIds(t, buckets, now);
    }
  }

  /** Every selection picks a member of the group, the one selected longest ago. */
  lemma PicksFromGroup(tables: seq<Table>, picks: seq<string>, times: seq<int>, buckets: seq<string>, i: nat)
    requires IsRun(tables, picks, times, buckets) && Undisturbed(tables, times, buckets) && i < |picks|
    ensures tables[i].Keys == tables[0].Keys && picks[i] in Group(tables[0], buckets, times[0])
    ensures forall q :: q in Group(tables[0], buckets, times[0]) ==>
      q in tables[i] && !SelectedEarlier(tables[i][q].lastSelected, tables[i][picks[i]].lastSelected)
  {
    RunKeepsSettings(tables, picks, times, buckets, i);
    GroupIsStable(tables[0], tables[i], buckets, times[0], times[i]);
    SelectedIsBest(tables[i], buckets, [], times[i]);
    var t := tables[i];
    forall o | o in t && Eligible(t[o], buckets, times[i]) ensures Before(t, buckets, picks[i], o) {
      assert o !in [];
    }
    assert Leads(t, buckets, times[i], picks[i]);
    forall q | q in Group(t, buckets, times[i])
      ensures !SelectedEarlier(t[q].lastSelected, t[picks[i]].lastSelected)
    {
      assert Leads(t, buckets, times[i], q);
      assert Before(t, buckets, picks[i], q);
    }
  }

  /** Up to a selection, the group carries only earlier timestamps. */
  lemma {:induction false} TimestampsAreEarlier(tables: seq<Table>, picks: seq<string>, times: seq<int>,
                                                buckets: seq<string>, i: nat, q: string)
    requires IsRun(tables, picks, times, buckets) && Undisturbed(tables, times, buckets) && i < |picks|
    requires q in Group(tables[0], buckets, times[0])
    ensures q in tables[i] && (tables[i][q].lastSelected.Some? ==> tables[i][q].lastSelected.value < times[i])
  {
    if i > 0 {
      TimestampsAreEarlier(tables, picks, times, buckets, i - 1, q);
      assert tables[i - 1 + 1] == Selected(tables[i - 1], picks[i - 1], times[i - 1]);
    }
  }

  /** A member that is not picked in a stretch keeps its timestamp over the stretch. */
  lemma {:induction false} UnpickedKeepsTimestamp(tables: seq<Table>, picks: seq<string>, times: seq<int>,
                                                  buckets: seq<string>, i: nat, j: nat, q: string)
    requires IsRun(tables, picks, times, buckets) && i <= j <= |picks| && q in tables[i]
    requires forall m :: i <= m < j ==> picks[m] != q
    ensures q in tables[j] && tables[j][q].lastSelected == tables[i][q].lastSelected
  {
    if i < j {
      UnpickedKeepsTimestamp(tables, picks, times, buckets, i, j - 1, q);
      assert tables[j - 1 + 1] == Selected(tables[j - 1], picks[j - 1], times[j - 1]);
    }
  }

  /** Once picked, a timestamp never falls back behind the pick. */
  lemma {:induction false} PickedStaysRecent(tables: seq<Table>, picks: seq<string>, times: seq<int>,
                                             buckets: seq<string>, i: nat, j: nat)
    requires IsRun(tables, picks, times, buckets) && i < j <= |picks| && picks[i] in tables[i]
    ensures picks[i] in tables[j] && tables[j][picks[i]].lastSelected.Some?
    ensures tables[j][picks[i]].lastSelected.value >= times[i]
  {
    if i + 1 < j {
      PickedStaysRecent(tables, picks, times, buckets, i, j - 1);
      assert tables[j - 1 + 1] == Selected(tables[j - 1], picks[j - 1], times[j - 1]);
    }
  }

  /** Between two selections of one provider every member of the group is selected. */
  lemma AllBetweenRepeats(tables: seq<Table>, picks: seq<string>, times: seq<int>, buckets: seq<string>, i: nat,
                          j: nat, q: string)
    requires IsRun(tables, picks, times, buckets) && Undisturbed(tables, times, buckets)
    requires i < j < |picks| && picks[i] == picks[j]
    requires q in Group(tables[0], buckets, times[0])
    ensures q in picks[i..j]
  {
    PicksFromGroup(tables, picks, times, buckets, i);
    PicksFromGroup(tables, picks, times, buckets, j);
    PickedStaysRecent(tables, picks, times, buckets, i, j);
    TimestampsAreEarlier(tables, picks, times, buckets, i, q);
    if q !in picks[i..j] {
      forall m | i <= m < j ensures picks[m] != q {
        assert picks[m] == picks[i..j][m - i];
      }
      UnpickedKeepsTimestamp(tables, picks, times, buckets, i, j, q);
      assert false;
    }
  }

  lemma {:induction false} ElementsFit(s: seq<string>, within: set<string>)
    requires forall x :: x in within ==> x in s
    ensures |within| <= |s|
  {
    if s != [] {
      ElementsFit(s[1..], within - {s[0]});
    } else {
      assert within == {};
    }
  }

  lemma {:induction false} DistinctElements(s: seq<string>)
    requires forall i, j :: 0 <= i < j < |s| ==> s[i] != s[j]
    ensures |Elements(s)| == |s|
  {
    if s != [] {
      DistinctElements(s[1..]);
      assert Elements(s) == Elements(s[1..]) + {s[0]};
    }
  }

  lemma {:induction false} SameSize(a: set<string>, b: set<string>)
    requires a <= b && |a| == |b|
    ensures a == b
  {
    assert b == a + (b - a);
  }

  lemma WindowIsDistinct(tables: seq<Table>, picks: seq<string>, times: seq<int>, buckets: seq<string>, i: nat, j: nat)
    requires IsRun(tables, picks, times, buckets) && Undisturbed(tables, times, buckets)
    requires |picks| > 0 && i < j < |picks| && j - i < |Group(tables[0], buckets, times[0])|
    ensures picks[i] != picks[j]
  {
    var group := Group(tables[0], buckets, times[0]);
    if picks[i] == picks[j] {
      forall q | q in group ensures q in picks[i..j] {
        AllBetweenRepeats(tables, picks, times, buckets, i, j, q);
      }
      ElementsFit(picks[i..j], group);
      assert false;
    }
  }

  lemma DistinctCover(window: seq<string>, group: set<string>)
    requires |window| == |group|
    requires forall i, j :: 0 <= i < j < |window| ==> window[i] != window[j]
    requires forall i :: 0 <= i < |window| ==> window[i] in group
    ensures Elements(window) == group
  {
    DistinctElements(window);
    SameSize(Elements(window), group);
  }

  lemma StretchIsDistinct(tables: seq<Table>, picks: seq<string>, times: seq<int>, buckets: seq<string>,
                          start: nat, end: nat)
    requires IsRun(tables, picks, times, buckets) && Undisturbed(tables, times, buckets)
    requires start < end <= |picks| && end - start <= |Group(tables[0], buckets, times[0])|
    ensures forall i, j :: 0 <= i < j < end - start ==> picks[start..end][i] != picks[start..end][j]
  {
    forall i, j | 0 <= i < j < end - start ensures picks[start..end][i] != picks[start..end][j] {
      WindowIsDistinct(tables, picks, times, buckets, start + i, start + j);
    }
  }

  lemma StretchIsInGroup(tables: seq<Table>, picks: seq<string>, times: seq<int>, buckets: seq<string>,
                         start: nat, end: nat)
    requires IsRun(tables, picks, times, buckets) && Undisturbed(tables, times, buckets)
    requires start < end <= |picks|
    ensures forall i :: 0 <= i < end - start ==> picks[start..end][i] in Group(tables[0], buckets, times[0])
  {
    forall i | 0 <= i < end - start ensures picks[start..end][i] in Group(tables[0], buckets, times[0]) {
      PicksFromGroup(tables, picks, times, buckets, start + i);
    }
  }

  /** Any k consecutive selections over a group of k pick every member exactly once. */
  lemma RotationIsFair(tables: seq<Table>, picks: seq<string>, times: seq<int>, buckets: seq<string>,
                       start: nat, end: nat)
    requires IsRun(tables, picks, times, buckets) && Undisturbed(tables, times, buckets)
    requires start < end <= |picks| && end - start == |Group(tables[0], buckets, times[0])|
    ensures forall i, j :: 0 <= i < j < end - start ==> picks[start..end][i] != picks[start..end][j]
    ensures Elements(picks[start..end]) == Group(tables[0], buckets, times[0])
  {
    StretchIsDistinct(tables, picks, times, buckets, start, end);
    StretchIsInGroup(tables, picks, times, buckets, start, end);
    DistinctCover(picks[start..end], Group(tables[0], buckets, times[0]));
  }
}
