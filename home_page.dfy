/** The task list page (frontend/src/pages/HomePage.jsx): the filter state, the query string
    fetchTasks builds from it, the client-side re-sort by priority rank, and Clear Filters. */
module HomePage {
  import opened Common
  import opened TaskModel
  import Tasks

  /** The four `useState` values that drive the listing. */
  datatype Filters = Filters(status: string, priority: string, sortBy: string, order: string)

  const InitialFilters: Filters := Filters("", "", "createdAt", "desc")

  /** The position of a query key in the order fetchTasks appends them. */
  function KeyPosition(key: string): nat
  {
    if key == "status" then 0 else if key == "priority" then 1 else if key == "sortBy" then 2 else 3
  }

  /** `if (value) params.append(key, value)`. */
  function Param(key: string, value: string): seq<(string, string)>
  {
    if value != "" then [(key, value)] else []
  }

  /** The entries of the URLSearchParams fetchTasks builds: one per non-empty value, in the
      order status, priority, sortBy, order. */
  function QueryParams(f: Filters): (ps: seq<(string, string)>)
    ensures forall i :: 0 <= i < |ps| ==> ps[i].1 != ""
    ensures forall i, j :: 0 <= i < j < |ps| ==> KeyPosition(ps[i].0) < KeyPosition(ps[j].0)
  {
    Param("status", f.status) + Param("priority", f.priority) + Param("sortBy", f.sortBy) + Param("order", f.order)
  }

  /** How the server reads one parameter: the first value under `key`, "" when there is none. */
  function Lookup(ps: seq<(string, string)>, key: string): string
  {
    if ps == [] then "" else if ps[0].0 == key then ps[0].1 else Lookup(ps[1..], key)
  }

  /** `req.query` as the tasks controller sees it. */
  function ServerQuery(ps: seq<(string, string)>): Tasks.ListQuery
  {
    Tasks.ListQuery(Lookup(ps, "status"), Lookup(ps, "priority"), Lookup(ps, "sortBy"), Lookup(ps, "order"))
  }

  lemma LookupParam(k: string, v: string, rest: seq<(string, string)>, key: string)
    ensures Lookup(Param(k, v) + rest, key) == if k == key && v != "" then v else Lookup(rest, key)
  {
    if v != "" {
      assert (Param(k, v) + rest)[1..] == rest;
    } else {
      assert Param(k, v) + rest == rest;
    }
  }

  /** The server reads back exactly the page's filter state: an omitted parameter stood for an
      empty value, and the server treats a missing one as empty too. */
  lemma {:induction false} ServerReadsFilters(f: Filters)
    ensures ServerQuery(QueryParams(f)) == Tasks.ListQuery(f.status, f.priority, f.sortBy, f.order)
  {
    var p4 := Param("order", f.order) + [];
    var p3 := Param("sortBy", f.sortBy) + p4;
    var p2 := Param("priority", f.priority) + p3;
    var p1 := Param("status", f.status) + p2;
    assert QueryParams(f) == p1;
    forall key | key == "status" || key == "priority" || key == "sortBy" || key == "order"
      ensures Lookup(p1, key) == if key == "status" then f.status else if key == "priority" then f.priority
                                 else if key == "sortBy" then f.sortBy else f.order
    {
      LookupParam("order", f.order, [], key);
      LookupParam("sortBy", f.sortBy, p4, key);
      LookupParam("priority", f.priority, p3, key);
      LookupParam("status", f.status, p2, key);
    }
  }

  /** After Clear Filters the server applies no status or priority constraint and sorts newest
      first, which is also what it does when no sort is given at all. */
  lemma ClearedFiltersAskForDefaultListing(caller: UserId)
    ensures var q := ServerQuery(QueryParams(InitialFilters));
            Tasks.BuildFilter(caller, q) == Tasks.Filter(caller, None, None)
            && Tasks.BuildSort(q) == Tasks.BuildSort(Tasks.ListQuery("", "", "", ""))
  {
    ServerReadsFilters(InitialFilters);
  }

  /** `priorityOrder[p] || 0` with priorityOrder = { low: 1, medium: 2, high: 3 }. */
  function Rank(priority: string): (r: nat)
    ensures r <= 3
    ensures r > 0 <==> priority in Priorities
  {
    if priority == "low" then 1 else if priority == "medium" then 2 else if priority == "high" then 3 else 0
  }

  /** The comparator passed to `data.sort`. */
  function Compare(order: string, a: TaskDoc, b: TaskDoc): int
  {
    var aVal, bVal := Rank(a.task.priority), Rank(b.task.priority);
    if order == "asc" then aVal - bVal else bVal - aVal
  }

  /** The sort weight under a direction: the rank ascending, the reversed rank descending. */
  function Weight(d: TaskDoc, ascending: bool): nat
  {
    if ascending then Rank(d.task.priority) else 3 - Rank(d.task.priority)
  }

  /** The comparator is the difference of weights, so it orders by weight. */
  lemma CompareIsWeightDifference(order: string, a: TaskDoc, b: TaskDoc)
    ensures Compare(order, a, b) == Weight(a, order == "asc") - Weight(b, order == "asc")
  {
  }

  predicate WeightSorted(s: seq<TaskDoc>, ascending: bool)
  {
    forall i, j :: 0 <= i < j < |s| ==> Weight(s[i], ascending) <= Weight(s[j], ascending)
  }

  /** `x` placed after every element of no greater weight: one step of a stable insertion sort. */
  function InsertByWeight(x: TaskDoc, s: seq<TaskDoc>, ascending: bool): seq<TaskDoc>
  {
    if s == [] || Weight(x, ascending) < Weight(s[0], ascending) then [x] + s
    else [s[0]] + InsertByWeight(x, s[1..], ascending)
  }

  lemma {:induction false} InsertByWeightPermutes(x: TaskDoc, s: seq<TaskDoc>, ascending: bool)
    ensures multiset(InsertByWeight(x, s, ascending)) == multiset(s) + multiset{x}
  {
    if s != [] && Weight(x, ascending) >= Weight(s[0], ascending) {
      InsertByWeightPermutes(x, s[1..], ascending);
      assert s == [s[0]] + s[1..];
    }
  }

  /** The order the page shows when sorting by priority: the fetched list stably sorted by weight. */
  function PrioritySorted(s: seq<TaskDoc>, ascending: bool): seq<TaskDoc>
  {
    if s == [] then []
    else InsertByWeight(s[|s| - 1], PrioritySorted(s[..|s| - 1], ascending), ascending)
  }

  /** The re-sort neither loses nor duplicates a task. */
  lemma {:induction false} PrioritySortedPermutes(s: seq<TaskDoc>, ascending: bool)
    ensures multiset(PrioritySorted(s, ascending)) == multiset(s)
  {
    if s != [] {
      PrioritySortedPermutes(s[..|s| - 1], ascending);
      InsertByWeightPermutes(s[|s| - 1], PrioritySorted(s[..|s| - 1], ascending), ascending);
      assert s == s[..|s| - 1] + [s[|s| - 1]];
    }
  }

  lemma {:induction false} InsertByWeightKeepsSorted(x: TaskDoc, s: seq<TaskDoc>, ascending: bool)
    requires WeightSorted(s, ascending)
    ensures WeightSorted(InsertByWeight(x, s, ascending), ascending)
  {
    if s != [] && Weight(x, ascending) >= Weight(s[0], ascending) {
      var rest := InsertByWeight(x, s[1..], ascending);
      InsertByWeightKeepsSorted(x, s[1..], ascending);
      assert forall j :: 0 <= j < |rest| ==> Weight(s[0], ascending) <= Weight(rest[j], ascending) by {
        InsertByWeightPermutes(x, s[1..], ascending);
        forall j | 0 <= j < |rest| ensures Weight(s[0], ascending) <= Weight(rest[j], ascending) {
          assert rest[j] in multiset(rest);
          assert rest[j] == x || rest[j] in s[1..];
        }
      }
      ConsSorted(s[0], rest, ascending);
    }
  }

  lemma ConsSorted(h: TaskDoc, r: seq<TaskDoc>, ascending: bool)
    requires WeightSorted(r, ascending)
    requires forall j :: 0 <= j < |r| ==> Weight(h, ascending) <= Weight(r[j], ascending)
    ensures WeightSorted([h] + r, ascending)
  {
    var c := [h] + r;
    forall i, j | 0 <= i < j < |c| ensures Weight(c[i], ascending) <= Weight(c[j], ascending) {
      assert c[j] == r[j - 1];
      if i > 0 {
        assert c[i] == r[i - 1];
      }
    }
  }

  lemma {:induction false} PrioritySortedIsSorted(s: seq<TaskDoc>, ascending: bool)
    ensures WeightSorted(PrioritySorted(s, ascending), ascending)
  {
    if s != [] {
      PrioritySortedIsSorted(s[..|s| - 1], ascending);
      InsertByWeightKeepsSorted(s[|s| - 1], PrioritySorted(s[..|s| - 1], ascending), ascending);
    }
  }

  /** Sorting by priority: ascending order gives nondecreasing ranks, any other order
      nonincreasing ranks, and the list is a permutation of the fetched one. */
  lemma PrioritySortedRanks(s: seq<TaskDoc>, order: string)
    ensures var r := PrioritySorted(s, order == "asc");
            && multiset(r) == multiset(s)
            && (order == "asc" ==> forall i, j :: 0 <= i < j < |r| ==> Rank(r[i].task.priority) <= Rank(r[j].task.priority))
            && (order != "asc" ==> forall i, j :: 0 <= i < j < |r| ==> Rank(r[i].task.priority) >= Rank(r[j].task.priority))
  {
    PrioritySortedIsSorted(s, order == "asc");
    PrioritySortedPermutes(s, order == "asc");
  }

  /** The ranks the page gives the three priorities. */
  lemma RankOfPriorities()
    ensures Rank("low") == 1 && Rank("medium") == 2 && Rank("high") == 3
  {
  }

  /** Sorting by priority by name: ascending order never puts a "high" task before a "medium"
      or "low" one, nor a "medium" task before a "low" one; any other order never puts a "low"
      task before a "medium" or "high" one, nor a "medium" task before a "high" one. */
  lemma PrioritySortedOrdersPriorities(s: seq<TaskDoc>, order: string)
    ensures var r := PrioritySorted(s, order == "asc");
            forall i, j :: 0 <= i < j < |r| ==>
              if order == "asc" then
                !(r[i].task.priority == "high" && r[j].task.priority in {"low", "medium"})
                && !(r[i].task.priority == "medium" && r[j].task.priority == "low")
              else
                !(r[i].task.priority == "low" && r[j].task.priority in {"medium", "high"})
                && !(r[i].task.priority == "medium" && r[j].task.priority == "high")
  {
    PrioritySortedRanks(s, order);
    RankOfPriorities();
  }

  /** The elements of `s` with weight `w`, in their order in `s`. */
  function Bucket(s: seq<TaskDoc>, ascending: bool, w: nat): seq<TaskDoc>
  {
    if s == [] then []
    else (if Weight(s[0], ascending) == w then [s[0]] else []) + Bucket(s[1..], ascending, w)
  }

  lemma {:induction false} BucketAppend(s: seq<TaskDoc>, x: TaskDoc, ascending: bool, w: nat)
    ensures Bucket(s + [x], ascending, w) == Bucket(s, ascending, w) + (if Weight(x, ascending) == w then [x] else [])
  {
    if s != [] {
      assert (s + [x])[1..] == s[1..] + [x];
      BucketAppend(s[1..], x, ascending, w);
    }
  }

  lemma {:induction false} BucketOfHeavier(s: seq<TaskDoc>, ascending: bool, w: nat)
    requires forall i :: 0 <= i < |s| ==> w < Weight(s[i], ascending)
    ensures Bucket(s, ascending, w) == []
  {
    if s != [] {
      BucketOfHeavier(s[1..], ascending, w);
    }
  }

  /** Bucket of a list with one element put in front. */
  lemma BucketCons(x: TaskDoc, r: seq<TaskDoc>, ascending: bool, w: nat)
    ensures Bucket([x] + r, ascending, w) == (if Weight(x, ascending) == w then [x] else []) + Bucket(r, ascending, w)
  {
    assert ([x] + r)[1..] == r;
  }

  lemma {:induction false} BucketInsert(x: TaskDoc, r: seq<TaskDoc>, ascending: bool, w: nat)
    requires WeightSorted(r, ascending)
    ensures Bucket(InsertByWeight(x, r, ascending), ascending, w)
         == Bucket(r, ascending, w) + (if Weight(x, ascending) == w then [x] else [])
  {
    if r == [] {
    } else if Weight(x, ascending) < Weight(r[0], ascending) {
      assert Weight(x, ascending) == w ==> Bucket(r, ascending, w) == [] by {
        BucketOfHeavier(r, ascending, Weight(x, ascending));
      }
      assert InsertByWeight(x, r, ascending) == [x] + r;
      BucketCons(x, r, ascending, w);
    } else {
      var rest := InsertByWeight(x, r[1..], ascending);
      assert InsertByWeight(x, r, ascending) == [r[0]] + rest;
      assert Bucket(rest, ascending, w) == Bucket(r[1..], ascending, w) + (if Weight(x, ascending) == w then [x] else []) by {
        BucketInsert(x, r[1..], ascending, w);
      }
      BucketCons(r[0], rest, ascending, w);
    }
  }

  /** The client's re-sort is stable: the tasks of each weight class (each rank) appear in the
      order they were fetched. */
  lemma {:induction false} PrioritySortedIsStable(s: seq<TaskDoc>, ascending: bool, w: nat)
    ensures Bucket(PrioritySorted(s, ascending), ascending, w) == Bucket(s, ascending, w)
  {
    if s != [] {
      var init, x := s[..|s| - 1], s[|s| - 1];
      var tail := if Weight(x, ascending) == w then [x] else [];
      assert Bucket(PrioritySorted(s, ascending), ascending, w) == Bucket(PrioritySorted(init, ascending), ascending, w) + tail by {
        PrioritySortedIsSorted(init, ascending);
        BucketInsert(x, PrioritySorted(init, ascending), ascending, w);
      }
      assert Bucket(s, ascending, w) == Bucket(init, ascending, w) + tail by {
        assert s == init + [x];
        BucketAppend(init, x, ascending, w);
      }
      PrioritySortedIsStable(init, ascending, w);
    }
  }

  lemma {:induction false} InsertBetween(x: TaskDoc, p: seq<TaskDoc>, q: seq<TaskDoc>, ascending: bool)
    requires forall i :: 0 <= i < |p| ==> Weight(p[i], ascending) <= Weight(x, ascending)
    requires q == [] || Weight(x, ascending) < Weight(q[0], ascending)
    ensures InsertByWeight(x, p + q, ascending) == p + [x] + q
  {
    if p != [] {
      assert (p + q)[0] == p[0] && (p + q)[1..] == p[1..] + q;
      InsertBetween(x, p[1..], q, ascending);
    }
  }

  /** In a sorted list, everything before a position whose predecessor is no heavier than `x`
      is no heavier than `x`. */
  lemma SortedBelow(s: seq<TaskDoc>, j: nat, x: TaskDoc, ascending: bool)
    requires WeightSorted(s, ascending) && j <= |s|
    requires j > 0 ==> Weight(s[j - 1], ascending) <= Weight(x, ascending)
    ensures forall k :: 0 <= k < j ==> Weight(s[k], ascending) <= Weight(x, ascending)
  {
  }

  /** Where the inner loop stops is where InsertByWeight puts `x`: after every element of no
      greater weight, before the first heavier one. */
  lemma InsertAt(x: TaskDoc, s: seq<TaskDoc>, j: nat, ascending: bool)
    requires j <= |s|
    requires forall k :: 0 <= k < j ==> Weight(s[k], ascending) <= Weight(x, ascending)
    requires forall k :: j <= k < |s| ==> Weight(x, ascending) < Weight(s[k], ascending)
    ensures InsertByWeight(x, s, ascending) == s[..j] + [x] + s[j..]
  {
    var p, q := s[..j], s[j..];
    assert forall k :: 0 <= k < |p| ==> p[k] == s[k];
    assert q == [] || q[0] == s[j];
    InsertBetween(x, p, q, ascending);
    assert p + q == s;
  }

  /** Shifts the elements of the sorted prefix a[..i] heavier than `x` one place to the right,
      from the back, and returns the gap left where `x` belongs. */
  method ShiftHeavier(a: array<TaskDoc>, i: nat, x: TaskDoc, ascending: bool, ghost prefix: seq<TaskDoc>)
      returns (j: nat)
    requires i < a.Length && prefix == a[..i]
    modifies a
    ensures j <= i
    ensures forall k :: 0 <= k < j ==> a[k] == prefix[k]
    ensures forall k :: j < k <= i ==> a[k] == prefix[k - 1]
    ensures forall k :: j <= k < i ==> Weight(x, ascending) < Weight(prefix[k], ascending)
    ensures j > 0 ==> Weight(prefix[j - 1], ascending) <= Weight(x, ascending)
    ensures forall k :: i < k < a.Length ==> a[k] == old(a[k])
  {
    j := i;
    while j > 0 && Weight(a[j - 1], ascending) > Weight(x, ascending)
      invariant 0 <= j <= i
      invariant forall k :: 0 <= k < j ==> a[k] == prefix[k]
      invariant forall k :: j < k <= i ==> a[k] == prefix[k - 1]
      invariant forall k :: j <= k < i ==> Weight(x, ascending) < Weight(prefix[k], ascending)
      invariant forall k :: i < k < a.Length ==> a[k] == old(a[k])
      decreases j
    {
      a[j] := a[j - 1];
      j := j - 1;
    }
  }

  /** Moves a[i] into place within the sorted prefix a[..i] (the sort's inner loop). */
  method InsertInPlace(a: array<TaskDoc>, i: nat, ascending: bool)
    requires i < a.Length
    requires WeightSorted(a[..i], ascending)
    modifies a
    ensures a[..i + 1] == InsertByWeight(old(a[i]), old(a[..i]), ascending)
    ensures forall k :: i < k < a.Length ==> a[k] == old(a[k])
  {
    ghost var prefix := a[..i];
    var x := a[i];
    var j := ShiftHeavier(a, i, x, ascending, prefix);
    a[j] := x;
    SortedBelow(prefix, j, x, ascending);
    InsertAt(x, prefix, j, ascending);
    assert a[..i + 1] == prefix[..j] + [x] + prefix[j..] by {
      forall k | 0 <= k <= i ensures a[k] == (prefix[..j] + [x] + prefix[j..])[k] {
        if k > j {
          assert (prefix[..j] + [x] + prefix[j..])[k] == prefix[k - 1];
        }
      }
    }
  }

  /** `data.sort(comparator)` for the priority comparator, in place. */
  method SortByPriority(a: array<TaskDoc>, ascending: bool)
    modifies a
    ensures a[..] == PrioritySorted(old(a[..]), ascending)
  {
    ghost var fetched := a[..];
    var i := 0;
    while i < a.Length
      invariant 0 <= i <= a.Length
      invariant a[..i] == PrioritySorted(fetched[..i], ascending)
      invariant forall k :: i <= k < a.Length ==> a[k] == fetched[k]
    {
      PrioritySortedIsSorted(fetched[..i], ascending);
      InsertInPlace(a, i, ascending);
      assert fetched[..i + 1][..i] == fetched[..i];
      i := i + 1;
    }
    assert fetched[..a.Length] == fetched;
  }

  /** fetchTasks once the response `data` has arrived: the query it sent, and `data` re-sorted in
      place when, and only when, the list is sorted by priority. */
  method FetchTasks(f: Filters, data: array<TaskDoc>) returns (query: seq<(string, string)>)
    modifies data
    ensures query == QueryParams(f)
    ensures f.sortBy == "priority" ==> data[..] == PrioritySorted(old(data[..]), f.order == "asc")
    ensures f.sortBy != "priority" ==> data[..] == old(data[..])
  {
    query := QueryParams(f);
    if f.sortBy == "priority" {
      SortByPriority(data, f.order == "asc");
    }
  }

  /** The page's filter state. */
  class FilterState {
    var statusFilter: string
    var priorityFilter: string
    var sortBy: string
    var order: string

    function Current(): Filters
      reads this
    {
      Filters(statusFilter, priorityFilter, sortBy, order)
    }

    constructor ()
      ensures Current() == InitialFilters
    {
      statusFilter, priorityFilter, sortBy, order := "", "", "createdAt", "desc";
    }

    /** The Clear Filters button. */
    method ClearFilters()
      modifies this
      ensures Current() == InitialFilters
    {
      statusFilter := "";
      priorityFilter := "";
      sortBy := "createdAt";
      order := "desc";
    }
  }
}
