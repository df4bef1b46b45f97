/** The dashboard's three report lists: the user's own reports, the
    scheduled ones, and the recently viewed ones, ordered by the position
    each id last takes in the list of viewed ids. */
module Dashboard {
  import opened Models
  import opened Seqs

  const RecentLimit: nat := 10

  /** A report the user may open: public, or the user's own. */
  predicate Accessible(user: User, r: ReportConfig)
  {
    r.visibility == Public || r.ownerId == user.id
  }

  /** The predicate `r => r.ownerId === id`. */
  function OwnedBy(id: string): ReportConfig -> bool
  {
    (x: ReportConfig) => x.ownerId == id
  }

  /** The predicate `r => r.schedule.enabled`. */
  function IsScheduled(): ReportConfig -> bool
  {
    (x: ReportConfig) => x.schedule.enabled
  }

  /** The user's own reports, in the stored order. */
  function MyReports(user: Option<User>, reports: seq<ReportConfig>): (r: seq<ReportConfig>)
    ensures user.None? ==> r == []
    ensures user.Some? ==> forall x :: x in r <==> x in reports && x.ownerId == user.value.id
    ensures user.Some? ==> KeptInOrder(r, reports, OwnedBy(user.value.id))
  {
    if user.None? then []
    else
      var p := OwnedBy(user.value.id);
      forall x
        ensures x in Filter(reports, p) <==> x in reports && x.ownerId == user.value.id
      {
        FilterMember(reports, p, x);
      }
      FilterInOrder(reports, p);
      Filter(reports, p)
  }

  /** The reports with a switched-on schedule, in the stored order. */
  function ScheduledReports(reports: seq<ReportConfig>): (r: seq<ReportConfig>)
    ensures forall x :: x in r <==> x in reports && x.schedule.enabled
    ensures KeptInOrder(r, reports, IsScheduled())
  {
    var p := IsScheduled();
    forall x
      ensures x in Filter(reports, p) <==> x in reports && x.schedule.enabled
    {
      FilterMember(reports, p, x);
    }
    FilterInOrder(reports, p);
    Filter(reports, p)
  }

  // ---------------------------------------------------------------------
  // Viewing order

  /** The map from each viewed id to its position in `ids`; a later
      position overwrites an earlier one. */
  function OrderMap(ids: seq<string>): map<string, nat>
  {
    if |ids| == 0 then map[]
    else OrderMap(ids[..|ids| - 1])[ids[|ids| - 1] := |ids| - 1]
  }

  /** The map holds exactly the viewed ids, each at its last position. */
  lemma {:induction false} OrderMapIsLastPosition(ids: seq<string>)
    ensures forall id :: id in OrderMap(ids) <==> id in ids
    ensures forall id :: id in OrderMap(ids) ==>
      && OrderMap(ids)[id] < |ids| && ids[OrderMap(ids)[id]] == id
      && forall j :: OrderMap(ids)[id] < j < |ids| ==> ids[j] != id
  {
    if |ids| > 0 {
      var prefix := ids[..|ids| - 1];
      OrderMapIsLastPosition(prefix);
      assert ids == prefix + [ids[|ids| - 1]];
    }
  }

  /** `reportOrderMap`, filled by walking the viewed ids in order. */
  method BuildOrderMap(ids: seq<string>) returns (order: map<string, nat>)
    ensures order == OrderMap(ids)
  {
    order := map[];
    var i := 0;
    while i < |ids|
      invariant 0 <= i <= |ids|
      invariant order == OrderMap(ids[..i])
    {
      assert ids[..i + 1][..i] == ids[..i];
      order := order[ids[i] := i];
      i := i + 1;
    }
    assert ids[..i] == ids;
  }

  /** The sort key of a report: its position in the map, or `missing` (the
      source's Infinity) when it has none. */
  function SortKey(order: map<string, nat>, missing: nat): ReportConfig -> nat
  {
    (x: ReportConfig) => if x.id in order then order[x.id] else missing
  }

  function KeyIs(key: ReportConfig -> nat, k: nat): ReportConfig -> bool
  {
    (x: ReportConfig) => key(x) == k
  }

  function KeyBelow(key: ReportConfig -> nat, k: nat): ReportConfig -> bool
  {
    (x: ReportConfig) => key(x) < k
  }

  /** A stable sort by a key below `n`: the reports with key 0 in their
      order, then those with key 1, and so on. */
  function Bucketed(s: seq<ReportConfig>, key: ReportConfig -> nat, n: nat): seq<ReportConfig>
  {
    if n == 0 then [] else Bucketed(s, key, n - 1) + Filter(s, KeyIs(key, n - 1))
  }

  lemma {:induction false} FilterSplitsBelow(s: seq<ReportConfig>, key: ReportConfig -> nat, k: nat)
    ensures multiset(Filter(s, KeyBelow(key, k + 1))) ==
            multiset(Filter(s, KeyBelow(key, k))) + multiset(Filter(s, KeyIs(key, k)))
  {
    if |s| > 0 {
      FilterSplitsBelow(s[1..], key, k);
      var below := Filter(s[1..], KeyBelow(key, k));
      var at := Filter(s[1..], KeyIs(key, k));
      if key(s[0]) < k {
        assert Filter(s, KeyBelow(key, k + 1)) == [s[0]] + Filter(s[1..], KeyBelow(key, k + 1));
        assert Filter(s, KeyBelow(key, k)) == [s[0]] + below;
        assert Filter(s, KeyIs(key, k)) == at;
      } else if key(s[0]) == k {
        assert Filter(s, KeyBelow(key, k + 1)) == [s[0]] + Filter(s[1..], KeyBelow(key, k + 1));
        assert Filter(s, KeyBelow(key, k)) == below;
        assert Filter(s, KeyIs(key, k)) == [s[0]] + at;
      } else {
        assert Filter(s, KeyBelow(key, k + 1)) == Filter(s[1..], KeyBelow(key, k + 1));
        assert Filter(s, KeyBelow(key, k)) == below;
        assert Filter(s, KeyIs(key, k)) == at;
      }
    }
  }

  /** No key is below zero. */
  lemma {:induction false} NothingBelowZero(s: seq<ReportConfig>, key: ReportConfig -> nat)
    ensures Filter(s, KeyBelow(key, 0)) == []
  {
    if |s| > 0 {
      NothingBelowZero(s[1..], key);
    }
  }

  lemma BucketedStep(s: seq<ReportConfig>, key: ReportConfig -> nat, n: nat)
    requires n > 0
    ensures multiset(Bucketed(s, key, n)) == multiset(Bucketed(s, key, n - 1)) + multiset(Filter(s, KeyIs(key, n - 1)))
  {
  }

  /** The buckets below `n` hold exactly the reports whose key is below `n`. */
  lemma {:induction false} BucketedContents(s: seq<ReportConfig>, key: ReportConfig -> nat, n: nat)
    ensures multiset(Bucketed(s, key, n)) == multiset(Filter(s, KeyBelow(key, n)))
  {
    if n == 0 {
      NothingBelowZero(s, key);
    } else {
      var m := n - 1;
      BucketedContents(s, key, m);
      FilterSplitsBelow(s, key, m);
      assert m + 1 == n;
      BucketedStep(s, key, n);
    }
  }

  /** Every bucketed report comes from the input. */
  lemma {:induction false} BucketedMember(s: seq<ReportConfig>, key: ReportConfig -> nat, n: nat, x: ReportConfig)
    ensures x in Bucketed(s, key, n) ==> x in s
  {
    if n > 0 {
      BucketedMember(s, key, n - 1, x);
      FilterMember(s, KeyIs(key, n - 1), x);
    }
  }

  /** The buckets are in key order. */
  lemma {:induction false} BucketedSorted(s: seq<ReportConfig>, key: ReportConfig -> nat, n: nat)
    ensures forall i :: 0 <= i < |Bucketed(s, key, n)| ==> key(Bucketed(s, key, n)[i]) < n
    ensures forall i, j :: 0 <= i < j < |Bucketed(s, key, n)| ==>
      key(Bucketed(s, key, n)[i]) <= key(Bucketed(s, key, n)[j])
  {
    if n > 0 {
      BucketedSorted(s, key, n - 1);
      var front := Bucketed(s, key, n - 1);
      var last := Filter(s, KeyIs(key, n - 1));
      assert Bucketed(s, key, n) == front + last;
      assert forall i :: 0 <= i < |last| ==> key(last[i]) == n - 1 by {
        forall i | 0 <= i < |last|
          ensures key(last[i]) == n - 1
        {
          assert KeyIs(key, n - 1)(last[i]);
        }
      }
    }
  }

  /** Picking key `k` out of the bucket for another key leaves nothing. */
  lemma OtherBucketEmpty(s: seq<ReportConfig>, key: ReportConfig -> nat, m: nat, k: nat)
    requires k != m
    ensures Filter(Filter(s, KeyIs(key, m)), KeyIs(key, k)) == []
  {
    var b := Filter(s, KeyIs(key, m));
    forall i | 0 <= i < |b|
      ensures !KeyIs(key, k)(b[i])
    {
      assert KeyIs(key, m)(b[i]);
    }
    FilterNone(b, KeyIs(key, k));
  }

  /** The buckets below `n` hold no report with key `n`. */
  lemma FrontHasNoTop(s: seq<ReportConfig>, key: ReportConfig -> nat, n: nat)
    ensures Filter(Bucketed(s, key, n), KeyIs(key, n)) == []
  {
    var front := Bucketed(s, key, n);
    BucketedSorted(s, key, n);
    forall i | 0 <= i < |front|
      ensures !KeyIs(key, n)(front[i])
    {
      assert key(front[i]) < n;
    }
    FilterNone(front, KeyIs(key, n));
  }

  /** Adding the bucket for key `m` brings in every report with that key,
      in input order. */
  lemma StableTop(s: seq<ReportConfig>, key: ReportConfig -> nat, m: nat)
    ensures Filter(Bucketed(s, key, m + 1), KeyIs(key, m)) == Filter(s, KeyIs(key, m))
  {
    var p := KeyIs(key, m);
    var front := Bucketed(s, key, m);
    var last := Filter(s, p);
    assert Bucketed(s, key, m + 1) == front + last;
    FilterAppend(front, last, p);
    FrontHasNoTop(s, key, m);
    assert forall i :: 0 <= i < |last| ==> p(last[i]);
    assert Filter(last, p) == last;
  }

  /** Adding the bucket for key `m` leaves the reports with a smaller key
      where they were. */
  lemma StableStep(s: seq<ReportConfig>, key: ReportConfig -> nat, m: nat, k: nat)
    requires k < m
    requires Filter(Bucketed(s, key, m), KeyIs(key, k)) == Filter(s, KeyIs(key, k))
    ensures Filter(Bucketed(s, key, m + 1), KeyIs(key, k)) == Filter(s, KeyIs(key, k))
  {
    var p := KeyIs(key, k);
    var front := Bucketed(s, key, m);
    var last := Filter(s, KeyIs(key, m));
    assert Bucketed(s, key, m + 1) == front + last;
    FilterAppend(front, last, p);
    OtherBucketEmpty(s, key, m, k);
    assert Filter(last, p) == [];
  }

  /** The sort is stable: the reports with any one key below `n` appear in
      the buckets in the order they have in the input. */
  lemma {:induction false} BucketedStable(s: seq<ReportConfig>, key: ReportConfig -> nat, n: nat, k: nat)
    requires k < n
    ensures Filter(Bucketed(s, key, n), KeyIs(key, k)) == Filter(s, KeyIs(key, k))
  {
    var m := n - 1;
    assert n == m + 1;
    if k == m {
      StableTop(s, key, m);
    } else {
      BucketedStable(s, key, m, k);
      StableStep(s, key, m, k);
    }
  }

  /** When every key is below `n`, the buckets are a permutation of the
      input. */
  lemma BucketedPermutes(s: seq<ReportConfig>, key: ReportConfig -> nat, n: nat)
    requires forall i :: 0 <= i < |s| ==> key(s[i]) < n
    ensures multiset(Bucketed(s, key, n)) == multiset(s)
  {
    BucketedContents(s, key, n);
    assert forall i :: 0 <= i < |s| ==> KeyBelow(key, n)(s[i]);
  }

  function Take(s: seq<ReportConfig>, n: nat): (r: seq<ReportConfig>)
    ensures |r| == if |s| <= n then |s| else n
    ensures forall i :: 0 <= i < |r| ==> r[i] == s[i]
  {
    if |s| <= n then s else s[..n]
  }

  // ---------------------------------------------------------------------
  // Recent reports

  /** The accessible reports that were viewed. */
  function RecentCandidates(user: User, reports: seq<ReportConfig>, ids: seq<string>): seq<ReportConfig>
  {
    Filter(reports, (x: ReportConfig) => Accessible(user, x) && x.id in ids)
  }

  /** The dashboard's recent reports: nothing without a user; the first ten
      accessible reports when nothing was viewed; otherwise the viewed
      accessible reports ordered by the last position of their id in `ids`,
      at most ten. */
  function RecentReports(user: Option<User>, reports: seq<ReportConfig>, ids: seq<string>): (r: seq<ReportConfig>)
    ensures |r| <= RecentLimit
    ensures user.None? ==> r == []
  {
    if user.None? then []
    else if |ids| == 0 then
      Take(Filter(reports, (x: ReportConfig) => Accessible(user.value, x)), RecentLimit)
    else
      Take(Bucketed(RecentCandidates(user.value, reports, ids), SortKey(OrderMap(ids), |ids|), |ids| + 1), RecentLimit)
  }

  /** Every recent report is accessible to the user and, when something
      was viewed, was itself viewed. */
  lemma RecentReportsAccessible(user: User, reports: seq<ReportConfig>, ids: seq<string>)
    ensures var r := RecentReports(Some(user), reports, ids);
      forall i :: 0 <= i < |r| ==> Accessible(user, r[i]) && (|ids| > 0 ==> r[i].id in ids)
  {
    var r := RecentReports(Some(user), reports, ids);
    if |ids| > 0 {
      var p := (x: ReportConfig) => Accessible(user, x) && x.id in ids;
      var cand := Filter(reports, p);
      var sorted := Bucketed(cand, SortKey(OrderMap(ids), |ids|), |ids| + 1);
      forall i | 0 <= i < |r|
        ensures Accessible(user, r[i]) && r[i].id in ids
      {
        assert r[i] == sorted[i];
        BucketedMember(cand, SortKey(OrderMap(ids), |ids|), |ids| + 1, r[i]);
        FilterMember(reports, p, r[i]);
      }
    }
  }

  /** With viewed ids, the recent reports are in order of their last
      viewing position. */
  lemma RecentReportsOrdered(user: User, reports: seq<ReportConfig>, ids: seq<string>)
    requires |ids| > 0
    ensures var r := RecentReports(Some(user), reports, ids);
      && (forall i :: 0 <= i < |r| ==> r[i].id in OrderMap(ids))
      && (forall i, j :: 0 <= i < j < |r| ==> OrderMap(ids)[r[i].id] <= OrderMap(ids)[r[j].id])
  {
    var cand := RecentCandidates(user, reports, ids);
    var key := SortKey(OrderMap(ids), |ids|);
    var r := RecentReports(Some(user), reports, ids);
    RecentReportsAccessible(user, reports, ids);
    OrderMapIsLastPosition(ids);
    BucketedSorted(cand, key, |ids| + 1);
    assert forall i :: 0 <= i < |r| ==> key(r[i]) == OrderMap(ids)[r[i].id];
  }

  /** A prefix holds no more of any report than the whole list. */
  lemma TakeSubMultiset(s: seq<ReportConfig>, n: nat)
    ensures multiset(Take(s, n)) <= multiset(s)
  {
    if |s| > n {
      assert s == s[..n] + s[n..];
    }
  }

  /** Every sort key is at most the number of viewed ids. */
  lemma SortKeyBound(ids: seq<string>, s: seq<ReportConfig>)
    ensures forall i :: 0 <= i < |s| ==> SortKey(OrderMap(ids), |ids|)(s[i]) < |ids| + 1
  {
    OrderMapIsLastPosition(ids);
  }

  /** With viewed ids, the recent reports are the first ten of a reordering
      of all the viewed accessible reports: all of them when there are at
      most ten, exactly ten otherwise, and always the first entries of the
      stable sort of `Bucketed`. */
  lemma RecentReportsPermutes(user: User, reports: seq<ReportConfig>, ids: seq<string>)
    requires |ids| > 0
    ensures var r := RecentReports(Some(user), reports, ids);
      && |r| == (if |RecentCandidates(user, reports, ids)| <= RecentLimit then |RecentCandidates(user, reports, ids)| else RecentLimit)
      && (forall i :: 0 <= i < |r| ==>
            r[i] == Bucketed(RecentCandidates(user, reports, ids), SortKey(OrderMap(ids), |ids|), |ids| + 1)[i])
      && multiset(r) <= multiset(RecentCandidates(user, reports, ids))
      && (|RecentCandidates(user, reports, ids)| <= RecentLimit ==>
            multiset(r) == multiset(RecentCandidates(user, reports, ids)))
  {
    var cand := RecentCandidates(user, reports, ids);
    var key := SortKey(OrderMap(ids), |ids|);
    var sorted := Bucketed(cand, key, |ids| + 1);
    SortKeyBound(ids, cand);
    BucketedPermutes(cand, key, |ids| + 1);
    TakeSubMultiset(sorted, RecentLimit);
    assert |sorted| == |cand|;
  }

  /** With nothing viewed, the recent reports are the first ten accessible
      reports in their stored order. */
  lemma RecentReportsFallback(user: User, reports: seq<ReportConfig>)
    ensures var r := RecentReports(Some(user), reports, []);
      var accessible := Filter(reports, (x: ReportConfig) => Accessible(user, x));
      && (forall i :: 0 <= i < |r| ==> r[i] == accessible[i])
      && |r| == (if |accessible| <= RecentLimit then |accessible| else RecentLimit)
  {
  }

  /** The dashboard getter: the order map is built by a loop. */
  method ComputeRecentReports(user: Option<User>, reports: seq<ReportConfig>, ids: seq<string>)
    returns (recent: seq<ReportConfig>)
    ensures recent == RecentReports(user, reports, ids)
  {
    if user.None? {
      return [];
    }
    if |ids| == 0 {
      return Take(Filter(reports, (x: ReportConfig) => Accessible(user.value, x)), RecentLimit);
    }
    var order := BuildOrderMap(ids);
    var candidates := RecentCandidates(user.value, reports, ids);
    recent := Take(Bucketed(candidates, SortKey(order, |ids|), |ids| + 1), RecentLimit);
  }
}
