/** The array operations the application leans on (`find`, `findIndex`,
    `filter`, dropping one index), as functions on sequences with the
    contracts the JavaScript built-ins give. */
module Seqs {
  import opened Models

  /** `findIndex`: the first position whose element satisfies `p`. */
  function FindIndex<T>(s: seq<T>, p: T -> bool): (r: Option<nat>)
    ensures r.Some? ==> r.value < |s| && p(s[r.value])
    ensures r.Some? ==> forall j :: 0 <= j < r.value ==> !p(s[j])
    ensures r.None? <==> forall j :: 0 <= j < |s| ==> !p(s[j])
  {
    if |s| == 0 then None
    else if p(s[0]) then Some(0)
    else match FindIndex(s[1..], p)
      case None => None
      case Some(k) => Some(k + 1)
  }

  /** `find`: the first element satisfying `p`, if any. */
  function Find<T>(s: seq<T>, p: T -> bool): (r: Option<T>)
    ensures r.None? <==> forall j :: 0 <= j < |s| ==> !p(s[j])
    ensures r.Some? ==> exists k :: 0 <= k < |s| && s[k] == r.value && p(s[k]) && forall j :: 0 <= j < k ==> !p(s[j])
  {
    match FindIndex(s, p)
    case None => None
    case Some(k) => Some(s[k])
  }

  /** Every position shifted one to the right. */
  function Shift(t: seq<nat>): (u: seq<nat>)
    ensures |u| == |t| && forall k :: 0 <= k < |t| ==> u[k] == t[k] + 1
  {
    seq(|t|, k requires 0 <= k < |t| => t[k] + 1)
  }

  /** The positions of `s` whose elements satisfy `p`, in increasing order. */
  function Selection<T>(s: seq<T>, p: T -> bool): seq<nat>
  {
    if |s| == 0 then [] else (if p(s[0]) then [0] else []) + Shift(Selection(s[1..], p))
  }

  /** Every selected position holds a satisfying element. */
  lemma {:induction false} SelectionSound<T>(s: seq<T>, p: T -> bool)
    ensures forall k :: 0 <= k < |Selection(s, p)| ==> Selection(s, p)[k] < |s| && p(s[Selection(s, p)[k]])
  {
    if |s| > 0 {
      var rest := Selection(s[1..], p);
      SelectionSound(s[1..], p);
      var head: seq<nat> := if p(s[0]) then [0] else [];
      var r := head + Shift(rest);
      assert Selection(s, p) == r;
      forall k | |head| <= k < |r|
        ensures r[k] < |s| && p(s[r[k]])
      {
        assert r[k] == rest[k - |head|] + 1;
        assert s[1..][rest[k - |head|]] == s[r[k]];
      }
    }
  }

  /** Selected positions strictly increase. */
  lemma {:induction false} SelectionIncreasing<T>(s: seq<T>, p: T -> bool)
    ensures forall a, b :: 0 <= a < b < |Selection(s, p)| ==> Selection(s, p)[a] < Selection(s, p)[b]
  {
    if |s| > 0 {
      var rest := Selection(s[1..], p);
      SelectionIncreasing(s[1..], p);
      var head: seq<nat> := if p(s[0]) then [0] else [];
      var r := head + Shift(rest);
      assert Selection(s, p) == r;
      forall a, b | 0 <= a < b < |r|
        ensures r[a] < r[b]
      {
        assert r[b] == rest[b - |head|] + 1;
        if a >= |head| {
          assert r[a] == rest[a - |head|] + 1;
        }
      }
    }
  }

  /** Every position of a satisfying element is selected. */
  lemma {:induction false} SelectionComplete<T>(s: seq<T>, p: T -> bool)
    ensures forall j :: 0 <= j < |s| && p(s[j]) ==> j in Selection(s, p)
  {
    if |s| > 0 {
      var rest := Selection(s[1..], p);
      SelectionComplete(s[1..], p);
      var head: seq<nat> := if p(s[0]) then [0] else [];
      var r := head + Shift(rest);
      assert Selection(s, p) == r;
      forall j | 0 <= j < |s| && p(s[j])
        ensures j in r
      {
        if j > 0 {
          assert s[1..][j - 1] == s[j];
          var k :| 0 <= k < |rest| && rest[k] == j - 1;
          assert r[|head| + k] == j;
        } else {
          assert r[0] == 0;
        }
      }
    }
  }

  /** `r` holds exactly the elements of `s` that satisfy `p`, in the order
      they have in `s`. */
  ghost predicate KeptInOrder<T>(r: seq<T>, s: seq<T>, p: T -> bool)
  {
    var sel := Selection(s, p);
    |r| == |sel| && forall k :: 0 <= k < |r| ==> sel[k] < |s| && r[k] == s[sel[k]]
  }

  /** `filter`: the elements satisfying `p`, in their original order. */
  function Filter<T>(s: seq<T>, p: T -> bool): (r: seq<T>)
    ensures |r| <= |s|
    ensures forall j :: 0 <= j < |r| ==> p(r[j])
    ensures multiset(r) <= multiset(s)
    ensures (forall j :: 0 <= j < |s| ==> p(s[j])) ==> r == s
  {
    if |s| == 0 then []
    else
      assert s == [s[0]] + s[1..];
      if p(s[0]) then [s[0]] + Filter(s[1..], p) else Filter(s[1..], p)
  }

  /** `filter` keeps exactly the satisfying elements, in their order. */
  lemma {:induction false} FilterInOrder<T>(s: seq<T>, p: T -> bool)
    ensures KeptInOrder(Filter(s, p), s, p)
  {
    if |s| > 0 {
      FilterInOrder(s[1..], p);
      KeptInOrderCons(s[0], s[1..], Filter(s[1..], p), p);
      assert s == [s[0]] + s[1..];
    }
  }

  /** Keeping in order extends to one more element at the front. */
  lemma KeptInOrderCons<T>(x: T, s: seq<T>, r: seq<T>, p: T -> bool)
    requires KeptInOrder(r, s, p)
    ensures KeptInOrder(if p(x) then [x] + r else r, [x] + s, p)
  {
    var t := [x] + s;
    assert t[1..] == s;
    var sel := Selection(s, p);
    var shifted := Shift(sel);
    var head: seq<nat> := if p(x) then [0] else [];
    var out := if p(x) then [x] + r else r;
    assert Selection(t, p) == head + shifted;
    forall k | 0 <= k < |out|
      ensures (head + shifted)[k] < |t| && out[k] == t[(head + shifted)[k]]
    {
      if !p(x) {
        assert head + shifted == shifted;
        assert t[sel[k] + 1] == s[sel[k]];
      } else if k > 0 {
        var m := k - 1;
        assert out[k] == r[m];
        assert (head + shifted)[k] == shifted[m];
        assert t[sel[m] + 1] == s[sel[m]];
      }
    }
  }

  lemma {:induction false} FilterAppend<T>(a: seq<T>, b: seq<T>, p: T -> bool)
    ensures Filter(a + b, p) == Filter(a, p) + Filter(b, p)
  {
    if |a| == 0 {
      assert a + b == b;
    } else {
      assert (a + b)[1..] == a[1..] + b;
      FilterAppend(a[1..], b, p);
    }
  }

  lemma SplitAt<T>(s: seq<T>, i: nat)
    requires i < |s|
    ensures s == s[..i] + ([s[i]] + s[i + 1..])
  {
    assert s[..i] + ([s[i]] + s[i + 1..]) == s[..i] + s[i..];
  }

  /** Nothing is kept when no element satisfies `p`. */
  lemma {:induction false} FilterNone<T>(s: seq<T>, p: T -> bool)
    requires forall j :: 0 <= j < |s| ==> !p(s[j])
    ensures Filter(s, p) == []
  {
    if |s| > 0 {
      FilterNone(s[1..], p);
    }
  }

  /** An element is kept by `filter` exactly when it occurs and satisfies `p`. */
  lemma {:induction false} FilterMember<T>(s: seq<T>, p: T -> bool, x: T)
    ensures x in Filter(s, p) <==> x in s && p(x)
  {
    if |s| > 0 {
      FilterMember(s[1..], p, x);
      assert s == [s[0]] + s[1..];
    }
  }

  /** The result of `s.filter((_, idx) => idx !== i)`. */
  function RemoveAt<T>(s: seq<T>, i: int): (r: seq<T>)
    ensures 0 <= i < |s| ==> |r| == |s| - 1
    ensures 0 <= i < |s| ==> forall j :: 0 <= j < i ==> r[j] == s[j]
    ensures 0 <= i < |s| ==> forall j :: i <= j < |r| ==> r[j] == s[j + 1]
    ensures !(0 <= i < |s|) ==> r == s
  {
    if 0 <= i < |s| then s[..i] + s[i + 1..] else s
  }

  /** `a || b` on strings: the first operand unless it is empty. */
  function OrElse(a: string, b: string): string
  {
    if a != "" then a else b
  }
}
