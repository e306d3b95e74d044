/** The read-only queries over the order ledger: the reminder's lookup of the
    newest pending order and the operator's statistics. */
module Queries {
  import opened Wrappers
  import opened Model

  predicate IsPendingOf(o: Order, uid: int) {
    o.userId == uid && o.status == Pending
  }

  /** `... WHERE user_id = ? AND status = 'pending' ORDER BY timestamp DESC LIMIT 1`,
      with insertion order standing for the timestamp: the index of the
      newest pending order of `uid`, if there is one. */
  function LatestPending(os: seq<Order>, uid: int): (r: Option<nat>)
    ensures r.Some? ==> r.value < |os| && IsPendingOf(os[r.value], uid)
    ensures r.Some? ==> forall j :: r.value < j < |os| ==> !IsPendingOf(os[j], uid)
    ensures r.None? ==> forall j :: 0 <= j < |os| ==> !IsPendingOf(os[j], uid)
    decreases |os|
  {
    if os == [] then None
    else if IsPendingOf(os[|os| - 1], uid) then Some(|os| - 1)
    else LatestPending(os[..|os| - 1], uid)
  }

  /** The `reminder` job: the package of the newest pending order of a
      registered user, or nothing to send. */
  function ReminderFor(w: World, uid: int): (r: Option<string>)
    ensures r.Some? <==> uid in w.users && exists i :: 0 <= i < |w.orders| && IsPendingOf(w.orders[i], uid)
    ensures r.Some? ==>
              exists i :: && 0 <= i < |w.orders| && IsPendingOf(w.orders[i], uid)
                          && w.orders[i].package == r.value
                          && forall j :: i < j < |w.orders| ==> !IsPendingOf(w.orders[j], uid)
  {
    if uid !in w.users then None
    else match LatestPending(w.orders, uid)
      case None => None
      case Some(i) => Some(w.orders[i].package)
  }

  /** `COUNT(*) ... GROUP BY uc_amount`: how many orders name package `p`. */
  function CountOf(os: seq<Order>, p: string): (c: nat)
    ensures c <= |os|
    ensures (forall i :: 0 <= i < |os| ==> os[i].package == p) ==> c == |os|
    decreases |os|
  {
    if os == [] then 0
    else CountOf(os[..|os| - 1], p) + (if os[|os| - 1].package == p then 1 else 0)
  }

  /** A package that is ordered at least once occurs in the ledger. */
  lemma {:induction false} CountOfOccurs(os: seq<Order>, p: string)
    requires CountOf(os, p) > 0
    ensures exists i :: 0 <= i < |os| && os[i].package == p
    decreases |os|
  {
    if os[|os| - 1].package != p {
      CountOfOccurs(os[..|os| - 1], p);
      var i :| 0 <= i < |os| - 1 && os[..|os| - 1][i].package == p;
      assert os[i].package == p;
    }
  }

  /** `SUM(price)`: the revenue over the ledger, in kopecks. */
  function SumPrices(os: seq<Order>): (total: nat)
    ensures forall i :: 0 <= i < |os| ==> os[i].price <= total
    decreases |os|
  {
    if os == [] then 0 else SumPrices(os[..|os| - 1]) + os[|os| - 1].price
  }

  /** Revenue is additive over the ledger. */
  lemma {:induction false} SumPricesAppend(a: seq<Order>, b: seq<Order>)
    ensures SumPrices(a + b) == SumPrices(a) + SumPrices(b)
    decreases |b|
  {
    if b == [] {
      assert a + b == a;
    } else {
      var b' := b[..|b| - 1];
      assert (a + b)[..|a + b| - 1] == a + b';
      SumPricesAppend(a, b');
    }
  }

  /** Among the packages of `os`, one that `all` orders most often. */
  function MostFrequent(os: seq<Order>, all: seq<Order>): (r: string)
    requires |os| > 0
    ensures exists i :: 0 <= i < |os| && os[i].package == r
    ensures forall i :: 0 <= i < |os| ==> CountOf(all, os[i].package) <= CountOf(all, r)
    decreases |os|
  {
    if |os| == 1 then os[0].package
    else
      var best := MostFrequent(os[1..], all);
      if CountOf(all, os[0].package) >= CountOf(all, best) then os[0].package else best
  }

  /** The `admin_stats` figures. With no orders the popular-package row is
      missing and formatting it raises, so there is no report. */
  function AdminStats(os: seq<Order>): (r: Option<Stats>)
    ensures r.None? <==> os == []
    ensures r.Some? ==> r.value.count == |os| && r.value.total == SumPrices(os)
    ensures r.Some? ==> r.value.popularCount == CountOf(os, r.value.popular) >= 1
    ensures r.Some? ==> forall p :: CountOf(os, p) <= r.value.popularCount
  {
    if os == [] then None
    else
      var p := MostFrequent(os, os);
      assert CountOf(os, p) >= 1 by {
        var i :| 0 <= i < |os| && os[i].package == p;
        CountOfPositive(os, i);
      }
      forall q | CountOf(os, q) > 0 ensures CountOf(os, q) <= CountOf(os, p) {
        CountOfOccurs(os, q);
      }
      Some(Stats(|os|, SumPrices(os), p, CountOf(os, p)))
  }

  /** Every package in the ledger has a positive count. */
  lemma {:induction false} CountOfPositive(os: seq<Order>, i: nat)
    requires i < |os|
    ensures CountOf(os, os[i].package) >= 1
    decreases |os|
  {
    if i < |os| - 1 {
      CountOfPositive(os[..|os| - 1], i);
    }
  }
}
