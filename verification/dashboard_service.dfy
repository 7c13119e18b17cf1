/** The dashboard's figures, computed from the four replies fetched in
    parallel: user counters, subscription plans, countries and languages. */
module DashboardService {
  import opened Values
  import opened Http
  import opened Items
  import opened SubscriptionService

  /** The `stats` object of the user statistics reply; any counter may be missing. */
  datatype UserCounters = UserCounters(
    totalUsers: Option<int>,
    totalActiveUsers: Option<int>,
    totalInactiveUsers: Option<int>)

  datatype DashboardStats = DashboardStats(
    totalUsers: int,
    activeUsers: int,
    inactiveUsers: int,
    totalRevenue: int,
    activeSubscriptions: nat,
    totalCountries: nat,
    totalLanguages: nat)

  /** `sub.isActive` as a filter condition: only an explicit `true` counts. */
  predicate Active(p: Subscription) {
    IsTrue(p.isActive)
  }

  /** `subs.filter(sub => sub.isActive)`. */
  function ActiveOnly(subs: seq<Subscription>): (r: seq<Subscription>)
    ensures |r| <= |subs|
    ensures forall p :: p in r <==> p in subs && Active(p)
  {
    if |subs| == 0 then []
    else if Active(subs[0]) then [subs[0]] + ActiveOnly(subs[1..])
    else ActiveOnly(subs[1..])
  }

  /** `.reduce((sum, sub) => sum + (sub.price || 0), 0)`. */
  function PriceSum(subs: seq<Subscription>): int {
    if |subs| == 0 then 0 else IntOr(subs[0].price, 0) + PriceSum(subs[1..])
  }

  /** `getDashboardStats`: the reply envelopes are taken as delivered; a
      missing plan list counts as empty and a missing counter as 0. */
  function Stats(users: UserCounters, subscriptions: Envelope<seq<Subscription>>,
                 countries: seq<Item>, languages: seq<Item>): (r: DashboardStats)
    ensures r.totalUsers == IntOr(users.totalUsers, 0)
    ensures r.activeUsers == IntOr(users.totalActiveUsers, 0)
    ensures r.inactiveUsers == IntOr(users.totalInactiveUsers, 0)
    ensures r.totalCountries == |countries| && r.totalLanguages == |languages|
    ensures r.totalRevenue == Revenue(subscriptions.data.GetOr([]))
    ensures r.activeSubscriptions == |ActiveOnly(subscriptions.data.GetOr([]))|
    ensures r.activeSubscriptions <= |subscriptions.data.GetOr([])|
    ensures subscriptions.data.None? ==> r.totalRevenue == 0 && r.activeSubscriptions == 0
  {
    var subs := subscriptions.data.GetOr([]);
    DashboardStats(IntOr(users.totalUsers, 0), IntOr(users.totalActiveUsers, 0),
                   IntOr(users.totalInactiveUsers, 0), PriceSum(ActiveOnly(subs)),
                   |ActiveOnly(subs)|, |countries|, |languages|)
  }

  /** Filtering distributes over concatenation. */
  lemma {:induction false} ActiveOnlyAppend(a: seq<Subscription>, b: seq<Subscription>)
    ensures ActiveOnly(a + b) == ActiveOnly(a) + ActiveOnly(b)
  {
    if |a| > 0 {
      var head := if Active(a[0]) then [a[0]] else [];
      var tail := a[1..];
      assert a + b == [a[0]] + (tail + b);
      assert a == [a[0]] + tail;
      calc {
        ActiveOnly(a + b);
        { ActiveOnlyCons(a[0], tail + b); }
        head + ActiveOnly(tail + b);
        { ActiveOnlyAppend(tail, b); }
        head + (ActiveOnly(tail) + ActiveOnly(b));
        (head + ActiveOnly(tail)) + ActiveOnly(b);
        { ActiveOnlyCons(a[0], tail); }
        ActiveOnly(a) + ActiveOnly(b);
      }
    } else {
      assert a + b == b;
    }
  }

  /** The filter's step on a list with a given first plan. */
  lemma ActiveOnlyCons(p: Subscription, rest: seq<Subscription>)
    ensures ActiveOnly([p] + rest) == (if Active(p) then [p] else []) + ActiveOnly(rest)
  {
    assert ([p] + rest)[0] == p;
    assert ([p] + rest)[1..] == rest;
  }

  /** Summing distributes over concatenation. */
  lemma {:induction false} PriceSumAppend(a: seq<Subscription>, b: seq<Subscription>)
    ensures PriceSum(a + b) == PriceSum(a) + PriceSum(b)
  {
    if |a| > 0 {
      PriceSumAppend(a[1..], b);
      assert (a + b)[1..] == a[1..] + b;
    } else {
      assert a + b == b;
    }
  }

  /** The revenue figure: the prices of the active plans, summed. */
  function Revenue(subs: seq<Subscription>): (r: int)
    ensures |subs| == 0 ==> r == 0
    ensures |subs| > 0 ==>
      r == (if Active(subs[0]) then IntOr(subs[0].price, 0) else 0) + Revenue(subs[1..])
  {
    PriceSum(ActiveOnly(subs))
  }

  /** Revenue and active count of a joined list are the sums of the parts'. */
  lemma RevenueAdds(a: seq<Subscription>, b: seq<Subscription>)
    ensures Revenue(a + b) == Revenue(a) + Revenue(b)
    ensures |ActiveOnly(a + b)| == |ActiveOnly(a)| + |ActiveOnly(b)|
  {
    ActiveOnlyAppend(a, b);
    PriceSumAppend(ActiveOnly(a), ActiveOnly(b));
  }

  /** Adding or removing an inactive plan anywhere in the list changes
      neither the revenue nor the active count. */
  lemma InactivePlanChangesNothing(a: seq<Subscription>, p: Subscription, b: seq<Subscription>)
    requires !Active(p)
    ensures Revenue(a + [p] + b) == Revenue(a + b)
    ensures |ActiveOnly(a + [p] + b)| == |ActiveOnly(a + b)|
  {
    RevenueAdds(a + [p], b);
    RevenueAdds(a, [p]);
    RevenueAdds(a, b);
    assert ActiveOnly([p]) == [];
  }

  /** The revenue of a single plan is its price when active and 0 otherwise,
      a missing or zero price counting as 0. */
  lemma RevenueOfOne(p: Subscription)
    ensures Active(p) ==> Revenue([p]) == IntOr(p.price, 0)
    ensures !Active(p) ==> Revenue([p]) == 0
  {
    assert [p][1..] == [];
    assert ActiveOnly([p]) == if Active(p) then [p] else [];
    assert PriceSum([p]) == IntOr(p.price, 0) + PriceSum([]);
  }

  /** With no negative price the revenue is never negative, and never more
      than the sum over all plans. */
  lemma {:induction false} RevenueBounds(subs: seq<Subscription>)
    requires forall i :: 0 <= i < |subs| ==> IntOr(subs[i].price, 0) >= 0
    ensures 0 <= Revenue(subs) <= PriceSum(subs)
  {
    if |subs| > 0 {
      RevenueBounds(subs[1..]);
      assert subs == [subs[0]] + subs[1..];
      RevenueAdds([subs[0]], subs[1..]);
      RevenueOfOne(subs[0]);
      assert PriceSum(subs) == IntOr(subs[0].price, 0) + PriceSum(subs[1..]);
    }
  }
}
