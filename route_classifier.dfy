/** Route classification of PathDrawer: which route of a directions result is
    the shortest (least summed leg distance) and which is the fastest (least
    summed leg duration), the first one winning ties. */
module RouteClassification {
  import opened Outcomes

  /** One leg of a route: its distance in metres and its duration in seconds. */
  datatype Leg = Leg(distance: int, duration: int)

  /** A route of a directions result: its legs, in order. */
  datatype Route = Route(legs: seq<Leg>)

  /** Sum of the leg distances, accumulated from the first leg to the last. */
  function TotalDistance(legs: seq<Leg>): (total: int)
  {
    if |legs| == 0 then 0 else TotalDistance(legs[..|legs| - 1]) + legs[|legs| - 1].distance
  }

  /** Sum of the leg durations, accumulated from the first leg to the last. */
  function TotalDuration(legs: seq<Leg>): (total: int)
  {
    if |legs| == 0 then 0 else TotalDuration(legs[..|legs| - 1]) + legs[|legs| - 1].duration
  }

  /** The total distance of every route, index by index. */
  function Distances(routes: seq<Route>): (ds: seq<int>)
    ensures |ds| == |routes|
    ensures forall i :: 0 <= i < |routes| ==> ds[i] == TotalDistance(routes[i].legs)
  {
    seq(|routes|, i requires 0 <= i < |routes| => TotalDistance(routes[i].legs))
  }

  /** The total duration of every route, index by index. */
  function Durations(routes: seq<Route>): (us: seq<int>)
    ensures |us| == |routes|
    ensures forall i :: 0 <= i < |routes| ==> us[i] == TotalDuration(routes[i].legs)
  {
    seq(|routes|, i requires 0 <= i < |routes| => TotalDuration(routes[i].legs))
  }

  /** `k` is the first position holding the minimum of `xs`: nothing is
      smaller than `xs[k]`, and everything before `k` is strictly larger. */
  ghost predicate IsFirstMinimum(xs: seq<int>, k: nat)
  {
    && k < |xs|
    && (forall j :: 0 <= j < |xs| ==> xs[k] <= xs[j])
    && (forall j :: 0 <= j < k ==> xs[k] < xs[j])
  }

  /** At most one position is the first minimum. */
  lemma FirstMinimumUnique(xs: seq<int>, k1: nat, k2: nat)
    requires IsFirstMinimum(xs, k1) && IsFirstMinimum(xs, k2)
    ensures k1 == k2
  {
    assert xs[k1] <= xs[k2] && xs[k2] <= xs[k1];
  }

  /** The running minimum of a left-to-right scan that replaces its candidate
      only on a strictly smaller value. */
  function FirstArgMin(xs: seq<int>): (k: nat)
    requires |xs| > 0
    ensures IsFirstMinimum(xs, k)
  {
    if |xs| == 1 then 0
    else
      var k := FirstArgMin(xs[..|xs| - 1]);
      if xs[k] > xs[|xs| - 1] then |xs| - 1 else k
  }

  /** One step of the scan: extending the prefix by `xs[i]` moves the
      candidate to `i` exactly when `xs[i]` is strictly smaller. */
  lemma FirstArgMinStep(xs: seq<int>, i: nat)
    requires 0 < i < |xs|
    ensures FirstArgMin(xs[..i + 1]) == if xs[FirstArgMin(xs[..i])] > xs[i] then i else FirstArgMin(xs[..i])
  {
    assert xs[..i + 1][..i] == xs[..i];
  }

  /** The indices of the shortest and of the fastest route. */
  datatype Classification = Classification(shortest: nat, fastest: nat)

  /** Classification of a non-empty route set. */
  function Classify(routes: seq<Route>): (c: Classification)
    requires |routes| >= 1
    ensures c.shortest < |routes| && c.fastest < |routes|
    ensures IsFirstMinimum(Distances(routes), c.shortest)
    ensures IsFirstMinimum(Durations(routes), c.fastest)
  {
    Classification(FirstArgMin(Distances(routes)), FirstArgMin(Durations(routes)))
  }

  /** The classifier loop of PathDrawer: for every route sum its legs, then
      keep the running minimum distance and duration with their indices.  An
      empty route set leaves both indices undefined (`None`). */
  method FindShortestAndFastestRoute(routes: seq<Route>) returns (shortestRouteIndex: Option<nat>, fastestRouteIndex: Option<nat>)
    ensures |routes| == 0 ==> shortestRouteIndex == None && fastestRouteIndex == None
    ensures |routes| >= 1 ==>
      && shortestRouteIndex == Some(Classify(routes).shortest)
      && fastestRouteIndex == Some(Classify(routes).fastest)
  {
    ghost var ds, us := Distances(routes), Durations(routes);
    var shortest: Option<int>, fastest: Option<int> := None, None;
    shortestRouteIndex, fastestRouteIndex := None, None;
    var i := 0;
    while i < |routes|
      invariant 0 <= i <= |routes|
      invariant i == 0 ==> shortestRouteIndex == None && fastestRouteIndex == None && fastest == None
      invariant i > 0 ==> shortestRouteIndex.Some? && shortestRouteIndex.value == FirstArgMin(ds[..i]) < i
      invariant i > 0 ==> shortest == Some(ds[shortestRouteIndex.value])
      invariant i > 0 ==> fastestRouteIndex.Some? && fastestRouteIndex.value == FirstArgMin(us[..i]) < i
      invariant i > 0 ==> fastest == Some(us[fastestRouteIndex.value])
    {
      var legs := routes[i].legs;
      var currentDist, currentDur := 0, 0;
      var j := 0;
      while j < |legs|
        invariant 0 <= j <= |legs|
        invariant currentDist == TotalDistance(legs[..j])
        invariant currentDur == TotalDuration(legs[..j])
      {
        assert legs[..j + 1][..j] == legs[..j];
        currentDist := currentDist + legs[j].distance;
        currentDur := currentDur + legs[j].duration;
        j := j + 1;
      }
      assert legs[..j] == legs;
      assert currentDist == ds[i] && currentDur == us[i];
      if i > 0 {
        FirstArgMinStep(ds, i);
        FirstArgMinStep(us, i);
      }

      if shortestRouteIndex == None || shortest.value > currentDist {
        shortest := Some(currentDist);
        shortestRouteIndex := Some(i);
      }
      if fastest == None || fastest.value > currentDur {
        fastest := Some(currentDur);
        fastestRouteIndex := Some(i);
      }
      i := i + 1;
    }
    assert ds[..i] == ds && us[..i] == us;
  }

  /** Distances [100, 100, 50] and durations [10, 5, 5]: route 2 is the
      shortest and route 1 the fastest; distances [30, 30, 50] keep route 0. */
  lemma ClassificationExamples()
    ensures
      var rs := [Route([Leg(100, 10)]), Route([Leg(100, 5)]), Route([Leg(50, 5)])];
      Classify(rs) == Classification(2, 1)
    ensures
      var rs := [Route([Leg(30, 1)]), Route([Leg(30, 1)]), Route([Leg(50, 1)])];
      Classify(rs) == Classification(0, 0)
  {
    var rs := [Route([Leg(100, 10)]), Route([Leg(100, 5)]), Route([Leg(50, 5)])];
    assert Distances(rs) == [100, 100, 50] && Durations(rs) == [10, 5, 5];
    var qs := [Route([Leg(30, 1)]), Route([Leg(30, 1)]), Route([Leg(50, 1)])];
    assert Distances(qs) == [30, 30, 50] && Durations(qs) == [1, 1, 1];
    FirstMinimumUnique(Distances(rs), Classify(rs).shortest, 2);
    FirstMinimumUnique(Durations(rs), Classify(rs).fastest, 1);
    FirstMinimumUnique(Distances(qs), Classify(qs).shortest, 0);
    FirstMinimumUnique(Durations(qs), Classify(qs).fastest, 0);
  }
}
