/** PathDrawer: a pool of reusable direction renderers.  Each call of
    DrawPaths binds the first |routes| renderers to the routes of a directions
    result, grows the pool when it is too small and prunes it, under the
    current prune level, when it is too large; the shortest and fastest routes
    (or the single best one) get their own polyline style. */
module PathDrawing {
  import opened Outcomes
  import opened RouteClassification

  /** The map a renderer draws on; `NoMap` stands for `null`. */
  datatype MapRef = NoMap | MapRef(id: nat)

  /** The polyline options of one route style. */
  datatype PolylineOptions = PolylineOptions(strokeColor: string, geodesic: bool, strokeOpacity: real, strokeWeight: nat)

  /** The four kinds of route the drawer distinguishes. */
  datatype StyleName = Fastest | Shortest | Best | Alternative

  /** The polyline options in force for each kind of route. */
  datatype StyleTable = StyleTable(fastest: PolylineOptions, shortest: PolylineOptions, best: PolylineOptions, alternative: PolylineOptions)
  {
    function Lookup(name: StyleName): PolylineOptions
    {
      match name
      case Fastest => fastest
      case Shortest => shortest
      case Best => best
      case Alternative => alternative
    }
  }

  /** The built-in styles: red fastest, green shortest, violet best, blue alternatives. */
  const DefaultStyles := StyleTable(
    PolylineOptions("red", true, 0.7, 3),
    PolylineOptions("green", true, 0.7, 3),
    PolylineOptions("violet", true, 0.8, 4),
    PolylineOptions("blue", true, 0.7, 2))

  /** The `polylineOptions` a caller passes to the constructor: any of the four
      entries may be missing. */
  datatype StyleOverrides = StyleOverrides(fastest: Option<PolylineOptions>, shortest: Option<PolylineOptions>, best: Option<PolylineOptions>, alternative: Option<PolylineOptions>)
  {
    function Lookup(name: StyleName): Option<PolylineOptions>
    {
      match name
      case Fastest => fastest
      case Shortest => shortest
      case Best => best
      case Alternative => alternative
    }
  }

  /** The constructor's parameter object.  `pruneLevel` is `None` when it is
      missing or not an integer. */
  datatype PathDrawerParams = PathDrawerParams(mapRef: MapRef, pruneLevel: Option<int>, polylineOptions: Option<StyleOverrides>)

  /** The style table a new drawer uses: every entry the caller gives, and the
      built-in default for every entry the caller leaves out, each entry on its own. */
  function ResolveStyles(overrides: Option<StyleOverrides>): (t: StyleTable)
    ensures forall name: StyleName ::
      t.Lookup(name) == if overrides.Some? then overrides.value.Lookup(name).GetOr(DefaultStyles.Lookup(name)) else DefaultStyles.Lookup(name)
  {
    match overrides
    case None => DefaultStyles
    case Some(o) =>
      StyleTable(
        o.fastest.GetOr(DefaultStyles.fastest),
        o.shortest.GetOr(DefaultStyles.shortest),
        o.best.GetOr(DefaultStyles.best),
        o.alternative.GetOr(DefaultStyles.alternative))
  }

  /** The constructor's style chain as written: `typeof x == undefined` never
      holds, so each test reduces to `x == null`, and every branch but the first
      and the last assigns into a style table that does not exist yet. */
  function ResolveStylesAsWritten(overrides: Option<StyleOverrides>): (r: Result<StyleTable>)
    ensures r.Success? <==> overrides.None? || forall name: StyleName :: overrides.value.Lookup(name).Some?
    ensures r.Success? ==> r.value == ResolveStyles(overrides)
  {
    match overrides
    case None => Success(DefaultStyles)
    case Some(o) =>
      if o.fastest.None? then assert o.Lookup(Fastest).None?; Failure(TypeError)
      else if o.shortest.None? then assert o.Lookup(Shortest).None?; Failure(TypeError)
      else if o.best.None? then assert o.Lookup(Best).None?; Failure(TypeError)
      else if o.alternative.None? then assert o.Lookup(Alternative).None?; Failure(TypeError)
      else Success(StyleTable(o.fastest.value, o.shortest.value, o.best.value, o.alternative.value))
  }

  /** Leaving out only the fastest style makes the constructor throw, where
      the documented behaviour is to use the default for that entry alone. */
  lemma StyleDefaultsFinding(p: PolylineOptions)
    ensures
      var o := Some(StyleOverrides(None, Some(p), Some(p), Some(p)));
      && ResolveStylesAsWritten(o) == Failure(TypeError)
      && ResolveStyles(o) == StyleTable(DefaultStyles.fastest, p, p, p)
  {
    var o := Some(StyleOverrides(None, Some(p), Some(p), Some(p)));
    assert ResolveStyles(o).Lookup(Fastest) == DefaultStyles.fastest;
  }

  // The three prune levels.
  const NO_PRUNNING := 0
  const MODERATE_PRUNNING := 1
  const AGGRESSIVE_PRUNNING := 2

  predicate IsPruneLevel(level: int)
  {
    level == NO_PRUNNING || level == MODERATE_PRUNNING || level == AGGRESSIVE_PRUNNING
  }

  /** The description getPruneLevel reports; `None` (undefined) for a value
      that is not one of the three levels. */
  function LevelDescription(level: int): (d: Option<string>)
    ensures d.Some? <==> IsPruneLevel(level)
  {
    if level == AGGRESSIVE_PRUNNING then Some("AGGRESSIVE_PRUNNING")
    else if level == MODERATE_PRUNNING then Some("MODERATE_PRUNNING")
    else if level == NO_PRUNNING then Some("NO_PRUNNING")
    else None
  }

  /** The prune level of a new drawer: the requested one when it is a valid
      level, aggressive pruning otherwise. */
  function InitialPruneLevel(requested: Option<int>): (level: int)
    ensures IsPruneLevel(level)
    ensures requested.Some? && IsPruneLevel(requested.value) ==> level == requested.value
    ensures requested.None? || !IsPruneLevel(requested.value) ==> level == AGGRESSIVE_PRUNNING
  {
    if requested.Some? && IsPruneLevel(requested.value) then requested.value else AGGRESSIVE_PRUNNING
  }

  /** The constructor's prune level as written: the fallback calls the static
      getter AGGRESSIVE_PRUNNING through the instance, where it is undefined. */
  function InitialPruneLevelAsWritten(requested: Option<int>): (r: Result<int>)
    ensures r.Success? <==> requested.Some? && IsPruneLevel(requested.value)
    ensures r.Success? ==> r.value == InitialPruneLevel(requested)
  {
    if requested.Some? && IsPruneLevel(requested.value) then Success(requested.value) else Failure(TypeError)
  }

  /** A drawer created without a prune level throws instead of pruning aggressively. */
  lemma PruneLevelDefaultFinding()
    ensures InitialPruneLevelAsWritten(None) == Failure(TypeError)
    ensures InitialPruneLevel(None) == AGGRESSIVE_PRUNNING
  {
  }

  /** `Math.round(d / 2)`: the integer nearest to d/2, halves rounded up. */
  function RoundHalf(d: nat): (r: nat)
    ensures 2 * r == d || 2 * r == d + 1
  {
    (d + 1) / 2
  }

  /** The pool length `prune(n, level)` leaves behind, from `len > n` slots. */
  function PrunedLength(len: nat, n: nat, level: int): (kept: nat)
    requires n < len
  {
    if level == AGGRESSIVE_PRUNNING then n
    else if level == MODERATE_PRUNNING then n + RoundHalf(len - n)
    else len
  }

  /** Aggressive pruning keeps exactly n slots, moderate pruning keeps n plus
      half of the surplus (rounded up, so at least one spare slot), and every
      other level keeps them all. */
  lemma PrunedLengthBounds(len: nat, n: nat, level: int)
    requires n < len
    ensures n <= PrunedLength(len, n, level) <= len
    ensures level == AGGRESSIVE_PRUNNING ==> PrunedLength(len, n, level) == n
    ensures level == MODERATE_PRUNNING ==> n < PrunedLength(len, n, level) && 2 * (PrunedLength(len, n, level) - n) - (len - n) in {0, 1}
    ensures !IsPruneLevel(level) || level == NO_PRUNNING ==> PrunedLength(len, n, level) == len
  {
  }

  /** From 10 slots to 4 routes, moderate pruning keeps 7 slots. */
  lemma ModeratePruneExample()
    ensures PrunedLength(10, 4, MODERATE_PRUNNING) == 7
  {
  }

  /** The style slot `slot` receives once the classification `c` is known. */
  function StyleOf(slot: nat, c: Classification): (name: StyleName)
  {
    if slot == c.shortest && slot == c.fastest then Best
    else if slot == c.shortest then Shortest
    else if slot == c.fastest then Fastest
    else Alternative
  }

  /** When the shortest and fastest routes coincide only that slot is styled,
      as best, and no slot is styled shortest or fastest; otherwise the two slots
      are styled shortest and fastest and no slot is styled best. */
  lemma StyleAssignment(c: Classification, slot: nat)
    ensures StyleOf(slot, c) == Best <==> slot == c.shortest && c.shortest == c.fastest
    ensures StyleOf(slot, c) == Shortest <==> slot == c.shortest && c.shortest != c.fastest
    ensures StyleOf(slot, c) == Fastest <==> slot == c.fastest && c.shortest != c.fastest
    ensures StyleOf(slot, c) == Alternative <==> slot != c.shortest && slot != c.fastest
  {
  }

  /** One pooled DirectionsRenderer: the directions result and route index it
      shows, the map it is attached to, whether it is draggable, and its
      polyline style. */
  datatype Handle = Handle(directions: seq<Route>, routeIndex: nat, mapRef: MapRef, draggable: bool, polyline: PolylineOptions)

  class PathDrawer {
    var mapRef: MapRef
    var pruneLevel: int
    var styles: StyleTable
    var paths: seq<Handle>

    constructor (params: PathDrawerParams)
      ensures mapRef == params.mapRef
      ensures pruneLevel == InitialPruneLevel(params.pruneLevel)
      ensures styles == ResolveStyles(params.polylineOptions)
      ensures paths == []
    {
      mapRef := params.mapRef;
      pruneLevel := InitialPruneLevel(params.pruneLevel);
      styles := ResolveStyles(params.polylineOptions);
      paths := [];
    }

    /** Draws `routes` with the pooled renderers: slot i shows route i on the
        current map, draggable as asked, in the style its classification
        gives it.  A pool that was too small now has exactly |routes| slots; one
        that was too large is pruned under the current level and its slots
        beyond |routes| are detached, otherwise unchanged.  With no routes at
        all the pool is pruned and detached the same way, and then styling the
        undefined shortest route throws. */
    method DrawPaths(routes: seq<Route>, draggable: bool) returns (r: Outcome)
      modifies this
      ensures r == Pass <==> |routes| >= 1
      ensures r != Pass ==> r == Fail(TypeError)
      ensures mapRef == old(mapRef) && pruneLevel == old(pruneLevel) && styles == old(styles)
      ensures |paths| >= |routes|
      ensures |old(paths)| <= |routes| ==> |paths| == |routes|
      ensures |old(paths)| > |routes| ==> |paths| == PrunedLength(|old(paths)|, |routes|, pruneLevel)
      ensures |routes| >= 1 ==> forall i :: 0 <= i < |routes| ==>
        paths[i] == Handle(routes, i, mapRef, draggable, styles.Lookup(StyleOf(i, Classify(routes))))
      ensures forall i :: |routes| <= i < |paths| ==> paths[i] == old(paths)[i].(mapRef := NoMap)
      ensures forall i :: 0 <= i < |paths| ==> (paths[i].mapRef == mapRef <==> i < |routes| || mapRef == NoMap)
    {
      var shortestRouteIndex, fastestRouteIndex := FindShortestAndFastestRoute(routes);
      RebindPool(routes, draggable);
      if shortestRouteIndex.None? || fastestRouteIndex.None? {
        return Fail(TypeError);
      }
      ApplyStyles(shortestRouteIndex.value, fastestRouteIndex.value);
      r := Pass;
    }

    /** The resizing part of DrawPaths: the pool is grown to, or pruned
        towards, |routes| slots; slot i shows route i in the alternative
        style, and the slots beyond |routes| are detached. */
    method RebindPool(routes: seq<Route>, draggable: bool)
      modifies this
      ensures mapRef == old(mapRef) && pruneLevel == old(pruneLevel) && styles == old(styles)
      ensures |old(paths)| <= |routes| ==> |paths| == |routes|
      ensures |old(paths)| > |routes| ==> |paths| == PrunedLength(|old(paths)|, |routes|, pruneLevel)
      ensures |paths| >= |routes|
      ensures forall i :: 0 <= i < |routes| ==> paths[i] == Handle(routes, i, mapRef, draggable, styles.alternative)
      ensures forall i :: |routes| <= i < |paths| ==> paths[i] == old(paths)[i].(mapRef := NoMap)
    {
      var routesSize := |routes|;
      var sizeDif := |paths| - routesSize;
      if sizeDif < 0 {
        GrowAndBind(routes, draggable);
      } else if sizeDif > 0 {
        var _ := Prune(routesSize, pruneLevel);
        PrunedLengthBounds(|old(paths)|, routesSize, pruneLevel);
        BindRoutes(routes, draggable);
        DetachFrom(routesSize);
      } else {
        BindRoutes(routes, draggable);
      }
    }

    /** The styling step of DrawPaths: one slot styled best when the shortest
        and the fastest route coincide, otherwise one styled shortest and one
        styled fastest; every other slot is untouched. */
    method ApplyStyles(shortest: nat, fastest: nat)
      requires shortest < |paths| && fastest < |paths|
      modifies this
      ensures mapRef == old(mapRef) && pruneLevel == old(pruneLevel) && styles == old(styles)
      ensures |paths| == |old(paths)|
      ensures forall i :: 0 <= i < |paths| && i != shortest && i != fastest ==> paths[i] == old(paths)[i]
      ensures forall i :: 0 <= i < |paths| && (i == shortest || i == fastest) ==>
        paths[i] == old(paths)[i].(polyline := styles.Lookup(StyleOf(i, Classification(shortest, fastest))))
    {
      if shortest == fastest {
        paths := paths[shortest := paths[shortest].(polyline := styles.best)];
      } else {
        paths := paths[shortest := paths[shortest].(polyline := styles.shortest)];
        paths := paths[fastest := paths[fastest].(polyline := styles.fastest)];
      }
    }

    /** The rebinding loop of DrawPaths for a pool that is too small: slots
        are pushed until there is one per route, and slot i is set to show
        route i in the alternative style. */
    method GrowAndBind(routes: seq<Route>, draggable: bool)
      requires |paths| < |routes|
      modifies this
      ensures mapRef == old(mapRef) && pruneLevel == old(pruneLevel) && styles == old(styles)
      ensures |paths| == |routes|
      ensures forall k :: 0 <= k < |routes| ==> paths[k] == Handle(routes, k, mapRef, draggable, styles.alternative)
    {
      var i := 0;
      while i < |routes|
        invariant 0 <= i <= |routes|
        invariant mapRef == old(mapRef) && pruneLevel == old(pruneLevel) && styles == old(styles)
        invariant |paths| == if i <= |old(paths)| then |old(paths)| else i
        invariant forall k :: 0 <= k < i ==> paths[k] == Handle(routes, k, mapRef, draggable, styles.alternative)
      {
        if i >= |paths| {
          paths := paths + [Handle(routes, i, mapRef, draggable, styles.alternative)];
        } else {
          paths := paths[i := Handle(routes, i, mapRef, draggable, styles.alternative)];
        }
        i := i + 1;
      }
    }

    /** The rebinding loop of DrawPaths for a pool that is large enough: slot
        i is set to show route i in the alternative style, later slots are
        left alone. */
    method BindRoutes(routes: seq<Route>, draggable: bool)
      requires |routes| <= |paths|
      modifies this
      ensures mapRef == old(mapRef) && pruneLevel == old(pruneLevel) && styles == old(styles)
      ensures |paths| == |old(paths)|
      ensures forall k :: 0 <= k < |routes| ==> paths[k] == Handle(routes, k, mapRef, draggable, styles.alternative)
      ensures forall k :: |routes| <= k < |paths| ==> paths[k] == old(paths)[k]
    {
      var i := 0;
      while i < |routes|
        invariant 0 <= i <= |routes|
        invariant mapRef == old(mapRef) && pruneLevel == old(pruneLevel) && styles == old(styles)
        invariant |paths| == |old(paths)|
        invariant forall k :: 0 <= k < i ==> paths[k] == Handle(routes, k, mapRef, draggable, styles.alternative)
        invariant forall k :: i <= k < |paths| ==> paths[k] == old(paths)[k]
      {
        paths := paths[i := Handle(routes, i, mapRef, draggable, styles.alternative)];
        i := i + 1;
      }
    }

    /** The detaching loop of DrawPaths: every slot from `from` on is taken
        off the map. */
    method DetachFrom(from: nat)
      requires from <= |paths|
      modifies this
      ensures mapRef == old(mapRef) && pruneLevel == old(pruneLevel) && styles == old(styles)
      ensures |paths| == |old(paths)|
      ensures forall k :: 0 <= k < from ==> paths[k] == old(paths)[k]
      ensures forall k :: from <= k < |paths| ==> paths[k] == old(paths)[k].(mapRef := NoMap)
    {
      var j := from;
      while j < |paths|
        invariant from <= j <= |paths| == |old(paths)|
        invariant mapRef == old(mapRef) && pruneLevel == old(pruneLevel) && styles == old(styles)
        invariant forall k :: 0 <= k < from ==> paths[k] == old(paths)[k]
        invariant forall k :: from <= k < j ==> paths[k] == old(paths)[k].(mapRef := NoMap)
        invariant forall k :: j <= k < |paths| ==> paths[k] == old(paths)[k]
      {
        paths := paths[j := paths[j].(mapRef := NoMap)];
        j := j + 1;
      }
    }

    /** Detaches every pooled renderer from the map; nothing else changes. */
    method HidePaths()
      modifies this
      ensures mapRef == old(mapRef) && pruneLevel == old(pruneLevel) && styles == old(styles)
      ensures |paths| == |old(paths)|
      ensures forall i :: 0 <= i < |paths| ==> paths[i] == old(paths)[i].(mapRef := NoMap)
    {
      var i := 0;
      while i < |paths|
        invariant 0 <= i <= |paths| == |old(paths)|
        invariant mapRef == old(mapRef) && pruneLevel == old(pruneLevel) && styles == old(styles)
        invariant forall k :: 0 <= k < i ==> paths[k] == old(paths)[k].(mapRef := NoMap)
        invariant forall k :: i <= k < |paths| ==> paths[k] == old(paths)[k]
      {
        paths := paths[i := paths[i].(mapRef := NoMap)];
        i := i + 1;
      }
    }

    /** Attaches every pooled renderer to the current map; nothing else changes. */
    method ShowPaths()
      modifies this
      ensures mapRef == old(mapRef) && pruneLevel == old(pruneLevel) && styles == old(styles)
      ensures |paths| == |old(paths)|
      ensures forall i :: 0 <= i < |paths| ==> paths[i] == old(paths)[i].(mapRef := mapRef)
    {
      var i := 0;
      while i < |paths|
        invariant 0 <= i <= |paths| == |old(paths)|
        invariant mapRef == old(mapRef) && pruneLevel == old(pruneLevel) && styles == old(styles)
        invariant forall k :: 0 <= k < i ==> paths[k] == old(paths)[k].(mapRef := mapRef)
        invariant forall k :: i <= k < |paths| ==> paths[k] == old(paths)[k]
      {
        paths := paths[i := paths[i].(mapRef := mapRef)];
        i := i + 1;
      }
    }

    /** Empties the pool and restores aggressive pruning and the default
        styles; the map is kept. */
    method Reset()
      modifies this
      ensures paths == [] && pruneLevel == AGGRESSIVE_PRUNNING && styles == DefaultStyles
      ensures mapRef == old(mapRef)
    {
      paths := [];
      pruneLevel := AGGRESSIVE_PRUNNING;
      styles := DefaultStyles;
    }

    /** reset() as written: the pool is emptied, then the call of the static
        getter through the instance throws, so the prune level and the styles
        are left as they were. */
    method ResetAsWritten() returns (r: Outcome)
      modifies this
      ensures r == Fail(TypeError)
      ensures paths == []
      ensures pruneLevel == old(pruneLevel) && styles == old(styles) && mapRef == old(mapRef)
    {
      paths := [];
      r := Fail(TypeError);
    }

    /** Truncates the pool towards `routesSize` slots under `level`; a target
        that is not below the pool length is an invalid argument and changes
        nothing. */
    method Prune(routesSize: nat, level: int) returns (r: Outcome)
      modifies this
      ensures mapRef == old(mapRef) && pruneLevel == old(pruneLevel) && styles == old(styles)
      ensures routesSize >= |old(paths)| ==> r == Fail(InvalidArgumentError) && paths == old(paths)
      ensures routesSize < |old(paths)| ==>
        r == Pass && paths == old(paths)[..PrunedLength(|old(paths)|, routesSize, level)]
    {
      if routesSize >= |paths| {
        return Fail(InvalidArgumentError);
      }
      var sizeDif := |paths| - routesSize;
      if level == AGGRESSIVE_PRUNNING {
        paths := paths[..routesSize];
      } else if level == MODERATE_PRUNNING {
        paths := paths[..routesSize + RoundHalf(sizeDif)];
      }
      r := Pass;
    }

    /** Sets the prune level; the value is not checked. */
    method SetPruneLevel(level: int)
      modifies this
      ensures pruneLevel == level
      ensures paths == old(paths) && mapRef == old(mapRef) && styles == old(styles)
    {
      pruneLevel := level;
    }

    /** The current prune level and its description, which is defined exactly
        when the level is one of the three. */
    method GetPruneLevel() returns (level: int, description: Option<string>)
      ensures level == pruneLevel
      ensures description.Some? <==> IsPruneLevel(pruneLevel)
      ensures description == LevelDescription(pruneLevel)
    {
      level := pruneLevel;
      description := LevelDescription(pruneLevel);
    }

    /** Sets the map later draws and ShowPaths attach to. */
    method SetMap(newMap: MapRef)
      modifies this
      ensures mapRef == newMap
      ensures paths == old(paths) && pruneLevel == old(pruneLevel) && styles == old(styles)
    {
      mapRef := newMap;
    }

    method GetMap() returns (m: MapRef)
      ensures m == mapRef
    {
      m := mapRef;
    }
  }
}
