/** `find_path` of common/src/path.rs: A* over the walkable blocks of a volume. */
module Routes {
  import opened Wrappers
  import opened Arith
  import opened Vectors
  import opened Astars

  datatype Block = Block(solid: bool, solidHeight: real)

  /** What reading the volume gives at each position, nothing where it cannot be read. */
  type Volume = Vec3 -> Option<Block>

  /** Nothing solid is there; what cannot be read counts as free. */
  predicate Free(vol: Volume, pos: Vec3) {
    vol(pos).Some? ==> !vol(pos).value.solid
  }

  /** A full block to stand on, and two free blocks to stand in. */
  predicate Walkable(vol: Volume, pos: Vec3) {
    && vol(pos.Up(-1)).Some? && vol(pos.Up(-1)).value.solid && vol(pos.Up(-1)).value.solidHeight == 1.0
    && Free(vol, pos)
    && Free(vol, pos.Up(1))
  }

  // ----- the nearest walkable block above or below

  /** Offset `k` is tried before offset `j`: nearer, or as near and above. */
  predicate Before(k: int, j: int) {
    Abs(k) < Abs(j) || (Abs(k) == Abs(j) && k > j)
  }

  /** `found` is the nearest walkable position at most 15 below or 16 above `pos`, if there is one. */
  ghost predicate Resolves(vol: Volume, pos: Vec3, found: Option<Vec3>) {
    if found.Some? then
      exists k :: -15 <= k <= 16 && found.value == pos.Up(k) && Walkable(vol, pos.Up(k))
        && forall j :: -15 <= j <= 16 && Before(j, k) ==> !Walkable(vol, pos.Up(j))
    else forall j :: -15 <= j <= 16 ==> !Walkable(vol, pos.Up(j))
  }

  /** `get_walkable_z`. */
  method GetWalkableZ(vol: Volume, pos: Vec3) returns (found: Option<Vec3>)
    ensures Resolves(vol, pos, found)
  {
    var zIncr := 0;
    for n := 0 to 32
      invariant zIncr == if n % 2 == 0 then -(n / 2) else n / 2 + 1
      invariant forall j :: -15 <= j <= 16 && Before(j, zIncr) ==> !Walkable(vol, pos.Up(j))
    {
      var testPos := pos.Up(zIncr);
      if Walkable(vol, testPos) {
        return Some(testPos);
      }
      zIncr := -zIncr + if zIncr <= 0 then 1 else 0;
    }
    return None;
  }

  // ----- steps

  const DIRS: nat := 21

  function Dir(i: nat): Vec3
    requires i < DIRS
  {
    match i
    case 0 => Vec3(0, 1, 0)
    case 1 => Vec3(0, 1, 1)
    case 2 => Vec3(0, 1, 2)
    case 3 => Vec3(0, 1, -1)
    case 4 => Vec3(0, 1, -2)
    case 5 => Vec3(1, 0, 0)
    case 6 => Vec3(1, 0, 1)
    case 7 => Vec3(1, 0, 2)
    case 8 => Vec3(1, 0, -1)
    case 9 => Vec3(1, 0, -2)
    case 10 => Vec3(0, -1, 0)
    case 11 => Vec3(0, -1, 1)
    case 12 => Vec3(0, -1, 2)
    case 13 => Vec3(0, -1, -1)
    case 14 => Vec3(0, -1, -2)
    case 15 => Vec3(-1, 0, 0)
    case 16 => Vec3(-1, 0, 1)
    case 17 => Vec3(-1, 0, 2)
    case 18 => Vec3(-1, 0, -1)
    case 19 => Vec3(-1, 0, -2)
    case 20 => Vec3(0, 0, -1)
  }

  /** From `pos` along `dir`: walkable at both ends, with room for the head when
      going up by one, up by two, and down. */
  predicate CanStep(vol: Volume, pos: Vec3, dir: Vec3) {
    && Walkable(vol, pos)
    && Walkable(vol, pos.Plus(dir))
    && (dir.z < 1 || Free(vol, pos.Up(2)))
    && (dir.z < 2 || Free(vol, pos.Up(3)))
    && (dir.z >= 0 || Free(vol, pos.Plus(dir).Up(2)))
  }

  /** The `neighbors` closure, from direction `i` on. */
  function NeighborsFrom(vol: Volume, pos: Vec3, i: nat): (ns: seq<Vec3>)
    requires i <= DIRS
    ensures forall n :: n in ns <==> exists d :: i <= d < DIRS && n == pos.Plus(Dir(d)) && CanStep(vol, pos, Dir(d))
    decreases DIRS - i
  {
    if i == DIRS then []
    else (if CanStep(vol, pos, Dir(i)) then [pos.Plus(Dir(i))] else []) + NeighborsFrom(vol, pos, i + 1)
  }

  function Neighbors(vol: Volume): Vec3 -> seq<Vec3> {
    pos => NeighborsFrom(vol, pos, 0)
  }

  /** A step one block sideways and at most two up or down, walkable at both ends, through
      which the body (two blocks high) passes: over the higher end, there is room above the
      lower one. */
  ghost predicate Step(vol: Volume, a: Vec3, b: Vec3) {
    && Walkable(vol, a) && Walkable(vol, b)
    && Abs(b.x - a.x) + Abs(b.y - a.y) == 1 && Abs(b.z - a.z) <= 2
    && (b.z > a.z ==> forall k :: 0 <= k <= b.z - a.z + 1 ==> Free(vol, a.Up(k)))
    && (b.z < a.z ==> Free(vol, b.Up(2)))
  }

  /** Straight down is listed but never possible: the block below is solid. */
  lemma NeverStraightDown(vol: Volume, pos: Vec3)
    ensures !CanStep(vol, pos, Dir(20))
  {
    assert pos.Plus(Dir(20)) == pos.Up(-1);
  }

  function DirTo(a: Vec3, b: Vec3): (d: nat)
    requires Abs(b.x - a.x) + Abs(b.y - a.y) == 1 && Abs(b.z - a.z) <= 2
    ensures d < 20 && b == a.Plus(Dir(d))
  {
    var side := if b.y > a.y then 0 else if b.x > a.x then 5 else if b.y < a.y then 10 else 15;
    side + if b.z >= a.z then b.z - a.z else 2 + a.z - b.z
  }

  lemma DirIsSideways(d: nat)
    requires d < 20
    ensures Abs(Dir(d).x) + Abs(Dir(d).y) == 1 && Abs(Dir(d).z) <= 2
  {
  }

  lemma CanStepIsStep(vol: Volume, a: Vec3, b: Vec3, dir: Vec3)
    requires b == a.Plus(dir) && Abs(dir.x) + Abs(dir.y) == 1 && Abs(dir.z) <= 2
    ensures CanStep(vol, a, dir) <==> Step(vol, a, b)
  {
    assert a.Up(0) == a;
  }

  /** The neighbours are exactly the steps. */
  lemma {:induction false} NeighborsAreSteps(vol: Volume, a: Vec3, b: Vec3)
    ensures b in Neighbors(vol)(a) <==> Step(vol, a, b)
  {
    hide CanStep, Step, Dir, Abs, NeighborsFrom;
    if b in Neighbors(vol)(a) {
      var d :| 0 <= d < DIRS && b == a.Plus(Dir(d)) && CanStep(vol, a, Dir(d));
      NeverStraightDown(vol, a);
      DirIsSideways(d);
      CanStepIsStep(vol, a, b, Dir(d));
    }
    if Step(vol, a, b) {
      StepIsSideways(vol, a, b);
      var d := DirTo(a, b);
      DirIsSideways(d);
      CanStepIsStep(vol, a, b, Dir(d));
    }
  }

  lemma StepIsSideways(vol: Volume, a: Vec3, b: Vec3)
    requires Step(vol, a, b)
    ensures Abs(b.x - a.x) + Abs(b.y - a.y) == 1 && Abs(b.z - a.z) <= 2
  {
  }

  /** A step can be walked back, except that a drop of two needs room above the landing
      that going down did not ask for. */
  lemma WalkedBack(vol: Volume, a: Vec3, b: Vec3)
    requires Step(vol, a, b)
    ensures Step(vol, b, a) <==> (b.z == a.z - 2 ==> Free(vol, b.Up(3)))
  {
    assert b.Up(0) == b && a.Up(0) == a;
    if b.z < a.z {
      assert Free(vol, b.Up(0)) && Free(vol, b.Up(1)) && Free(vol, b.Up(2));
    } else if b.z > a.z {
      assert Free(vol, a.Up(2));
    }
  }

  // ----- finding a route

  /** A route over steps. */
  ghost predicate Legal(vol: Volume, path: seq<Vec3>) {
    forall i :: 0 < i < |path| ==> Step(vol, path[i - 1], path[i])
  }

  /** The `transition` closure: at least 1, more away from the straight line and upwards. */
  function Transition(offLine: Vec3 -> real): (Vec3, Vec3) -> real {
    (a: Vec3, b: Vec3) => 1.0 + offLine(b) * 0.025 + (if b.z - a.z - 1 > 0 then b.z - a.z - 1 else 0) as real * 10.0
  }

  /** A step costs one, a fortieth of how far it leads from the line, and ten more if it climbs two. */
  lemma StepCosts(vol: Volume, a: Vec3, b: Vec3, offLine: Vec3 -> real)
    requires Step(vol, a, b)
    ensures Transition(offLine)(a, b) == 1.0 + offLine(b) / 40.0 + if b.z == a.z + 2 then 10.0 else 0.0
  {
    StepIsSideways(vol, a, b);
    hide Step;
  }

  /** Whoever takes a route stands on full blocks, with room for the body. */
  lemma RouteStands(vol: Volume, path: seq<Vec3>, i: nat)
    requires Legal(vol, path) && i < |path| && |path| > 1
    ensures vol(path[i].Up(-1)) == Some(Block(true, 1.0))
    ensures forall k :: 0 <= k <= 1 && vol(path[i].Up(k)).Some? ==> !vol(path[i].Up(k)).value.solid
  {
    assert Walkable(vol, path[i]) by {
      if i > 0 {
        assert Step(vol, path[i - 1], path[i]);
      } else {
        assert Step(vol, path[0], path[1]);
      }
    }
    assert path[i].Up(0) == path[i];
  }

  /** The `heuristic` closure. */
  function Heuristic(distance: (Vec3, Vec3) -> real, target: Vec3): Vec3 -> real {
    pos => distance(pos, target)
  }

  /** The end of a route kept from an unfinished search: one step from it is a position to
      which no other position reached is nearer. */
  ghost predicate LeadsNear(vol: Volume, path: seq<Vec3>, reached: set<Vec3>,
          distance: (Vec3, Vec3) -> real, target: Vec3) {
    if path == [] then reached == {}
    else
      exists n ::
        && n in reached && Step(vol, path[|path| - 1], n)
        && forall m :: m in reached ==> distance(n, target) <= distance(m, target)
  }

  lemma BestLeadsNear(vol: Volume, s: Search<Vec3>, path: seq<Vec3>, distance: (Vec3, Vec3) -> real, target: Vec3)
    requires Guided(s, Heuristic(distance, target), Neighbors(vol))
    requires if s.cheapestNode.None? then path == [] else path != [] && path[|path| - 1] == s.cheapestNode.value
    ensures LeadsNear(vol, path, s.cameFrom.Keys, distance, target)
  {
    if s.cheapestNode.Some? {
      var b := s.cheapestNode.value;
      var n :| n in Neighbors(vol)(b) && n in s.cameFrom && Heuristic(distance, target)(n) == s.cheapestCost.value;
      NeighborsAreSteps(vol, b, n);
    }
  }

  lemma TransitionPositive(offLine: Vec3 -> real)
    requires forall p :: offLine(p) >= 0.0
    ensures Positive(Transition(offLine))
  {
  }

  // ----- no step of a search costs too much

  const MAX_ITERS: nat := 25000

  /** Further apart sideways than any two positions of 32-bit coordinates. */
  const FAR: real := 8589934592.0

  /** More than any step costs that one search can come to. */
  const DEAR: real := 1000000000.0

  function Apart(a: Vec3, b: Vec3): int {
    Abs(b.x - a.x) + Abs(b.y - a.y)
  }

  /** A distance from a line changes by no more than one moves, and `start` is within reach. */
  ghost predicate FromALine(offLine: Vec3 -> real, start: Vec3) {
    offLine(start) <= FAR && forall a, b :: offLine(b) <= offLine(a) + Apart(a, b) as real
  }

  /** A walk of steps goes one block sideways at a time. */
  lemma {:induction false} WalkIsNear(vol: Volume, path: seq<Vec3>)
    requires Walk(Neighbors(vol), path)
    ensures Apart(path[0], path[|path| - 1]) < |path|
    decreases |path|
  {
    hide Neighbors;
    var n := |path| - 1;
    if n > 0 {
      WalkIsNear(vol, path[..n]);
      assert path[n] in Neighbors(vol)(path[n - 1]);
      NeighborsAreSteps(vol, path[n - 1], path[n]);
      StepIsSideways(vol, path[n - 1], path[n]);
    }
  }

  lemma StepCost(vol: Volume, start: Vec3, a: Vec3, b: Vec3, offLine: Vec3 -> real)
    requires FromALine(offLine, start) && Apart(start, a) < MAX_ITERS && Step(vol, a, b)
    ensures Transition(offLine)(a, b) <= DEAR
  {
    StepIsSideways(vol, a, b);
    hide Step;
    assert offLine(b) <= offLine(a) + Apart(a, b) as real;
    assert offLine(a) <= offLine(start) + Apart(start, a) as real;
  }

  lemma StepsAffordable(vol: Volume, start: Vec3, offLine: Vec3 -> real)
    requires FromALine(offLine, start)
    ensures Affordable(Neighbors(vol), start, Transition(offLine), MAX_ITERS, DEAR)
  {
    hide Neighbors, FromALine, Transition, Step;
    forall a, b | WalkTo(Neighbors(vol), start, a, MAX_ITERS) && b in Neighbors(vol)(a)
      ensures Transition(offLine)(a, b) <= DEAR
    {
      var walk :| Walk(Neighbors(vol), walk) && walk[0] == start && walk[|walk| - 1] == a && |walk| <= MAX_ITERS;
      WalkIsNear(vol, walk);
      NeighborsAreSteps(vol, a, b);
      StepCost(vol, start, a, b, offLine);
    }
  }

  /** The `satisfied` closure. */
  function IsEnd(target: Vec3): Vec3 -> bool {
    pos => pos == target
  }

  /** A search for `target` that has passed over nothing it can reach. */
  ghost predicate Thorough(astar: Astar<Vec3>, vol: Volume, target: Vec3)
    reads astar
  {
    && astar.maxIters == MAX_ITERS && astar.Within(DEAR)
    && astar.Near(Neighbors(vol)) && astar.Explored(Neighbors(vol), IsEnd(target))
  }

  /** No route leads from `start` to `target`. */
  ghost predicate NoRoute(vol: Volume, start: Vec3, target: Vec3) {
    forall route :: route != [] && route[0] == start && Legal(vol, route) ==> route[|route| - 1] != target
  }

  lemma NoWalkNoRoute(vol: Volume, start: Vec3, target: Vec3)
    requires forall walk :: Walk(Neighbors(vol), walk) && walk[0] == start ==> !IsEnd(target)(walk[|walk| - 1])
    ensures NoRoute(vol, start, target)
  {
    hide Neighbors;
    forall route | route != [] && route[0] == start && Legal(vol, route)
      ensures route[|route| - 1] != target
    {
      forall i | 0 < i < |route|
        ensures route[i] in Neighbors(vol)(route[i - 1])
      {
        NeighborsAreSteps(vol, route[i - 1], route[i]);
      }
      assert Walk(Neighbors(vol), route);
    }
  }

  lemma LegalPath(vol: Volume, astar: Astar<Vec3>, path: seq<Vec3>)
    requires path != [] ==> Genuine(astar.start, astar.cameFrom, path)
    ensures Follows(astar.cameFrom, Neighbors(vol)) ==> Legal(vol, path)
    ensures path != [] ==> path[0] == astar.start
  {
    if path != [] && Follows(astar.cameFrom, Neighbors(vol)) {
      PathFollows(astar.start, astar.cameFrom, Neighbors(vol), path);
      forall i | 0 < i < |path|
        ensures Step(vol, path[i - 1], path[i])
      {
        NeighborsAreSteps(vol, path[i - 1], path[i]);
      }
    }
  }

  lemma UnfinishedRoute(vol: Volume, astar: Astar<Vec3>, path: seq<Vec3>, distance: (Vec3, Vec3) -> real, target: Vec3)
    requires astar.IsBestSoFar(path)
    ensures Follows(astar.cameFrom, Neighbors(vol)) ==> Legal(vol, path)
    ensures path != [] ==> path[0] == astar.start
    ensures Guided(astar.State(), Heuristic(distance, target), Neighbors(vol)) ==>
      LeadsNear(vol, path, astar.cameFrom.Keys, distance, target)
  {
    LegalPath(vol, astar, path);
    if Guided(astar.State(), Heuristic(distance, target), Neighbors(vol)) {
      BestLeadsNear(vol, astar.State(), path, distance, target);
    }
  }

  lemma FoundRoute(vol: Volume, astar: Astar<Vec3>, path: seq<Vec3>, target: Vec3)
    requires Genuine(astar.start, astar.cameFrom, path) && IsEnd(target)(path[|path| - 1])
    ensures Follows(astar.cameFrom, Neighbors(vol)) ==> Legal(vol, path)
    ensures path != [] && path[0] == astar.start && path[|path| - 1] == target
  {
    LegalPath(vol, astar, path);
  }

  lemma ResolvesOneWay(vol: Volume, pos: Vec3, found: Option<Vec3>)
    requires Resolves(vol, pos, found) && found.Some?
    ensures !Resolves(vol, pos, None)
  {
  }

  lemma NewIsThorough(astar: Astar<Vec3>, vol: Volume, target: Vec3)
    requires astar.maxIters == MAX_ITERS && (Limit(MAX_ITERS, DEAR) < F32_MAX ==> astar.Within(DEAR))
    requires astar.Near(Neighbors(vol)) && astar.Explored(Neighbors(vol), IsEnd(target))
    ensures Thorough(astar, vol, target)
  {
  }

  /** `find_path`: `from` and `to` are the rounded-down coordinates, `distance` is the
      straight-line distance of two positions and `offLine` the distance from the line between
      the two ends. A search not finished is kept for the next call. */
  method FindPath(astar: Astar?<Vec3>, vol: Volume, from: Vec3, to: Vec3, distance: (Vec3, Vec3) -> real,
          offLine: Vec3 -> real)
    returns (astar': Astar?<Vec3>, path: Option<seq<Vec3>>, complete: bool, ghost end: Option<Vec3>,
             ghost search: Astar?<Vec3>)
    requires astar != null ==> astar.Valid()
    requires forall p :: offLine(p) >= 0.0
    modifies if astar == null then {} else {astar}
    ensures Resolves(vol, to, end)
    // without two ends nothing happens
    ensures search == null <==> Resolves(vol, from, None) || end.None?
    ensures search == null ==> astar' == astar && path.None? && (astar != null ==> astar.State() == old(astar.State()))
    // otherwise the search kept goes on, or a new one begins at the start, for 100 more of 25000 iterations
    ensures search != null ==> search.Valid() && if astar == null then fresh(search) else search == astar
    ensures search != null && astar == null ==> search.maxIters == 25000 && Resolves(vol, from, Some(search.start))
    ensures search != null ==>
      var iter := if astar == null then 0 else old(astar.iter);
      && iter <= search.iter <= iter + 100
      && (path.None? ==> search.iter == iter + 100 < search.maxIters)
    // it is kept exactly while it is pending
    ensures search != null ==> astar' == if path.Some? then null else search
    // every route is legal and begins at the start, if the volume is the one the kept search was made in
    ensures search != null && (astar == null || old(Follows(astar.cameFrom, Neighbors(vol)))) ==>
      Follows(search.cameFrom, Neighbors(vol)) && (path.Some? ==> Legal(vol, path.value))
    ensures path.Some? && path.value != [] ==> path.value[0] == search.start
    // a complete one leads to the end
    ensures complete ==> path.Some? && path.value != [] && path.value[|path.value| - 1] == end.value
    // every position is taken when it is next due by score and distance from this end
    ensures (search != null && (astar == null || old(astar.Turns(Heuristic(distance, end.value))))) ==>
      && search.Turns(Heuristic(distance, end.value))
      && (complete ==> IsNextDue(search.start, search.State(), Heuristic(distance, end.value), end.value))
    // one of an unfinished search for this end leads as near to it as the search has come
    ensures (search != null &&
             (astar == null || old(Guided(astar.State(), Heuristic(distance, end.value), Neighbors(vol))))) ==>
      && Guided(search.State(), Heuristic(distance, end.value), Neighbors(vol))
      && (path.Some? && !complete ==> LeadsNear(vol, path.value, search.cameFrom.Keys, distance, end.value))
    // and unless all iterations are used up, there is no route to this end
    ensures (search != null && FromALine(offLine, search.start) &&
             (astar == null || old(Thorough(astar, vol, end.value)))) ==>
      && (!complete ==> Thorough(search, vol, end.value))
      && (path.Some? && !complete ==> search.iter >= 25000 || NoRoute(vol, search.start, end.value))
  {
    hide Resolves, Walkable, Sound, Legal, Follows, Paid, Guided, Settled, Capped, Grounded, Limit, FromALine,
      Transition, Positive, Affordable, InReach, Neighbors, Walk, Heuristic, LeadsNear, Reached, NoRoute,
      InTurn, Ordered, IsNextDue,
      Genuine, IsEnd;
    var start := GetWalkableZ(vol, from);
    var goal := GetWalkableZ(vol, to);
    end := goal;
    if start.None? || goal.None? {
      return astar, None, false, end, null;
    }
    ResolvesOneWay(vol, from, start);
    var target := goal.value;
    var heuristic := Heuristic(distance, target);
    var neighbors := Neighbors(vol);
    var transition := Transition(offLine);
    var satisfied := IsEnd(target);
    var newAstar: Astar<Vec3>;
    if astar == null {
      newAstar := new Astar(MAX_ITERS, start.value, heuristic);
      NewIsThorough(newAstar, vol, target);
    } else {
      newAstar := astar;
    }
    TransitionPositive(offLine);
    if FromALine(offLine, newAstar.start) {
      StepsAffordable(vol, newAstar.start, offLine);
    }
    ghost var thorough := Thorough(newAstar, vol, target) && FromALine(offLine, newAstar.start);
    var result := newAstar.Poll(100, heuristic, neighbors, transition, satisfied, DEAR);
    match result
    case Found(p) =>
      FoundRoute(vol, newAstar, p, target);
      return null, Some(p), true, end, newAstar;
    case NoPath(p) =>
      UnfinishedRoute(vol, newAstar, p, distance, target);
      if thorough {
        NoWalkNoRoute(vol, newAstar.start, target);
      }
      return null, Some(p), false, end, newAstar;
    case Exhausted(p) =>
      UnfinishedRoute(vol, newAstar, p, distance, target);
      return null, Some(p), false, end, newAstar;
    case Pending =>
      return newAstar, None, false, end, newAstar;
  }
}
