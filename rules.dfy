/**
 * The movement rules as values: how one move of a disc rewrites the link
 * table (the junction reroute) and where the disc goes, and what a run of
 * moves does on a freshly built board.
 */
module Rules {
  import opened Wrappers
  import opened Topology

  /** The state a run of moves threads through: the links, the disc's tile, the tiles it occupied. */
  datatype Progress = Progress(links: seq<Option<Tile>>, at: Option<Tile>, visited: seq<Tile>)

  /** The special tiles registry holds the four junctions and nothing else (duplicates allowed). */
  ghost predicate Registered(specials: seq<Tile>)
  {
    forall t :: t in specials <==> IsJunction(t)
  }

  /**
   * Every build appends the four junctions to the registry: membership grows
   * by exactly the junctions, so an empty or correct registry is correct
   * afterwards.
   */
  lemma RegistryAfterBuild(specials: seq<Tile>)
    ensures forall t :: t in specials + JunctionOrder() <==> t in specials || IsJunction(t)
    ensures specials == [] || Registered(specials) ==> Registered(specials + JunctionOrder())
  {
    forall t
      ensures t in JunctionOrder() <==> IsJunction(t)
    {
    }
  }

  /**
   * The link table after a disc of colour c occupies tile t: a registered
   * special tile whose house is the disc's colour is pointed into that
   * colour's home stretch; every other table is left as it was.
   */
  function Reroute(links: seq<Option<Tile>>, houses: seq<Colour>, specials: seq<Tile>, c: Colour, t: Tile): (r: seq<Option<Tile>>)
    requires |links| == NumTiles && |houses| == NumTiles
    ensures |r| == NumTiles
    ensures c == White || t !in specials || houses[Slot(t)] != c ==> r == links
    ensures forall k :: 0 <= k < NumTiles && k != Slot(t) ==> r[k] == links[k]
    ensures r[Slot(t)] == links[Slot(t)] || r[Slot(t)] == Some(StretchEntry(c))
  {
    if t in specials && houses[Slot(t)] == c && c != White then links[Slot(t) := Some(StretchEntry(c))] else links
  }

  /** One move: occupy the current tile, apply the reroute, follow the (possibly new) link. */
  function Step(houses: seq<Colour>, specials: seq<Tile>, c: Colour, p: Progress): (q: Progress)
    requires |p.links| == NumTiles && |houses| == NumTiles
    ensures |q.links| == NumTiles
    ensures p.at.None? ==> q == p
    ensures p.at.Some? ==> q.visited == p.visited + [p.at.value]
  {
    match p.at
    case None => p
    case Some(t) =>
      var links := Reroute(p.links, houses, specials, c, t);
      Progress(links, links[Slot(t)], p.visited + [t])
  }

  /** n consecutive moves of a disc of colour c starting on `start`. */
  function Walk(links: seq<Option<Tile>>, houses: seq<Colour>, specials: seq<Tile>, c: Colour, start: Option<Tile>, n: nat): (p: Progress)
    requires |links| == NumTiles && |houses| == NumTiles
    ensures |p.links| == NumTiles
    ensures |p.visited| <= n
    ensures start.None? ==> p == Progress(links, None, [])
    decreases n
  {
    if n == 0 then Progress(links, start, [])
    else Step(houses, specials, c, Walk(links, houses, specials, c, start, n - 1))
  }

  /**
   * Colour isolation: on a built board, a move by a disc of colour c changes
   * no link except that of its own colour's junction, and that one only to
   * its own stretch entry.
   */
  lemma {:induction false} RerouteIsolation(links: seq<Option<Tile>>, specials: seq<Tile>, c: Colour, t: Tile)
    requires |links| == NumTiles && Registered(specials)
    ensures Reroute(links, HouseTable(), specials, c, t) ==
            if c != White && t == JunctionOf(c) then links[Slot(t) := Some(StretchEntry(c))] else links
  {
    HouseTableAt(t);
    if t in specials && HouseTable()[Slot(t)] == c && c != White {
      assert IsJunction(t) && ArmColour(t.arm) == c;
      assert t.arm == HomeArm(c);
    }
  }

  /** Junction idempotence: occupying the same tile twice rewrites its link no further. */
  lemma RerouteIdempotent(links: seq<Option<Tile>>, houses: seq<Colour>, specials: seq<Tile>, c: Colour, t: Tile)
    requires |links| == NumTiles && |houses| == NumTiles
    ensures var once := Reroute(links, houses, specials, c, t);
            Reroute(once, houses, specials, c, t) == once
  {
  }

  /** The number of moves from a starting tile to the end of the home stretch. */
  const PathLength: nat := 56
  /** The step on which a disc stands on its own junction. */
  const JunctionStep: nat := 50

  /** The m-th tile of colour c's route: 51 ring tiles from its start to its junction, then its stretch. */
  function PathTile(c: Colour, m: int): Tile
    requires c != White && 0 <= m < PathLength
  {
    if m <= JunctionStep then RingAt(Shift(StartPos(c), m, RingLength)) else StretchTile(c, m - JunctionStep - 1)
  }

  /** The disc's tile after m moves along its route; None once it has run off the stretch. */
  function PathAt(c: Colour, m: nat): Option<Tile>
    requires c != White
  {
    if m < PathLength then Some(PathTile(c, m)) else None
  }

  /** The default table with colour c's junction pointed into its stretch. */
  function Rerouted(c: Colour): seq<Option<Tile>>
    requires c != White
  {
    DefaultLinks()[Slot(JunctionOf(c)) := Some(StretchEntry(c))]
  }

  function Min(a: int, b: int): int
  {
    if a <= b then a else b
  }

  /** Before the junction, the route follows the ring's default links. */
  lemma RouteFollowsRing(c: Colour, m: nat)
    requires c != White && m < JunctionStep
    ensures DefaultNext(PathTile(c, m)) == PathAt(c, m + 1)
  {
    var q := Shift(StartPos(c), m, RingLength);
    RingIsCycle(q);
    assert Succ(q, RingLength) == Shift(StartPos(c), m + 1, RingLength);
  }

  /** Before the junction, the route never stands on its own colour's junction. */
  lemma RouteAvoidsJunction(c: Colour, m: nat)
    requires c != White && m < JunctionStep
    ensures PathTile(c, m) != JunctionOf(c)
  {
    StartFiftyBeforeJunction(c);
    RingPositionsDistinct(Shift(StartPos(c), m, RingLength), JunctionPos(c));
  }

  /** Before the junction a move follows the ring and rewrites no link. */
  lemma RerouteOnRing(c: Colour, specials: seq<Tile>, m: nat)
    requires c != White && Registered(specials) && m < JunctionStep
    ensures var t := PathTile(c, m);
            Reroute(DefaultLinks(), HouseTable(), specials, c, t) == DefaultLinks() &&
            DefaultLinks()[Slot(t)] == PathAt(c, m + 1)
  {
    RouteAvoidsJunction(c, m);
    RerouteIsolation(DefaultLinks(), specials, c, PathTile(c, m));
    RouteFollowsRing(c, m);
    DefaultLinksAt(PathTile(c, m));
  }

  /** On its own junction a move reroutes that junction into the colour's stretch and enters it. */
  lemma RerouteAtJunction(c: Colour, specials: seq<Tile>)
    requires c != White && Registered(specials)
    ensures var t := PathTile(c, JunctionStep);
            Reroute(DefaultLinks(), HouseTable(), specials, c, t) == Rerouted(c) &&
            Rerouted(c)[Slot(t)] == PathAt(c, JunctionStep + 1)
  {
    StartFiftyBeforeJunction(c);
    RerouteIsolation(DefaultLinks(), specials, c, JunctionOf(c));
    StretchIsChain(c, 0);
  }

  /** Past the junction, the route follows the stretch's default links and runs off its end. */
  lemma RouteFollowsStretch(c: Colour, m: nat)
    requires c != White && JunctionStep < m < PathLength
    ensures PathTile(c, m) != JunctionOf(c)
    ensures DefaultNext(PathTile(c, m)) == PathAt(c, m + 1)
  {
    var i := m - JunctionStep - 1;
    StretchIsChain(c, i);
    if i + 1 < StretchLength {
      assert PathTile(c, m + 1) == StretchTile(c, i + 1);
    }
  }

  /** Inside the stretch a move rewrites no link and goes one tile further, or off the board. */
  lemma RerouteOnStretch(c: Colour, specials: seq<Tile>, m: nat, links: seq<Option<Tile>>)
    requires c != White && Registered(specials) && JunctionStep < m < PathLength
    requires links == DefaultLinks() || links == Rerouted(c)
    ensures var t := PathTile(c, m);
            Reroute(links, HouseTable(), specials, c, t) == links &&
            links[Slot(t)] == PathAt(c, m + 1)
  {
    var t := PathTile(c, m);
    RouteFollowsStretch(c, m);
    RerouteIsolation(links, specials, c, t);
    assert Slot(t) != Slot(JunctionOf(c));
    DefaultLinksAt(t);
  }

  /**
   * One move from the m-th tile of colour c's route, on a board whose links
   * are the default ones (or, past the junction, the rerouted ones), lands on
   * the (m+1)-th tile and reroutes exactly when it leaves the junction.
   */
  lemma StepAlongPath(c: Colour, specials: seq<Tile>, m: nat, p: Progress)
    requires c != White && Registered(specials) && m <= PathLength && p.at == PathAt(c, m)
    requires p.links == DefaultLinks() || (m > JunctionStep && p.links == Rerouted(c))
    ensures Step(HouseTable(), specials, c, p).at == PathAt(c, Min(m + 1, PathLength))
    ensures Step(HouseTable(), specials, c, p).links == if m == JunctionStep then Rerouted(c) else p.links
  {
    if m < JunctionStep {
      StepOnRing(c, specials, m, p);
    } else if m == JunctionStep {
      StepAtJunction(c, specials, p);
    } else if m < PathLength {
      StepOnStretch(c, specials, m, p);
    }
  }

  lemma StepOnRing(c: Colour, specials: seq<Tile>, m: nat, p: Progress)
    requires c != White && Registered(specials) && m < JunctionStep && p.at == PathAt(c, m)
    requires p.links == DefaultLinks()
    ensures Step(HouseTable(), specials, c, p).at == PathAt(c, m + 1)
    ensures Step(HouseTable(), specials, c, p).links == p.links
  {
    RerouteOnRing(c, specials, m);
  }

  lemma StepAtJunction(c: Colour, specials: seq<Tile>, p: Progress)
    requires c != White && Registered(specials) && p.at == PathAt(c, JunctionStep)
    requires p.links == DefaultLinks()
    ensures Step(HouseTable(), specials, c, p).at == PathAt(c, JunctionStep + 1)
    ensures Step(HouseTable(), specials, c, p).links == Rerouted(c)
  {
    RerouteAtJunction(c, specials);
  }

  lemma StepOnStretch(c: Colour, specials: seq<Tile>, m: nat, p: Progress)
    requires c != White && Registered(specials) && JunctionStep < m < PathLength && p.at == PathAt(c, m)
    requires p.links == DefaultLinks() || p.links == Rerouted(c)
    ensures Step(HouseTable(), specials, c, p).at == PathAt(c, m + 1)
    ensures Step(HouseTable(), specials, c, p).links == p.links
  {
    RerouteOnStretch(c, specials, m, p.links);
  }

  /**
   * On a freshly built board, n moves of a disc of colour c from the k-th
   * tile of its route end on the (k+n)-th (or off the board past the 56th),
   * and the only link they change is the junction they leave by.
   */
  lemma {:induction false} PathWalk(c: Colour, specials: seq<Tile>, k: nat, n: nat)
    requires c != White && Registered(specials) && k <= PathLength
    ensures var p := Walk(DefaultLinks(), HouseTable(), specials, c, PathAt(c, k), n);
            p.at == PathAt(c, Min(k + n, PathLength)) &&
            p.links == (if k <= JunctionStep < k + n then Rerouted(c) else DefaultLinks())
    decreases n
  {
    if n > 0 {
      PathWalk(c, specials, k, n - 1);
      var p := Walk(DefaultLinks(), HouseTable(), specials, c, PathAt(c, k), n - 1);
      var m := Min(k + (n - 1), PathLength);
      assert Min(m + 1, PathLength) == Min(k + n, PathLength);
      StepAlongPath(c, specials, m, p);
    }
  }

  /**
   * A disc of each colour placed on its starting tile of a fresh board is
   * still on the board after 55 moves and leaves it (current tile null) on
   * the 56th.
   */
  lemma FiftySixMovesToFinish(c: Colour, specials: seq<Tile>, n: nat)
    requires c != White && Registered(specials)
    ensures Walk(DefaultLinks(), HouseTable(), specials, c, Some(StartTile(c)), n).at.None? <==> n >= PathLength
  {
    assert PathAt(c, 0) == Some(StartTile(c));
    PathWalk(c, specials, 0, n);
  }
}
