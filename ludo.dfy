/**
 * The board and its discs as mutable objects: the tile arena the builder
 * fills in place, discs that rewrite junction links and advance along them,
 * homes that create the discs, and the game that moves a disc by the
 * committed roll and passes the turn on.
 */
module Ludo {
  import opened Wrappers
  import opened Topology
  import opened Rules
  import opened Turns

  /** Tile t's cell is among the first k of the builder's 18 (lane, index) cells. */
  ghost predicate Before(k: int, t: Tile)
  {
    6 * t.lane + t.idx < k
  }

  /** Tile t's link is final once the builder has visited k cells. */
  ghost predicate Done(k: int, t: Tile)
  {
    Before(k, t) || (k > 6 && IsJunction(t))
  }

  /** Tiles whose link the callback for cell (i, j) leaves final: the cell's own four and, on lane 1, the junctions. */
  ghost predicate Covers(i: Lane, j: Idx, t: Tile)
  {
    (t.lane == i && t.idx == j) || (i == 1 && IsJunction(t))
  }

  /** A lane-1 tile's link inside its stretch: one step on (up for green, down for the others), none past the end. */
  function StretchLink(t: Tile): Option<Tile>
  {
    if t.arm == Left then TileAt(Left, t.lane, t.idx + 1) else TileAt(t.arm, t.lane, t.idx - 1)
  }

  /** The links after the callback's lane-0 or lane-2 block for index j: the four tiles at (i, j) take their default links. */
  function OwnCell(i: Lane, j: Idx, s: seq<Option<Tile>>): (r: seq<Option<Tile>>)
    requires |s| == NumTiles
    ensures |r| == NumTiles
  {
    var l, rt, tp, b := Tile(Left, i, j), Tile(Right, i, j), Tile(Top, i, j), Tile(Bottom, i, j);
    s[Slot(l) := DefaultNext(l)][Slot(rt) := DefaultNext(rt)][Slot(tp) := DefaultNext(tp)][Slot(b) := DefaultNext(b)]
  }

  /** The links after the callback's stretch block for index j: the four lane-1 tiles at j take their stretch links. */
  function StretchCell(j: Idx, s: seq<Option<Tile>>): (r: seq<Option<Tile>>)
    requires |s| == NumTiles
    ensures |r| == NumTiles
  {
    var l, rt, tp, b := Tile(Left, 1, j), Tile(Right, 1, j), Tile(Top, 1, j), Tile(Bottom, 1, j);
    s[Slot(l) := StretchLink(l)][Slot(rt) := StretchLink(rt)][Slot(tp) := StretchLink(tp)][Slot(b) := StretchLink(b)]
  }

  /** The links after the callback's junction block: each junction leads on round the ring. */
  function JunctionCell(s: seq<Option<Tile>>): (r: seq<Option<Tile>>)
    requires |s| == NumTiles
    ensures |r| == NumTiles
  {
    s[Slot(Junction(Left)) := DefaultNext(Junction(Left))][Slot(Junction(Right)) := DefaultNext(Junction(Right))]
      [Slot(Junction(Top)) := DefaultNext(Junction(Top))][Slot(Junction(Bottom)) := DefaultNext(Junction(Bottom))]
  }

  /** The links after the whole callback for cell (i, j). */
  function LinkCell(i: Lane, j: Idx, s: seq<Option<Tile>>): (r: seq<Option<Tile>>)
    requires |s| == NumTiles
    ensures |r| == NumTiles
  {
    if i == 1 then JunctionCell(StretchCell(j, s)) else OwnCell(i, j, s)
  }

  /** The houses after the callback for cell (i, j): the cell's four tiles take their arm's colour. */
  function HouseCell(i: Lane, j: Idx, s: seq<Colour>): (r: seq<Colour>)
    requires |s| == NumTiles
    ensures |r| == NumTiles
  {
    s[Slot(Tile(Left, i, j)) := Green][Slot(Tile(Right, i, j)) := Blue][Slot(Tile(Top, i, j)) := Red][Slot(Tile(Bottom, i, j)) := Yellow]
  }

  /** Tile by tile, the lane-0 or lane-2 block for (i, j) sets exactly the cell's four tiles to their default links. */
  lemma OwnCellAt(i: Lane, j: Idx, s: seq<Option<Tile>>, t: Tile)
    requires |s| == NumTiles
    ensures OwnCell(i, j, s)[Slot(t)] == if t.lane == i && t.idx == j then DefaultNext(t) else s[Slot(t)]
  {
    SlotInjective(t, Tile(Left, i, j));
    SlotInjective(t, Tile(Right, i, j));
    SlotInjective(t, Tile(Top, i, j));
    SlotInjective(t, Tile(Bottom, i, j));
  }

  /** Tile by tile, the stretch block for index j sets exactly the four lane-1 tiles at j to their stretch links. */
  lemma StretchCellAt(j: Idx, s: seq<Option<Tile>>, t: Tile)
    requires |s| == NumTiles
    ensures StretchCell(j, s)[Slot(t)] == if t.lane == 1 && t.idx == j then StretchLink(t) else s[Slot(t)]
  {
    SlotInjective(t, Tile(Left, 1, j));
    SlotInjective(t, Tile(Right, 1, j));
    SlotInjective(t, Tile(Top, 1, j));
    SlotInjective(t, Tile(Bottom, 1, j));
  }

  /** Tile by tile, the junction block sets exactly the four junctions to their ring links. */
  lemma JunctionCellAt(s: seq<Option<Tile>>, t: Tile)
    requires |s| == NumTiles
    ensures JunctionCell(s)[Slot(t)] == if IsJunction(t) then DefaultNext(t) else s[Slot(t)]
  {
    SlotInjective(t, Junction(Left));
    SlotInjective(t, Junction(Right));
    SlotInjective(t, Junction(Top));
    SlotInjective(t, Junction(Bottom));
  }

  /** Away from the junctions, a stretch link is the tile's default link. */
  lemma StretchLinkIsDefault(t: Tile)
    requires t.lane == 1 && !IsJunction(t)
    ensures StretchLink(t) == DefaultNext(t)
  {
  }

  /** Tile by tile, the callback for (i, j) sets exactly the covered tiles to their default link. */
  lemma LinkCellAt(i: Lane, j: Idx, s: seq<Option<Tile>>, t: Tile)
    requires |s| == NumTiles
    ensures LinkCell(i, j, s)[Slot(t)] == if Covers(i, j, t) then DefaultNext(t) else s[Slot(t)]
  {
    if i == 1 {
      StretchCellAt(j, s, t);
      JunctionCellAt(StretchCell(j, s), t);
      if t.lane == 1 && !IsJunction(t) {
        StretchLinkIsDefault(t);
      }
    } else {
      OwnCellAt(i, j, s, t);
    }
  }

  /** Tile by tile, the callback for (i, j) stamps exactly the cell's four tiles with their arm's colour. */
  lemma HouseCellAt(i: Lane, j: Idx, s: seq<Colour>, t: Tile)
    requires |s| == NumTiles
    ensures HouseCell(i, j, s)[Slot(t)] == if t.lane == i && t.idx == j then ArmColour(t.arm) else s[Slot(t)]
  {
    SlotInjective(t, Tile(Left, i, j));
    SlotInjective(t, Tile(Right, i, j));
    SlotInjective(t, Tile(Top, i, j));
    SlotInjective(t, Tile(Bottom, i, j));
  }

  /** The links once the builder has visited k cells, starting from links s. */
  ghost function Drawn(k: int, s: seq<Option<Tile>>): (r: seq<Option<Tile>>)
    requires |s| == NumTiles
    ensures |r| == NumTiles
  {
    seq(NumTiles, m requires 0 <= m < NumTiles => if Done(k, TileOfSlot(m)) then DefaultNext(TileOfSlot(m)) else s[m])
  }

  /** The houses once the builder has visited k cells, starting from houses s. */
  ghost function Stamped(k: int, s: seq<Colour>): (r: seq<Colour>)
    requires |s| == NumTiles
    ensures |r| == NumTiles
  {
    seq(NumTiles, m requires 0 <= m < NumTiles => if Before(k, TileOfSlot(m)) then ArmColour(TileOfSlot(m).arm) else s[m])
  }

  /** Visiting cell (i, j) as the next cell extends the links already drawn by exactly that cell. */
  lemma DrawnStep(i: Lane, j: Idx, s: seq<Option<Tile>>)
    requires |s| == NumTiles
    ensures LinkCell(i, j, Drawn(6 * i + j, s)) == Drawn(6 * i + j + 1, s)
  {
    var before, after := Drawn(6 * i + j, s), Drawn(6 * i + j + 1, s);
    forall m | 0 <= m < NumTiles
      ensures LinkCell(i, j, before)[m] == after[m]
    {
      SlotOfTileOfSlot(m);
      LinkCellAt(i, j, before, TileOfSlot(m));
    }
  }

  /** Visiting cell (i, j) as the next cell extends the houses already stamped by exactly that cell. */
  lemma StampedStep(i: Lane, j: Idx, s: seq<Colour>)
    requires |s| == NumTiles
    ensures HouseCell(i, j, Stamped(6 * i + j, s)) == Stamped(6 * i + j + 1, s)
  {
    var before, after := Stamped(6 * i + j, s), Stamped(6 * i + j + 1, s);
    forall m | 0 <= m < NumTiles
      ensures HouseCell(i, j, before)[m] == after[m]
    {
      SlotOfTileOfSlot(m);
      HouseCellAt(i, j, before, TileOfSlot(m));
    }
  }

  /** Before any cell the builder has changed nothing; after all 18 every tile holds its default link and house. */
  lemma DrawnBounds(links: seq<Option<Tile>>, houses: seq<Colour>)
    requires |links| == NumTiles && |houses| == NumTiles
    ensures Drawn(0, links) == links && Stamped(0, houses) == houses
    ensures Drawn(18, links) == DefaultLinks() && Stamped(18, houses) == HouseTable()
  {
    forall m | 0 <= m < NumTiles
      ensures Drawn(18, links)[m] == DefaultLinks()[m] && Stamped(18, houses)[m] == HouseTable()[m]
    {
      SlotOfTileOfSlot(m);
    }
  }

  /** Special tiles the callback for cell (i, j) registers, in order. */
  function CellSpecials(i: Lane, j: Idx): seq<Tile>
  {
    if i == 1 && j == 0 then [Junction(Left)]
    else if i == 1 && j == 5 then [Junction(Right), Junction(Top), Junction(Bottom)]
    else []
  }

  /** Special tiles registered once k cells are done. */
  function SpecialsBefore(k: int): seq<Tile>
  {
    if k <= 6 then [] else if k <= 11 then [Junction(Left)] else JunctionOrder()
  }

  /** The callback for the next cell (i, j) extends the registered special tiles to those of one more cell. */
  lemma SpecialsStep(i: Lane, j: Idx, s: seq<Tile>)
    ensures s + SpecialsBefore(6 * i + j) + CellSpecials(i, j) == s + SpecialsBefore(6 * i + j + 1)
  {
    if i == 1 && j == 5 {
      assert SpecialsBefore(11) + CellSpecials(1, 5) == JunctionOrder();
    }
  }

  /** Starting tiles the callback for cell (i, j) records. */
  function CellStarts(i: Lane, j: Idx): map<Colour, Tile>
  {
    if i == 0 && j == 1 then map[Green := StartTile(Green)]
    else if i == 0 && j == 4 then map[Yellow := StartTile(Yellow)]
    else if i == 2 && j == 4 then map[Red := StartTile(Red), Blue := StartTile(Blue)]
    else map[]
  }

  /** Starting tiles recorded once k cells are done. */
  function StartsBefore(k: int): map<Colour, Tile>
  {
    var g := if k > 1 then map[Green := StartTile(Green)] else map[];
    var y := if k > 4 then g[Yellow := StartTile(Yellow)] else g;
    if k > 16 then y[Red := StartTile(Red)][Blue := StartTile(Blue)] else y
  }

  /** The callback for the next cell (i, j) extends the recorded starting tiles to those of one more cell. */
  lemma StartsStep(i: Lane, j: Idx, m: map<Colour, Tile>)
    ensures m + StartsBefore(6 * i + j) + CellStarts(i, j) == m + StartsBefore(6 * i + j + 1)
  {
  }

  /** The occupancy slots after disc d has occupied each tile of `visited` in turn. */
  function Occupy(occ: seq<Disc?>, visited: seq<Tile>, d: Disc): (r: seq<Disc?>)
    requires |occ| == NumTiles
    ensures |r| == NumTiles
    decreases |visited|
  {
    if visited == [] then occ
    else Occupy(occ, visited[..|visited| - 1], d)[Slot(visited[|visited| - 1]) := d]
  }

  /** A tile's occupant after the walk is the walking disc exactly when the walk visited it; otherwise it is unchanged. */
  lemma {:induction false} OccupyAt(occ: seq<Disc?>, visited: seq<Tile>, d: Disc, t: Tile)
    requires |occ| == NumTiles
    ensures Occupy(occ, visited, d)[Slot(t)] == if t in visited then d else occ[Slot(t)]
    decreases |visited|
  {
    if visited != [] {
      var init, last := visited[..|visited| - 1], visited[|visited| - 1];
      assert visited == init + [last];
      OccupyAt(occ, init, d, t);
      SlotInjective(t, last);
    }
  }

  /**
   * The tile arena: per tile its link, its house and its occupant, the
   * special tiles registry and the starting tile recorded per colour.
   */
  class Board {
    const next: array<Option<Tile>>
    const house: array<Colour>
    const occupant: array<Disc?>
    var specialTiles: seq<Tile>
    var staringTiles: map<Colour, Tile>

    ghost predicate Valid()
      reads this
    {
      next.Length == NumTiles && house.Length == NumTiles && occupant.Length == NumTiles
    }

    /** A board built and not being walked: default links, houses by arm, junctions registered, starts recorded. */
    ghost predicate Built()
      requires Valid()
      reads this, next, house
    {
      next[..] == DefaultLinks() && house[..] == HouseTable() &&
      Registered(specialTiles) && staringTiles == StartingTable()
    }

    /** The tile a disc of colour c is placed on when created (null for an unrecorded colour). */
    function StartingTileOf(c: Colour): Option<Tile>
      reads this
    {
      if c in staringTiles then Some(staringTiles[c]) else None
    }

    /** Tile t as created: no link, no occupant, house white. */
    ghost predicate Blank(t: Tile)
      requires Valid()
      reads this, next, house, occupant
    {
      next[Slot(t)] == None && house[Slot(t)] == White && occupant[Slot(t)] == null
    }

    /** Storage for the 72 tiles, an empty special tiles registry and no starting tile. */
    constructor ()
      ensures Valid() && fresh(next) && fresh(house) && fresh(occupant)
      ensures specialTiles == [] && staringTiles == map[]
    {
      next := new Option<Tile>[NumTiles];
      house := new Colour[NumTiles];
      occupant := new Disc?[NumTiles];
      specialTiles := [];
      staringTiles := map[];
    }

    /** Creates tile t: no link, no occupant, house white; no other tile changes. */
    method InitTile(t: Tile)
      requires Valid()
      modifies next, house, occupant
      ensures Blank(t)
      ensures forall u :: u != t ==>
                next[Slot(u)] == old(next[Slot(u)]) && house[Slot(u)] == old(house[Slot(u)]) &&
                occupant[Slot(u)] == old(occupant[Slot(u)])
    {
      next[Slot(t)] := None;
      house[Slot(t)] := White;
      occupant[Slot(t)] := null;
    }

    /** Creates the 6 tiles of each of the 3 lanes of each of the 4 arms, left and right first. */
    method GenerateTiles()
      requires Valid()
      modifies next, house, occupant
      ensures forall t :: Blank(t)
    {
      for i := 0 to 3
        invariant forall t: Tile :: (t.arm == Left || t.arm == Right) && t.lane < i ==> Blank(t)
      {
        for j := 0 to 6
          invariant forall t: Tile :: (t.arm == Left || t.arm == Right) && (t.lane < i || (t.lane == i && t.idx < j)) ==> Blank(t)
        {
          InitTile(Tile(Left, i, j));
          InitTile(Tile(Right, i, j));
        }
      }
      for i := 0 to 3
        invariant forall t: Tile :: (t.arm == Left || t.arm == Right || t.lane < i) ==> Blank(t)
      {
        for j := 0 to 6
          invariant forall t: Tile :: (t.arm == Left || t.arm == Right || t.lane < i || (t.lane == i && t.idx < j)) ==> Blank(t)
        {
          InitTile(Tile(Top, i, j));
          InitTile(Tile(Bottom, i, j));
        }
      }
    }

    /** The lane-0 block of the builder's callback: the outer lanes feed one another round the board. */
    method LinkLane0(j: Idx)
      requires Valid()
      modifies next
      ensures next[..] == OwnCell(0, j, old(next[..]))
    {
      var l, r, tp, b := Slot(Tile(Left, 0, j)), Slot(Tile(Right, 0, j)), Slot(Tile(Top, 0, j)), Slot(Tile(Bottom, 0, j));
      if j == 5 {
        next[l] := Some(Tile(Top, 0, 0));
        next[tp] := Some(Tile(Top, 1, j));
        next[r] := Some(Tile(Right, 1, j));
        next[b] := Some(Tile(Bottom, 0, j - 1));
        assert next[..] == old(next[..])[l := Some(Tile(Top, 0, 0))][tp := Some(Tile(Top, 1, j))][r := Some(Tile(Right, 1, j))][b := Some(Tile(Bottom, 0, j - 1))];
      } else {
        next[l] := Some(Tile(Left, 0, j + 1));
        next[tp] := Some(Tile(Top, 0, j + 1));
        next[r] := Some(Tile(Right, 0, j + 1));
        next[b] := if j == 0 then Some(Tile(Left, 2, 5)) else Some(Tile(Bottom, 0, j - 1));
      }
    }

    /** The first lane-1 block of the builder's callback: the home stretches, left running up and the others down, each ending in null. */
    method LinkStretch(j: Idx)
      requires Valid()
      modifies next
      ensures next[..] == StretchCell(j, old(next[..]))
    {
      var l, r, tp, b := Slot(Tile(Left, 1, j)), Slot(Tile(Right, 1, j)), Slot(Tile(Top, 1, j)), Slot(Tile(Bottom, 1, j));
      next[l] := TileAt(Left, 1, j + 1);
      next[r] := TileAt(Right, 1, j - 1);
      next[tp] := TileAt(Top, 1, j - 1);
      next[b] := TileAt(Bottom, 1, j - 1);
      if j == 0 {
        next[r] := None;
        next[tp] := None;
        next[b] := None;
      }
      if j == 5 {
        next[l] := None;
      }
    }

    /** The second lane-1 block of the builder's callback: the four junctions continue the ring. */
    method LinkJunctions()
      requires Valid()
      modifies next
      ensures next[..] == JunctionCell(old(next[..]))
    {
      next[Slot(Tile(Left, 1, 0))] := Some(Tile(Left, 0, 0));
      next[Slot(Tile(Top, 1, 5))] := Some(Tile(Top, 2, 5));
      next[Slot(Tile(Right, 1, 5))] := Some(Tile(Right, 2, 5));
      next[Slot(Tile(Bottom, 1, 5))] := Some(Tile(Bottom, 0, 5));
    }

    /** The lane-2 block of the builder's callback: the inner lanes, running toward the centre's neighbours. */
    method LinkLane2(j: Idx)
      requires Valid()
      modifies next
      ensures next[..] == OwnCell(2, j, old(next[..]))
    {
      var l, r, tp, b := Slot(Tile(Left, 2, j)), Slot(Tile(Right, 2, j)), Slot(Tile(Top, 2, j)), Slot(Tile(Bottom, 2, j));
      if j == 0 {
        next[l] := Some(Tile(Left, 1, 0));
        next[tp] := Some(Tile(Right, 0, 0));
        next[r] := Some(Tile(Bottom, 2, 0));
        next[b] := Some(Tile(Bottom, 2, j + 1));
        assert next[..] == old(next[..])[l := Some(Tile(Left, 1, 0))][tp := Some(Tile(Right, 0, 0))][r := Some(Tile(Bottom, 2, 0))][b := Some(Tile(Bottom, 2, j + 1))];
      } else if j == 5 {
        next[l] := Some(Tile(Left, 2, j - 1));
        next[tp] := Some(Tile(Top, 2, j - 1));
        next[r] := Some(Tile(Right, 2, j - 1));
        next[b] := Some(Tile(Bottom, 1, 5));
        assert next[..] == old(next[..])[l := Some(Tile(Left, 2, j - 1))][tp := Some(Tile(Top, 2, j - 1))][r := Some(Tile(Right, 2, j - 1))][b := Some(Tile(Bottom, 1, 5))];
      } else {
        next[l] := Some(Tile(Left, 2, j - 1));
        next[tp] := Some(Tile(Top, 2, j - 1));
        next[r] := Some(Tile(Right, 2, j - 1));
        next[b] := Some(Tile(Bottom, 2, j + 1));
      }
    }

    /** The lane-1 registrations of the builder's callback: the left junction at index 0, the other three at index 5. */
    method RegisterSpecials(i: Lane, j: Idx)
      modifies this`specialTiles
      ensures specialTiles == old(specialTiles) + CellSpecials(i, j)
    {
      if i == 1 {
        if j == 0 {
          specialTiles := specialTiles + [Tile(Left, i, j)];
        }
        if j == 5 {
          specialTiles := specialTiles + [Tile(Right, i, j), Tile(Top, i, j), Tile(Bottom, i, j)];
        }
      }
    }

    /** The starting-tile records of the builder's callback: green and yellow on lane 0, red and blue on lane 2. */
    method RecordStarts(i: Lane, j: Idx)
      modifies this`staringTiles
      ensures staringTiles == old(staringTiles) + CellStarts(i, j)
    {
      if i == 0 {
        if j == 1 {
          staringTiles := staringTiles[Green := Tile(Left, i, j)];
        }
        if j == 4 {
          staringTiles := staringTiles[Yellow := Tile(Bottom, i, j)];
        }
      }
      if i == 2 && j == 4 {
        staringTiles := staringTiles[Red := Tile(Top, i, j)];
        staringTiles := staringTiles[Blue := Tile(Right, i, j)];
      }
    }

    /** The closing block of the builder's callback: each of the four tiles at (i, j) takes its arm's house. */
    method StampHouses(i: Lane, j: Idx)
      requires Valid()
      modifies house
      ensures house[..] == HouseCell(i, j, old(house[..]))
    {
      house[Slot(Tile(Left, i, j))] := Green;
      house[Slot(Tile(Right, i, j))] := Blue;
      house[Slot(Tile(Top, i, j))] := Red;
      house[Slot(Tile(Bottom, i, j))] := Yellow;
    }

    /**
     * The builder's callback for lane i, index j: rewrites the links of the
     * four tiles at (i, j) (and, on lane 1, of the four junctions) so that
     * each of them holds its default link, registers special tiles, records
     * starting tiles and stamps the four tiles' houses.
     */
    method DrawCell(i: Lane, j: Idx)
      requires Valid()
      modifies next, house, this`specialTiles, this`staringTiles
      ensures next[..] == LinkCell(i, j, old(next[..]))
      ensures house[..] == HouseCell(i, j, old(house[..]))
      ensures specialTiles == old(specialTiles) + CellSpecials(i, j)
      ensures staringTiles == old(staringTiles) + CellStarts(i, j)
    {
      if i == 0 {
        LinkLane0(j);
      } else if i == 1 {
        LinkStretch(j);
        LinkJunctions();
      } else {
        LinkLane2(j);
      }
      RegisterSpecials(i, j);
      RecordStarts(i, j);
      StampHouses(i, j);
    }

    /**
     * The builder's progress after k of its 18 cells, from the links, houses,
     * registry and starting tiles it began with.
     */
    ghost predicate DrawnUpTo(k: int, links: seq<Option<Tile>>, houses: seq<Colour>, specials: seq<Tile>, starts: map<Colour, Tile>)
      requires Valid() && |links| == NumTiles && |houses| == NumTiles
      reads this, next, house
    {
      next[..] == Drawn(k, links) && house[..] == Stamped(k, houses) &&
      specialTiles == specials + SpecialsBefore(k) && staringTiles == starts + StartsBefore(k)
    }

    /** The builder's outer callback for lane i: visiting the lane's six cells advances the builder by six cells. */
    method DrawRow(i: Lane, ghost links: seq<Option<Tile>>, ghost houses: seq<Colour>, ghost specials: seq<Tile>, ghost starts: map<Colour, Tile>)
      requires Valid() && |links| == NumTiles && |houses| == NumTiles
      requires DrawnUpTo(6 * i, links, houses, specials, starts)
      modifies next, house, this`specialTiles, this`staringTiles
      ensures DrawnUpTo(6 * i + 6, links, houses, specials, starts)
    {
      for j := 0 to 6
        invariant DrawnUpTo(6 * i + j, links, houses, specials, starts)
      {
        DrawnStep(i, j, links);
        StampedStep(i, j, houses);
        SpecialsStep(i, j, specials);
        StartsStep(i, j, starts);
        DrawCell(i, j);
      }
    }

    /**
     * The board builder: visits every (lane, index) cell in order. Whatever
     * the links were before, afterwards every tile holds its default link
     * and its arm's house; the four junctions are appended to the registry
     * and the four starting tiles recorded.
     */
    method DrawTiles()
      requires Valid()
      modifies next, house, this`specialTiles, this`staringTiles
      ensures next[..] == DefaultLinks()
      ensures house[..] == HouseTable()
      ensures specialTiles == old(specialTiles) + JunctionOrder()
      ensures staringTiles == old(staringTiles) + StartingTable()
    {
      DrawnBounds(old(next[..]), old(house[..]));
      assert old(staringTiles) + StartsBefore(0) == old(staringTiles);
      for i := 0 to 3
        invariant DrawnUpTo(6 * i, old(next[..]), old(house[..]), old(specialTiles), old(staringTiles))
      {
        DrawRow(i, old(next[..]), old(house[..]), old(specialTiles), old(staringTiles));
      }
      assert StartsBefore(18) == StartingTable();
    }

    /**
     * One tick of the redraw interval: re-running the builder puts every
     * link back to its default (undoing any reroute) and appends the four
     * junctions again, so a board that was built stays built.
     */
    method AnimationTick()
      requires Valid()
      modifies next, house, this`specialTiles, this`staringTiles
      ensures next[..] == DefaultLinks() && house[..] == HouseTable()
      ensures specialTiles == old(specialTiles) + JunctionOrder()
      ensures Registered(old(specialTiles)) && old(staringTiles) == StartingTable() ==> Built()
    {
      RegistryAfterBuild(specialTiles);
      DrawTiles();
    }
  }

  /** A disc: its house, the tile it is on (null: none), and whether it has left its home. */
  class Disc {
    const house: Colour
    var currentTile: Option<Tile>
    var isOutOfHouse: bool

    /** A disc of a home's colour, placed on the starting tile recorded for that colour. */
    constructor (board: Board, house: Colour)
      ensures this.house == house && !isOutOfHouse
      ensures currentTile == board.StartingTileOf(house)
    {
      this.house := house;
      isOutOfHouse := false;
      currentTile := board.StartingTileOf(house);
    }

    /**
     * Occupies the current tile; on a registered special tile whose house is
     * the disc's colour, points that tile's link into the colour's stretch.
     */
    method DecideNextTileForSpecialTiles(board: Board)
      requires board.Valid()
      modifies this`isOutOfHouse, board.next, board.occupant
      ensures currentTile.None? ==> isOutOfHouse == old(isOutOfHouse) && unchanged(board.next, board.occupant)
      ensures currentTile.Some? ==>
                var t := currentTile.value;
                isOutOfHouse &&
                board.occupant[..] == old(board.occupant[..])[Slot(t) := this] &&
                board.next[..] == Reroute(old(board.next[..]), board.house[..], board.specialTiles, house, t)
    {
      if currentTile.Some? {
        var t := currentTile.value;
        isOutOfHouse := true;
        board.occupant[Slot(t)] := this;
        if t in board.specialTiles {
          if board.occupant[Slot(t)] != null && board.house[Slot(t)] == house {
            match house
            case Blue => board.next[Slot(t)] := Some(Tile(Right, 1, 4));
            case Yellow => board.next[Slot(t)] := Some(Tile(Bottom, 1, 4));
            case Red => board.next[Slot(t)] := Some(Tile(Top, 1, 4));
            case Green => board.next[Slot(t)] := Some(Tile(Left, 1, 1));
            case White =>
          }
        }
      }
    }

    /** One move: the occupancy/reroute step, then follow the current tile's link; nothing when off the board. */
    method Move(board: Board)
      requires board.Valid()
      modifies this, board.next, board.occupant
      ensures old(currentTile).None? ==>
                unchanged(this, board.next, board.occupant)
      ensures old(currentTile).Some? ==>
                var t := old(currentTile).value;
                isOutOfHouse &&
                board.next[..] == Reroute(old(board.next[..]), board.house[..], board.specialTiles, house, t) &&
                currentTile == board.next[Slot(t)] &&
                board.occupant[..] == old(board.occupant[..])[Slot(t) := this]
    {
      DecideNextTileForSpecialTiles(board);
      if currentTile.Some? {
        currentTile := board.next[Slot(currentTile.value)];
      }
    }

    /** The move loop of a turn: `steps` consecutive moves, i.e. the walk of that length from the current tile. */
    method Advance(board: Board, steps: nat)
      requires board.Valid()
      modifies this, board.next, board.occupant
      ensures var w := Walk(old(board.next[..]), board.house[..], board.specialTiles, house, old(currentTile), steps);
              board.next[..] == w.links && currentTile == w.at &&
              board.occupant[..] == Occupy(old(board.occupant[..]), w.visited, this) &&
              isOutOfHouse == (old(isOutOfHouse) || |w.visited| > 0)
    {
      for i := 0 to steps
        invariant var w := Walk(old(board.next[..]), board.house[..], board.specialTiles, house, old(currentTile), i);
                  board.next[..] == w.links && currentTile == w.at &&
                  board.occupant[..] == Occupy(old(board.occupant[..]), w.visited, this) &&
                  isOutOfHouse == (old(isOutOfHouse) || |w.visited| > 0)
      {
        ghost var w := Walk(old(board.next[..]), board.house[..], board.specialTiles, house, old(currentTile), i);
        Move(board);
        if w.at.Some? {
          assert (w.visited + [w.at.value])[..|w.visited|] == w.visited;
        }
      }
    }
  }

  /** A home of one colour with its four discs. */
  class Home {
    const colour: Colour
    const discs: seq<Disc>

    /** Four new discs of the home's colour, each on that colour's recorded starting tile. */
    constructor (board: Board, colour: Colour)
      ensures this.colour == colour && |discs| == 4
      ensures forall a, b :: 0 <= a < b < |discs| ==> discs[a] != discs[b]
      ensures forall d :: d in discs ==>
                fresh(d) && d.house == colour && !d.isOutOfHouse && d.currentTile == board.StartingTileOf(colour)
    {
      this.colour := colour;
      var d0 := new Disc(board, colour);
      var d1 := new Disc(board, colour);
      var d2 := new Disc(board, colour);
      var d3 := new Disc(board, colour);
      discs := [d0, d1, d2, d3];
    }
  }

  /** The homes' colours, in the order every player-count case creates them. */
  function HomeColours(): seq<Colour>
  {
    [Green, Yellow, Red, Blue]
  }

  /**
   * The player-count switch: four homes (green, yellow, red, blue) with four
   * discs each for 2, 3 or 4 players; any other count is an error.
   */
  method BuildHomes(board: Board, numberOfPlayers: int) returns (r: Result<seq<Home>>)
    ensures r.Err? <==> !(2 <= numberOfPlayers <= 4)
    ensures r.Ok? ==>
              |r.value| == 4 &&
              (forall a :: 0 <= a < 4 ==> r.value[a].colour == HomeColours()[a]) &&
              forall h :: h in r.value ==>
                fresh(h) && |h.discs| == 4 &&
                forall d :: d in h.discs ==>
                  fresh(d) && d.house == h.colour && !d.isOutOfHouse && d.currentTile == board.StartingTileOf(h.colour)
  {
    if !(2 <= numberOfPlayers <= 4) {
      return Err("Number of players cannot be less than 2");
    }
    var green := new Home(board, Green);
    var yellow := new Home(board, Yellow);
    var red := new Home(board, Red);
    var blue := new Home(board, Blue);
    r := Ok([green, yellow, red, blue]);
  }

  /** The game: the board, the homes, the turn order, whose turn it is and the committed roll. */
  class Game {
    const board: Board
    const homes: seq<Home>
    const players: seq<Colour>
    var currentPlayer: Option<Colour>
    var randNumbs: (nat, nat)

    ghost predicate Valid()
      reads this, board, board.next, board.house
    {
      board.Valid() && board.Built() &&
      |players| > 0 && Distinct(players) && White !in players &&
      currentPlayer.Some? && currentPlayer.value in players
    }

    /** A game on a built board with the first player to move and no roll committed. */
    constructor (board: Board, homes: seq<Home>, players: seq<Colour>)
      requires board.Valid() && board.Built()
      requires |players| > 0 && Distinct(players) && White !in players
      ensures Valid()
      ensures this.board == board && this.homes == homes && this.players == players
      ensures currentPlayer == Some(players[0]) && randNumbs == (0, 0)
    {
      this.board := board;
      this.homes := homes;
      this.players := players;
      currentPlayer := Some(players[0]);
      randNumbs := (0, 0);
    }

    /** Commits a roll of the two dice. */
    method CommitRoll(first: nat, second: nat)
      requires 1 <= first <= 6 && 1 <= second <= 6
      modifies this`randNumbs
      ensures randNumbs == (first, second)
    {
      randNumbs := (first, second);
    }

    /**
     * A click that hits `disc`: when it is the current player's disc, moves
     * it randNumbs.0 times, rebuilds the links, clears the roll and passes
     * the turn to the next player; otherwise changes nothing.
     */
    method UpdateGameState(disc: Disc, hit: bool)
      requires Valid()
      modifies disc, board.next, board.occupant, board.house, board, this
      ensures Valid()
      ensures !(hit && old(currentPlayer) == Some(disc.house)) ==>
                unchanged(disc, board, board.next, board.house, board.occupant, this)
      ensures hit && old(currentPlayer) == Some(disc.house) ==>
                var w := Walk(DefaultLinks(), HouseTable(), old(board.specialTiles), disc.house, old(disc.currentTile), old(randNumbs.0));
                disc.currentTile == w.at &&
                disc.isOutOfHouse == (old(disc.isOutOfHouse) || |w.visited| > 0) &&
                board.occupant[..] == Occupy(old(board.occupant[..]), w.visited, disc) &&
                board.specialTiles == old(board.specialTiles) + JunctionOrder() &&
                randNumbs == (0, 0) &&
                currentPlayer == Some(NextPlayer(players, old(currentPlayer)))
      ensures hit && old(currentPlayer) == Some(disc.house) ==>
                forall k :: 0 <= k <= PathLength && old(disc.currentTile) == PathAt(disc.house, k) ==>
                  disc.currentTile == PathAt(disc.house, Min(k + old(randNumbs.0), PathLength))
    {
      if hit && currentPlayer == Some(disc.house) {
        ghost var specials := board.specialTiles;
        ghost var start := disc.currentTile;
        var steps := randNumbs.0;
        disc.Advance(board, steps);
        forall k | 0 <= k <= PathLength && start == PathAt(disc.house, k)
          ensures disc.currentTile == PathAt(disc.house, Min(k + steps, PathLength))
        {
          PathWalk(disc.house, specials, k, steps);
        }
        RegistryAfterBuild(board.specialTiles);
        board.DrawTiles();
        randNumbs := (0, 0);
        currentPlayer := Some(NextPlayer(players, currentPlayer));
      }
    }
  }

  /**
   * Start-up: generate and build the board, then the player-count switch.
   * For 2, 3 or 4 players the game has the four homes, the turn order for
   * that count, the first player to move, and every disc on its colour's
   * starting tile; any other count is an error.
   */
  method Start(numberOfPlayers: int) returns (r: Result<Game>)
    ensures r.Err? <==> PlayerOrder(numberOfPlayers).None?
    ensures r.Ok? ==>
              var g := r.value;
              fresh(g) && g.Valid() &&
              Some(g.players) == PlayerOrder(numberOfPlayers) &&
              g.currentPlayer == Some(g.players[0]) && g.randNumbs == (0, 0) &&
              |g.homes| == 4 &&
              (forall a :: 0 <= a < 4 ==> g.homes[a].colour == HomeColours()[a]) &&
              forall h :: h in g.homes ==>
                |h.discs| == 4 &&
                forall d :: d in h.discs ==>
                  d.house == h.colour && !d.isOutOfHouse && d.currentTile == Some(StartTile(h.colour))
  {
    var board := new Board();
    board.GenerateTiles();
    RegistryAfterBuild([]);
    board.DrawTiles();
    var homes := BuildHomes(board, numberOfPlayers);
    if homes.Err? {
      return Err(homes.message);
    }
    var order := PlayerOrder(numberOfPlayers);
    var game := new Game(board, homes.value, order.value);
    r := Ok(game);
  }
}
