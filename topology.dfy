/**
 * The fixed shape of the Ludo board: four arms of three lanes of six tiles,
 * the link table that the board builder leaves behind, the 52-tile shared
 * ring, the four colour-private home stretches and the starting tiles.
 */
module Topology {
  import opened Wrappers

  /** The four arms of the cross-shaped board. */
  datatype Arm = Left | Right | Top | Bottom

  /** Colours of houses and discs; White is the house of a tile not yet stamped. */
  datatype Colour = Green | Red | Yellow | Blue | White

  type Lane = l: int | 0 <= l < 3
  type Idx = i: int | 0 <= i < 6

  /** A tile is named by its arm, its lane in that arm and its index in that lane. */
  datatype Tile = Tile(arm: Arm, lane: Lane, idx: Idx)

  const NumTiles: nat := 72
  const RingLength: nat := 52
  const StretchLength: nat := 5

  function ArmIndex(a: Arm): nat
  {
    match a
    case Left => 0
    case Right => 1
    case Top => 2
    case Bottom => 3
  }

  /** The tile stored at position k of the flat tile arena. */
  function TileOfSlot(k: int): (t: Tile)
    requires 0 <= k < NumTiles
    ensures 18 * ArmIndex(t.arm) + 6 * t.lane + t.idx == k
  {
    var a := if k < 18 then Left else if k < 36 then Right else if k < 54 then Top else Bottom;
    var r := k - 18 * ArmIndex(a);
    var lane := if r < 6 then 0 else if r < 12 then 1 else 2;
    Tile(a, lane, r - 6 * lane)
  }

  /** The arena position of a tile; distinct tiles get distinct positions. */
  function Slot(t: Tile): (k: nat)
    ensures k < NumTiles
  {
    18 * ArmIndex(t.arm) + 6 * t.lane + t.idx
  }

  /** Reading a tile back from its position gives the tile itself. */
  lemma TileOfSlotOfTile(t: Tile)
    ensures TileOfSlot(Slot(t)) == t
  {
  }

  /** Distinct tiles occupy distinct arena positions. */
  lemma SlotInjective(t: Tile, u: Tile)
    ensures Slot(t) == Slot(u) <==> t == u
  {
    TileOfSlotOfTile(t);
    TileOfSlotOfTile(u);
  }

  /** A tile of `lane` in arm `a`, or None (the source's `undefined`) off the end of the lane. */
  function TileAt(a: Arm, lane: Lane, j: int): (r: Option<Tile>)
    ensures r.Some? <==> 0 <= j < 6
    ensures r.Some? ==> r.value.arm == a && r.value.lane == lane && r.value.idx == j
  {
    if 0 <= j < 6 then Some(Tile(a, lane, j)) else None
  }

  /** The house every tile of an arm is stamped with. */
  function ArmColour(a: Arm): Colour
  {
    match a
    case Left => Green
    case Right => Blue
    case Top => Red
    case Bottom => Yellow
  }

  /** The arm whose tiles carry the house of colour c. */
  function HomeArm(c: Colour): (a: Arm)
    requires c != White
    ensures ArmColour(a) == c
  {
    match c
    case Green => Left
    case Blue => Right
    case Red => Top
    case Yellow => Bottom
  }

  /** The special (junction) tile of an arm: lane 1, index 0 on the left arm, index 5 elsewhere. */
  function Junction(a: Arm): Tile
  {
    if a == Left then Tile(Left, 1, 0) else Tile(a, 1, 5)
  }

  predicate IsJunction(t: Tile)
  {
    t == Junction(t.arm)
  }

  /** The order in which the builder registers the special tiles. */
  function JunctionOrder(): seq<Tile>
  {
    [Junction(Left), Junction(Right), Junction(Top), Junction(Bottom)]
  }

  /** The junction where a disc of colour c may turn into its home stretch. */
  function JunctionOf(c: Colour): Tile
    requires c != White
  {
    Junction(HomeArm(c))
  }

  /** The tile a disc's junction is rerouted to: the switch on the disc's house. */
  function StretchEntry(c: Colour): (r: Tile)
    requires c != White
    ensures r.arm == HomeArm(c) && r.lane == 1 && !IsJunction(r)
  {
    match c
    case Blue => Tile(Right, 1, 4)
    case Yellow => Tile(Bottom, 1, 4)
    case Red => Tile(Top, 1, 4)
    case Green => Tile(Left, 1, 1)
  }

  /** The i-th tile of colour c's private home stretch (lane 1 without its junction). */
  function StretchTile(c: Colour, i: int): Tile
    requires c != White && 0 <= i < StretchLength
  {
    if c == Green then Tile(Left, 1, 1 + i) else Tile(HomeArm(c), 1, 4 - i)
  }

  /** The starting tile the builder records for each colour. */
  function StartTile(c: Colour): (r: Tile)
    requires c != White
    ensures r.arm == HomeArm(c) && r.lane != 1
  {
    match c
    case Green => Tile(Left, 0, 1)
    case Yellow => Tile(Bottom, 0, 4)
    case Red => Tile(Top, 2, 4)
    case Blue => Tile(Right, 2, 4)
  }

  /** The starting tiles the builder records: one per colour of a house, none for white. */
  function StartingTable(): (r: map<Colour, Tile>)
    ensures forall c :: c in r <==> c != White
    ensures forall c :: c in r ==> c != White && r[c] == StartTile(c)
  {
    map[Green := StartTile(Green), Yellow := StartTile(Yellow),
        Red := StartTile(Red), Blue := StartTile(Blue)]
  }

  /**
   * The successor of each tile once the board builder has run: the value
   * left in `nextTile` after every overwrite of the builder.
   */
  function DefaultNext(t: Tile): (r: Option<Tile>)
    ensures r.None? <==> t.lane == 1 && t.idx == (if t.arm == Left then 5 else 0)
  {
    var j := t.idx;
    if t.lane == 0 then
      match t.arm
      case Left => if j < 5 then Some(Tile(Left, 0, j + 1)) else Some(Tile(Top, 0, 0))
      case Top => if j < 5 then Some(Tile(Top, 0, j + 1)) else Some(Tile(Top, 1, 5))
      case Right => if j < 5 then Some(Tile(Right, 0, j + 1)) else Some(Tile(Right, 1, 5))
      case Bottom => if j == 0 then Some(Tile(Left, 2, 5)) else Some(Tile(Bottom, 0, j - 1))
    else if t.lane == 1 then
      match t.arm
      case Left => if j == 0 then Some(Tile(Left, 0, 0)) else if j == 5 then None else Some(Tile(Left, 1, j + 1))
      case Top => if j == 5 then Some(Tile(Top, 2, 5)) else if j == 0 then None else Some(Tile(Top, 1, j - 1))
      case Right => if j == 5 then Some(Tile(Right, 2, 5)) else if j == 0 then None else Some(Tile(Right, 1, j - 1))
      case Bottom => if j == 5 then Some(Tile(Bottom, 0, 5)) else if j == 0 then None else Some(Tile(Bottom, 1, j - 1))
    else
      match t.arm
      case Left => if j == 0 then Some(Tile(Left, 1, 0)) else Some(Tile(Left, 2, j - 1))
      case Top => if j == 0 then Some(Tile(Right, 0, 0)) else Some(Tile(Top, 2, j - 1))
      case Right => if j == 0 then Some(Tile(Bottom, 2, 0)) else Some(Tile(Right, 2, j - 1))
      case Bottom => if j == 5 then Some(Tile(Bottom, 1, 5)) else Some(Tile(Bottom, 2, j + 1))
  }

  /** The link table as the arena holds it. */
  function DefaultLinks(): (s: seq<Option<Tile>>)
    ensures |s| == NumTiles
  {
    seq(NumTiles, k requires 0 <= k < NumTiles => DefaultNext(TileOfSlot(k)))
  }

  /** The houses as the arena holds them: every tile carries its arm's colour. */
  function HouseTable(): (s: seq<Colour>)
    ensures |s| == NumTiles
  {
    seq(NumTiles, k requires 0 <= k < NumTiles => ArmColour(TileOfSlot(k).arm))
  }

  /** The arena table holds each tile's default link at that tile's position. */
  lemma DefaultLinksAt(t: Tile)
    ensures DefaultLinks()[Slot(t)] == DefaultNext(t)
  {
    TileOfSlotOfTile(t);
  }

  /** The arena table holds each tile's house at that tile's position. */
  lemma HouseTableAt(t: Tile)
    ensures HouseTable()[Slot(t)] == ArmColour(t.arm)
  {
  }

  lemma SlotOfTileOfSlot(k: int)
    requires 0 <= k < NumTiles
    ensures Slot(TileOfSlot(k)) == k
  {
  }

  /** Tiles of lanes 0 and 2, and the four junctions, make up the shared ring. */
  predicate OnRing(t: Tile)
  {
    t.lane != 1 || IsJunction(t)
  }

  /** The q-th tile of the shared ring, counted from the left arm's outermost lane-0 tile. */
  function RingAt(q: int): (t: Tile)
    requires 0 <= q < RingLength
    ensures OnRing(t)
  {
    if q < 6 then Tile(Left, 0, q)
    else if q < 12 then Tile(Top, 0, q - 6)
    else if q == 12 then Tile(Top, 1, 5)
    else if q < 19 then Tile(Top, 2, 18 - q)
    else if q < 25 then Tile(Right, 0, q - 19)
    else if q == 25 then Tile(Right, 1, 5)
    else if q < 32 then Tile(Right, 2, 31 - q)
    else if q < 38 then Tile(Bottom, 2, q - 32)
    else if q == 38 then Tile(Bottom, 1, 5)
    else if q < 45 then Tile(Bottom, 0, 44 - q)
    else if q < 51 then Tile(Left, 2, 50 - q)
    else Tile(Left, 1, 0)
  }

  /** Where a ring tile sits on the ring; every ring tile has exactly one place. */
  function RingPos(t: Tile): (q: nat)
    requires OnRing(t)
    ensures q < RingLength && RingAt(q) == t
  {
    match t.arm
    case Left => if t.lane == 0 then t.idx else if t.lane == 2 then 50 - t.idx else 51
    case Top => if t.lane == 0 then 6 + t.idx else if t.lane == 1 then 12 else 18 - t.idx
    case Right => if t.lane == 0 then 19 + t.idx else if t.lane == 1 then 25 else 31 - t.idx
    case Bottom => if t.lane == 2 then 32 + t.idx else if t.lane == 1 then 38 else 44 - t.idx
  }

  /** The position after i in a cycle of n positions: the last wraps to the first. */
  function Succ(i: int, n: int): (r: int)
    requires 0 < n && -1 <= i < n
    ensures 0 <= r < n
  {
    if i + 1 == n then 0 else i + 1
  }

  /** The position k places after i in a cycle of n positions, for k of at most one lap. */
  function Shift(i: int, k: int, n: int): (r: int)
    requires 0 <= i < n && 0 <= k <= n
    ensures 0 <= r < n
  {
    if i + k < n then i + k else i + k - n
  }

  /** Ring position of the starting tile of colour c. */
  function StartPos(c: Colour): (q: nat)
    requires c != White
    ensures q < RingLength && RingAt(q) == StartTile(c)
  {
    match c
    case Green => 1
    case Red => 14
    case Blue => 27
    case Yellow => 40
  }

  /** Ring position of the junction of colour c. */
  function JunctionPos(c: Colour): (q: nat)
    requires c != White
    ensures q < RingLength && RingAt(q) == JunctionOf(c)
  {
    match c
    case Green => 51
    case Red => 12
    case Blue => 25
    case Yellow => 38
  }

  /** Ring positions name distinct tiles: the 52 ring tiles are pairwise different. */
  lemma {:induction false} RingPositionsDistinct(p: int, q: int)
    requires 0 <= p < RingLength && 0 <= q < RingLength
    ensures RingAt(p) == RingAt(q) <==> p == q
  {
    RingPosOfRingAt(p);
    RingPosOfRingAt(q);
  }

  lemma RingPosOfRingAt(q: int)
    requires 0 <= q < RingLength
    ensures RingPos(RingAt(q)) == q
  {
  }

  /**
   * The default links close the ring into one cycle: each ring tile links to
   * the next ring position, and the last back to the first.
   */
  lemma RingIsCycle(q: int)
    requires 0 <= q < RingLength
    ensures DefaultNext(RingAt(q)) == Some(RingAt(Succ(q, RingLength)))
  {
  }

  /** The tile reached by following the default links n times from t. */
  function DefaultFollow(t: Option<Tile>, n: nat): Option<Tile>
    decreases n
  {
    if n == 0 || t.None? then t else DefaultFollow(DefaultNext(t.value), n - 1)
  }

  /** Following the default links n times from ring position q lands n positions further on. */
  lemma {:induction false} RingWalkFrom(q: int, n: nat)
    requires 0 <= q < RingLength && q + n <= RingLength
    ensures DefaultFollow(Some(RingAt(q)), n) == Some(if q + n == RingLength then RingAt(0) else RingAt(q + n))
    decreases n
  {
    if n > 0 {
      RingIsCycle(q);
      RingWalkFrom(Succ(q, RingLength), n - 1);
    }
  }

  /**
   * The ring is a single cycle of exactly 52 tiles: following the default
   * links from its first tile returns there after 52 steps and not before.
   */
  lemma RingIsSingleCycle(n: nat)
    requires 0 < n <= RingLength
    ensures DefaultFollow(Some(RingAt(0)), n) == Some(RingAt(0)) <==> n == RingLength
  {
    RingWalkFrom(0, n);
    if n < RingLength {
      RingPositionsDistinct(0, n);
    }
  }

  /** Tiles that are not on the ring are exactly the tiles of the four home stretches. */
  lemma OffRingIsStretch(t: Tile)
    requires !OnRing(t)
    ensures var c := ArmColour(t.arm);
            c != White &&
            t == StretchTile(c, if c == Green then t.idx - 1 else 4 - t.idx)
  {
  }

  /**
   * Each home stretch is a five-tile chain: each tile links to the next, the
   * last links to null, and none of them is on the ring.
   */
  lemma StretchIsChain(c: Colour, i: int)
    requires c != White && 0 <= i < StretchLength
    ensures !OnRing(StretchTile(c, i))
    ensures DefaultNext(StretchTile(c, i)) == if i < StretchLength - 1 then Some(StretchTile(c, i + 1)) else None
    ensures StretchTile(c, 0) == StretchEntry(c)
  {
  }

  /** No default link enters a home stretch except from the stretch tile before it. */
  lemma NoEntryIntoStretch(t: Tile, c: Colour, i: int)
    requires c != White && 0 <= i < StretchLength
    requires DefaultNext(t) == Some(StretchTile(c, i))
    ensures 0 < i && t == StretchTile(c, i - 1)
  {
  }

  /**
   * Each starting tile lies on the ring 50 steps before its colour's
   * junction, and no other position among those 50 is that junction.
   */
  lemma StartFiftyBeforeJunction(c: Colour)
    requires c != White
    ensures Shift(StartPos(c), 50, RingLength) == JunctionPos(c)
    ensures forall m :: 0 <= m < 50 ==> Shift(StartPos(c), m, RingLength) != JunctionPos(c)
  {
  }
}
