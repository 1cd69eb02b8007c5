# Ludo board topology and movement engine in Dafny

This project models the board and movement core of a browser Ludo game,
written in TypeScript (`index.ts`) and compiled to JavaScript (`index.js`).

The board has four arms: left, right, top and bottom. Each arm has three
lanes of six tiles, 72 tiles in all. `generateTiles` creates them. `drawTiles`
then does four things:

- it wires every tile's `nextTile`;
- it stamps each tile's `house` with the colour of its arm;
- it registers the four junction tiles in `specialTiles`;
- it records each colour's starting tile in `staringTiles`.

A disc moves one tile at a time. First it occupies its tile. If that tile is
a registered special tile whose house is the disc's colour, the tile's link
is pointed into the colour's private home stretch. Then the disc follows the
link. A click on the current player's disc moves it `randNumbs[0]` times,
re-runs the builder, clears the roll and passes the turn round-robin.

The project has five modules:

- `Wrappers` (`wrappers.dfy`) holds `Option` and `Result`. JavaScript's
  `null` and `undefined` become `None`, and a thrown error becomes `Err`.
- `Topology` (`topology.dfy`) holds tiles as values. A tile
  `Tile(arm, lane, idx)` is stored at its slot `18*arm + 6*lane + idx` in a
  72-entry arena. It also holds the link table the builder leaves behind
  (`DefaultNext`), the 52-tile shared ring, the four 5-tile home stretches,
  the junctions and the starting tiles.
- `Rules` (`rules.dfy`) states the movement rules as functions. `Reroute` is
  the occupancy/reroute step, `Step` is one move and `Walk` is n moves. It
  proves what a walk does on a freshly built board.
- `Turns` (`turns.dfy`) holds the player lists for 2, 3 and 4 players and the
  round-robin turn rotation.
- `Ludo` (`ludo.dfy`) holds the imperative part. `Board` is a class over three
  72-entry arrays (`next`, `house`, `occupant`) plus the `specialTiles`
  sequence and the `staringTiles` map. `Disc`, `Home` and `Game` are classes
  whose methods update fields in place. Each method is proved against the
  functions of `Topology`, `Rules` and `Turns`.

The builder's write order is kept. Each iteration of the nested `forEach` is
`Board.DrawCell`. It is split into the source's lane-0, lane-1 (stretch, then
junction overrides), lane-2, registration, starting-tile and house blocks.
After all 18 cells, `Board.DrawTiles` proves that the table equals the
default-link table `DefaultLinks()`. That includes the overrides at
`index.ts:545-552`, which rewrite links written earlier in the same pass.

Two facts about the code shape the model:

- `updateGameState` has no guard on the number of steps. It loops
  `randNumbs[0]` times whatever the value, including 0, so
  `Game.UpdateGameState` takes any natural number.
- From a starting tile to `null` is 56 moves: 50 ring steps to the junction,
  the 5 stretch tiles, then `null` (`Rules.FiftySixMovesToFinish`).

## Model

| member | source | states |
|---|---|---|
| Topology.SlotInjective | index.ts:26-29 | Two tiles share an arena slot exactly when they are the same tile, so the four per-arm lane arrays are modelled by one table without aliasing |
| Topology.TileOfSlotOfTile | index.ts:26-29 | Every tile is recovered from its slot |
| Topology.Succ | index.ts:308-309 | The position after i in a cycle of n (from -1, indexOf's "absent") is always inside 0 .. n-1; used for the ring and for the turn order |
| Topology.Shift | index.ts:308-309 | The position k places after i in a cycle of n, for k of at most one lap, always inside 0 .. n-1; used for the ring route and for k turns |
| Topology.DefaultNext | index.ts:487-576 | The link each tile holds once the builder's overwrites are done; exactly the last tile of each home stretch (left[1][5], right, top and bottom [1][0]) links to null |
| Topology.StretchEntry | index.ts:253-266 | A junction of colour c is rerouted to a lane-1 tile of c's own arm that is not a junction: green left[1][1], blue right[1][4], red top[1][4], yellow bottom[1][4] |
| Topology.StartTile | index.ts:541-575 | Each colour's starting tile lies on that colour's own arm, off the stretch lane |
| Topology.StartingTable | index.ts:541-575 | The recorded starting tiles: one for each of the four house colours, none for white, each the colour's starting tile |
| Topology.RingPos | index.ts:525-576 | Every tile of lanes 0 and 2, and every junction, has a ring position whose ring tile is that tile |
| Topology.RingPositionsDistinct | index.ts:525-576 | The 52 ring positions name 52 different tiles |
| Topology.RingIsCycle | index.ts:525-576 | After the builder, each ring tile's link is the ring tile at the next position, and the last links back to the first |
| Topology.RingWalkFrom | index.ts:525-576 | Following the built links n times from ring position q lands on position q + n |
| Topology.RingIsSingleCycle | index.ts:545-552 | From the ring's first tile, the built links return there after exactly 52 steps and not earlier: the ring is one cycle of 52 tiles |
| Topology.OffRingIsStretch | index.ts:487-522 | Every tile off the ring is a tile of the home stretch of its arm's colour |
| Topology.StretchIsChain | index.ts:487-522 | Each home stretch is off the ring, starts at its colour's reroute target, links tile to tile, and its last tile links to null |
| Topology.NoEntryIntoStretch | index.ts:487-576 | No built link enters a home stretch except from the stretch tile before it |
| Topology.StartPos | index.ts:541-575 | The recorded starting tile of each colour sits on the ring (green 1, red 14, blue 27, yellow 40) |
| Topology.JunctionPos | index.ts:545-552 | Each colour's junction sits on the ring (green 51, red 12, blue 25, yellow 38) |
| Topology.StartFiftyBeforeJunction | index.ts:541-575 | Each starting tile is 50 ring steps before its own colour's junction, and none of the 50 positions in between is that junction |
| Topology.DefaultLinksAt | index.ts:475-589 | The arena's built link table holds each tile's built link at that tile's slot |
| Topology.HouseTableAt | index.ts:578-581 | Every tile's house is its arm's colour: left green, right blue, top red, bottom yellow |
| Rules.Reroute | index.ts:248-268 | The link effect of occupying t: nothing changes for a white disc, a tile not registered as special, or a tile of another house; no link except t's ever changes; t's link either stays or becomes the disc colour's stretch entry |
| Rules.Step | index.ts:272-280 | One move: off the board (null) it changes nothing; on a tile it records that tile as occupied, then follows the (possibly rerouted) link |
| Rules.RegistryAfterBuild | index.ts:498-519 | A builder pass adds exactly the four junctions to the special tiles registry, so an empty or correct registry holds exactly the junctions afterwards, duplicates aside |
| Rules.RerouteIsolation | index.ts:243-270 | On a built board, occupying a tile changes only the link of the disc's own colour's junction, and only to that colour's stretch entry; every other table is returned unchanged |
| Rules.RerouteIdempotent | index.ts:243-270 | Occupying the same tile twice rewrites nothing more than occupying it once |
| Rules.Walk | index.ts:272-280 | n moves visit at most n tiles, and a disc off the board (null) stays off and changes nothing |
| Rules.RouteFollowsRing | index.ts:525-576 | Before its junction, each step of a colour's route follows the ring's built link |
| Rules.RouteAvoidsJunction | index.ts:541-575 | Before step 50, a colour's route never stands on that colour's junction |
| Rules.RerouteOnRing | index.ts:243-270 | Before the junction a move rewrites no link and follows the built link |
| Rules.RerouteAtJunction | index.ts:243-270 | On its own junction a move points the junction into the colour's stretch and enters it |
| Rules.RouteFollowsStretch | index.ts:487-522 | Past the junction the route follows the stretch's built links and runs off its end |
| Rules.RerouteOnStretch | index.ts:243-270 | Inside the stretch a move rewrites no link, with or without the junction rerouted |
| Rules.StepAlongPath | index.ts:272-280 | One move from the m-th tile of the route lands on the (m+1)-th, or on null after the last; it reroutes exactly when leaving the junction |
| Rules.StepOnRing | index.ts:272-280 | One move on the ring part of the route lands on the next route tile and leaves the links unchanged |
| Rules.StepAtJunction | index.ts:272-280 | The move off the junction enters the stretch and leaves the junction rerouted |
| Rules.StepOnStretch | index.ts:272-280 | A move inside the stretch lands on the next route tile, or on null, and leaves the links unchanged |
| Rules.PathWalk | index.ts:296-298 | On a built board, n moves from the k-th route tile end on the (k+n)-th, or on null past the 56th; the only link changed is the junction, and only once the walk has left it |
| Rules.FiftySixMovesToFinish | index.ts:272-280 | A disc placed on its starting tile of a fresh board is still on the board after 55 moves and on null from the 56th on |
| Turns.PlayerOrder | index.ts:325-377 | There is a player list exactly for 2, 3 or 4 players. It has that many colours, no repeats and no white, and for 3 players no green; any other count is an error |
| Turns.IndexOf | index.ts:308-309 | indexOf returns -1 or a position holding the searched colour |
| Turns.IndexOfFirst | index.ts:308-309 | indexOf returns the first occurrence, and -1 only when the colour is absent |
| Turns.IndexOfDistinct | index.ts:308-309 | In a list without repeats, indexOf of the entry at i is i |
| Turns.NextPlayer | index.ts:308-309 | The next player is always one of the players |
| Turns.NextPlayerModulo | index.ts:308-309 | The next player is the entry at (indexOf(current) + 1) % players.length, as the source computes it |
| Turns.NextPlayerFollows | index.ts:308-309 | After players[i] comes players[i + 1], and after the last player the first |
| Turns.Rotate | index.ts:308-309 | The player to move after k turns from `current`: `current` itself for k = 0, otherwise always one of the players |
| Turns.RoundRobin | index.ts:308-309 | From players[i], k <= n turns later the turn is at players[(i + k) mod n] |
| Turns.TurnReturns | index.ts:308-309 | With n players, the turn comes back to a player after exactly n turns and not earlier |
| Ludo.OwnCell | index.ts:525-576 | The links after the lane-0 or lane-2 block of the callback keep all 72 entries; OwnCellAt gives them tile by tile |
| Ludo.StretchCell | index.ts:487-522 | The links after the stretch block keep all 72 entries; StretchCellAt gives them tile by tile |
| Ludo.JunctionCell | index.ts:545-552 | The links after the junction override block keep all 72 entries; JunctionCellAt gives them tile by tile |
| Ludo.LinkCell | index.ts:477-576 | The links after the whole callback for a cell keep all 72 entries; LinkCellAt gives them tile by tile |
| Ludo.HouseCell | index.ts:578-581 | The houses after the callback keep all 72 entries; HouseCellAt gives them tile by tile |
| Ludo.Occupy | index.ts:243-246 | The occupants after a walk, each visited tile taking the disc in turn, keep all 72 slots; OccupyAt gives them tile by tile |
| Ludo.OwnCellAt | index.ts:525-576 | A lane-0 or lane-2 block sets exactly the four tiles of its cell to their built links |
| Ludo.StretchCellAt | index.ts:487-522 | The stretch block sets exactly the four lane-1 tiles of its index to their stretch links |
| Ludo.JunctionCellAt | index.ts:545-552 | The junction block sets exactly the four junctions to their ring links |
| Ludo.LinkCellAt | index.ts:477-576 | The whole callback for a cell sets exactly that cell's tiles, plus the junctions on lane 1, to their final built links |
| Ludo.HouseCellAt | index.ts:578-581 | The callback stamps exactly its cell's four tiles with their arm's colour |
| Ludo.DrawnStep | index.ts:476-588 | Visiting the next cell extends the links drawn so far by exactly that cell |
| Ludo.StampedStep | index.ts:476-588 | Visiting the next cell extends the houses stamped so far by exactly that cell |
| Ludo.DrawnBounds | index.ts:475-589 | Before the first cell nothing is drawn; after all 18 cells every link is built and every house stamped |
| Ludo.SpecialsStep | index.ts:498-519 | Each cell's registrations extend the registry to exactly the junctions registered by the cells so far |
| Ludo.StartsStep | index.ts:541-575 | Each cell's records extend the starting tiles to exactly those recorded by the cells so far |
| Ludo.OccupyAt | index.ts:243-246 | After a walk, a tile's occupant is the walking disc exactly when the walk visited the tile; otherwise it is unchanged |
| Ludo.Board.constructor | index.ts:26-39 | Fresh tile storage, an empty special tiles registry and no starting tiles |
| Ludo.Board.InitTile | index.ts:187-197 | A created tile has no link, no occupant and house white; no other tile changes |
| Ludo.Board.GenerateTiles | index.ts:439-473 | All 72 tiles (4 arms x 3 lanes x 6) are created blank |
| Ludo.Board.LinkLane0 | index.ts:525-543 | The lane-0 block links the four tiles at index j, including the turns at index 5 and the bottom arm's link to left[2][5] |
| Ludo.Board.LinkStretch | index.ts:487-522 | The stretch block links the four lane-1 tiles at index j one step along the stretch, with null at each stretch's end |
| Ludo.Board.LinkJunctions | index.ts:545-552 | The override block points the four junctions back onto the ring |
| Ludo.Board.LinkLane2 | index.ts:554-576 | The lane-2 block links the four tiles at index j, including the cross-arm links at index 0 and the bottom arm's link to its junction |
| Ludo.Board.RegisterSpecials | index.ts:498-519 | The callback registers left[1][0] at index 0 and right, top and bottom [1][5] at index 5 |
| Ludo.Board.RecordStarts | index.ts:541-575 | The callback records green and yellow on lane 0 and red and blue on lane 2, at the source's indices |
| Ludo.Board.StampHouses | index.ts:578-581 | The callback stamps the four tiles of its cell with their arm's house |
| Ludo.Board.DrawCell | index.ts:477-587 | One callback: the links, houses, registry and starting tiles advance by exactly one cell, in the source's write order |
| Ludo.Board.DrawRow | index.ts:476-588 | The inner loop over a lane's six cells advances the builder by six cells |
| Ludo.Board.DrawTiles | index.ts:475-589 | Whatever the links were, afterwards every tile holds its built link and its arm's house; the four junctions are appended to the registry and the four starting tiles recorded |
| Ludo.Board.AnimationTick | index.js:377-380 | Re-running the builder restores every rerouted junction to its ring link and keeps a built board built, although the registry grows by duplicates |
| Ludo.Disc.constructor | index.ts:223-231 | A new disc has its home's colour, is not out of its house, and stands on the starting tile recorded for its colour |
| Ludo.Disc.DecideNextTileForSpecialTiles | index.ts:243-270 | On a tile: the disc is out of its house, occupies the tile, and the links become the reroute of the old links; off the board nothing changes |
| Ludo.Disc.Move | index.ts:272-280 | One move: the occupancy/reroute step, then the current tile becomes the rerouted link; a disc off the board changes nothing |
| Ludo.Disc.Advance | index.ts:296-298 | steps consecutive moves give exactly the walk of that length: its links, its final tile and the tiles it occupied |
| Ludo.Home.constructor | index.ts:99-124 | A home has four distinct fresh discs of its colour, each on the colour's starting tile and not out of its house |
| Ludo.BuildHomes | index.js:183-210 | For 2, 3 or 4 players, four homes green, yellow, red and blue with four discs each; any other count is an error |
| Ludo.Game.constructor | index.ts:337-339 | The first player in the list moves first and no roll is committed |
| Ludo.Game.CommitRoll | index.ts:403-416 | A roll of two dice in 1..6 is stored as the committed roll |
| Ludo.Game.UpdateGameState | index.ts:282-312 | A hit on the current player's disc moves it randNumbs[0] times along the built links. On its route that is (k + roll) tiles on, or null past the end. Then the board is rebuilt, the roll reset to (0, 0) and the turn passed to the next player. Any other click changes nothing |
| Ludo.Start | index.ts:319-377 | For 2, 3 or 4 players: a built board, the four homes, the player list for that count, the first player to move and every disc on its colour's starting tile; any other count is an error |

## Left out

- Canvas drawing is not modelled: every `draw()`, the `ctx` calls, `Heaven`, the current-player text and the paint-only `tile.color` writes. It decides nothing.
- Pixel geometry is not modelled: tile and disc `x`/`y`, `sizeOfHomes`, `sizeOfTile` and the radius. The click hit test (`index.ts:283-294`) is floating-point screen arithmetic, so `Game.UpdateGameState` takes it as a boolean input `hit`.
- Dice randomness (`get2randInt`) and the rolling animation with `setInterval`/`setTimeout` are not modelled. `Game.CommitRoll` takes the committed roll as input.
- The `randNumbs.push` roll history in `index.js` is left out, because no movement reads it.
- The global click handler (`index.ts:420-429`) is not a separate method. It loops over every disc, and its pixel hit tests are out of scope. Its effects are covered by `Game.UpdateGameState` and, for its two extra `drawTiles()` calls per disc, by `Board.AnimationTick`.
- `isPlaying`, `noOfPlayer` and `animation` are not modelled. They are never changed or read by the movement logic.
- Home display names (the optional `name` argument) are not modelled. Neither is `Home.startingTile`, which is always null and never read.
- `Home` discs record only colour, tile and `isOutOfHouse`. The disc display colour is a presentation value.
- Ludo.Game.UpdateGameState: the route property is stated for a disc that stands on its own colour's route. A disc placed elsewhere is covered only by the general walk relation.
- The `tile.disc` occupant is never cleared when a disc leaves, and there is no capture of other discs. The source has neither, so the model adds neither.
