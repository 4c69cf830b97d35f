# Track network and journey builder, modelled in Dafny

This project models the core of a railway signalling tool: the track network
graph kept by `SimpleNetwork`, and the route-sequence accumulator
`JourneyBuilder` with the `Journey` it seals.

- **Network** (`graph.dfy`, `network.dfy`). A block (a track section or a
  point) is an id. The arena maps every block in existence to its variant
  and its neighbour ids; it plays the role of the Java heap of `Block`
  objects. The class `SimpleNetwork` keeps the owned set `blocks` over that
  arena. `AddBlock` and `RemoveBlock` change the owned set in place, and
  `RemoveBlock` also makes each neighbour forget the removed block.
  `NewBlock` stands for `new Point(o)` and `new Section()`: it puts a fresh,
  unowned block with no neighbours into the arena, which `AddBlock` can then
  take in. `MakePoint` and `MakeSection` create a fresh block and own it. `Traverse`
  is the recursive depth-first search with its visited-set guard. It is
  proved to terminate on cyclic graphs. Its result is proved to be the
  visited set plus exactly the blocks reachable from the root without
  passing through it. `IsValid` starts the traversal from an arbitrarily
  chosen owned block. A ghost set `live` holds the blocks no `RemoveBlock`
  has detached. Creating blocks, wiring live blocks and removing blocks all
  keep the neighbour relation mutual on `live`. While that holds and every
  owned block is live, `IsValid` is proved to answer "the owned blocks are
  connected" whichever root it picks.
- **Journeys** (`routes.dfy`, `journey_ids.dfy`, `journeys.dfy`). A route
  has a source signal, a destination signal and a direction. `CheckPath` is
  the loop of `validPath`. It is proved equal to the predicate "every
  consecutive pair joins": same signal at the seam, same direction.
  `JourneyBuilder` appends routes to, and trims routes from, a list object.
  `Build` seals that same list object into a `Journey`. The journey counter
  `Journey_ID` is a shared object holding a 32-bit Java `int` (the newtype
  `JavaInt`), and its increment wraps. The identifier `"J" + counter` is proved injective in the
  counter.

Four behaviours of the code shape the model:

- `Journey(routes)` keeps the builder's own list. So a journey is not
  immutable: a later `AddToJourney` on the builder shows up in it
  (`Journeys.SharedListScenario`). So does an append to the list
  `CurrentPath` hands out.
- `Journey(routes)`, the constructor `build` uses, reads the counter but
  does not increment it. So every journey built carries the same identifier
  until `Journey()` runs.
- `removeBlock` makes only the neighbours listed by the removed block forget
  it, and the removed block keeps its own list. "No block lists the removed
  block afterwards" therefore holds only for the blocks on which the relation
  was mutual (`Network.DetachedSeversAllEdges`), and the relation stays
  mutual on them (`Network.DetachedStaysMutual`).
- `removeTrailingRoute` on an empty path throws in Java. It is modelled as
  an answer of `None` that changes nothing.

`Network.ConnectivityScenario`, `Network.RemovalScenario` and
`Journeys.JoiningRoutesScenario` walk through small concrete cases: an empty
network, two linked sections, an isolated point, a point wired in and removed
again, a joining pair of routes, an adjacency break and a direction
change.

## Model

| member | source | states |
|---|---|---|
| `Graph.Block.DeleteBlock` | src/SimpleNetwork.java:42 | the block forgets the given neighbour, keeps every other neighbour and keeps its variant |
| `Network.SimpleNetwork.constructor` | src/SimpleNetwork.java:17-22 | a new network owns no block |
| `Network.SimpleNetwork.AddBlock` | src/SimpleNetwork.java:24-32 | the owned set becomes old + {b}; it is unchanged when b was already owned; the network itself is returned |
| `Network.SimpleNetwork.RemoveBlock` | src/SimpleNetwork.java:34-49 | b leaves the owned set and every other owned block stays; the arena becomes `Detached(old arena, b)`; b is no longer live and the relation stays mutual on the live blocks; the network itself is returned |
| `Network.Detached` | src/SimpleNetwork.java:37-43 | every block b listed loses b and keeps its other neighbours; blocks b did not list are unchanged; no block appears or disappears |
| `Network.DetachedSeversAllEdges` | src/SimpleNetwork.java:37-46 | where the neighbour relation is mutual, after removal no block of that part lists b |
| `Network.DetachedStaysMutual` | src/SimpleNetwork.java:34-49 | removal keeps the neighbour relation mutual on the blocks other than b, although b keeps its own list |
| `Network.DetachedKeepsOwnNeighbours` | src/SimpleNetwork.java:34-49 | removal does not clear b's own neighbour set; only a self-reference goes |
| `Network.DetachedUnreachable` | src/SimpleNetwork.java:34-49 | where the neighbour relation is mutual, the removed block cannot be reached from any other block of that part |
| `Network.SimpleNetwork.NewBlock` | src/ui/utilities/UiPointDownInverse.java:24 | a new block gets a fresh id, the given variant and no neighbours; the owned set is unchanged; a mutual relation stays mutual with the new block included |
| `Network.SimpleNetwork.MakePoint` | src/SimpleNetwork.java:51-56 | the returned block is fresh, is a point with the given orientation and no neighbours, is now owned, and the owned set grows by exactly one; a mutual relation stays mutual |
| `Network.SimpleNetwork.MakeSection` | src/SimpleNetwork.java:58-63 | the returned block is fresh, is a section with no neighbours, is now owned, and the owned set grows by exactly one; a mutual relation stays mutual |
| `Network.SimpleNetwork.Traverse` | src/SimpleNetwork.java:134-150 | terminates on any graph, cycles included, and returns the visited set plus exactly the blocks reachable from root along walks that avoid the visited set |
| `Network.SimpleNetwork.TraverseAll` | src/SimpleNetwork.java:120-132 | an empty network gives the empty set; otherwise the result is everything reachable from some owned root |
| `Network.SimpleNetwork.IsValid` | src/SimpleNetwork.java:70-80 | an empty network is valid; otherwise the answer is "every owned block is reachable from the chosen owned root"; while the relation is mutual on the live blocks and every owned block is live, it is exactly "the owned blocks are connected" |
| `Graph.ReachClosed` | src/SimpleNetwork.java:144-147 | the reachable set together with the visited set is closed under neighbours |
| `Graph.ReachFromNeighbour` | src/SimpleNetwork.java:144-147 | what the recursive call on a neighbour adds is reachable from the root |
| `Graph.ClosedContainsReach` | src/SimpleNetwork.java:134-150 | a set holding the root and closed under neighbours outside the visited set holds everything reachable from the root |
| `Graph.ReachesSymmetric` | src/SimpleNetwork.java:70-80 | with a mutual neighbour relation, reachability is symmetric |
| `Graph.RootIrrelevant` | src/SimpleNetwork.java:70-80 | with a mutual neighbour relation, "all owned blocks reachable from this owned root" is the same for every owned root and equals connectivity |
| `Routes.CheckPath` | src/route/JourneyBuilder.java:54-74 | the pairwise scan with early exits answers true exactly when every consecutive pair has matching destination and source and equal directions |
| `Routes.ShortPathValid` | src/route/JourneyBuilder.java:56 | a path of zero or one route is valid |
| `Routes.ValidPathAppend` | src/route/JourneyBuilder.java:54-74 | a concatenation is valid exactly when both parts are valid and the last route of the first joins the first route of the second |
| `Routes.ValidPathPrefix` | src/route/JourneyBuilder.java:36-40 | trimming routes from the end keeps a valid path valid |
| `Routes.ValidPathOneDirection` | src/route/JourneyBuilder.java:66-69 | every route of a valid path runs in the direction of the first |
| `Journeys.JourneyCounter.constructor` | src/route/JourneyBuilder.java:11 | the shared counter is a Java `int` and starts at zero |
| `JourneyIds.Increment` | src/route/JourneyBuilder.java:84 | the counter stays a Java `int` and moves to a different value: one more, or wrapping from the largest `int` to the smallest |
| `JourneyIds.DecimalString` | src/route/JourneyBuilder.java:84 | the decimal form of an `int` is non-empty, starts with a minus exactly for negatives, and is otherwise all digits |
| `JourneyIds.JourneyId` | src/route/JourneyBuilder.java:84 | the identifier is "J" followed by the counter's decimal form: a minus exactly for negatives, then digits |
| `JourneyIds.DecimalRoundTrip` | src/route/JourneyBuilder.java:84 | the decimal form of the counter reads back to the counter |
| `JourneyIds.JourneyIdInjective` | src/route/JourneyBuilder.java:82-92 | distinct counter values give distinct identifiers |
| `JourneyIds.NextIdDiffers` | src/route/JourneyBuilder.java:82-86 | two journeys made one after the other by `Journey()` carry different identifiers |
| `Journeys.Journey.Numbered` | src/route/JourneyBuilder.java:82-86 | the identifier is built from the counter's old value, the counter is incremented, and the route list is a new empty one |
| `Journeys.Journey.Of` | src/route/JourneyBuilder.java:88-92 | the journey holds the given list object itself; the identifier is built from the counter's current value, which is left unchanged |
| `Journeys.Journey.StartSignal` | src/route/JourneyBuilder.java:104-107 | the source of the first route; none for an empty journey |
| `Journeys.Journey.DestinationSignal` | src/route/JourneyBuilder.java:109-112 | the destination of the last route; none for an empty journey |
| `Journeys.JourneyBuilder.constructor` | src/route/JourneyBuilder.java:14-17 | a new builder has a new empty path and shares the counter |
| `Journeys.JourneyBuilder.AddToJourney` | src/route/JourneyBuilder.java:19-23 | the path becomes old + [r], earlier routes unchanged; answers the old length + 1 |
| `Journeys.JourneyBuilder.AddAllToJourney` | src/route/JourneyBuilder.java:25-29 | the path becomes old + routes in order; answers the sum of the lengths |
| `Journeys.JourneyBuilder.CurrentPath` | src/route/JourneyBuilder.java:31-34 | returns the builder's list object itself, not a copy |
| `Journeys.JourneyBuilder.RemoveTrailingRoute` | src/route/JourneyBuilder.java:36-40 | a non-empty path loses its last route and the answer is the old length - 1; an empty path fails and is left unchanged |
| `Journeys.JourneyBuilder.Build` | src/route/JourneyBuilder.java:42-52 | succeeds exactly when the path is valid, with a fresh journey holding the builder's list and numbered by the current counter; otherwise fails with "Invalid Journey" |

## Left out

- `SimpleNetwork.save` and `toString`: Jackson serialisation to a stream and a diagnostic dump that depends on hash-set order. Both are I/O or library code with no logic of their own here.
- The per-block neighbour count (a section has one or two neighbours, a point three) appears only in a comment. The code never checks it, so the model does not claim it.
- `Block`, `Point`, `Section`, `Route`, `RouteBuilder` and `Signal` are not part of this model. Blocks and signals are ids. The enums `Point.Orientation` and the route direction are not part of this model; each is stood for by two placeholder values, `Up` and `Down`, that the model never inspects beyond equality.
- Wiring neighbours is done by callers through `Block` methods that are not part of this model. `Network.SimpleNetwork.Connect` stands for it: it adds one edge in both directions and keeps the relation mutual when both blocks are live.
- The arena keeps removed blocks with their neighbour lists, as the Java heap keeps the objects. The model does not say whether a caller may reuse them; a removed block is no longer live, so the connectivity clause of `IsValid` says nothing once it is owned again.
- Network.SimpleNetwork.RemoveBlock: when a block lists itself as a neighbour, Java's hash-set iterator may throw `ConcurrentModificationException`. The model iterates over a snapshot and simply drops the self-reference.
- Network.SimpleNetwork.Traverse: the visited `HashSet` is mutated in place and returned. Only `traverse` holds it, so it is threaded through as a set value. Stack overflow on very deep recursion is not modelled.
- Network.SimpleNetwork.IsValid: which block the hash set yields first is not modelled. The root is an arbitrary owned block.
- Java `int` list sizes are unbounded naturals. A list cannot reach 2^31 routes.
- `Journey.getRoutes` and `Journey.getID` return the fields `sequence` and `id`. Those fields are the model of both getters.
- Null arguments, hashing and equality of blocks (identity is assumed), and concurrent use are not modelled.
