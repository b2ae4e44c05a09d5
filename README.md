# shrp: barrier spawning and player handoff, in Dafny

This project models the game logic of shrp, a Unity arcade game. The player
steers a shape through falling barriers. Each barrier is a row of pieces, and
exactly one piece is a keyhole for one shape. Waiting in the keyhole is the
next player, a passive shape that rides down with the barrier. When the
controlled shape enters the keyhole's trigger, control passes to the waiting
shape. The old shape is disabled and parked in the keyhole, and falls away
with the barrier. A despawner below the play field destroys whatever falls
into it. If the controlled shape itself reaches the despawner, the game is
over.

The scene is modelled as an arena of objects (`SceneGraph.Scene`). Each
object has a kind, a tag, a name, an enabled flag, a parent link, an ordered
child list, a local position and scale, and a body velocity. The engine
operations the scripts use are modelled as state-changing methods of the
scene, each specified by a function of the old scene:

- `Instantiate` under a parent
- `SetParent`
- `DetachChildren`
- `Destroy` of a whole subtree
- overwriting one object's fields

The scripts are modelled as classes and methods over that scene:

- the barrier manager (`BarrierManagement`): spawn countdown, barrier
  construction and leftover clearing;
- the session controller (`GameManagement`): singleton, game states,
  current player, scores and user-interface calls;
- the first revision's player script (`PlayerScripts`);
- the despawner (`Despawning`);
- the second revision's player and barrier components (`Players`,
  `Barriers`).

The two revisions share one shape enumeration (`Shapes`), one piece layout
(`Layout`), and one description of the handoff (`Handoff`).

The main results are these:

- A spawned barrier has exactly `pieceCount` pieces. They read left to right
  as `Layout.Row`, so there is exactly one keyhole, at an interior index. The
  only exception is a required shape that matches no case: then the barrier
  has no keyhole.
- The embedded player has the redrawn shape, so it matches the next
  barrier's keyhole, not its own. `SpawnChain` and `FirstPlayerChain` prove
  this chain across two directly consecutive spawns, and from the first
  player of a game to the first spawn after it. No invariant is proved for
  the chain across handoffs, despawns and spawns in arbitrary order.
- A new game started with no enabled player establishes exactly one
  enabled player, the one in the current-player slot, and a spawn keeps it so. A handoff keeps it so when
  the entering player is the current one. The keyhole branch has no enabled
  check, so a disabled player that is not current and enters a keyhole
  whose first child is another player leaves two players enabled
  (`Handoff.StrayHandoffLeavesTwoActive`).
  Likewise a new game leaves an enabled leftover player enabled beside the
  new first player (`GameManagement.LeftoverStaysActive`). A game over
  raised while the player was not falling leaves it in the scene, since the
  despawner only destroys falling objects.
- A despawn removes exactly one subtree, and the entering object is always
  inside it.
- Clearing leftovers destroys exactly the untagged children of the barrier
  container.

Some behaviours of the program are worth stating outright:

- The spawn countdown runs in every game state. Only the spawn itself
  checks for IN_GAME.
- Ending a session destroys nothing. Leftover barriers are cleared only by
  the barrier manager's `OnEnable`.
- The keyhole branch of both player triggers has no enabled check. A
  disabled, parked player that enters a keyhole trigger again runs the
  handoff too (`Handoff.SelfHandoffActivatesNobody`).
- Neither player trigger checks the sign of the vertical velocity
  before ending the game. Only the despawner checks it.

## Model

| member | source | states |
|---|---|---|
| Shapes.ShapeOf | Assets/Scripts/BarrierManager.cs:34 | the cast of a drawn code yields a real shape exactly for codes 0..2, the enumeration value with that code |
| Shapes.KeyholeKind | Assets/Scripts/BarrierManager.cs:90-107 | the keyhole switch gives the keyhole for the required shape, and a default piece exactly when no case matches |
| Shapes.PrefabShape | Assets/Scripts/GameManager.cs:73-90 | the player prefab switch yields a real shape, the required one when it matches, the circle fallback otherwise |
| Layout.Row | Assets/Scripts/BarrierManager.cs:88-116 | the row has `count` pieces, piece `i` being the keyhole kind at the keyhole index and default elsewhere |
| Layout.RowPieces | Assets/Scripts/BarrierManager.cs:88-116 | only the piece at the keyhole index can be a keyhole, and every other piece is a default piece |
| Layout.RowPrefixKeyholes | Assets/Scripts/BarrierManager.cs:88-116 | the first `j` pieces hold one keyhole exactly when the keyhole index is among them and the shape matched a case |
| Layout.ExactlyOneKeyhole | Assets/Scripts/BarrierManager.cs:88-116 | a row with an in-range keyhole index has exactly one keyhole, or none for an unmatched shape |
| Layout.DrawInsideRow | Assets/Scripts/BarrierManager.cs:85 | a drawn keyhole index is never 0, `count-2` or `count-1`, and lies inside the row |
| SceneGraph.Subtree | Assets/Scripts/DespawnerScript.cs:21 | what a destroy removes contains the object exactly when it exists and is closed under children |
| SceneGraph.ClosureLeast | Assets/Scripts/DespawnerScript.cs:21 | the destroyed subtree is the least child-closed set holding the object: nothing outside its descendants goes |
| SceneGraph.Scene.Instantiate | Assets/Scripts/BarrierManager.cs:79 | a new object with a fresh id, appended last to its parent's children; parent and child links stay consistent |
| SceneGraph.Scene.Store | Assets/Scripts/BarrierManager.cs:129-133 | writing an object's own fields (position, scale, enabled flag, velocity) leaves the hierarchy consistent and changes no other object |
| SceneGraph.Scene.SetParent | Assets/Scripts/BarrierManager.cs:128 | the object leaves its old parent's child list and becomes the new parent's last child |
| SceneGraph.Scene.DetachChildren | Assets/Scripts/PlayerScript.cs:63 | every child loses its parent and the object has no children left |
| SceneGraph.Scene.Destroy | Assets/Scripts/BarrierManager.cs:58 | the object's whole subtree disappears and survivors lose only removed children |
| Handoff.HandedOff | Assets/Scripts/PlayerScript.cs:58-68 | the keyhole branch neither creates nor destroys objects, and leaves the entering player, disabled, as the keyhole's only child |
| Handoff.HandoffOutcome | Assets/Scripts/PlayerScript.cs:58-68 | after a handoff the keyhole's only child is the old player, which is disabled; the waiting player is enabled, at the root, named "Player"; kinds and other flags are unchanged |
| Handoff.HandoffKeepsOneActive | Assets/Scripts/PlayerScript.cs:58-68 | if exactly the current player was enabled, after handing off to another player exactly the new current player is enabled |
| Handoff.StrayHandoffLeavesTwoActive | Assets/Scripts/Player.cs:122-133 | with no enabled check, a disabled non-current player entering a keyhole holding another player leaves both the current player and the keyhole's player enabled |
| Handoff.SelfHandoffActivatesNobody | Assets/Scripts/Player.cs:123-133 | a player entering a keyhole whose first child is itself ends disabled and parked, and no other enabled flag changes |
| Steering.SteerHorizontal | Assets/Scripts/PlayerScript.cs:31-38 | touch input overrides the keyboard axis, and with neither input the previous horizontal velocity stays |
| Steering.LiftY | Assets/Scripts/PlayerScript.cs:41 | a landed player gets zero vertical velocity; a new one moves up exactly below the default height and stops exactly at it |
| GameManagement.PlayerClone | Assets/Scripts/GameManager.cs:73-90 | a fresh copy of a player prefab is an enabled player object at the scene root, without children |
| GameManagement.GameManager.constructor | Assets/Scripts/GameManager.cs:19-35 | the initial game state is IN_GAME, there is no instance and no current player, and both scores are zero |
| GameManagement.GameManager.Awake | Assets/Scripts/GameManager.cs:49-61 | the first manager claims the singleton slot; a later different one is destroyed and leaves the slot alone |
| GameManagement.GameManager.SetNewPlayer | Assets/Scripts/GameManager.cs:64-67 | the current-player slot is the given player, renamed "Player"; nothing else changes |
| GameManagement.GameManager.SpawnNewPlayer | Assets/Scripts/GameManager.cs:70-99 | one fresh player of the prefab's shape; it becomes the current player (renamed) exactly when it is a first player |
| GameManagement.GameManager.NewGame | Assets/Scripts/GameManager.cs:102-106 | hides the main menu, spawns a current first player for the required shape, enters IN_GAME, and leaves the scores alone |
| GameManagement.FirstPlayerActive | Assets/Scripts/GameManager.cs:93-106 | with no player object enabled before, the first player of a new game, enabled and put in the current-player slot, is the only enabled player |
| GameManagement.LeftoverStaysActive | Assets/Scripts/GameManager.cs:102-106 | a new game disables no existing player, so an enabled leftover player stays enabled beside the new first player and exactly one enabled player fails |
| GameManagement.GameManager.GameOver | Assets/Scripts/GameManager.cs:110-120 | always GAME_OVER; a scripted game over shows the game-over screen, otherwise it is hidden and the main menu shown |
| BarrierManagement.BarrierClone | Assets/Scripts/BarrierManager.cs:79 | a new barrier copy sits under the container with no pieces yet |
| BarrierManagement.PieceClone | Assets/Scripts/BarrierManager.cs:88-116 | a new piece of the chosen kind under the barrier, scaled to (pieceScale, pieceScale, 1) |
| BarrierManagement.ClearUntagged | Assets/Scripts/BarrierManager.cs:53-60 | clearing never adds objects, and every listed child tagged "Untagged" is gone afterwards |
| BarrierManagement.ClearUntaggedShrinks | Assets/Scripts/BarrierManager.cs:53-60 | clearing only removes objects, and survivors keep every field but their child lists |
| BarrierManagement.ClearUntaggedLinked | Assets/Scripts/BarrierManager.cs:53-60 | clearing keeps parent and child links consistent |
| BarrierManagement.UntaggedDestroyed | Assets/Scripts/BarrierManager.cs:53-60 | every listed child tagged "Untagged" is gone after the clearing |
| BarrierManagement.SparedSurvives | Assets/Scripts/BarrierManager.cs:53-60 | every object outside the untagged children's subtrees survives unchanged but for its children |
| BarrierManagement.RootOutsideSubtree | Assets/Scripts/BarrierManager.cs:53-60 | an object without a parent lies in no other object's subtree, so the container, treated as a root, is never destroyed with one of its children |
| BarrierManagement.ChildOutsideSubtree | Assets/Scripts/BarrierManager.cs:53-60 | an object whose parent lies outside another object's subtree lies outside it too, so destroying one child of the container never takes a sibling with it |
| BarrierManagement.TaggedChildrenSurvive | Assets/Scripts/BarrierManager.cs:53-60 | when the container lies in none of its children's subtrees, every container child not tagged "Untagged" survives the clearing with its fields |
| BarrierManagement.AddPiece | Assets/Scripts/BarrierManager.cs:88-116 | one loop step adds exactly one new piece, last under the barrier, and changes nothing else |
| BarrierManagement.BuildPieces | Assets/Scripts/BarrierManager.cs:88-116 | the loop leaves exactly `count` new distinct pieces as the barrier's children, piece `i` of the kind `Row` gives; nothing else changes |
| BarrierManagement.BarrierManager.constructor | Assets/Scripts/BarrierManager.cs:35-45 | the first required shape is CIRCLE and the countdown starts at 0 |
| BarrierManagement.BarrierManager.OnEnable | Assets/Scripts/BarrierManager.cs:53-60 | the scene after the loop is the in-order clearing of the container's untagged children, and the container survives |
| BarrierManagement.BarrierManager.ParkPlayer | Assets/Scripts/BarrierManager.cs:128-133 | the player becomes the keyhole's last child at (0, 1.5, 1), unit scale, with its script disabled |
| BarrierManagement.BarrierManager.BuildBarrier | Assets/Scripts/BarrierManager.cs:79-116 | a new barrier, last under the container, whose children are `pieceCount` new pieces laid out as `Row` says |
| BarrierManagement.BarrierManager.SpawnRider | Assets/Scripts/BarrierManager.cs:125-137 | a new, non-current player of the drawn shape parked in the keyhole, disabled, falling at (0, -movementSpeed) |
| BarrierManagement.BarrierManager.SpawnBarrierAndNextPlayer | Assets/Scripts/BarrierManager.cs:75-139 | outside IN_GAME nothing changes; in game one barrier as `Spawned` says: keyhole for the old required shape, required shape redrawn to a real shape, embedded player of the new one, both falling |
| BarrierManagement.BarrierManager.Update | Assets/Scripts/BarrierManager.cs:62-70 | a spawn is attempted exactly when the countdown is negative, and the countdown is then reset; otherwise it drops by the frame time in every game state |
| BarrierManagement.BarrierManager.SpawnSteps | Assets/Scripts/BarrierManager.cs:79-137 | the barrier half and the player half of a spawn together give the state `Spawned` describes |
| BarrierManagement.BarrierManager.SpawnedLayout | Assets/Scripts/BarrierManager.cs:85-133 | a spawned barrier's pieces read as `Row`, with exactly one keyhole for a matched shape, holding the new player of the new shape |
| BarrierManagement.BarrierManager.SpawnChain | Assets/Scripts/BarrierManager.cs:122-125 | the player embedded by one spawn is untouched by the next spawn, and its shape is the next barrier's keyhole shape |
| BarrierManagement.BarrierManager.SpawnKeepsOneActive | Assets/Scripts/BarrierManager.cs:125-133 | a spawn keeps the player in the current-player slot the only enabled player, since the embedded player is disabled and no other player changes |
| BarrierManagement.BarrierManager.FirstPlayerChain | Assets/Scripts/GameManager.cs:102-106 | the first player of a game has the shape of the first barrier's keyhole |
| PlayerScripts.Update | Assets/Scripts/PlayerScript.cs:29-44 | a disabled script changes nothing; an enabled one writes the steered horizontal and the lifted vertical velocity to both intent and body |
| PlayerScripts.LandedUpdateHoldsHeight | Assets/Scripts/PlayerScript.cs:41-49 | once the new-player flag is down, an update writes zero vertical velocity and the flag stays down |
| PlayerScripts.OnCollisionEnter | Assets/Scripts/PlayerScript.cs:46-49 | the new-player flag becomes false and nothing else changes |
| Players.PlayerRegistry.OnCollisionEnter | Assets/Scripts/Player.cs:111-114 | the new-player flag, true in every fresh player, becomes false and nothing else changes |
| PlayerScripts.OnTriggerEnter | Assets/Scripts/PlayerScript.cs:51-69 | a despawner ends the game only for an enabled script; a keyhole with a player as first child hands off and makes it the current player; otherwise nothing changes |
| PlayerScripts.HandOff | Assets/Scripts/PlayerScript.cs:58-68 | the keyhole branch produces exactly the handed-off scene and makes the keyhole's first child the current player |
| Despawning.DespawnTarget | Assets/Scripts/DespawnerScript.cs:21-23 | the destroyed object is the entering object's parent, or the object itself at the root; it exists and its subtree holds the entering object |
| Despawning.OnTriggerEnter | Assets/Scripts/DespawnerScript.cs:18-26 | nothing happens unless the body falls; then exactly the parent's subtree, or the object's own at the root, is removed |
| Despawning.DespawnOutcome | Assets/Scripts/DespawnerScript.cs:18-26 | the destroyed object exists and is the parent when there is one, the entering object is in its subtree and always gone, and exactly that subtree disappears |
| Players.PrefabPlayer | Assets/Scripts/Player.cs:77-94 | the prefab copy is an enabled new player under the initial spawn point, without children |
| Players.PlayerRegistry.constructor | Assets/Scripts/Player.cs:18 | there is no current player at first |
| Players.PlayerRegistry.SetCurrentPlayer | Assets/Scripts/Player.cs:106-109 | the current player is the given one, renamed "Player"; nothing else changes |
| Players.PlayerRegistry.CreateNewPlayer | Assets/Scripts/Player.cs:74-104 | one fresh player whose shape is the required one even when the circle prefab is used; it becomes current (renamed) exactly for a first player |
| Players.PlayerRegistry.Update | Assets/Scripts/Player.cs:42-60 | only the enabled current player reads input, and it sets only the horizontal intent, no body velocity |
| Players.PlayerRegistry.OnTriggerEnter | Assets/Scripts/Player.cs:116-134 | a despawner ends the game only for an enabled player; a keyhole with a player as first child hands off and makes it current; otherwise nothing changes |
| Players.PlayerRegistry.HandOff | Assets/Scripts/Player.cs:123-133 | the keyhole branch produces exactly the handed-off scene and makes the keyhole's first child the current player |
| Barriers.TemplateClone | Assets/Scripts/Barrier.cs:15-19 | a new barrier copy is untyped, with slot 0, no resident and no pieces, under the spawn point |
| Barriers.BarrierFactory.CreateNewBarrier | Assets/Scripts/Barrier.cs:39-79 | a barrier keyed to the current player's shape with the drawn slot and `ComponentCount` pieces laid out as `Row`; with no current player only the untyped copy remains |
| Barriers.BarrierFactory.CreatedLayout | Assets/Scripts/Barrier.cs:48-76 | exactly one keyhole, for the barrier's shape, at its slot; an untyped barrier is all default pieces |
| Barriers.AttachPlayer | Assets/Scripts/Barrier.cs:82-87 | records the resident, then parks the player in the slot piece at (0, 1.5, 1) with unit scale; an out-of-range slot stops after the resident is set |
| Barriers.AttachOutcome | Assets/Scripts/Barrier.cs:82-87 | after an attach the barrier keeps its shape and slot, has the player as resident, and the player is the slot piece's last child at the riding position |

## Left out

- Physics is not modelled: rigid bodies, forces, collisions and trigger detection. Each engine callback is a separate atomic method call, in whatever order a caller chooses.
- Floating point is not modelled. Speeds, positions and scales are reals, and the piece scale (the container width divided by the piece count) is a given constant.
- World positions are not modelled. Touch input is given as a world x coordinate, and the camera transform is left out. The world-space position of the first player's spawn point is left out too.
- The user interface manager's animations and texts are left out. Its calls are recorded in order as `uiCalls`.
- Asset loading and the quit-on-failure path of `InitializeResources` (both revisions) are left out, as are `DontDestroyOnLoad` and logging.
- Random draws are parameters. Their `requires` give the range the integer `Random.Range` produces.
- Unity defers `Destroy` to the end of the frame. The model destroys immediately. `OnEnable` iterates over the child list as it was when the loop started, which is the list a deferred destroy leaves in place.
- Engine exceptions are modelled as the handler stopping at the failing statement, with earlier effects kept. This covers a missing child, a missing script and no current player.
- `BarrierManagement.BarrierManager.Valid`: requires at least four pieces. The model's draw range `1 <= k < count - 2` is what `Random.Range(1, count - 2)` produces only when `count - 2 > 1`. The engine's answers for smaller counts (1 when the count is 3, swapped bounds below that) are not modelled.
- `Barriers.BarrierFactory.CreateNewBarrier`: requires the current player, when set, to still be in the scene. It does not model reading the stale shape of a destroyed current player.
- `Barriers.AttachPlayer`: a slot piece that is the player itself is left alone. The engine's reaction to parenting an object to itself is not modelled.
- The engine's refusal to parent an object under its own descendant is not modelled. `SetParent` allows it.
- `Barrier.Move` (an added force) is physics and is left out.
- `BarrierManager.ComponentCount`, `PieceScale` and `GameManager.InitialSpawn`, which the second revision reads, are not modelled as members of those classes. They are constants of `Barriers.BarrierFactory` and `Players.PlayerRegistry`. `BarrierManager.Speed` is left out with `Barrier.Move`, its only reader.
- The score fields are modelled only as fields that no method changes. The code that scores is not part of this model.
- `GameManagement.GameManager.NewGame`: takes the barrier manager's required shape as a parameter instead of reading it.
- `BarrierManagement.BarrierManager.Valid`: the barrier container is treated as a scene root. In the program it is the first child of the barrier manager's own object, which is not modelled. The lemmas about clearing leftovers that need only the container to lie outside its children's subtrees (`ChildOutsideSubtree`, `TaggedChildrenSurvive`) require just that.
- `SceneGraph.Reparented` and `SceneGraph.Detached` keep an object's local position and scale. The engine's one-argument `SetParent` and its `DetachChildren` keep world coordinates instead and rewrite the local ones. So after a handoff the model keeps local coordinates that the engine would have recomputed, for example the unit scale of a rider parked under a rescaled piece.
