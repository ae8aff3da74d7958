# spaceWing game scene, modelled in Dafny

spaceWing is a small SpriteKit arcade game. The player steers an X-wing. Tie
fighters fall from the top of the screen, and asteroids cross it from one side
to the other. Hitting a tie destroys it and adds one to a counter shown in a
label. Hitting an asteroid ends the game: the player is hidden, a "game over"
label is shown and spawning stops. Tapping that label starts a new game.

All of this lives in one class, `GameScene` (`spaceWing/spaceWing/GameScene.swift`).
This project models its session logic in five modules:

- `PhysicsCategory` (`physics_category.dfy`): the 32-bit category masks
  (player 1, tie 2, asteroid 3) and `Classify`, the order-sensitive contact
  dispatch of `didBegin`.
- `SpawnGeometry` (`spawn_geometry.dfy`): `random(min:max:)` as a map from a
  draw r in [0, 1], and the start point, target point and travel time computed
  by `addTie` and `addAsteroid`. Positions are exact reals.
- `LabelText` (`label_text.dfy`): the score label "Destroyed Tie Fighters: "
  followed by the decimal count. It also has a parser, which proves that the
  text and the count determine each other.
- `SceneSpec` (`scene_spec.dfy`): the scene state as a value, with one function
  per operation (`StartGame`, `EndGame`, `CollideWithTie`, `CollideWithAsteroid`,
  `DidBegin`, `TouchesBegan`, `TouchesMoved`, `AddTie`, `AddAsteroid`,
  `DidMove`). It also defines the events the frameworks deliver, runs of those
  events, and the session invariant `Inv` that every reachable state keeps.
- `Game` (`game_scene.dfy`): the class `GameScene`. Its fields are the
  counter, the label text, the two `isHidden` flags, the player position, the
  scene's running actions (a multiset of spawn schedules) and the live spawned
  sprites. Each method updates these fields in place. Its `ensures` equates
  the new `Snapshot()` with the matching `SceneSpec` function applied to the
  old one. Every event handler also keeps `Valid()`, which is `SceneSpec.Inv`.

The model treats the frameworks as follows:

- A contact is its two bodies, `(category, node)`, in the order SpriteKit
  reports them.
- A touch is a location plus whether `gameOver.contains` holds for it.
- A spawn schedule is `Schedule(spawner, interval)`. The events `TieDue` and
  `AsteroidDue` stand for a running schedule reaching its `run` step. They
  take effect only while a schedule of that kind is running.
- Removing a node (`removeFromParent`) deletes its identity from the live
  sprites. Removing a node that is already gone does nothing.

Points of the code's behaviour that the model keeps as they are:

- `startGame` does not cancel earlier schedules; only `endGame`'s
  `removeAllActions` does. `SceneSpec.StartGameWhilePlaying` shows the
  doubling a direct call during play would cause.
  `SceneSpec.StartGameAfterGameOver` and `SceneSpec.RunKeepsInv` show that the
  event handlers only reach `startGame` once no schedule is running. So no run
  of events ever has more than one schedule of each kind.
- `didBegin` acts only when bodyA is the player. `(tie, player)` and
  `(asteroid, player)` contacts are therefore ignored
  (`SceneSpec.OtherContactIgnored`). Contacts are not de-duplicated by
  contact identity.
- `touchesMoved` does not check whether the game is over, and neither does
  the model (`SceneSpec.TouchesMovedIgnoresGameOver`).
- `didBegin` does not check for game over either. A tie still in flight that
  touches the hidden player after the game has ended is still counted.
  `SceneSpec.CountIsTieHits` counts such hits too: it puts no condition on
  whether the game is over.

## Model

| member | source | states |
|---|---|---|
| `PhysicsCategory.Classify` | spaceWing/spaceWing/GameScene.swift:122-130 | a contact runs the tie handler iff (bodyA, bodyB) is exactly (player, tie), the asteroid handler iff it is exactly (player, asteroid), and nothing in every other case |
| `PhysicsCategory.CategoriesDistinct` | spaceWing/spaceWing/GameScene.swift:14-16 | the player, tie and asteroid masks are pairwise distinct, so equality-based dispatch is unambiguous |
| `PhysicsCategory.AsteroidOverlapsPlayerAndTie` | spaceWing/spaceWing/GameScene.swift:14-16 | the asteroid mask is the bitwise union of the player and tie masks and shares bits with both, while player and tie share none |
| `PhysicsCategory.ReversedPairIgnored` | spaceWing/spaceWing/GameScene.swift:122-130 | (player, tie) and (player, asteroid) are dispatched, but the same pairs with bodies swapped are ignored |
| `SpawnGeometry.Random` | spaceWing/spaceWing/GameScene.swift:26-28 | for a draw in [0, 1] the value lies between min and max in whichever order they come; draw 0 gives min and draw 1 gives max |
| `SpawnGeometry.TravelTime` | spaceWing/spaceWing/GameScene.swift:49 | a spawned sprite's travel time lies in [2, 4] |
| `SpawnGeometry.TieFlight` | spaceWing/spaceWing/GameScene.swift:37-50 | a tie starts above the top edge, at an x in [tieW/2 - W/2, W/2 - tieW/2] whenever the tie fits in the scene's width; it targets y = -H/2, the bottom edge (the scene's origin is its centre), with the same x, lower than it started; its travel time lies in [2, 4] |
| `SpawnGeometry.AsteroidFlight` | spaceWing/spaceWing/GameScene.swift:56-71 | an asteroid starts at x = sign * (W + aw/2) and targets x = -sign * W/2 at the same y, so it ends on the opposite side from its start; its y keeps the sprite within the scene's height when it fits; its travel time lies in [2, 4] |
| `SpawnGeometry.AsteroidSidesMirror` | spaceWing/spaceWing/GameScene.swift:56-71 | with the same draws, the flight from the left is the flight from the right mirrored in the vertical axis |
| `LabelText.NatToString` | spaceWing/spaceWing/GameScene.swift:78 | `String(n)` of a count is a non-empty string of decimal digits with no leading zero, and it starts with '0' only for 0 |
| `LabelText.ParseNatToString` | spaceWing/spaceWing/GameScene.swift:78 | reading back the decimal form of a count gives the count |
| `LabelText.NatToStringParse` | spaceWing/spaceWing/GameScene.swift:78 | every well-formed numeral is the decimal form of its own value |
| `LabelText.Label` | spaceWing/spaceWing/GameScene.swift:113 | the label text is the prefix "Destroyed Tie Fighters: " followed by a well-formed numeral |
| `LabelText.LabelRoundTrip` | spaceWing/spaceWing/GameScene.swift:113 | parsing the label made from a count gives that count back |
| `LabelText.ParseLabelExact` | spaceWing/spaceWing/GameScene.swift:113 | any text the parser accepts is exactly the label of the count it reads |
| `LabelText.LabelInjective` | spaceWing/spaceWing/GameScene.swift:113 | different counts never give the same label text |
| `LabelText.LabelZero` | spaceWing/spaceWing/GameScene.swift:78 | the label for a count of 0 is "Destroyed Tie Fighters: 0" |
| `SceneSpec.DidMoveEstablishesInv` | spaceWing/spaceWing/GameScene.swift:92-109 | the scene as `didMove` leaves it satisfies the session invariant, with a zero count and no spawned sprites |
| `SceneSpec.StartGameAfterGameOver` | spaceWing/spaceWing/GameScene.swift:76-83 | starting from a finished game restores the invariant, with exactly the two session schedules running |
| `SceneSpec.EndGameKeepsInv` | spaceWing/spaceWing/GameScene.swift:85-89 | ending the game keeps the session invariant |
| `SceneSpec.CollideWithTieKeepsInv` | spaceWing/spaceWing/GameScene.swift:111-115 | a tie hit keeps the session invariant, including label == the new count's label |
| `SceneSpec.CollideWithAsteroidKeepsInv` | spaceWing/spaceWing/GameScene.swift:117-120 | an asteroid hit keeps the session invariant |
| `SceneSpec.DidBeginKeepsInv` | spaceWing/spaceWing/GameScene.swift:122-130 | any contact keeps the session invariant |
| `SceneSpec.TouchesBeganKeepsInv` | spaceWing/spaceWing/GameScene.swift:133-138 | a touch-down keeps the session invariant, including when it restarts the game |
| `SceneSpec.TouchesMovedKeepsInv` | spaceWing/spaceWing/GameScene.swift:140-146 | moving the player keeps the session invariant |
| `SceneSpec.AddTieKeepsInv` | spaceWing/spaceWing/GameScene.swift:35-53 | spawning a tie keeps the session invariant: fresh identity below nextNode, category tie |
| `SceneSpec.AddAsteroidKeepsInv` | spaceWing/spaceWing/GameScene.swift:55-74 | spawning an asteroid keeps the session invariant |
| `SceneSpec.StepKeepsInv` | spaceWing/spaceWing/GameScene.swift:76-146 | every valid event keeps the session invariant |
| `SceneSpec.RunKeepsInv` | spaceWing/spaceWing/GameScene.swift:76-146 | every scene reachable by a sequence of events keeps the invariant: label shows the count, the player is hidden iff game over shows, exactly the two session schedules run while playing and none after game over |
| `SceneSpec.TieContact` | spaceWing/spaceWing/GameScene.swift:111-125 | a (player, tie) contact adds exactly 1 to the count, sets the label to the prefix plus the new count, removes that tie, and changes nothing else |
| `SceneSpec.AsteroidContact` | spaceWing/spaceWing/GameScene.swift:117-130 | a (player, asteroid) contact removes that asteroid, shows game over, hides the player, leaves no schedule running, and keeps the count, label and position |
| `SceneSpec.OtherContactIgnored` | spaceWing/spaceWing/GameScene.swift:122-130 | every other ordered pair of categories, reversed pairs included, leaves the scene unchanged |
| `SceneSpec.DidBeginDispatches` | spaceWing/spaceWing/GameScene.swift:122-130 | the two sequential tests in `didBegin` equal a single dispatch on `Classify`: at most one handler runs per contact |
| `SceneSpec.StartGameEffect` | spaceWing/spaceWing/GameScene.swift:76-83 | start resets the count to 0 and the label to "Destroyed Tie Fighters: 0", hides game over, shows the player, adds exactly one tie schedule (1.0) and one asteroid schedule (2.0) to the multiset already running, and keeps sprites, position and the next node identity |
| `SceneSpec.StartGameWhilePlaying` | spaceWing/spaceWing/GameScene.swift:76-83 | start does not cancel running schedules: during play it would leave two of each running |
| `SceneSpec.EndGameIdempotent` | spaceWing/spaceWing/GameScene.swift:85-89 | ending the game twice gives the same scene as ending it once |
| `SceneSpec.TouchesBeganGate` | spaceWing/spaceWing/GameScene.swift:133-138 | a touch-down restarts exactly when game over shows and the first touch lies inside it, and otherwise changes nothing |
| `SceneSpec.TouchesMovedIgnoresGameOver` | spaceWing/spaceWing/GameScene.swift:140-146 | moving touches put the player at the last touch's location whether or not the game is over, and change nothing else |
| `SceneSpec.GameOverStopsSpawning` | spaceWing/spaceWing/GameScene.swift:81-88 | after game over the spawn events change nothing, because `removeAllActions` stopped the schedules |
| `SceneSpec.PlayingSpawns` | spaceWing/spaceWing/GameScene.swift:81-82 | while playing each spawn event adds exactly one sprite of its kind, on the flight its draws give (`TieFlight` / `AsteroidFlight`), under an identity not in use; existing sprites, the count, label, flags, actions and position are unchanged |
| `SceneSpec.CountIsTieHits` | spaceWing/spaceWing/GameScene.swift:111-130 | over any run in which no touch-down restarts the game (touch-downs during play are allowed), the count grows by exactly the number of (player, tie) contacts; asteroid hits do not change it |
| `SceneSpec.GameOverIsAsteroidHit` | spaceWing/spaceWing/GameScene.swift:117-130 | over any run in which no touch-down restarts the game, game over shows at the end iff it showed at the start or some (player, asteroid) contact occurred |
| `SceneSpec.ScenarioTieHit` | spaceWing/spaceWing/GameScene.swift:108-124 | start, one tie spawns, the player hits it: count 1, label "Destroyed Tie Fighters: 1", still playing, no sprite left |
| `SceneSpec.ScenarioAsteroidHitAndRestart` | spaceWing/spaceWing/GameScene.swift:108-137 | start, one asteroid spawns, the player hits it: game over, player hidden, no sprite or schedule left; a tap outside changes nothing, a tap inside restarts at count 0 with the two schedules |
| `Game.GameScene.constructor` | spaceWing/spaceWing/GameScene.swift:92-109 | the new scene is the loaded scene after `startGame`, and it is valid |
| `Game.GameScene.StartGame` | spaceWing/spaceWing/GameScene.swift:76-83 | updates the fields to `SceneSpec.StartGame` of the old state |
| `Game.GameScene.EndGame` | spaceWing/spaceWing/GameScene.swift:85-89 | updates the fields to `SceneSpec.EndGame` of the old state and keeps the invariant |
| `Game.GameScene.AddTie` | spaceWing/spaceWing/GameScene.swift:35-53 | adds the tie under a fresh identity and returns it, as `SceneSpec.AddTie`; keeps the invariant |
| `Game.GameScene.AddAsteroid` | spaceWing/spaceWing/GameScene.swift:55-74 | adds the asteroid under a fresh identity and returns it, as `SceneSpec.AddAsteroid`; keeps the invariant |
| `Game.GameScene.SpaceshipCollideWithTie` | spaceWing/spaceWing/GameScene.swift:111-115 | updates the fields to `SceneSpec.CollideWithTie` of the old state and keeps the invariant |
| `Game.GameScene.SpaceshipCollideWithAsteroid` | spaceWing/spaceWing/GameScene.swift:117-120 | updates the fields to `SceneSpec.CollideWithAsteroid` of the old state and keeps the invariant |
| `Game.GameScene.DidBegin` | spaceWing/spaceWing/GameScene.swift:122-130 | updates the fields to `SceneSpec.DidBegin` of the old state and keeps the invariant |
| `Game.GameScene.TouchesBegan` | spaceWing/spaceWing/GameScene.swift:133-138 | updates the fields to `SceneSpec.TouchesBegan` of the old state; the restart keeps the invariant |
| `Game.GameScene.TouchesMoved` | spaceWing/spaceWing/GameScene.swift:140-146 | the loop over the touches leaves the player at the last location (unchanged for none), as `SceneSpec.TouchesMoved`; keeps the invariant |

## Left out

- SpriteKit node and physics-body construction and configuration (sprite images, body shapes, `isDynamic`, contact and collision masks, precise collision detection, zPosition). The model keeps only a spawned sprite's category and flight. The `NoCategories` mask (`PhysicsCategory.none`) is used only by that configuration, as the collision masks; `AllCategories` (`PhysicsCategory.all`) is declared but used nowhere in the source.
- `didMove(to:)`: the name lookups of the player and the two labels, and the physics-world setup (gravity, contact delegate), are framework glue. The constructor models only the final `startGame()` call. The player therefore always exists, and the `player != nil` test in `touchesMoved` always passes.
- Animation and timing: the move actions that carry sprites to their targets, the waits between spawns, and the removal of a sprite when its move completes. A schedule records only its spawner and interval, and `TieDue`/`AsteroidDue` may fire any number of times while it runs. A sprite that reached its target stays among the live sprites until a contact removes it.
- Random number generation (`CGFloat.random`, `randomElement`): the draws are parameters, constrained to [0, 1] and to {1, -1}.
- CGFloat arithmetic is modelled as exact reals; nothing is claimed about floating-point rounding.
- `gameOver.contains(point)` (the label's hit test) is an input of a touch, not computed from the label's frame.
- `touches` is a Swift `Set`: its iteration order and which touch `first` returns are chosen by the framework. The model takes them as a sequence in delivery order. An empty set makes `touches.first!` trap; the model requires a non-empty one.
- `tieDestroyed` is a Swift `Int`, which traps on overflow at 2^63 - 1; the model's count is unbounded.
- `didBegin` force-casts both contact nodes (`as! SKSpriteNode`), which traps when a node is nil, for example on a second contact in the same physics step with a tie the first contact already removed. The model assumes both bodies carry present nodes: a repeated (player, tie) contact on a removed node counts again in the model, while the source's cast may trap instead.
- `touchesEnded`, `touchesCancelled` and `update` have empty bodies and are not modelled.
- Rendering and label display.
