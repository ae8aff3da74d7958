/** The GameScene class of GameScene.swift, with the fields its methods update
    in place. Each method is proved to leave the scene in the state the
    matching SceneSpec function gives, and the event handlers keep the session
    invariant SceneSpec.Inv. */
module Game {
  import opened PhysicsCategory
  import opened SpawnGeometry
  import LabelText
  import SceneSpec

  class GameScene {
    /** The scene's and the sprites' sizes, fixed once the scene is loaded. */
    const geometry: Geometry

    var tieDestroyed: nat
    /** `label.text` */
    var labelText: string
    /** `gameOver.isHidden` */
    var gameOverHidden: bool
    /** `player.isHidden` */
    var playerHidden: bool
    /** `player.position` */
    var playerPosition: Point
    /** The repeating actions running on the scene (`run` / `removeAllActions`). */
    var actions: multiset<SceneSpec.Schedule>
    /** The spawned sprites that are still children of the scene. */
    var children: map<SceneSpec.NodeId, SceneSpec.Sprite>
    /** The identity the next spawned sprite gets. */
    var nextNode: SceneSpec.NodeId

    /** The scene's state as a value. */
    function Snapshot(): SceneSpec.Scene
      reads this
    {
      SceneSpec.Scene(tieDestroyed, labelText, gameOverHidden, playerHidden,
                      playerPosition, actions, children, nextNode)
    }

    ghost predicate Valid()
      reads this
    {
      SceneSpec.Inv(Snapshot())
    }

    /** The scene as `didMove(to:)` leaves it: loaded with its player at
        `playerStart`, then started. */
    constructor (geometry: Geometry, playerStart: Point)
      ensures this.geometry == geometry
      ensures Snapshot() == SceneSpec.DidMove(playerStart)
      ensures Valid()
    {
      this.geometry := geometry;
      tieDestroyed := 0;
      labelText := "";
      gameOverHidden := false;
      playerHidden := false;
      playerPosition := playerStart;
      actions := multiset{};
      children := map[];
      nextNode := 0;
      new;
      StartGame();
      SceneSpec.DidMoveEstablishesInv(playerStart);
    }

    method StartGame()
      modifies this
      ensures Snapshot() == SceneSpec.StartGame(old(Snapshot()))
    {
      tieDestroyed := 0;
      labelText := LabelText.Prefix + LabelText.NatToString(tieDestroyed);
      gameOverHidden := true;
      playerHidden := false;
      actions := actions + multiset{SceneSpec.TieSchedule};
      actions := actions + multiset{SceneSpec.AsteroidSchedule};
    }

    method EndGame()
      requires Valid()
      modifies this
      ensures Snapshot() == SceneSpec.EndGame(old(Snapshot()))
      ensures Valid()
    {
      gameOverHidden := false;
      playerHidden := true;
      actions := multiset{};
      SceneSpec.EndGameKeepsInv(old(Snapshot()));
    }

    method AddTie(rx: real, rt: real) returns (tie: SceneSpec.NodeId)
      requires Valid() && IsDraw(rx) && IsDraw(rt)
      modifies this
      ensures tie == old(nextNode) && tie !in old(children)
      ensures Snapshot() == SceneSpec.AddTie(old(Snapshot()), geometry, rx, rt)
      ensures Valid()
    {
      tie := nextNode;
      children := children[tie := SceneSpec.Sprite(Tie, TieFlight(geometry, rx, rt))];
      nextNode := nextNode + 1;
      SceneSpec.AddTieKeepsInv(old(Snapshot()), geometry, rx, rt);
    }

    method AddAsteroid(sign: int, ry: real, rt: real) returns (asteroid: SceneSpec.NodeId)
      requires Valid() && IsSign(sign) && IsDraw(ry) && IsDraw(rt)
      modifies this
      ensures asteroid == old(nextNode) && asteroid !in old(children)
      ensures Snapshot() == SceneSpec.AddAsteroid(old(Snapshot()), geometry, sign, ry, rt)
      ensures Valid()
    {
      asteroid := nextNode;
      children := children[asteroid := SceneSpec.Sprite(Asteroid, AsteroidFlight(geometry, sign, ry, rt))];
      nextNode := nextNode + 1;
      SceneSpec.AddAsteroidKeepsInv(old(Snapshot()), geometry, sign, ry, rt);
    }

    method SpaceshipCollideWithTie(tie: SceneSpec.NodeId)
      requires Valid()
      modifies this
      ensures Snapshot() == SceneSpec.CollideWithTie(old(Snapshot()), tie)
      ensures Valid()
    {
      tieDestroyed := tieDestroyed + 1;
      labelText := LabelText.Prefix + LabelText.NatToString(tieDestroyed);
      children := children - {tie};
      SceneSpec.CollideWithTieKeepsInv(old(Snapshot()), tie);
    }

    method SpaceshipCollideWithAsteroid(asteroid: SceneSpec.NodeId)
      requires Valid()
      modifies this
      ensures Snapshot() == SceneSpec.CollideWithAsteroid(old(Snapshot()), asteroid)
      ensures Valid()
    {
      children := children - {asteroid};
      EndGame();
    }

    method DidBegin(contact: SceneSpec.Contact)
      requires Valid()
      modifies this
      ensures Snapshot() == SceneSpec.DidBegin(old(Snapshot()), contact)
      ensures Valid()
    {
      if contact.bodyA.category == Player && contact.bodyB.category == Tie {
        SpaceshipCollideWithTie(contact.bodyB.node);
      }
      if contact.bodyA.category == Player && contact.bodyB.category == Asteroid {
        SpaceshipCollideWithAsteroid(contact.bodyB.node);
      }
    }

    method TouchesBegan(touches: seq<SceneSpec.Touch>)
      requires Valid() && |touches| > 0
      modifies this
      ensures Snapshot() == SceneSpec.TouchesBegan(old(Snapshot()), touches)
      ensures Valid()
    {
      var touch := touches[0];
      if !gameOverHidden && touch.insideGameOver {
        SceneSpec.StartGameAfterGameOver(Snapshot());
        StartGame();
      }
    }

    method TouchesMoved(locations: seq<Point>)
      requires Valid()
      modifies this
      ensures Snapshot() == SceneSpec.TouchesMoved(old(Snapshot()), locations)
      ensures Valid()
    {
      for i := 0 to |locations|
        invariant Snapshot() == SceneSpec.TouchesMoved(old(Snapshot()), locations[..i])
      {
        playerPosition := locations[i];
      }
      assert locations[..|locations|] == locations;
      SceneSpec.TouchesMovedKeepsInv(old(Snapshot()), locations);
    }
  }
}
