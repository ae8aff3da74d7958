/** The collision categories of GameScene.swift (struct PhysicsCategory) and the
    way `didBegin` tells contacts apart: by EQUALITY of the two bodies' 32-bit
    category masks, bodyA first. */
module PhysicsCategory {

  /** A 32-bit category mask (Swift UInt32). */
  type Mask = bv32

  const NoCategories: Mask := 0
  const AllCategories: Mask := 0xFFFF_FFFF
  const Player: Mask := 1     // 0b01
  const Tie: Mask := 2        // 0b10
  const Asteroid: Mask := 3   // 0b11

  /** What `didBegin` does with a contact, decided by the ordered pair
      (bodyA category, bodyB category). */
  datatype Dispatch = HitTie | HitAsteroid | Ignored

  /** The handler `didBegin` runs for the pair (a, b): a tie hit only for
      exactly (player, tie), an asteroid hit only for exactly
      (player, asteroid), nothing otherwise. */
  function Classify(a: Mask, b: Mask): (d: Dispatch)
    ensures d == HitTie <==> a == Player && b == Tie
    ensures d == HitAsteroid <==> a == Player && b == Asteroid
    ensures d == Ignored <==> a != Player || (b != Tie && b != Asteroid)
  {
    if a == Player && b == Tie then HitTie
    else if a == Player && b == Asteroid then HitAsteroid
    else Ignored
  }

  /** The three categories are pairwise distinct, so the two equality tests in
      `didBegin` can never both succeed on one contact ... */
  lemma CategoriesDistinct()
    ensures Player != Tie && Player != Asteroid && Tie != Asteroid
  {
  }

  /** ... even though the asteroid mask is the bitwise union of the player and
      tie masks, so a bitwise `&` test would have confused them. */
  lemma AsteroidOverlapsPlayerAndTie()
    ensures Asteroid == Player | Tie
    ensures Asteroid & Player != NoCategories && Asteroid & Tie != NoCategories
    ensures Player & Tie == NoCategories
  {
  }

  /** Swapping the bodies of a player contact turns it into one that is ignored. */
  lemma ReversedPairIgnored(other: Mask)
    requires other == Tie || other == Asteroid
    ensures Classify(Player, other) != Ignored
    ensures Classify(other, Player) == Ignored
  {
  }
}
