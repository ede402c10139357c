/** The passive records of the game world: the player, the items lying in the
    world, the interactive environment objects, and the value of a whole game
    state. The mutable game state itself is the class `Engine.GameState`. */
module Entities {

  /** The player: a map position, a health value and the ordered list of the
      ids of the items picked up (duplicates are possible in principle, but
      pickup is one-shot, see `Engine.AtMostOnePickupPerItem`). */
  datatype Player = Player(x: int, y: int, health: int, inventory: seq<string>)

  /** An item in the world; `picked` becomes true when the player takes it. */
  datatype Item = Item(id: string, name: string, x: int, y: int, picked: bool)

  /** A door or a switch. `kind` is the record's "type" field ("door",
      "switch"); `state` is "open"/"closed" for a door, "on"/"off" for a switch. */
  datatype EnvObject = EnvObject(id: string, kind: string, state: string)

  /** The value held by one game state: map size, player, and the items and
      environment objects, each keyed by its id. */
  datatype World = World(
    width: int,
    height: int,
    player: Player,
    items: map<string, Item>,
    envObjects: map<string, EnvObject>)

  /** The health ceiling that using a potion never exceeds. */
  const MaxHealth := 100

  /** What one potion restores. */
  const PotionHeal := 20

  /** The default-constructed player: at (0, 0), full health, nothing carried. */
  function NewPlayer(): Player {
    Player(0, 0, MaxHealth, [])
  }

  /** The default-constructed game state: a 10 x 10 map, a new player, no items
      and no environment objects. */
  function NewWorld(): World {
    World(10, 10, NewPlayer(), map[], map[])
  }

  predicate InBounds(w: World, x: int, y: int) {
    0 <= x < w.width && 0 <= y < w.height
  }

  predicate NoDuplicates(s: seq<string>) {
    forall i, j :: 0 <= i < j < |s| ==> s[i] != s[j]
  }

  /** The two states an object of a known kind is meant to take. */
  predicate StateInDomain(o: EnvObject) {
    && (o.kind == "door" ==> o.state == "open" || o.state == "closed")
    && (o.kind == "switch" ==> o.state == "on" || o.state == "off")
  }

  /** The invariant of every game state reachable from the initial one: the
      player and every item lie on the map, health is within [0, MaxHealth],
      the inventory holds distinct ids of picked items, every record is stored
      under its own id, and doors and switches are in their two-value domain. */
  ghost predicate Inv(w: World) {
    && InBounds(w, w.player.x, w.player.y)
    && 0 <= w.player.health <= MaxHealth
    && NoDuplicates(w.player.inventory)
    && (forall i :: 0 <= i < |w.player.inventory| ==>
          w.player.inventory[i] in w.items && w.items[w.player.inventory[i]].picked)
    && (forall k :: k in w.items ==>
          w.items[k].id == k && InBounds(w, w.items[k].x, w.items[k].y))
    && (forall k :: k in w.envObjects ==>
          w.envObjects[k].id == k && StateInDomain(w.envObjects[k]))
  }
}
