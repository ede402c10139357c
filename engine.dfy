/** The state-transition engine: the mutable game state, its four actions
    (move, pick up, use, interact), the initial configuration, and what any
    sequence of actions preserves. */
module Engine {
  import opened Entities

  /** One caller-invoked action, with its parameters. */
  datatype Action =
    | MoveTo(x: int, y: int)
    | PickUp(itemId: string)
    | Use(itemId: string)
    | InteractWith(objectId: string)

  /** What an action reports, and the state it leaves behind. */
  datatype Outcome = Outcome(ok: bool, world: World)

  function Min(a: int, b: int): int {
    if a <= b then a else b
  }

  /** The position of the first occurrence of `x` in `s`. */
  function FirstIndex(s: seq<string>, x: string): (i: nat)
    requires x in s
    ensures i < |s| && s[i] == x && x !in s[..i]
  {
    if s[0] == x then
      assert s[..0] == [];
      0
    else
      var i := FirstIndex(s[1..], x);
      assert s[..i + 1] == [s[0]] + s[1..][..i];
      i + 1
  }

  /** Removes the first occurrence of `x` from `s`, as a list's `remove` does. */
  function RemoveFirst(s: seq<string>, x: string): (r: seq<string>)
    requires x in s
    ensures |r| == |s| - 1
    ensures r == s[..FirstIndex(s, x)] + s[FirstIndex(s, x) + 1..]
  {
    if s[0] == x then
      s[1..]
    else
      var rest := RemoveFirst(s[1..], x);
      ghost var i := FirstIndex(s[1..], x);
      assert s[..i + 1] == [s[0]] + s[1..][..i];
      assert s[i + 2..] == s[1..][i + 1..];
      [s[0]] + rest
  }

  /** Removing the first occurrence takes away exactly one copy of `x`. */
  lemma RemoveFirstMultiset(s: seq<string>, x: string)
    requires x in s
    ensures multiset(RemoveFirst(s, x)) == multiset(s) - multiset{x}
  {
    var i := FirstIndex(s, x);
    assert s == s[..i] + [x] + s[i + 1..];
    assert multiset(s) == multiset(s[..i]) + multiset{x} + multiset(s[i + 1..]);
  }

  /** The state a door or switch takes when interacted with: "closed" and
      "open" swap for a door, "off" and "on" for a switch, and any other
      current state becomes "closed" (door) or "off" (switch). */
  function Toggled(kind: string, state: string): string {
    if kind == "door" then
      (if state == "closed" then "open" else "closed")
    else
      (if state == "off" then "on" else "off")
  }

  function MoveOutcome(w: World, newX: int, newY: int): Outcome {
    if newX < 0 || newX >= w.width || newY < 0 || newY >= w.height then
      Outcome(false, w)
    else
      Outcome(true, w.(player := w.player.(x := newX, y := newY)))
  }

  function PickupOutcome(w: World, itemId: string): Outcome {
    if itemId !in w.items then
      Outcome(false, w)
    else
      var item := w.items[itemId];
      if item.picked then
        Outcome(false, w)
      else if w.player.x != item.x || w.player.y != item.y then
        Outcome(false, w)
      else
        Outcome(true, w.(items := w.items[itemId := item.(picked := true)],
                         player := w.player.(inventory := w.player.inventory + [itemId])))
  }

  function UseOutcome(w: World, itemId: string): Outcome {
    if itemId !in w.player.inventory then
      Outcome(false, w)
    else if itemId !in w.items then
      Outcome(false, w)
    else if w.items[itemId].name == "Potion" then
      Outcome(true, w.(player := w.player.(
        health := Min(MaxHealth, w.player.health + PotionHeal),
        inventory := RemoveFirst(w.player.inventory, itemId))))
    else
      Outcome(false, w)
  }

  function InteractOutcome(w: World, objectId: string): Outcome {
    if objectId !in w.envObjects then
      Outcome(false, w)
    else
      var obj := w.envObjects[objectId];
      if obj.kind == "door" || obj.kind == "switch" then
        Outcome(true, w.(envObjects := w.envObjects[objectId := obj.(state := Toggled(obj.kind, obj.state))]))
      else
        Outcome(false, w)
  }

  /** One action applied to a state value. Every action is atomic (a failed
      action changes nothing), never changes the map size or the sets of item
      and object ids, and never clears a `picked` flag. */
  function Step(w: World, a: Action): (r: Outcome)
    ensures !r.ok ==> r.world == w
    ensures r.world.width == w.width && r.world.height == w.height
    ensures r.world.items.Keys == w.items.Keys && r.world.envObjects.Keys == w.envObjects.Keys
    ensures forall k :: k in w.items && w.items[k].picked ==> r.world.items[k].picked
  {
    match a
    case MoveTo(x, y) => MoveOutcome(w, x, y)
    case PickUp(id) => PickupOutcome(w, id)
    case Use(id) => UseOutcome(w, id)
    case InteractWith(id) => InteractOutcome(w, id)
  }

  /** The state after applying a sequence of actions in order. */
  function Run(w: World, trace: seq<Action>): World
    decreases |trace|
  {
    if trace == [] then w else Run(Step(w, trace[0]).world, trace[1..])
  }

  /** The fixed configuration every game starts from. */
  function InitialWorld(): World {
    World(10, 10, NewPlayer(),
      map["p1" := Item("p1", "Potion", 2, 2, false), "k1" := Item("k1", "Key", 5, 5, false)],
      map["d1" := EnvObject("d1", "door", "closed"), "s1" := EnvObject("s1", "switch", "off")])
  }

  /** The live game state, changed in place by the actions. */
  class GameState {
    var width: int
    var height: int
    var player: Player
    var items: map<string, Item>
    var envObjects: map<string, EnvObject>

    /** The value this object currently holds. */
    function Snapshot(): World
      reads this
    {
      World(width, height, player, items, envObjects)
    }

    /** A default game state: 10 x 10, a new player, nothing in the world. */
    constructor ()
      ensures Snapshot() == NewWorld()
    {
      width := 10;
      height := 10;
      player := NewPlayer();
      items := map[];
      envObjects := map[];
    }

    /** Moves the player to the absolute target (newX, newY) if it lies on the map. */
    method MovePlayer(newX: int, newY: int) returns (ok: bool)
      modifies this
      ensures ok <==> 0 <= newX < old(width) && 0 <= newY < old(height)
      ensures ok ==> player == old(player).(x := newX, y := newY)
      ensures !ok ==> Snapshot() == old(Snapshot())
      ensures width == old(width) && height == old(height)
      ensures player.health == old(player.health) && player.inventory == old(player.inventory)
      ensures items == old(items) && envObjects == old(envObjects)
      ensures Outcome(ok, Snapshot()) == Step(old(Snapshot()), MoveTo(newX, newY))
    {
      if newX < 0 || newX >= width || newY < 0 || newY >= height {
        return false;
      }
      player := player.(x := newX, y := newY);
      return true;
    }

    /** Picks up the item `itemId` if it exists, is not yet picked, and lies
        under the player; the id is appended to the inventory. */
    method PickupItem(itemId: string) returns (ok: bool)
      modifies this
      ensures ok <==> && itemId in old(items)
                      && !old(items)[itemId].picked
                      && old(player).x == old(items)[itemId].x
                      && old(player).y == old(items)[itemId].y
      ensures !ok ==> Snapshot() == old(Snapshot())
      ensures ok ==> items == old(items)[itemId := old(items)[itemId].(picked := true)]
      ensures ok ==> player == old(player).(inventory := old(player.inventory) + [itemId])
      ensures width == old(width) && height == old(height) && envObjects == old(envObjects)
      ensures Outcome(ok, Snapshot()) == Step(old(Snapshot()), PickUp(itemId))
    {
      if itemId !in items {
        return false;
      }
      var item := items[itemId];
      if item.picked {
        return false;
      }
      if player.x != item.x || player.y != item.y {
        return false;
      }
      items := items[itemId := item.(picked := true)];
      player := player.(inventory := player.inventory + [itemId]);
      return true;
    }

    /** Uses the carried item `itemId`: only a "Potion" has an effect, which
        raises health by PotionHeal up to MaxHealth and consumes one copy of
        the id from the inventory. A "Key" or any other item fails. */
    method UseItem(itemId: string) returns (ok: bool)
      modifies this
      ensures ok <==> && itemId in old(player.inventory)
                      && itemId in old(items)
                      && old(items)[itemId].name == "Potion"
      ensures !ok ==> Snapshot() == old(Snapshot())
      ensures ok ==> player.x == old(player.x) && player.y == old(player.y)
      ensures ok ==> player.health == Min(MaxHealth, old(player.health) + PotionHeal)
      ensures ok ==> player.inventory == RemoveFirst(old(player.inventory), itemId)
      ensures ok && old(player.health) <= MaxHealth ==> old(player.health) <= player.health <= MaxHealth
      ensures width == old(width) && height == old(height)
      ensures items == old(items) && envObjects == old(envObjects)
      ensures Outcome(ok, Snapshot()) == Step(old(Snapshot()), Use(itemId))
    {
      if itemId !in player.inventory {
        return false;
      }
      if itemId !in items {
        return false;
      }
      var item := items[itemId];
      if item.name == "Potion" {
        player := player.(health := player.health + PotionHeal);
        if player.health > MaxHealth {
          player := player.(health := MaxHealth);
        }
        player := player.(inventory := RemoveFirst(player.inventory, itemId));
        return true;
      } else if item.name == "Key" {
        return false;
      } else {
        return false;
      }
    }

    /** Toggles the door or switch `objectId`; unknown ids and other kinds fail. */
    method InteractWithEnvironment(objectId: string) returns (ok: bool)
      modifies this
      ensures ok <==> && objectId in old(envObjects)
                      && (old(envObjects)[objectId].kind == "door" || old(envObjects)[objectId].kind == "switch")
      ensures !ok ==> Snapshot() == old(Snapshot())
      ensures ok ==> envObjects.Keys == old(envObjects).Keys
      ensures ok ==> envObjects[objectId] == old(envObjects)[objectId].(
                       state := Toggled(old(envObjects)[objectId].kind, old(envObjects)[objectId].state))
      ensures ok ==> forall k :: k in envObjects && k != objectId ==> envObjects[k] == old(envObjects)[k]
      ensures width == old(width) && height == old(height)
      ensures player == old(player) && items == old(items)
      ensures Outcome(ok, Snapshot()) == Step(old(Snapshot()), InteractWith(objectId))
    {
      if objectId !in envObjects {
        return false;
      }
      var obj := envObjects[objectId];
      if obj.kind == "door" {
        if obj.state == "closed" {
          obj := obj.(state := "open");
        } else {
          obj := obj.(state := "closed");
        }
        envObjects := envObjects[objectId := obj];
        return true;
      }
      if obj.kind == "switch" {
        if obj.state == "off" {
          obj := obj.(state := "on");
        } else {
          obj := obj.(state := "off");
        }
        envObjects := envObjects[objectId := obj];
        return true;
      }
      return false;
    }
  }

  /** Builds the fixed starting configuration. */
  method CreateInitialState() returns (state: GameState)
    ensures fresh(state) && state.Snapshot() == InitialWorld()
  {
    state := new GameState();
    state.items := state.items["p1" := Item("p1", "Potion", 2, 2, false)];
    state.items := state.items["k1" := Item("k1", "Key", 5, 5, false)];
    state.envObjects := state.envObjects["d1" := EnvObject("d1", "door", "closed")];
    state.envObjects := state.envObjects["s1" := EnvObject("s1", "switch", "off")];
  }

  /** Replaces the game by a fresh starting configuration. */
  method ResetGameState() returns (state: GameState)
    ensures fresh(state) && state.Snapshot() == InitialWorld()
  {
    state := CreateInitialState();
  }

  // ---------------------------------------------------------------------
  // What the actions promise, stated on state values.

  /** The starting configuration: a 10 x 10 map, the player at (0, 0) with
      full health and nothing carried, the potion p1 at (2, 2), the key k1 at
      (5, 5), door d1 closed and switch s1 off; it satisfies the invariant. */
  lemma InitialWorldContents()
    ensures var w := InitialWorld();
      && w.width == 10 && w.height == 10
      && w.player == Player(0, 0, 100, [])
      && w.items.Keys == {"p1", "k1"} && w.envObjects.Keys == {"d1", "s1"}
      && w.items["p1"] == Item("p1", "Potion", 2, 2, false)
      && w.items["k1"] == Item("k1", "Key", 5, 5, false)
      && w.envObjects["d1"] == EnvObject("d1", "door", "closed")
      && w.envObjects["s1"] == EnvObject("s1", "switch", "off")
    ensures Inv(InitialWorld())
  {
  }

  lemma RemoveFirstKeepsDistinct(s: seq<string>, x: string)
    requires x in s && NoDuplicates(s)
    ensures NoDuplicates(RemoveFirst(s, x))
    ensures forall e :: e in RemoveFirst(s, x) ==> e in s && e != x
  {
    var r := RemoveFirst(s, x);
    var i := FirstIndex(s, x);
    assert forall j :: 0 <= j < i ==> r[j] == s[j];
    assert forall j :: i <= j < |r| ==> r[j] == s[j + 1];
    forall a, b | 0 <= a < b < |r| ensures r[a] != r[b] {
      var a' := if a < i then a else a + 1;
      var b' := if b < i then b else b + 1;
      assert r[a] == s[a'] && r[b] == s[b'];
    }
    forall e | e in r ensures e in s && e != x {
      var j :| 0 <= j < |r| && r[j] == e;
      var j' := if j < i then j else j + 1;
      assert r[j] == s[j'];
    }
  }

  lemma MoveKeepsInv(w: World, x: int, y: int)
    requires Inv(w)
    ensures Inv(MoveOutcome(w, x, y).world)
  {
  }

  lemma PickupKeepsInv(w: World, id: string)
    requires Inv(w)
    ensures Inv(PickupOutcome(w, id).world)
  {
    var r := PickupOutcome(w, id);
    if r.ok {
      assert id !in w.player.inventory;
      assert r.world.player.inventory == w.player.inventory + [id];
    }
  }

  lemma UseKeepsInv(w: World, id: string)
    requires Inv(w)
    ensures Inv(UseOutcome(w, id).world)
  {
    var r := UseOutcome(w, id);
    if r.ok {
      RemoveFirstKeepsDistinct(w.player.inventory, id);
      var inv' := r.world.player.inventory;
      forall i | 0 <= i < |inv'| ensures inv'[i] in r.world.items && r.world.items[inv'[i]].picked {
        assert inv'[i] in w.player.inventory;
      }
    }
  }

  lemma InteractKeepsInv(w: World, id: string)
    requires Inv(w)
    ensures Inv(InteractOutcome(w, id).world)
  {
  }

  /** Every action keeps the invariant. */
  lemma StepKeepsInv(w: World, a: Action)
    requires Inv(w)
    ensures Inv(Step(w, a).world)
  {
    match a
    case MoveTo(x, y) => MoveKeepsInv(w, x, y);
    case PickUp(id) => PickupKeepsInv(w, id);
    case Use(id) => UseKeepsInv(w, id);
    case InteractWith(id) => InteractKeepsInv(w, id);
  }

  /** Every state reached by any sequence of actions keeps the invariant. */
  lemma {:induction false} RunKeepsInv(w: World, trace: seq<Action>)
    requires Inv(w)
    ensures Inv(Run(w, trace))
    decreases |trace|
  {
    if trace != [] {
      StepKeepsInv(w, trace[0]);
      RunKeepsInv(Step(w, trace[0]).world, trace[1..]);
    }
  }

  /** Every state reachable from the starting configuration satisfies the invariant. */
  lemma ReachableStatesKeepInv(trace: seq<Action>)
    ensures Inv(Run(InitialWorld(), trace))
  {
    InitialWorldContents();
    RunKeepsInv(InitialWorld(), trace);
  }

  /** A player on the map stays on the map whatever actions follow: a move is
      only accepted onto the map and nothing changes the map size. */
  lemma {:induction false} PlayerStaysInBounds(w: World, trace: seq<Action>)
    requires InBounds(w, w.player.x, w.player.y)
    ensures var w' := Run(w, trace); InBounds(w', w'.player.x, w'.player.y)
    decreases |trace|
  {
    if trace != [] {
      var w1 := Step(w, trace[0]).world;
      assert InBounds(w1, w1.player.x, w1.player.y);
      PlayerStaysInBounds(w1, trace[1..]);
    }
  }

  /** With health at most MaxHealth, no sequence of actions lowers it or
      lifts it above MaxHealth. */
  lemma {:induction false} HealthNeverDropsNorExceedsCap(w: World, trace: seq<Action>)
    requires w.player.health <= MaxHealth
    ensures w.player.health <= Run(w, trace).player.health <= MaxHealth
    decreases |trace|
  {
    if trace != [] {
      var w1 := Step(w, trace[0]).world;
      assert w.player.health <= w1.player.health <= MaxHealth;
      HealthNeverDropsNorExceedsCap(w1, trace[1..]);
    }
  }

  /** How often `id` is carried, plus one while it still lies unpicked in the world. */
  function PickupBudget(w: World, id: string): nat {
    multiset(w.player.inventory)[id] + (if id in w.items && !w.items[id].picked then 1 else 0)
  }

  lemma StepKeepsPickupBudget(w: World, a: Action, id: string)
    ensures PickupBudget(Step(w, a).world, id) <= PickupBudget(w, id)
  {
    var r := Step(w, a);
    if r.ok {
      var w' := r.world;
      match a
      case MoveTo(x, y) =>
        assert w'.player.inventory == w.player.inventory && w'.items == w.items;
      case PickUp(k) =>
        assert multiset(w'.player.inventory) == multiset(w.player.inventory) + multiset{k};
        if k != id && id in w.items {
          assert w'.items[id] == w.items[id];
        }
      case Use(k) =>
        RemoveFirstMultiset(w.player.inventory, k);
        assert w'.items == w.items;
      case InteractWith(k) =>
        assert w'.player == w.player && w'.items == w.items;
    }
  }

  /** Whatever actions follow, an item id enters the inventory at most once
      more, and not at all once its item has been picked. */
  lemma {:induction false} AtMostOnePickupPerItem(w: World, trace: seq<Action>, id: string)
    ensures multiset(Run(w, trace).player.inventory)[id]
            <= multiset(w.player.inventory)[id] + (if id in w.items && !w.items[id].picked then 1 else 0)
    decreases |trace|
  {
    if trace != [] {
      StepKeepsPickupBudget(w, trace[0], id);
      AtMostOnePickupPerItem(Step(w, trace[0]).world, trace[1..], id);
    }
  }

  /** A picked item stays picked whatever actions follow. */
  lemma {:induction false} PickedStaysPicked(w: World, trace: seq<Action>, id: string)
    requires id in w.items && w.items[id].picked
    ensures id in Run(w, trace).items && Run(w, trace).items[id].picked
    decreases |trace|
  {
    if trace != [] {
      PickedStaysPicked(Step(w, trace[0]).world, trace[1..], id);
    }
  }

  /** Picking up the same item twice in a row fails the second time. */
  lemma SecondPickupFails(w: World, id: string)
    requires Step(w, PickUp(id)).ok
    ensures !Step(Step(w, PickUp(id)).world, PickUp(id)).ok
  {
  }

  /** A key cannot be used: the action fails and the key stays carried. */
  lemma KeyUseFails(w: World, id: string)
    requires id in w.player.inventory && id in w.items && w.items[id].name == "Key"
    ensures !Step(w, Use(id)).ok && id in Step(w, Use(id)).world.player.inventory
  {
  }

  /** After a successful interaction a door or switch is in its two-value domain. */
  lemma InteractLandsInDomain(w: World, id: string)
    requires Step(w, InteractWith(id)).ok
    ensures id in Step(w, InteractWith(id)).world.envObjects
    ensures StateInDomain(Step(w, InteractWith(id)).world.envObjects[id])
  {
  }

  /** Interacting twice with a door or switch whose state is in its domain
      restores the original state. */
  lemma InteractTwiceRestores(w: World, id: string)
    requires id in w.envObjects
    requires w.envObjects[id].kind == "door" || w.envObjects[id].kind == "switch"
    requires StateInDomain(w.envObjects[id])
    ensures Step(Step(w, InteractWith(id)).world, InteractWith(id)) == Outcome(true, w)
  {
  }
}
