# Game state engine, modelled in Dafny

This project models the state-transition engine of a small 2D game. A game
state holds the map width and height, one player (position, health, an ordered
inventory of item ids), the items lying in the world (keyed by id, each with a
name, a position and a one-way `picked` flag) and the environment objects
(keyed by id, each a door or a switch with a state). Four actions validate
their inputs and then change the state in place, reporting success as a
boolean:

- move the player to an absolute target cell;
- pick up an item;
- use a carried item;
- interact with a door or a switch.

A game starts from a fixed configuration, and a reset rebuilds that same
configuration. A state can be saved as a nested record and loaded back.

Layout:

- `entities.dfy` (module `Entities`): the records `Player`, `Item`,
  `EnvObject`, the value `World` of a whole game state, the constants
  `MaxHealth` (100) and `PotionHeal` (20), and `Inv`, the invariant of every
  reachable state.
- `engine.dfy` (module `Engine`): the class `GameState`, whose fields are
  changed in place by the four action methods. Each method's contract states
  the success condition as an if-and-only-if, the new state on success, and an
  unchanged state on failure. Each method is also tied to `Step`, the same
  action stated on `World` values, so that lemmas can reason about any
  sequence of actions (`Run`). The file also holds `CreateInitialState` and
  `ResetGameState`, and lemmas for the bounds invariant, the health ceiling,
  one-shot pickup, the one-way `picked` flag and the toggle.
- `persistence.dfy` (module `Persistence`): a `Json` value tree standing for
  the saved record. `Save` builds the record. `LoadGame` rebuilds a new
  `GameState` with loops over the record's item and object entries. `Load`
  is the value that loop produces. `LoadAfterSave` proves the round trip.

The record's field names are those of the save file: "width", "height",
"player" (with "x", "y", "health", "inventory"), "items" (each with "id",
"name", "x", "y", "picked") and "env_objects" (each with "id", "type",
"state"). The object field `type` is called `kind` in Dafny, because `type` is
a keyword there.

Where the code departs from the documented design of the game, the model follows
the code:

- a move takes an absolute target `(newX, newY)`, not a delta;
- every action reports a plain success flag, not a named failure reason;
- using a Key fails, and the key stays in the inventory;
- any door state other than "closed" becomes "closed", and any switch state
  other than "off" becomes "off";
- loading has no failure result: the code simply raises on a missing field,
  so `LoadGame` requires a record in which every field it reads is present;
- the health range and the map bounds are not checked on load, so `Inv` is
  proved of states reachable from the initial one, not of loaded ones.

## Model

| member | source | states |
|---|---|---|
| `Engine.GameState.constructor` | game_state.py:30-36 | a default game state is a 10 x 10 map, the player at (0, 0) with health 100 and an empty inventory, and no items or objects |
| `Engine.GameState.MovePlayer` | game_state.py:63-76 | succeeds iff 0 <= newX < width and 0 <= newY < height; on success the player is exactly at (newX, newY); on failure the whole state is unchanged; health, inventory, items, objects and map size never change |
| `Engine.GameState.PickupItem` | game_state.py:79-105 | succeeds iff the id is known, its item is not yet picked, and the player stands on the item's cell; on success only that item becomes picked and the id is appended at the end of the inventory; on failure the state is unchanged |
| `Engine.GameState.UseItem` | game_state.py:108-142 | succeeds iff the id is carried, is a known item, and that item is named "Potion"; then health becomes min(100, health + 20) and exactly the first copy of the id leaves the inventory, and from health <= 100 the new health lies between the old one and 100; a Key, an unknown name, an uncarried or unknown id fails with the state unchanged |
| `Engine.GameState.InteractWithEnvironment` | game_state.py:145-177 | succeeds iff the id is known and its kind is "door" or "switch"; then only that object's state changes, to its toggled value; an unknown id or another kind fails with the state unchanged |
| `Engine.CreateInitialState` | game_state.py:39-53 | builds a new game state holding the fixed starting configuration `InitialWorld` |
| `Engine.ResetGameState` | game_state.py:56-60 | builds a new game state equal to the one `CreateInitialState` builds |
| `Engine.InitialWorldContents` | game_state.py:39-53 | the starting configuration is a 10 x 10 map, the player at (0, 0) with health 100 and no items, potion p1 at (2, 2) and key k1 at (5, 5) both unpicked, door d1 "closed", switch s1 "off"; it satisfies the invariant |
| `Engine.Step` | game_state.py:63-177 | any action, successful or not, keeps the map size and the sets of item and object ids, never clears a `picked` flag, and a failed action leaves the state unchanged |
| `Engine.FirstIndex` | game_state.py:132 | the index found holds the id, and no earlier position does |
| `Engine.RemoveFirst` | game_state.py:132 | removing an id from the inventory drops exactly the first position holding it and keeps the order of the rest |
| `Engine.RemoveFirstMultiset` | game_state.py:132 | removing an id from the inventory takes away exactly one copy of it |
| `Engine.RemoveFirstKeepsDistinct` | game_state.py:131-132 | removing an id from an inventory of distinct ids leaves distinct ids, none of them the removed one |
| `Engine.MoveKeepsInv` | game_state.py:63-76 | a move keeps the invariant |
| `Engine.PickupKeepsInv` | game_state.py:79-105 | a pickup keeps the invariant: the appended id was not yet carried and its item is now picked |
| `Engine.UseKeepsInv` | game_state.py:108-142 | using an item keeps the invariant: health stays in [0, 100] and the inventory stays a list of distinct picked ids |
| `Engine.InteractKeepsInv` | game_state.py:145-177 | an interaction keeps the invariant: a door or switch lands in its two-value domain |
| `Engine.StepKeepsInv` | game_state.py:63-177 | every action keeps the invariant: player and items on the map, health in [0, 100], distinct inventory ids of picked items, records under their own ids, doors and switches in their two-value domain |
| `Engine.RunKeepsInv` | game_state.py:63-177 | any sequence of actions keeps the invariant |
| `Engine.ReachableStatesKeepInv` | game_state.py:39-177 | every state reached from the starting configuration by any sequence of actions satisfies the invariant |
| `Engine.PlayerStaysInBounds` | game_state.py:68-74 | a player on the map stays on the map after any sequence of actions |
| `Engine.HealthNeverDropsNorExceedsCap` | game_state.py:126-129 | from health <= 100, no sequence of actions lowers health or lifts it above 100 |
| `Engine.StepKeepsPickupBudget` | game_state.py:92-103 | no action raises the number of copies of an id in the inventory plus one while its item is still unpicked |
| `Engine.AtMostOnePickupPerItem` | game_state.py:92-103 | across any sequence of actions an id enters the inventory at most once more, and not at all if its item is already picked |
| `Engine.PickedStaysPicked` | game_state.py:101-102 | a picked item stays picked after any sequence of actions |
| `Engine.SecondPickupFails` | game_state.py:91-94 | picking up the same id right after a successful pickup fails |
| `Engine.KeyUseFails` | game_state.py:136-138 | using a carried key fails and the key stays in the inventory |
| `Engine.InteractLandsInDomain` | game_state.py:156-174 | after a successful interaction the door is "open" or "closed", the switch "on" or "off" |
| `Engine.InteractTwiceRestores` | game_state.py:156-174 | interacting twice with a door or switch whose state is in its two-value domain succeeds and restores the original state |
| `Persistence.SavePlayer` | game_state.py:188-193 | the saved player record has every field loading reads, and reading it gives back the player, inventory order included |
| `Persistence.SaveItem` | game_state.py:195-201 | a saved item record has every field loading reads, and reading it gives back the item |
| `Persistence.SaveEnvObject` | game_state.py:205-209 | a saved object record has every field loading reads, and reading it gives back the object |
| `Persistence.SaveItems` | game_state.py:194-203 | the saved item entries are all readable, and reading them gives back the same map: the same ids, each with its item |
| `Persistence.SaveEnvObjects` | game_state.py:204-211 | the saved object entries are all readable, and reading them gives back the same map: the same ids, each with its object |
| `Persistence.Save` | game_state.py:185-212 | the record a state is saved as is always one that loading can read |
| `Persistence.ReadItems` | game_state.py:239-247 | the loop enters every item entry of the record, under its record key, as the item the entry describes, and nothing else |
| `Persistence.ReadEnvObjects` | game_state.py:250-256 | the loop enters every object entry of the record, under its record key, as the object the entry describes, and nothing else |
| `Persistence.LoadGame` | game_state.py:228-259 | builds a new game state whose width, height, player, items and objects are those the record describes, items and objects entered under their record keys |
| `Persistence.LoadAfterSave` | game_state.py:185-256 | loading the saved record gives a state equal to the original in every field: width, height, player with inventory order, every item, every object, with equal key sets |
| `Persistence.SaveThenLoad` | game_state.py:180-259 | saving a live game state and loading the record gives a new game state holding the same value |

## Left out

- Console messages: every `print` is output only and is not modelled.
- File access and text encoding: opening the save file and writing or reading
  its JSON text are not modelled; saving and loading are modelled as
  conversions to and from the nested record `Json`.
- Value kinds on load: the original types no field of the loaded record, so a
  string where a number belongs would be stored as it is. The model's records
  are typed, so `LoadGame` requires each field it reads to have the expected
  kind (`IsSaveRecord`); a missing field makes the original raise.
- Failure reasons: the pickup checks run in the order existence, already
  picked, position, and the other actions check in source order too, but the
  order is visible only through the console messages; the model reports
  only the success flag, as the code does.
- Key order of the item and object dictionaries: it is not relied on, so they
  are modelled as maps. The inventory is an ordered sequence.
- main.py is a scripted demo that calls the actions in turn; its direct
  assignment of the player's health bypasses the engine and is not modelled.
- Aliasing: `save_game` puts the live inventory list into the record, but the
  record is written out at once, so the model copies the list.
