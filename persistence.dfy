/** Saving and loading a game state as a nested record of the shape the save
    file holds (objects with named fields, lists, integers, strings, booleans).
    The text encoding of that record and the file it is written to are not
    modelled. */
module Persistence {
  import opened Entities
  import opened Engine

  /** A structured value as read from or written to a save file. */
  datatype Json =
    | JInt(i: int)
    | JBool(b: bool)
    | JStr(s: string)
    | JList(elems: seq<Json>)
    | JObject(fields: map<string, Json>)

  predicate HasInt(f: map<string, Json>, key: string) {
    key in f && f[key].JInt?
  }

  predicate HasBool(f: map<string, Json>, key: string) {
    key in f && f[key].JBool?
  }

  predicate HasStr(f: map<string, Json>, key: string) {
    key in f && f[key].JStr?
  }

  predicate HasObject(f: map<string, Json>, key: string) {
    key in f && f[key].JObject?
  }

  predicate IsStrList(j: Json) {
    j.JList? && forall k :: 0 <= k < |j.elems| ==> j.elems[k].JStr?
  }

  predicate IsPlayerRecord(j: Json) {
    && j.JObject?
    && HasInt(j.fields, "x") && HasInt(j.fields, "y") && HasInt(j.fields, "health")
    && "inventory" in j.fields && IsStrList(j.fields["inventory"])
  }

  predicate IsItemRecord(j: Json) {
    && j.JObject?
    && HasStr(j.fields, "id") && HasStr(j.fields, "name")
    && HasInt(j.fields, "x") && HasInt(j.fields, "y") && HasBool(j.fields, "picked")
  }

  predicate IsEnvObjectRecord(j: Json) {
    j.JObject? && HasStr(j.fields, "id") && HasStr(j.fields, "type") && HasStr(j.fields, "state")
  }

  /** A record that loading can read: every field loading looks up is present
      with a value of the expected kind. Other fields are allowed and ignored. */
  predicate IsSaveRecord(j: Json) {
    && j.JObject?
    && HasInt(j.fields, "width") && HasInt(j.fields, "height")
    && "player" in j.fields && IsPlayerRecord(j.fields["player"])
    && HasObject(j.fields, "items")
    && (forall k :: k in j.fields["items"].fields ==> IsItemRecord(j.fields["items"].fields[k]))
    && HasObject(j.fields, "env_objects")
    && (forall k :: k in j.fields["env_objects"].fields ==> IsEnvObjectRecord(j.fields["env_objects"].fields[k]))
  }

  // ---------------------------------------------------------------------
  // Saving: building the record.

  function SaveStrings(s: seq<string>): Json {
    JList(seq(|s|, k requires 0 <= k < |s| => JStr(s[k])))
  }

  function SavePlayer(p: Player): (j: Json)
    ensures IsPlayerRecord(j) && LoadPlayer(j) == p
  {
    JObject(map["x" := JInt(p.x), "y" := JInt(p.y), "health" := JInt(p.health),
                "inventory" := SaveStrings(p.inventory)])
  }

  function SaveItem(it: Item): (j: Json)
    ensures IsItemRecord(j) && LoadItem(j) == it
  {
    JObject(map["id" := JStr(it.id), "name" := JStr(it.name), "x" := JInt(it.x),
                "y" := JInt(it.y), "picked" := JBool(it.picked)])
  }

  function SaveEnvObject(o: EnvObject): (j: Json)
    ensures IsEnvObjectRecord(j) && LoadEnvObject(j) == o
  {
    JObject(map["id" := JStr(o.id), "type" := JStr(o.kind), "state" := JStr(o.state)])
  }

  /** The item entries, each under the key it has in the game state. */
  function SaveItems(items: map<string, Item>): (j: map<string, Json>)
    ensures forall k :: k in j ==> IsItemRecord(j[k])
    ensures LoadItems(j) == items
  {
    var j := map k | k in items :: SaveItem(items[k]);
    assert LoadItems(j) == items;
    j
  }

  /** The environment-object entries, each under the key it has in the game state. */
  function SaveEnvObjects(objects: map<string, EnvObject>): (j: map<string, Json>)
    ensures forall k :: k in j ==> IsEnvObjectRecord(j[k])
    ensures LoadEnvObjects(j) == objects
  {
    var j := map k | k in objects :: SaveEnvObject(objects[k]);
    assert LoadEnvObjects(j) == objects;
    j
  }

  /** The record a game state is saved as; loading can always read it back. */
  function Save(w: World): (j: Json)
    ensures IsSaveRecord(j)
  {
    JObject(map[
      "width" := JInt(w.width),
      "height" := JInt(w.height),
      "player" := SavePlayer(w.player),
      "items" := JObject(SaveItems(w.items)),
      "env_objects" := JObject(SaveEnvObjects(w.envObjects))])
  }

  // ---------------------------------------------------------------------
  // Loading: reading the record back.

  function LoadStrings(j: Json): seq<string>
    requires IsStrList(j)
  {
    seq(|j.elems|, k requires 0 <= k < |j.elems| => j.elems[k].s)
  }

  function LoadItem(j: Json): Item
    requires IsItemRecord(j)
  {
    var f := j.fields;
    Item(f["id"].s, f["name"].s, f["x"].i, f["y"].i, f["picked"].b)
  }

  function LoadEnvObject(j: Json): EnvObject
    requires IsEnvObjectRecord(j)
  {
    var f := j.fields;
    EnvObject(f["id"].s, f["type"].s, f["state"].s)
  }

  function LoadPlayer(j: Json): Player
    requires IsPlayerRecord(j)
  {
    var f := j.fields;
    Player(f["x"].i, f["y"].i, f["health"].i, LoadStrings(f["inventory"]))
  }

  function LoadItems(itemData: map<string, Json>): map<string, Item>
    requires forall k :: k in itemData ==> IsItemRecord(itemData[k])
  {
    map k | k in itemData :: LoadItem(itemData[k])
  }

  function LoadEnvObjects(objData: map<string, Json>): map<string, EnvObject>
    requires forall k :: k in objData ==> IsEnvObjectRecord(objData[k])
  {
    map k | k in objData :: LoadEnvObject(objData[k])
  }

  /** The game state a readable record describes. */
  function Load(j: Json): World
    requires IsSaveRecord(j)
  {
    var f := j.fields;
    World(f["width"].i, f["height"].i, LoadPlayer(f["player"]),
      LoadItems(f["items"].fields), LoadEnvObjects(f["env_objects"].fields))
  }

  /** Reads the item entries one by one, each under its key in the record. */
  method ReadItems(itemData: map<string, Json>) returns (items: map<string, Item>)
    requires forall k :: k in itemData ==> IsItemRecord(itemData[k])
    ensures items == LoadItems(itemData)
  {
    items := map[];
    var todo := itemData.Keys;
    while todo != {}
      invariant todo <= itemData.Keys
      invariant items == map k | k in itemData.Keys - todo :: LoadItem(itemData[k])
      decreases todo
    {
      var itemId :| itemId in todo;
      var d := itemData[itemId].fields;
      items := items[itemId := Item(d["id"].s, d["name"].s, d["x"].i, d["y"].i, d["picked"].b)];
      todo := todo - {itemId};
    }
  }

  /** Reads the environment-object entries one by one, each under its key in the record. */
  method ReadEnvObjects(objData: map<string, Json>) returns (objects: map<string, EnvObject>)
    requires forall k :: k in objData ==> IsEnvObjectRecord(objData[k])
    ensures objects == LoadEnvObjects(objData)
  {
    objects := map[];
    var todo := objData.Keys;
    while todo != {}
      invariant todo <= objData.Keys
      invariant objects == map k | k in objData.Keys - todo :: LoadEnvObject(objData[k])
      decreases todo
    {
      var objId :| objId in todo;
      var d := objData[objId].fields;
      objects := objects[objId := EnvObject(d["id"].s, d["type"].s, d["state"].s)];
      todo := todo - {objId};
    }
  }

  /** Builds a new game state from a readable record: width, height and the
      player's fields are copied, then the items and environment objects are
      read in. */
  method LoadGame(data: Json) returns (state: GameState)
    requires IsSaveRecord(data)
    ensures fresh(state) && state.Snapshot() == Load(data)
  {
    var f := data.fields;
    state := new GameState();
    state.width := f["width"].i;
    state.height := f["height"].i;
    var p := f["player"].fields;
    state.player := Player(p["x"].i, p["y"].i, p["health"].i, LoadStrings(p["inventory"]));
    state.items := ReadItems(f["items"].fields);
    state.envObjects := ReadEnvObjects(f["env_objects"].fields);
  }

  // ---------------------------------------------------------------------
  // Round trip.

  /** Loading what was saved gives back the same state: width, height, the
      player (inventory order included), every item and every environment
      object, under the same sets of ids. */
  lemma LoadAfterSave(w: World)
    ensures Load(Save(w)) == w
  {
    var f := Save(w).fields;
    assert f["player"] == SavePlayer(w.player);
    assert f["items"] == JObject(SaveItems(w.items));
    assert f["env_objects"] == JObject(SaveEnvObjects(w.envObjects));
  }

  /** Saving a live game state and loading the record gives a new game state
      holding the same value. */
  method SaveThenLoad(state: GameState) returns (loaded: GameState)
    ensures fresh(loaded) && loaded.Snapshot() == state.Snapshot()
  {
    var data := Save(state.Snapshot());
    loaded := LoadGame(data);
    LoadAfterSave(state.Snapshot());
  }
}
