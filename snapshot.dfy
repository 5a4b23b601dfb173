/**
 * The flight snapshot of the flight watch (`_fw_snapshot_from_aviationstack`
 * and its inner `safe` helper, app.py:685-697): a fixed-shape dictionary
 * projected from one Aviationstack record, with null wherever the record
 * lacks a path.
 */
module Snapshots {
  /** A decoded JSON value as `json.loads` delivers it. */
  datatype Json =
    | JNull
    | JBool(b: bool)
    | JNum(n: real)
    | JStr(s: string)
    | JArr(items: seq<Json>)
    | JObj(fields: map<string, Json>)

  /** Python truthiness of a decoded JSON value. */
  predicate JsonTruthy(v: Json) {
    match v
    case JNull => false
    case JBool(b) => b
    case JNum(n) => n != 0.0
    case JStr(s) => s != ""
    case JArr(items) => items != []
    case JObj(fields) => |fields| > 0
  }

  /** `d.get(k)` on a dictionary: the value, or None (JSON null) when the key is absent. */
  function Get(fields: map<string, Json>, k: string): Json {
    if k in fields then fields[k] else JNull
  }

  /**
   * `safe(*keys)`: follow `keys` from `cur`; a step from a value that is
   * not a dictionary yields the default None.
   */
  function Safe(cur: Json, keys: seq<string>): (r: Json)
    ensures !cur.JObj? && keys != [] ==> r == JNull
    decreases |keys|
  {
    if keys == [] then cur
    else if cur.JObj? then Safe(Get(cur.fields, keys[0]), keys[1..])
    else JNull
  }

  /** The lookup loop of `safe`, one key at a time. */
  method SafeLookup(rec: Json, keys: seq<string>) returns (cur: Json)
    ensures cur == Safe(rec, keys)
  {
    cur := rec;
    for i := 0 to |keys|
      invariant Safe(cur, keys[i..]) == Safe(rec, keys)
    {
      if !cur.JObj? {
        return JNull;
      }
      assert keys[i..][1..] == keys[i + 1..];
      cur := Get(cur.fields, keys[i]);
    }
  }

  /** The keys of the `departure` dictionary, in the order the snapshot lists them. */
  const DepartureKeys: seq<string> := ["airport", "scheduled", "estimated", "actual", "terminal", "gate"]
  /** The keys of the `arrival` dictionary: the departure keys and `baggage`. */
  const ArrivalKeys: seq<string> := DepartureKeys + ["baggage"]
  const FlightKeys: seq<string> := ["iata", "icao", "number"]
  const TopKeys: seq<string> := ["status", "airline", "flight", "departure", "arrival"]

  /** A dictionary whose key `keys[i]` holds the record's value at `group/keys[i]`. */
  function Group(rec: Json, group: string, keys: seq<string>): (r: map<string, Json>)
    ensures r.Keys == set k | k in keys
    ensures forall k :: k in keys ==> r[k] == Safe(rec, [group, k])
  {
    map k | k in keys :: Safe(rec, [group, k])
  }

  /** `_fw_snapshot_from_aviationstack(rec)`. */
  function SnapshotFromAviationstack(rec: Json): (r: Json)
    ensures r.JObj? && r.fields.Keys == set k | k in TopKeys
  {
    JObj(map[
      "status" := Safe(rec, ["flight_status"]),
      "airline" := Safe(rec, ["airline", "name"]),
      "flight" := JObj(Group(rec, "flight", FlightKeys)),
      "departure" := JObj(Group(rec, "departure", DepartureKeys)),
      "arrival" := JObj(Group(rec, "arrival", ArrivalKeys))])
  }

  /**
   * Every key of the fixed shape is present whatever the record holds: the
   * top level, `flight`, `departure` and `arrival` have exactly their keys.
   */
  lemma SnapshotShape(rec: Json)
    ensures var s := SnapshotFromAviationstack(rec).fields;
      && s.Keys == set k | k in TopKeys
      && s["flight"].JObj? && s["flight"].fields.Keys == set k | k in FlightKeys
      && s["departure"].JObj? && s["departure"].fields.Keys == set k | k in DepartureKeys
      && s["arrival"].JObj? && s["arrival"].fields.Keys == set k | k in ArrivalKeys
  {
  }

  /** Each leaf of the snapshot is the record's value at the corresponding path, or null. */
  lemma SnapshotLeaves(rec: Json)
    ensures var s := SnapshotFromAviationstack(rec).fields;
      && s["status"] == Safe(rec, ["flight_status"])
      && s["airline"] == Safe(rec, ["airline", "name"])
      && (forall k :: k in FlightKeys ==> s["flight"].fields[k] == Safe(rec, ["flight", k]))
      && (forall k :: k in DepartureKeys ==> s["departure"].fields[k] == Safe(rec, ["departure", k]))
      && (forall k :: k in ArrivalKeys ==> s["arrival"].fields[k] == Safe(rec, ["arrival", k]))
  {
  }

  /** A record that is not a dictionary (or an empty one) gives the all-null snapshot. */
  lemma SnapshotOfNothing(rec: Json)
    requires !rec.JObj? || rec.fields == map[]
    ensures SnapshotFromAviationstack(rec) == SnapshotFromAviationstack(JNull)
    ensures var s := SnapshotFromAviationstack(rec).fields;
      && s["status"] == JNull && s["airline"] == JNull
      && (forall k :: k in DepartureKeys ==> s["departure"].fields[k] == JNull)
  {
    forall keys: seq<string> | keys != []
      ensures Safe(rec, keys) == JNull
    {
      if rec.JObj? {
        assert Get(rec.fields, keys[0]) == JNull;
      }
    }
    SnapshotDeterminedByPaths(rec, JNull);
  }

  /** Two records that agree on the paths the snapshot reads give the same snapshot. */
  lemma SnapshotDeterminedByPaths(a: Json, b: Json)
    requires Safe(a, ["flight_status"]) == Safe(b, ["flight_status"])
    requires Safe(a, ["airline", "name"]) == Safe(b, ["airline", "name"])
    requires forall k :: k in FlightKeys ==> Safe(a, ["flight", k]) == Safe(b, ["flight", k])
    requires forall k :: k in DepartureKeys ==> Safe(a, ["departure", k]) == Safe(b, ["departure", k])
    requires forall k :: k in ArrivalKeys ==> Safe(a, ["arrival", k]) == Safe(b, ["arrival", k])
    ensures SnapshotFromAviationstack(a) == SnapshotFromAviationstack(b)
  {
    assert Group(a, "flight", FlightKeys) == Group(b, "flight", FlightKeys);
    assert Group(a, "departure", DepartureKeys) == Group(b, "departure", DepartureKeys);
    assert Group(a, "arrival", ArrivalKeys) == Group(b, "arrival", ArrivalKeys);
  }
}
