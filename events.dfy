/** The event taxonomy: each category with its on-trigger and off-trigger names. */
module Events {

  datatype EventKind = EventKind(category: string, onName: string, offName: string)

  /** The `EVENTS` table, in its declaration order. */
  const EVENTS: seq<EventKind> := [
    EventKind("warm", "temperature_high", "temperature_dropped_normal"),
    EventKind("cold", "temperature_low", "temperature_risen_normal"),
    EventKind("moisture", "humidity_high", "humidity_dropped_normal"),
    EventKind("dry", "humidity_low", "humidity_risen_normal"),
    EventKind("connectivity", "device_offline", "device_online")
  ]

  /**
   * `[i for slist in EVENTS.values() for i in slist]`: every trigger name of the table,
   * entry by entry, the on-name before the off-name. Nothing is filtered out.
   */
  function Flatten(table: seq<EventKind>): (names: seq<string>)
    ensures |names| == 2 * |table|
    ensures forall i :: 0 <= i < |table| ==>
      names[2 * i] == table[i].onName && names[2 * i + 1] == table[i].offName
  {
    if table == [] then []
    else [table[0].onName, table[0].offName] + Flatten(table[1..])
  }

  /** Every name in the flattened list comes from some entry of the table. */
  lemma {:induction false} FlattenNamesFromTable(table: seq<EventKind>, name: string)
    requires name in Flatten(table)
    ensures exists i :: 0 <= i < |table| && (name == table[i].onName || name == table[i].offName)
  {
    var names := Flatten(table);
    var k :| 0 <= k < |names| && names[k] == name;
    var i := k / 2;
    assert k == 2 * i || k == 2 * i + 1;
    assert names[2 * i] == table[i].onName && names[2 * i + 1] == table[i].offName;
  }

  /** The event list a webhook is registered with: the ten names of `EVENTS`, in table order. */
  lemma DefaultEvents()
    ensures Flatten(EVENTS) == [
      "temperature_high", "temperature_dropped_normal",
      "temperature_low", "temperature_risen_normal",
      "humidity_high", "humidity_dropped_normal",
      "humidity_low", "humidity_risen_normal",
      "device_offline", "device_online"
    ]
  {
  }
}
