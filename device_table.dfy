/**
 * The session's device table `_state`: a Python dictionary from device id to raw record.
 * A Python dictionary remembers the order in which its keys were first inserted, and
 * `device_ids` hands that order out, so the table keeps its keys in a sequence beside the map.
 */
module DeviceTables {
  import opened Records

  datatype DeviceTable = DeviceTable(ids: seq<string>, records: map<string, DeviceRecord>) {

    /** The keys are listed once each, they are exactly the map's keys, and every record is
        filed under its own `device_id`. */
    ghost predicate Valid() {
      && (forall i, j :: 0 <= i < j < |ids| ==> ids[i] != ids[j])
      && (forall k :: k in records <==> k in ids)
      && (forall k :: k in records ==> records[k].deviceId == k)
    }
  }

  /** The empty dictionary a session starts with. */
  const Empty: DeviceTable := DeviceTable([], map[])

  /** The ids the records of a list carry. */
  function IdSet(devices: seq<DeviceRecord>): set<string> {
    set i | 0 <= i < |devices| :: devices[i].deviceId
  }

  /** `table[d['device_id']] = d`: a new key goes to the end, an existing key keeps its place. */
  function Insert(t: DeviceTable, d: DeviceRecord): (u: DeviceTable)
    requires t.Valid()
    ensures u.Valid()
  {
    if d.deviceId in t.records then t.(records := t.records[d.deviceId := d])
    else DeviceTable(t.ids + [d.deviceId], t.records[d.deviceId := d])
  }

  /** `{device['device_id']: device for device in devices}`: the records inserted in list order. */
  function Index(devices: seq<DeviceRecord>): (t: DeviceTable)
    ensures t.Valid()
    ensures t.records.Keys == IdSet(devices)
  {
    if devices == [] then Empty
    else Insert(Index(devices[..|devices| - 1]), devices[|devices| - 1])
  }

  /** `devices[i]` is the last record of the list that carries its id. */
  ghost predicate LastWith(devices: seq<DeviceRecord>, i: int) {
    && 0 <= i < |devices|
    && forall j :: i < j < |devices| ==> devices[j].deviceId != devices[i].deviceId
  }

  /** `devices[i]` is the first record of the list that carries the id `k`. */
  ghost predicate FirstAt(devices: seq<DeviceRecord>, k: string, i: int) {
    && 0 <= i < |devices|
    && devices[i].deviceId == k
    && forall m :: 0 <= m < i ==> devices[m].deviceId != k
  }

  /** A later record with the same id overwrites an earlier one: the last one wins. */
  lemma {:induction false} IndexLastWins(devices: seq<DeviceRecord>, i: int)
    requires LastWith(devices, i)
    ensures devices[i].deviceId in Index(devices).records
    ensures Index(devices).records[devices[i].deviceId] == devices[i]
  {
    var n := |devices|;
    var prefix := devices[..n - 1];
    if i < n - 1 {
      assert LastWith(prefix, i) by {
        forall j | i < j < |prefix| ensures prefix[j].deviceId != prefix[i].deviceId {
          assert prefix[j] == devices[j];
        }
      }
      IndexLastWins(prefix, i);
    }
  }

  /** The index of the last record carrying the id `k`, or -1 when no record carries it. */
  function LastIndexOf(devices: seq<DeviceRecord>, k: string): (i: int)
    ensures -1 <= i < |devices|
    ensures i >= 0 ==> devices[i].deviceId == k && LastWith(devices, i)
    ensures i == -1 <==> k !in IdSet(devices)
  {
    if devices == [] then -1
    else if devices[|devices| - 1].deviceId == k then |devices| - 1
    else LastIndexOf(devices[..|devices| - 1], k)
  }

  /**
   * The table is the last-writer-wins map: every id of the list is a key, and it is filed
   * with the last record of the list that carries it.
   */
  lemma {:induction false} IndexIsLastWriterMap(devices: seq<DeviceRecord>)
    ensures Index(devices).records ==
      map k | k in IdSet(devices) :: devices[LastIndexOf(devices, k)]
  {
    var t := Index(devices);
    forall k | k in IdSet(devices) ensures t.records[k] == devices[LastIndexOf(devices, k)] {
      IndexLastWins(devices, LastIndexOf(devices, k));
    }
  }

  /** One step of `Index`: the table of a non-empty list is that of the list without its last
      record, with the last record inserted. */
  lemma IndexStep(devices: seq<DeviceRecord>)
    requires devices != []
    ensures var t := Index(devices[..|devices| - 1]);
      var d := devices[|devices| - 1];
      && Index(devices).records == t.records[d.deviceId := d]
      && Index(devices).ids == if d.deviceId in t.records then t.ids else t.ids + [d.deviceId]
  {
  }

  /** One step of `Index`, on the list of keys: the shorter list's keys come first, in the
      same places, and at most one key, that of the last record, follows them. */
  lemma IndexIdsStep(devices: seq<DeviceRecord>)
    requires devices != []
    ensures var t := Index(devices[..|devices| - 1]);
      var ids := Index(devices).ids;
      && |t.ids| <= |ids| <= |t.ids| + 1
      && (forall x :: 0 <= x < |t.ids| ==> ids[x] == t.ids[x])
      && (|ids| > |t.ids| ==> ids[|t.ids|] == devices[|devices| - 1].deviceId)
      && (|ids| > |t.ids| ==> devices[|devices| - 1].deviceId !in IdSet(devices[..|devices| - 1]))
      && (forall k :: k in t.ids ==> k in t.records)
  {
    IndexStep(devices);
  }

  /** The first record carrying an id that the list without its last record already carries
      lies in that shorter list. */
  lemma FirstAtPrefix(devices: seq<DeviceRecord>, k: string, i: int)
    requires devices != [] && FirstAt(devices, k, i)
    requires k in IdSet(devices[..|devices| - 1])
    ensures i < |devices| - 1 && FirstAt(devices[..|devices| - 1], k, i)
  {
    var prefix := devices[..|devices| - 1];
    var m :| 0 <= m < |prefix| && prefix[m].deviceId == k;
    assert devices[m].deviceId == k;
  }

  /** The first record carrying an id that the list without its last record lacks is the
      last record. */
  lemma FirstAtLast(devices: seq<DeviceRecord>, k: string, j: int)
    requires devices != [] && FirstAt(devices, k, j)
    requires k !in IdSet(devices[..|devices| - 1])
    ensures j == |devices| - 1
  {
  }

  /** The keys are listed in the order in which their ids first appear in the list. */
  lemma {:induction false} IndexKeepsFirstOrder(devices: seq<DeviceRecord>, a: int, b: int, i: int, j: int)
    requires 0 <= a < b < |Index(devices).ids|
    requires FirstAt(devices, Index(devices).ids[a], i)
    requires FirstAt(devices, Index(devices).ids[b], j)
    ensures i < j
  {
    var n := |devices|;
    var prefix := devices[..n - 1];
    var t := Index(prefix);
    var ids := Index(devices).ids;
    IndexIdsStep(devices);
    assert t.ids[a] in t.ids;
    FirstAtPrefix(devices, ids[a], i);
    if b < |t.ids| {
      assert t.ids[b] in t.ids;
      FirstAtPrefix(devices, ids[b], j);
      IndexKeepsFirstOrder(prefix, a, b, i, j);
    } else {
      FirstAtLast(devices, ids[b], j);
    }
  }

  /** Indexing two lists one after the other: the second list's records override the first's. */
  lemma {:induction false} IndexOverride(xs: seq<DeviceRecord>, ys: seq<DeviceRecord>)
    ensures Index(xs + ys).records == Index(xs).records + Index(ys).records
  {
    if ys == [] {
      assert xs + ys == xs;
    } else {
      var zs := xs + ys;
      var front := ys[..|ys| - 1];
      var d := ys[|ys| - 1];
      assert zs[..|zs| - 1] == xs + front;
      assert zs[|zs| - 1] == d;
      IndexStep(zs);
      IndexStep(ys);
      IndexOverride(xs, front);
      UpdateAfterOverride(Index(xs).records, Index(front).records, d.deviceId, d);
    }
  }

  lemma UpdateAfterOverride<K, V>(a: map<K, V>, b: map<K, V>, k: K, v: V)
    ensures (a + b)[k := v] == a + b[k := v]
  {
  }
}
