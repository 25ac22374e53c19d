/**
 * The Point session and its device views. The session owns the device table and the webhook
 * dictionary; each network exchange is an input (`Reply`, hook list) and each outgoing write
 * (the registration POST, the DELETE) is an output, so every operation is a deterministic step.
 */
module Session {
  import opened Wrappers
  import opened Records
  import opened Requests
  import opened Events
  import opened DeviceTables

  /** Python truthiness of an optional string: present and non-empty. */
  predicate Truthy(s: Option<string>) {
    s.Some? && s.value != ""
  }

  /** The message of the exception `device` raises on a one-character id. */
  const DEVICE_ID_ERROR: string := "ERR FER"

  class PointSession {
    /** `_webhook`; `None` once a failed registration has stored Python's `None` in it. */
    var webhookDict: Option<HookDict>
    /** `_state`: the device table. */
    var state: DeviceTable

    ghost predicate Valid()
      reads this
    {
      state.Valid()
    }

    /** A new session holds no devices and an empty webhook dictionary. */
    constructor ()
      ensures Valid()
      ensures state == Empty && webhookDict == Some(NoHook)
    {
      webhookDict := Some(NoHook);
      state := Empty;
    }

    /**
     * `update`: fetch the device list and, when it is a non-empty list, replace the whole
     * table by it, keyed by `device_id`. A failed fetch or an empty list leaves the table as
     * it was. The generator `update` returns is `Devices` run on the new table.
     */
    method Update(reply: Reply<DevicesBody>)
      requires Valid()
      modifies this
      ensures Valid()
      ensures webhookDict == old(webhookDict)
      ensures var fetched := RequestDevices(reply);
        if fetched.Some? && fetched.value != [] then
          && state == Index(fetched.value)
          && (forall k :: k in DeviceIds() <==> k in IdSet(fetched.value))
        else state == old(state)
    {
      var devices := RequestDevices(reply);
      if devices.Some? && devices.value != [] {
        state := Index(devices.value);
      }
    }

    /** `device_ids`: the keys of the table, each once, in first-insertion order. */
    function DeviceIds(): (ids: seq<string>)
      reads this
      requires Valid()
      ensures forall k :: k in ids <==> k in state.records
      ensures forall i, j :: 0 <= i < j < |ids| ==> ids[i] != ids[j]
    {
      state.ids
    }

    /** `device_raw`: the stored record, or `None` when the id is not a key. */
    function DeviceRaw(deviceId: string): (r: Option<DeviceRecord>)
      reads this
      ensures r.Some? <==> deviceId in state.records
      ensures r.Some? ==> r.value == state.records[deviceId]
    {
      if deviceId in state.records then Some(state.records[deviceId]) else None
    }

    /**
     * `device`: a view bound to this session and exactly this id. A one-character id raises;
     * the empty id and longer ids are accepted whether or not the table has them.
     */
    method Device(deviceId: string) returns (r: Result<Device, string>)
      ensures r.Failure? <==> |deviceId| == 1
      ensures r.Failure? ==> r.error == DEVICE_ID_ERROR
      ensures r.Success? ==> r.value.session == this && r.value.deviceId == deviceId
    {
      if |deviceId| == 1 {
        return Failure(DEVICE_ID_ERROR);
      }
      var view := new Device(this, deviceId);
      r := Success(view);
    }

    /**
     * `devices`, iterated to its end: one view per key of the table, in key order. The
     * generator raises on the first one-character key; `views` holds what it yielded before.
     */
    method Devices() returns (views: seq<Device>, raised: bool)
      ensures |views| <= |state.ids|
      ensures forall i :: 0 <= i < |views| ==>
        views[i].session == this && views[i].deviceId == state.ids[i] && |state.ids[i]| != 1
      ensures raised <==> |views| < |state.ids|
      ensures raised ==> |state.ids[|views|]| == 1
    {
      views, raised := [], false;
      var i := 0;
      while i < |state.ids|
        invariant 0 <= i <= |state.ids| && |views| == i
        invariant forall j :: 0 <= j < i ==>
          views[j].session == this && views[j].deviceId == state.ids[j] && |state.ids[j]| != 1
      {
        var view := Device(state.ids[i]);
        if view.Failure? {
          raised := true;
          return;
        }
        views := views + [view.value];
        i := i + 1;
      }
    }

    /**
     * `read_sensor`: GET the sensor's history at `SensorUrl(deviceId, sensorUri)` and return
     * that target with the `value` of the history's last entry. A failed request or an empty
     * history makes the source fail on `None` or on an empty list, so both are excluded here.
     */
    function ReadSensor(deviceId: string, sensorUri: string, reply: Reply<SensorBody>): (r: (string, Option<real>))
      requires Request(reply).Some? && reply.body.values.Some? && reply.body.values.value != []
      ensures r.0 == SensorUrl(deviceId, sensorUri)
      ensures exists s :: s in reply.body.values.value && r.1 == s.value
      ensures r.1 == reply.body.values.value[|reply.body.values.value| - 1].value
    {
      var values := Request(reply).value.values.value;
      (SensorUrl(deviceId, sensorUri), values[|values| - 1].value)
    }

    /**
     * `register_webhook`: POST `{url, events}` to the webhooks endpoint; the reply's body when
     * it succeeds, `None` otherwise.
     */
    function RegisterWebhook(webhookUrl: string, events: seq<string>, reply: Reply<HookDict>):
      (r: (WebhookPost, Option<HookDict>))
      ensures r.0.url == webhookUrl && r.0.events == events
      ensures r.1.Some? <==> reply.Response? && !IsHttpError(reply.status) && reply.error.None?
      ensures r.1.Some? ==> r.1.value == reply.body
    {
      (WebhookPost(webhookUrl, events), Request(reply))
    }

    /**
     * `update_webhook`: store `webhookId` as `hook_id`, then look the url up in the server's
     * hook list. A known url ends there: nothing is POSTed and `None` is returned. An unknown
     * url is registered with every name of `EVENTS` (the `events` argument is not used), and
     * the registration reply, `None` when it failed, replaces the dictionary and is returned.
     * A dictionary already replaced by `None`, or a failed hook-list request, makes the source
     * fail on `None`, so both are excluded here.
     */
    method UpdateWebhook(webhookUrl: string, webhookId: string, events: Option<seq<string>>,
                         hooks: seq<Hook>, registerReply: Reply<HookDict>)
      returns (posted: Option<WebhookPost>, r: Option<HookDict>)
      requires webhookDict.Some?
      modifies this
      ensures state == old(state)
      ensures webhookUrl in HookUrls(hooks) ==>
        && posted.None? && r.None?
        && webhookDict == Some(old(webhookDict).value.(hookId := Some(webhookId)))
        && Webhook() == webhookId
      ensures webhookUrl !in HookUrls(hooks) ==>
        && posted == Some(WebhookPost(webhookUrl, Flatten(EVENTS)))
        && r == Request(registerReply)
        && webhookDict == r
    {
      webhookDict := Some(webhookDict.value.(hookId := Some(webhookId)));
      var urls := HookUrls(hooks);
      if webhookUrl !in urls {
        var names := Flatten(EVENTS);
        var registration := RegisterWebhook(webhookUrl, names, registerReply);
        webhookDict := registration.1;
        return Some(registration.0), webhookDict;
      }
      return None, None;
    }

    /** `[i['url'] for i in hooks]`: the urls of the server's hooks. */
    static function HookUrls(hooks: seq<Hook>): (urls: seq<string>)
      ensures |urls| == |hooks|
      ensures forall u :: u in urls <==> exists h :: h in hooks && h.url == u
    {
      if hooks == [] then [] else [hooks[0].url] + HookUrls(hooks[1..])
    }

    /**
     * `remove_webhook`: when a truthy `hook_id` is held, send a DELETE to `DeleteUrl` of it;
     * the reply is ignored, and the dictionary is never cleared. A dictionary replaced by
     * `None` makes the source fail, so it is excluded here.
     */
    method RemoveWebhook() returns (deleted: Option<string>)
      requires webhookDict.Some?
      ensures deleted.Some? <==> Truthy(webhookDict.value.hookId)
      ensures deleted.Some? ==> deleted == Some(DeleteUrl(webhookDict.value.hookId.value))
    {
      if Truthy(webhookDict.value.hookId) {
        deleted := Some(DeleteUrl(webhookDict.value.hookId.value));
      } else {
        deleted := None;
      }
    }

    /** `webhook`: the held `hook_id`; the source raises when there is none, so it is required. */
    function Webhook(): (hookId: string)
      reads this
      requires webhookDict.Some? && webhookDict.value.hookId.Some?
      ensures Some(hookId) == webhookDict.value.hookId
    {
      webhookDict.value.hookId.value
    }
  }

  /**
   * A device view: a session and an id, nothing more. Every accessor reads the session's
   * table as it is when the accessor is called. The source fails when the id is no longer a
   * key (it indexes `None`), so accessors require the id to be one.
   */
  class Device {
    const session: PointSession
    const deviceId: string

    constructor (session: PointSession, deviceId: string)
      ensures this.session == session && this.deviceId == deviceId
    {
      this.session := session;
      this.deviceId := deviceId;
    }

    /** The record currently filed under this view's id. */
    ghost function Current(): DeviceRecord
      reads session
      requires deviceId in session.state.records
    {
      session.state.records[deviceId]
    }

    /** `device`: the raw record, or `None` when the id is not a key. */
    function Raw(): (r: Option<DeviceRecord>)
      reads session
      ensures r.Some? <==> deviceId in session.state.records
      ensures r.Some? ==> r.value == Current()
    {
      session.DeviceRaw(deviceId)
    }

    /** `name`: the record's `description`, which may be absent. */
    function Name(): (name: Option<string>)
      reads session
      requires deviceId in session.state.records
      ensures name == Current().description
    {
      Raw().value.description
    }

    /** `battery_level`: the record's `battery.percent`. */
    function BatteryLevel(): (level: int)
      reads session
      requires deviceId in session.state.records
      ensures level == Current().batteryPercent
    {
      Raw().value.batteryPercent
    }

    /** `last_update`: the record's `last_heard_from_at`. */
    function LastUpdate(): (at: string)
      reads session
      requires deviceId in session.state.records
      ensures at == Current().lastHeardFromAt
    {
      Raw().value.lastHeardFromAt
    }

    /** `ongoing_events`: the record's `ongoing_events`, passed through. */
    function OngoingEvents(): (events: seq<string>)
      reads session
      requires deviceId in session.state.records
      ensures events == Current().ongoingEvents
    {
      Raw().value.ongoingEvents
    }

    /**
     * `__str__`: `Device #<id> <name>`, with the empty string for a missing name; the space
     * after the id is kept either way.
     */
    function ToString(): (s: string)
      reads session
      requires deviceId in session.state.records
      ensures |s| == 9 + |deviceId| + |Name().GetOr("")|
      ensures s[..8] == "Device #"
      ensures s[8..8 + |deviceId|] == deviceId
      ensures s[8 + |deviceId|] == ' '
      ensures s[9 + |deviceId|..] == Name().GetOr("")
    {
      "Device #" + deviceId + " " + Name().GetOr("")
    }

    /**
     * `device_info`: the registry descriptor. Its identifier is the view's own id, because
     * the table files each record under its `device_id`. The source indexes `description`
     * directly, so a record without one is excluded here.
     */
    function DeviceInfo(): (info: DeviceInfoDict)
      reads session
      requires session.Valid() && deviceId in session.state.records
      requires Current().description.Some?
      ensures info.identifieres == deviceId
      ensures info.connections == {("mac", Current().deviceMac)}
      ensures info.manufacturer == "Minut"
      ensures info.model == "Point v" + Current().hardwareVersion
      ensures Some(info.name) == Name()
      ensures info.swVersion == Current().firmwareInstalled
    {
      var d := Raw().value;
      DeviceInfoDict({("mac", d.deviceMac)}, d.deviceId, "Minut", "Point v" + d.hardwareVersion,
                     d.description.value, d.firmwareInstalled)
    }

    /** `device_status`: the status fields, with the values `last_update` and `battery_level` give. */
    function DeviceStatus(): (status: DeviceStatusDict)
      reads session
      requires deviceId in session.state.records
      ensures status.active == Current().active && status.offline == Current().offline
      ensures status.lastUpdate == LastUpdate() && status.batteryLevel == BatteryLevel()
    {
      var d := Raw().value;
      DeviceStatusDict(d.active, d.offline, LastUpdate(), BatteryLevel())
    }

    /** `sensor`: the session's `read_sensor` for this view's id: the history of this device's
        sensor is requested, and its last value returned. */
    function Sensor(sensorType: string, reply: Reply<SensorBody>): (r: (string, Option<real>))
      requires Request(reply).Some? && reply.body.values.Some? && reply.body.values.value != []
      ensures r.0 == SensorUrl(deviceId, sensorType)
      ensures r.1 == reply.body.values.value[|reply.body.values.value| - 1].value
    {
      session.ReadSensor(deviceId, sensorType, reply)
    }

    /** `webhook`: the session's held hook id. */
    function Webhook(): (hookId: string)
      reads session
      requires session.webhookDict.Some? && session.webhookDict.value.hookId.Some?
      ensures Some(hookId) == session.webhookDict.value.hookId
    {
      session.Webhook()
    }
  }

  /**
   * A view reads the table as `Update` left it: after indexing a list, each accessor gives
   * the field of the last record of the list that carries the view's id.
   */
  lemma ViewReadsLatest(view: Device, devices: seq<DeviceRecord>, i: int)
    requires view.session.state == Index(devices)
    requires LastWith(devices, i) && devices[i].deviceId == view.deviceId
    ensures view.deviceId in view.session.state.records
    ensures view.Name() == devices[i].description
    ensures view.BatteryLevel() == devices[i].batteryPercent
    ensures view.LastUpdate() == devices[i].lastHeardFromAt
    ensures view.OngoingEvents() == devices[i].ongoingEvents
  {
    IndexLastWins(devices, i);
  }
}
