/**
 * The JSON shapes the Minut Point API sends and receives, as typed records.
 * Only the members that the session and its device views read are modelled.
 */
module Records {
  import opened Wrappers

  /** A raw device record, as listed under `devices` by the devices endpoint. */
  datatype DeviceRecord = DeviceRecord(
    deviceId: string,                // `device_id`: the key of the session's device table
    description: Option<string>,     // `description`: the display name, may be absent
    batteryPercent: int,             // `battery.percent`
    active: bool,                    // `active`
    offline: bool,                   // `offline`
    lastHeardFromAt: string,         // `last_heard_from_at`: a timestamp
    ongoingEvents: seq<string>,      // `ongoing_events`: passed through untouched
    deviceMac: string,               // `device_mac`
    hardwareVersion: string,         // `hardware_version`
    firmwareInstalled: string        // `firmware.installed`
  )

  /** One entry of a sensor history: a timestamp and a value that may be absent. */
  datatype Sample = Sample(datetime: string, value: Option<real>)

  /** One entry of the server's list of registered webhooks. */
  datatype Hook = Hook(hookId: string, url: string)

  /**
   * The session's webhook dictionary. It starts empty, gets `hook_id` written into it,
   * and is replaced wholesale by the body of a registration response.
   */
  datatype HookDict = HookDict(
    hookId: Option<string>,
    url: Option<string>,
    events: Option<seq<string>>,
    secret: Option<string>
  )

  /** The empty dictionary `{}` a session starts with. */
  const NoHook: HookDict := HookDict(None, None, None, None)

  /** The JSON body POSTed to register a webhook: `{url, events}`. */
  datatype WebhookPost = WebhookPost(url: string, events: seq<string>)

  /** The dictionary `device_info` builds (its key `identifieres` is spelled as the source spells it). */
  datatype DeviceInfoDict = DeviceInfoDict(
    connections: set<(string, string)>,
    identifieres: string,
    manufacturer: string,
    model: string,
    name: string,
    swVersion: string
  )

  /** The dictionary `device_status` builds. */
  datatype DeviceStatusDict = DeviceStatusDict(
    active: bool,
    offline: bool,
    lastUpdate: string,
    batteryLevel: int
  )
}
