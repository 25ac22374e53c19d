/**
 * The endpoints of the Minut Point API and the post-processing every request goes through.
 * The HTTP exchange itself is not modelled: its outcome is a `Reply` given as input.
 */
module Requests {
  import opened Wrappers
  import opened Records

  const MINUT_API_URL: string := "https://api.minut.com"
  const MINUT_DEVICES_URL: string := MINUT_API_URL + "/v1/devices"
  const MINUT_WEBHOOKS_URL: string := MINUT_API_URL + "/draft1/webhooks"

  /**
   * What the transport hands back: a connection-level failure (an `OSError`), or an HTTP
   * response with its status code, the `error` member of its JSON body when the body has
   * one, and the rest of the body.
   */
  datatype Reply<T> = ConnectionError | Response(status: int, error: Option<string>, body: T)

  /** The statuses for which `raise_for_status` raises: client and server errors. */
  predicate IsHttpError(status: int) {
    400 <= status < 600
  }

  /**
   * `_request`: every failure, whether the connection, the HTTP status or an `error` member
   * in a 2xx body, is logged and turned into `None`; otherwise the decoded body is returned.
   */
  function Request<T>(reply: Reply<T>): (r: Option<T>)
    ensures r.Some? <==> reply.Response? && !IsHttpError(reply.status) && reply.error.None?
    ensures r.Some? ==> r.value == reply.body
  {
    match reply
    case ConnectionError => None
    case Response(status, error, body) =>
      if IsHttpError(status) || error.Some? then None else Some(body)
  }

  /** The body of the devices endpoint: a `devices` member that may be missing. */
  datatype DevicesBody = DevicesBody(devices: Option<seq<DeviceRecord>>)

  /**
   * `_request_devices`: the `devices` member of a successful reply, and `None` when the
   * request failed or the member is missing. (An empty body `{}` is falsy in Python, but it
   * has no `devices` member either, so both tests give `None` for it.)
   */
  function RequestDevices(reply: Reply<DevicesBody>): (r: Option<seq<DeviceRecord>>)
    ensures r.Some? <==> Request(reply).Some? && reply.body.devices.Some?
    ensures r.Some? ==> r == reply.body.devices
  {
    match Request(reply)
    case None => None
    case Some(body) => body.devices
  }

  /** The body of a sensor-history request: a `values` member that may be missing. */
  datatype SensorBody = SensorBody(values: Option<seq<Sample>>)

  /** The history URL `read_sensor` requests: `<devices>/<device id>/<sensor>`. */
  function SensorUrl(deviceId: string, sensorUri: string): (url: string)
    ensures |url| == |MINUT_DEVICES_URL| + |deviceId| + |sensorUri| + 2
    ensures url[..|MINUT_DEVICES_URL| + 1] == MINUT_DEVICES_URL + "/"
    ensures url[|MINUT_DEVICES_URL| + 1..|MINUT_DEVICES_URL| + 1 + |deviceId|] == deviceId
    ensures url[|MINUT_DEVICES_URL| + 1 + |deviceId|] == '/'
    ensures url[|MINUT_DEVICES_URL| + 2 + |deviceId|..] == sensorUri
  {
    MINUT_DEVICES_URL + "/" + deviceId + "/" + sensorUri
  }

  /**
   * The DELETE target `remove_webhook` builds: the webhooks URL immediately followed by the
   * hook id, with no separator between them.
   */
  function DeleteUrl(hookId: string): (url: string)
    ensures |url| == |MINUT_WEBHOOKS_URL| + |hookId|
    ensures url[..|MINUT_WEBHOOKS_URL|] == MINUT_WEBHOOKS_URL
    ensures url[|MINUT_WEBHOOKS_URL|..] == hookId
  {
    MINUT_WEBHOOKS_URL + hookId
  }

  /**
   * Because no `/` is inserted, the DELETE target is never the URL `<webhooks>/<hook id>`:
   * it names a sibling path of the webhooks collection.
   */
  lemma DeleteUrlHasNoSeparator(hookId: string)
    ensures DeleteUrl(hookId) != MINUT_WEBHOOKS_URL + "/" + hookId
  {
    assert |MINUT_WEBHOOKS_URL + "/" + hookId| == |DeleteUrl(hookId)| + 1;
  }
}
