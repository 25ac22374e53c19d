# pypoint session model

A Dafny model of the session core of `pypoint`, the Python client for the Minut Point
home-monitoring cloud API. The model covers `PointSession` and its `Device` views in
`pypoint/__init__.py`:

- the device table `_state` is an insertion-ordered dictionary from device id to raw record
  (`DeviceTables.DeviceTable`). `update` replaces it wholesale from a fetched list. A failed
  fetch or an empty list leaves it unchanged;
- the webhook dictionary `_webhook` (`Option<HookDict>`, with `None` standing for the Python
  `None` stored after a failed registration) is driven by `update_webhook` and
  `remove_webhook`;
- `Device` is a class holding only a session and an id. Its accessors are functions that
  `reads` the session, so they always see the table as it is at call time;
- every network exchange is an input: a `Reply<T>` (a connection error, or a status, an
  optional `error` member and a body) for each request, and a `seq<Hook>` for the server's
  hook list. Outgoing writes are outputs: the registration POST body and the DELETE target;
- `_request`'s post-processing (`Requests.Request`) maps connection errors, statuses 400-599
  and bodies carrying `error` to `None`.

Modules: `Wrappers` (Option, Result), `Records` (the JSON shapes), `Requests` (endpoints and
request post-processing), `Events` (the `EVENTS` table and its flattening), `DeviceTables`
(the ordered device table), `Session` (the two classes) and `Scenarios` (client sessions stated
as verified methods).

Behaviour of this code a reader might not expect:
- `webhook` returns the `webhook_id` argument of the last `update_webhook` when the url was
  already known. It does not return the server's hook id.
- `webhook` raises (here: is required) when no hook id is held. It does not return "nothing".
- The flattened event list keeps every name of the five-entry `EVENTS` table in
  `pypoint/__init__.py`, 10 names. It filters out nothing.
- `read_sensor` always requests the sensor history. There is no alias table and no
  cache-first lookup.
- `remove_webhook` never clears the local webhook dictionary.
- The DELETE target has no `/` between the webhooks URL and the hook id
  (`Requests.DeleteUrlHasNoSeparator`).
- There are no homes and no alarm control in this code.

## Model

| member | source | states |
|---|---|---|
| `Requests.Request` | pypoint/__init__.py:67-84 | a request yields its body exactly when the connection succeeded, the status is not 400-599 and the body has no `error` member; otherwise `None` |
| `Requests.RequestDevices` | pypoint/__init__.py:86-89 | the device fetch yields the `devices` member of a successful reply, and `None` when the request failed or the member is missing |
| `Requests.SensorUrl` | pypoint/__init__.py:93-94 | the history URL is the devices URL, `/`, the device id, `/`, the sensor name, each recoverable by position |
| `Requests.DeleteUrl` | pypoint/__init__.py:120-124 | the DELETE target is the webhooks URL immediately followed by the hook id |
| `Requests.DeleteUrlHasNoSeparator` | pypoint/__init__.py:122 | the DELETE target is never `<webhooks>/<hook id>` |
| `Events.Flatten` | pypoint/__init__.py:132 | the flattened list has two names per table entry, the on-name at `2i` and the off-name at `2i+1` |
| `Events.FlattenNamesFromTable` | pypoint/__init__.py:132 | every flattened name is the on- or off-name of some table entry |
| `Events.DefaultEvents` | pypoint/__init__.py:21-27 | the registration event list is exactly the ten names of `EVENTS`, in table order |
| `DeviceTables.Insert` | pypoint/__init__.py:149-150 | storing one record under its id keeps the table well-formed |
| `DeviceTables.Index` | pypoint/__init__.py:149-150 | the dict built from a list is well-formed: keys listed once, exactly the ids of the list, each record filed under its own id |
| `DeviceTables.IndexLastWins` | pypoint/__init__.py:149-150 | the record stored under an id is the last record of the list carrying it |
| `DeviceTables.IndexIsLastWriterMap` | pypoint/__init__.py:149-150 | the table's map equals the map from each id of the list to the record at its last index |
| `DeviceTables.IndexKeepsFirstOrder` | pypoint/__init__.py:149-150 | keys are listed in the order in which their ids first appear in the list |
| `DeviceTables.IndexOverride` | pypoint/__init__.py:149-150 | indexing `xs + ys` gives `xs`'s map overridden by `ys`'s |
| `Session.PointSession.constructor` | pypoint/__init__.py:45-46 | a new session has an empty device table and an empty webhook dictionary |
| `Session.PointSession.Update` | pypoint/__init__.py:143-153 | a non-empty fetched list replaces the table by its index, and the key set becomes its id set; a failed fetch or an empty list leaves the table unchanged; the webhook is untouched |
| `Session.PointSession.DeviceIds` | pypoint/__init__.py:166-170 | the ids are exactly the table's keys, each listed once |
| `Session.PointSession.DeviceRaw` | pypoint/__init__.py:172-175 | the stored record when the id is a key, `None` otherwise |
| `Session.PointSession.Device` | pypoint/__init__.py:160-164 | fails with `ERR FER` if and only if the id has length 1; otherwise a view bound to this session and exactly that id |
| `Session.PointSession.Devices` | pypoint/__init__.py:155-158 | one view per key, in key order, bound to that key; stops, raising, at the first one-character key, and raises only then |
| `Session.PointSession.ReadSensor` | pypoint/__init__.py:91-97 | GETs `SensorUrl(device_id, sensor_uri)` and returns the value of the last entry of the returned history |
| `Session.PointSession.RegisterWebhook` | pypoint/__init__.py:108-116 | POSTs `{url, events}` as given; returns the reply body on success and `None` on failure |
| `Session.PointSession.UpdateWebhook` | pypoint/__init__.py:126-136 | a url the server knows: no POST, returns `None`, and `webhook` then gives the `webhook_id` argument; an unknown url: POSTs the ten `EVENTS` names whatever `events` says, and the registration result (possibly `None`) becomes the dictionary and is returned; the device table is untouched |
| `Session.PointSession.HookUrls` | pypoint/__init__.py:130 | one url per hook, and a url is listed if and only if some hook has it |
| `Session.PointSession.RemoveWebhook` | pypoint/__init__.py:118-124 | a DELETE to `DeleteUrl(hook_id)` is sent if and only if a truthy hook id is held; nothing in the session changes |
| `Session.PointSession.Webhook` | pypoint/__init__.py:138-141 | the held hook id |
| `Session.Device.constructor` | pypoint/__init__.py:181-183 | the view holds the given session and id |
| `Session.Device.Raw` | pypoint/__init__.py:197-200 | the record currently filed under the view's id, or `None` |
| `Session.Device.Name` | pypoint/__init__.py:217-220 | the current record's description, possibly absent |
| `Session.Device.BatteryLevel` | pypoint/__init__.py:222-225 | the current record's battery percentage |
| `Session.Device.LastUpdate` | pypoint/__init__.py:212-215 | the current record's last-heard-from timestamp |
| `Session.Device.OngoingEvents` | pypoint/__init__.py:202-205 | the current record's ongoing events, unchanged |
| `Session.Device.ToString` | pypoint/__init__.py:185-190 | `Device #`, the id, a space that is always present, then the name or the empty string |
| `Session.Device.DeviceInfo` | pypoint/__init__.py:227-237 | the descriptor's `identifieres` is the view's own id; manufacturer `Minut`, model `Point v` + hardware version, mac connection, name and firmware from the current record |
| `Session.Device.DeviceStatus` | pypoint/__init__.py:239-247 | active and offline from the current record; last update and battery level agree with the `LastUpdate` and `BatteryLevel` accessors |
| `Session.Device.Sensor` | pypoint/__init__.py:192-195 | GETs `SensorUrl` of this view's own id and the sensor type, and returns the last history entry's value |
| `Session.Device.Webhook` | pypoint/__init__.py:249-252 | the session's held hook id |
| `Session.ViewReadsLatest` | pypoint/__init__.py:197-225 | after the table is indexed from a list, a view's name, battery level, last update and ongoing events are those of the last record of the list carrying its id |
| `Scenarios.SingleDeviceScenario` | pypoint/__init__.py:143-175 | fetching one device `abc123` with battery 55 gives ids `["abc123"]` and battery level 55 |
| `Scenarios.DuplicateTable` | pypoint/__init__.py:149-150 | the list `aa, bb, aa` indexes to keys `["aa", "bb"]` with the later `aa` record filed |
| `Scenarios.DuplicateThenFailureScenario` | pypoint/__init__.py:143-170 | ids `aa, bb, aa` give keys `["aa", "bb"]`, the second `aa` record wins, and later failed fetches change nothing |
| `Scenarios.KnownHookScenario` | pypoint/__init__.py:126-141 | a url already on the server: no POST, `None` returned, `webhook` gives the argument `ignored` |
| `Scenarios.RegisterTwiceScenario` | pypoint/__init__.py:126-136 | the first call POSTs ten event names and returns the registration; the second, with the url now listed, POSTs nothing |
| `Scenarios.FailedRegistrationScenario` | pypoint/__init__.py:132-136 | a failed registration returns `None` and leaves `None` as the webhook dictionary |

## Left out

- OAuth2 bootstrap (`get_authorization_url`, `get_access_token`, `is_authorized`): thin wrappers over `requests_oauthlib`, which is not part of this model.
- `user`: one `_request` to the users endpoint; its post-processing is `Requests.Request`.
- The HTTP exchange inside `_request`, its 10-second timeout and its logging: the outcome is an input `Reply`. A body that is not JSON at all is not modelled.
- The `RLock`: the model is sequential, and each method is one atomic step.
- Aliasing of the webhook dictionary: `update_webhook` writes `hook_id` into the dictionary in place, which a caller still holding a previously returned registration would see. The model replaces the value instead.
- Laziness of `devices` and of the generator `update` returns: `Session.PointSession.Devices` models the generator traversed to its end, and `Update` does not return it; the exception is therefore raised at the point of traversal, not of the call.
- Record members the core never reads, the `events` and `secret` contents of a registration beyond being carried, and JSON values of unexpected types.
- Homes, alarm arming, sensor-name aliasing and caching: there is no code for them in `pypoint/__init__.py`. `pypoint/const.py` and `pypoint/auth.py` are not part of this model.
- Session.PointSession.UpdateWebhook: requires a webhook dictionary that is not `None` and takes the hook list as a successful input, because the source fails on `None` in both cases.
- Session.PointSession.RemoveWebhook: requires a webhook dictionary that is not `None`, because the source fails on `None.get`.
- Session.PointSession.Webhook: requires a held hook id, because the source raises `KeyError` (or fails on `None`) otherwise.
- Session.PointSession.ReadSensor: requires a successful reply with a non-empty history, because the source fails on `None` or an empty list otherwise.
- Session.Device.Sensor: same precondition as `ReadSensor`.
- Session.Device.Name, Session.Device.BatteryLevel, Session.Device.LastUpdate, Session.Device.OngoingEvents, Session.Device.ToString, Session.Device.DeviceStatus: require the view's id to be a key, because the source fails on the `None` that `device_raw` gives otherwise.
- Session.Device.DeviceInfo: also requires a description, because the source indexes `description` directly.
