/**
 * Client scenarios: short sessions driven through the model, each stating what a caller of
 * the real library observes.
 */
module Scenarios {
  import opened Wrappers
  import opened Records
  import opened Requests
  import opened DeviceTables
  import opened Session

  function Record(deviceId: string, battery: int): DeviceRecord {
    DeviceRecord(deviceId, None, battery, true, false, "2018-05-01T10:00:00Z", [],
                 "00:11:22:33:44:55", "2", "1.2.3")
  }

  /** One device fetched: its id is the only key and its view reads its battery level. */
  method SingleDeviceScenario() returns (ids: seq<string>, battery: int)
    ensures ids == ["abc123"] && battery == 55
  {
    var session := new PointSession();
    session.Update(Response(200, None, DevicesBody(Some([Record("abc123", 55)]))));
    ids := session.DeviceIds();
    var view := session.Device("abc123");
    battery := view.value.BatteryLevel();
  }

  /** The table of the list `aa, bb, aa`: two keys in first-seen order, the later `aa` record kept. */
  lemma DuplicateTable()
    ensures Index(DuplicateList()).ids == ["aa", "bb"]
    ensures "aa" in Index(DuplicateList()).records
    ensures Index(DuplicateList()).records["aa"].batteryPercent == 30
  {
    var fetched := DuplicateList();
    var a1, b := fetched[0], fetched[1];
    assert Index([a1]).ids == ["aa"] by {
      assert [a1][..0] == [];
    }
    assert Index([a1, b]).ids == ["aa", "bb"] by {
      assert [a1, b][..1] == [a1];
    }
    assert fetched[..2] == [a1, b];
    IndexLastWins(fetched, 2);
  }

  function DuplicateList(): seq<DeviceRecord> {
    [Record("aa", 10), Record("bb", 20), Record("aa", 30)]
  }

  /**
   * A duplicated id keeps its first place among the keys and the record listed last; a
   * failed fetch afterwards changes nothing.
   */
  method DuplicateThenFailureScenario() returns (ids: seq<string>, battery: int)
    ensures ids == ["aa", "bb"] && battery == 30
  {
    var session := new PointSession();
    DuplicateTable();
    session.Update(Response(200, None, DevicesBody(Some(DuplicateList()))));
    assert session.state == Index(DuplicateList());
    session.Update(ConnectionError);
    session.Update(Response(200, Some("unauthorized"), DevicesBody(None)));
    ids := session.DeviceIds();
    var view := session.Device("aa");
    battery := view.value.BatteryLevel();
  }

  /** The server already knows the url: nothing is POSTed and the held id is the argument. */
  method KnownHookScenario() returns (posted: Option<WebhookPost>, r: Option<HookDict>, held: string)
    ensures posted.None? && r.None? && held == "ignored"
  {
    var session := new PointSession();
    posted, r := session.UpdateWebhook("https://x", "ignored", None, [Hook("h1", "https://x")], ConnectionError);
    held := session.Webhook();
  }

  /**
   * Registering, then calling again once the server lists the url: the first call POSTs and
   * returns the registration, the second does not POST.
   */
  method RegisterTwiceScenario() returns (first: Option<WebhookPost>, second: Option<WebhookPost>, r: Option<HookDict>)
    ensures first.Some? && first.value.url == "https://x" && |first.value.events| == 10
    ensures r.Some? && r.value.hookId == Some("h1")
    ensures second.None?
  {
    var session := new PointSession();
    var registered := HookDict(Some("h1"), Some("https://x"), None, Some("s3cret"));
    first, r := session.UpdateWebhook("https://x", "hint", None, [], Response(201, None, registered));
    var again;
    second, again := session.UpdateWebhook("https://x", "hint", None, [Hook("h1", "https://x")], ConnectionError);
  }

  /** A failed registration replaces the webhook dictionary by `None`. */
  method FailedRegistrationScenario() returns (r: Option<HookDict>, held: Option<HookDict>)
    ensures r.None? && held.None?
  {
    var session := new PointSession();
    var posted;
    posted, r := session.UpdateWebhook("https://x", "hint", None, [], Response(500, None, NoHook));
    held := session.webhookDict;
  }
}
