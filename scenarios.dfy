/**
 * Client runs of the dashboard, as the user and the server would drive it,
 * that exhibit what the page does in particular situations.
 */
module Scenarios {
  import opened Wrappers
  import opened Values
  import opened Records
  import opened Payloads
  import opened Notifications
  import opened Page

  /**
   * A list fetch answers three devices, a later one answers `success: true`
   * without a list: as written, `devices` is emptied while `featured` still
   * shows two devices, and "Unknown error" is reported.
   */
  method MissingListAsWritten() returns (devicesAfter: seq<DeviceEntry>, featuredAfter: seq<DeviceEntry>, shown: Option<Toast>)
    ensures devicesAfter == [] && |featuredAfter| == 2
    ensures shown == Some(Toast(ErrorToast, UnknownErrorMessage))
  {
    var page := new Dashboard();
    var entry := DeviceEntry(map["name" := Str("r1")], map[]);
    var _ := page.DevicesLoadedAsWritten(Resolved(true, Some([entry, entry, entry])));
    var _ := page.DevicesLoadedAsWritten(Resolved(true, None));
    devicesAfter, featuredAfter, shown := page.devices, page.featured, page.toast;
  }

  /** The same two answers with `featured` taken from `devices || []`: both end empty, nothing is reported. */
  method MissingListCorrected() returns (devicesAfter: seq<DeviceEntry>, featuredAfter: seq<DeviceEntry>, shown: Option<Toast>)
    ensures devicesAfter == [] && featuredAfter == []
    ensures shown == None
  {
    var page := new Dashboard();
    var entry := DeviceEntry(map["name" := Str("r1")], map[]);
    var _ := page.DevicesLoaded(Resolved(true, Some([entry, entry, entry])));
    var _ := page.DevicesLoaded(Resolved(true, None));
    devicesAfter, featuredAfter, shown := page.devices, page.featured, page.toast;
  }

  /**
   * "Add Device" then "Save" straight away: no request is sent, the modal
   * stays open and "Missing required fields" is shown for five seconds.
   */
  method EmptyCreateFormRejected() returns (fx: Effects, stillOpen: bool, shown: Option<Toast>)
    ensures fx == Effects([], Some(5000))
    ensures stillOpen
    ensures shown == Some(Toast(ErrorToast, "Missing required fields"))
  {
    var page := new Dashboard();
    page.OpenCreate();
    fx := page.SubmitDevice(Rejected(Thrown(None)), Completed);
    stillOpen, shown := page.modal.Some?, page.toast;
  }

  const R1Device: Record := map["name" := Str("r1"), "host" := Str("10.0.0.1")]
  const R1Ssh: Record := map["user" := Str("admin"), "port" := Num(22)]
  /** The edit buffer after opening "r1" and typing 2222 into its port. */
  const R1Buffer: Record := map["name" := Str("r1"), "host" := Str("10.0.0.1"),
                                "user" := Str("admin"), "port" := Str("2222")]
  const R1Payload: Record := map["name" := Str("r1"), "host" := Str("10.0.0.1"),
                                 "user" := Str("admin"), "port" := Num(2222)]

  lemma R1BufferAfterEdit()
    ensures Merge(Merge(R1Device, R1Ssh), map["port" := Str("2222")]) == R1Buffer
  {
    var b := Merge(Merge(R1Device, R1Ssh), map["port" := Str("2222")]);
    assert b.Keys == R1Buffer.Keys;
  }

  lemma PortTextIsNumber()
    ensures Truthy(Str("2222")) && ToNumber(Str("2222")) == Num(2222)
  {
    NumberOfDecimalText(2222);
    assert Digits(2) == "2";
    assert Digits(22) == "22";
    assert Digits(222) == "222";
    assert Digits(2222) == "2222";
  }

  lemma R1PayloadIsModifyPayload()
    ensures IsModifyPayload(R1Device, R1Ssh, R1Buffer, R1Payload)
  {
    PortTextIsNumber();
  }

  /**
   * Open device "r1" for editing, change its port to 2222 and save: the
   * modify call carries the whole merged record with the port as a number,
   * not only the changed field, and the list is refetched.
   */
  method ModifyResendsFullRecord() returns (fx: Effects, shown: Option<Toast>)
    ensures fx.requests == [GetDevice(Str("r1")), ModifyDevice(Str("r1"), R1Payload), ListDevices]
    ensures shown == Some(Toast(SuccessToast, "Device updated"))
  {
    var page := new Dashboard();
    var entry := DeviceEntry(R1Device, R1Ssh);
    var _ := page.OpenModify(Str("r1"), Resolved(true, Some(entry)));
    page.EditField("port", "2222");
    R1BufferAfterEdit();
    fx := page.SubmitDevice(Resolved(true, Some(entry)), Completed);
    shown := page.toast;
    R1PayloadIsModifyPayload();
    ModifyPayloadUnique(R1Device, R1Ssh, R1Buffer, R1Payload, fx.requests[1].params);
  }
}
