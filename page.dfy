/**
 * The dashboard page component (pages/index.tsx): its state slots and the
 * handlers that update them. Every awaited server response is a parameter of
 * the handler that awaits it, and every handler returns the requests it sent
 * and the toast dismissal it scheduled.
 */
module Page {
  import opened Wrappers
  import opened Values
  import opened Records
  import opened Payloads
  import opened Notifications

  /** One element of the device list, or the body of `GET /devices/{name}`. */
  datatype DeviceEntry = DeviceEntry(device: Record, ssh: Record)

  datatype Mode = Create | Modify

  /** The open modal: its mode and its edit buffer. */
  datatype Modal = Modal(mode: Mode, data: Record)

  /** A request the page sends to the inventory API. */
  datatype Request =
    | ListDevices                                    // GET /devices/
    | GetDevice(name: Value)                         // GET /devices/{name}
    | GetSettings                                    // GET /settings/
    | PostSettings(changes: map<string, string>)     // POST /settings/ with the changes as query
    | DeleteDevice(name: Value)                      // DELETE /devices/{name}
    | CreateDevice(nickname: Value, params: Record)  // POST /devices/create/{nickname}
    | ModifyDevice(name: Value, params: Record)      // POST /devices/modify/{name}

  /**
   * How an awaited GET settled: rejected (axios threw), or resolved with the
   * body's `success` flag and its payload. Where a handler reads the body's
   * `data` object, `T` is an `Option` whose `None` is a body without one.
   */
  datatype Reply<T> = Rejected(error: Thrown) | Resolved(success: bool, data: T)

  /** How an awaited POST or DELETE settled; the body of a resolved one is never read. */
  datatype Completion = Completed | Failed(error: Thrown)

  /** The requests a handler sent, in order, and the delay of the toast dismissal it scheduled. */
  datatype Effects = Effects(requests: seq<Request>, dismissAfter: Option<nat>)

  const SettingsUpdated := "Settings updated"
  const DeviceDeleted := "Device deleted"
  const DeviceUpdated := "Device updated"
  const DeviceAdded := "Device added"

  /** The edit buffer of the "Add Device" modal: every field empty. */
  const CreateTemplate: Record :=
    map[NicknameField := Str(""), DeviceNameField := Str(""), VendorField := Str(""), UserField := Str(""),
        PasswordField := Str(""), HostField := Str(""), PortField := Str(""), SshVerbosityField := Str(""),
        KexMethodsField := Str(""), HostkeyAlgorithmsField := Str("")]

  /** `list.slice(0, 2)`: the devices shown on the home tab. */
  function Featured<T>(list: seq<T>): (r: seq<T>)
    ensures |r| == if |list| < 2 then |list| else 2
    ensures r == list[..|r|]
  {
    if |list| <= 2 then list else list[..2]
  }

  class Dashboard {
    var devices: seq<DeviceEntry>
    var featured: seq<DeviceEntry>
    var settings: Option<Record>
    var settingsChanged: map<string, string>
    var modal: Option<Modal>
    var toast: Option<Toast>

    constructor ()
      ensures devices == [] && featured == [] && settings == None
      ensures settingsChanged == map[] && modal == None && toast == None
    {
      devices, featured, settings := [], [], None;
      settingsChanged, modal, toast := map[], None, None;
    }

    /** `featured` is the first two entries (or fewer) of `devices`. */
    predicate FeaturedInSync()
      reads this
    {
      featured == Featured(devices)
    }

    /** The "Save Changes" button is enabled. */
    function SaveEnabled(): (enabled: bool)
      reads this
      ensures enabled <==> settingsChanged != map[]
    {
      |settingsChanged.Keys| != 0
    }

    /** The first-render effect: fetch the device list and the settings. */
    method Mount() returns (fx: Effects)
      ensures fx == Effects([ListDevices, GetSettings], None)
    {
      fx := Effects([ListDevices, GetSettings], None);
    }

    /** `toastSuccess`: replace the toast and schedule its dismissal. */
    method ShowSuccess(msg: string) returns (delay: nat)
      modifies this`toast
      ensures toast == Some(Toast(SuccessToast, msg))
      ensures delay == DismissDelay(SuccessToast)
    {
      toast := Some(Toast(SuccessToast, msg));
      delay := DismissDelay(SuccessToast);
    }

    /** `toastError`: replace the toast with the error's message and schedule its dismissal. */
    method ShowError(e: Thrown) returns (delay: nat)
      modifies this`toast
      ensures toast == Some(Toast(ErrorToast, ErrorText(e)))
      ensures delay == DismissDelay(ErrorToast)
    {
      toast := Some(Toast(ErrorToast, ErrorText(e)));
      delay := DismissDelay(ErrorToast);
    }

    /** A scheduled dismissal fires: the slot is cleared, whichever toast it holds. */
    method DismissToast()
      modifies this`toast
      ensures toast == None
    {
      toast := None;
    }

    /**
     * The rest of `fetchDevices` once its GET settles, as written: a resolved
     * body without a device list sets `devices` to [] and then throws on
     * `.slice`, so `featured` keeps its old value and "Unknown error" is shown.
     */
    method DevicesLoadedAsWritten(reply: Reply<Option<seq<DeviceEntry>>>) returns (fx: Effects)
      modifies this`devices, this`featured, this`toast
      ensures fx.requests == []
      ensures reply.Rejected? ==>
        && devices == old(devices) && featured == old(featured)
        && toast == Some(Toast(ErrorToast, ErrorText(reply.error))) && fx.dismissAfter == Some(ErrorDismissMs)
      ensures reply.Resolved? && !reply.success ==>
        devices == old(devices) && featured == old(featured) && toast == old(toast) && fx.dismissAfter == None
      ensures reply.Resolved? && reply.success && reply.data.Some? ==>
        && devices == reply.data.value && featured == Featured(reply.data.value)
        && toast == old(toast) && fx.dismissAfter == None
      ensures reply.Resolved? && reply.success && reply.data.None? ==>
        && devices == [] && featured == old(featured)
        && toast == Some(Toast(ErrorToast, UnknownErrorMessage)) && fx.dismissAfter == Some(ErrorDismissMs)
    {
      fx := Effects([], None);
      match reply
      case Rejected(e) =>
        var delay := ShowError(e);
        fx := Effects([], Some(delay));
      case Resolved(success, data) =>
        if success {
          devices := data.GetOr([]);
          if data.None? {
            var delay := ShowError(Thrown(None));
            fx := Effects([], Some(delay));
          } else {
            featured := Featured(data.value);
          }
        }
    }

    /**
     * The rest of `fetchDevices`, with `featured` taken from the same list as
     * `devices`: every successful fetch leaves the two in sync.
     */
    method DevicesLoaded(reply: Reply<Option<seq<DeviceEntry>>>) returns (fx: Effects)
      modifies this`devices, this`featured, this`toast
      ensures fx.requests == []
      ensures reply.Rejected? ==>
        && devices == old(devices) && featured == old(featured)
        && toast == Some(Toast(ErrorToast, ErrorText(reply.error))) && fx.dismissAfter == Some(ErrorDismissMs)
      ensures reply.Resolved? && !reply.success ==>
        devices == old(devices) && featured == old(featured) && toast == old(toast) && fx.dismissAfter == None
      ensures reply.Resolved? && reply.success ==>
        && devices == (if reply.data.Some? then reply.data.value else [])
        && FeaturedInSync() && toast == old(toast) && fx.dismissAfter == None
    {
      fx := Effects([], None);
      match reply
      case Rejected(e) =>
        var delay := ShowError(e);
        fx := Effects([], Some(delay));
      case Resolved(success, data) =>
        if success {
          var list := data.GetOr([]);
          devices := list;
          featured := Featured(list);
        }
    }

    /**
     * The rest of `fetchSettings` once its GET settles. A successful body
     * without `data` leaves the slot empty (`undefined`), as `null` does.
     */
    method SettingsLoaded(reply: Reply<Option<Record>>) returns (fx: Effects)
      modifies this`settings, this`toast
      ensures fx.requests == []
      ensures reply.Rejected? ==>
        settings == old(settings) && toast == Some(Toast(ErrorToast, ErrorText(reply.error)))
        && fx.dismissAfter == Some(ErrorDismissMs)
      ensures reply.Resolved? ==>
        settings == (if reply.success then reply.data else old(settings))
        && toast == old(toast) && fx.dismissAfter == None
    {
      fx := Effects([], None);
      match reply
      case Rejected(e) =>
        var delay := ShowError(e);
        fx := Effects([], Some(delay));
      case Resolved(success, data) =>
        if success {
          settings := data;
        }
    }

    /** Typing `v` into the settings input for `k`. */
    method EditSetting(k: string, v: string)
      modifies this`settingsChanged
      ensures settingsChanged == Merge(old(settingsChanged), map[k := v])
      ensures SaveEnabled()
    {
      settingsChanged := Merge(settingsChanged, map[k := v]);
      assert k in settingsChanged;
    }

    /**
     * `saveSettings`: post the change map; on success report it, clear the
     * change map and refetch the settings, on failure keep the change map.
     */
    method SaveSettings(result: Completion) returns (fx: Effects)
      modifies this`settingsChanged, this`toast
      ensures |fx.requests| >= 1 && fx.requests[0] == PostSettings(old(settingsChanged))
      ensures result.Completed? ==>
        && settingsChanged == map[] && !SaveEnabled()
        && toast == Some(Toast(SuccessToast, SettingsUpdated))
        && fx == Effects([PostSettings(old(settingsChanged)), GetSettings], Some(SuccessDismissMs))
      ensures result.Failed? ==>
        && settingsChanged == old(settingsChanged)
        && toast == Some(Toast(ErrorToast, ErrorText(result.error)))
        && fx == Effects([PostSettings(old(settingsChanged))], Some(ErrorDismissMs))
    {
      var post := PostSettings(settingsChanged);
      match result
      case Completed =>
        var delay := ShowSuccess(SettingsUpdated);
        settingsChanged := map[];
        fx := Effects([post, GetSettings], Some(delay));
      case Failed(e) =>
        var delay := ShowError(e);
        fx := Effects([post], Some(delay));
    }

    /** `deleteDevice`: delete, then report and refetch the list, or report the error. */
    method RemoveDevice(name: Value, result: Completion) returns (fx: Effects)
      modifies this`toast
      ensures result.Completed? ==>
        toast == Some(Toast(SuccessToast, DeviceDeleted))
        && fx == Effects([DeleteDevice(name), ListDevices], Some(SuccessDismissMs))
      ensures result.Failed? ==>
        toast == Some(Toast(ErrorToast, ErrorText(result.error)))
        && fx == Effects([DeleteDevice(name)], Some(ErrorDismissMs))
    {
      match result
      case Completed =>
        var delay := ShowSuccess(DeviceDeleted);
        fx := Effects([DeleteDevice(name), ListDevices], Some(delay));
      case Failed(e) =>
        var delay := ShowError(e);
        fx := Effects([DeleteDevice(name)], Some(delay));
    }

    /** "Add Device": open the modal on the empty template. */
    method OpenCreate()
      modifies this`modal
      ensures modal == Some(Modal(Create, CreateTemplate))
    {
      modal := Some(Modal(Create, CreateTemplate));
    }

    /**
     * The edit button of a device row: fetch the device and open the modal on
     * the merge of its device and SSH records. A successful body without
     * `data` throws on reading its `device`, which is reported as an error.
     */
    method OpenModify(name: Value, reply: Reply<Option<DeviceEntry>>) returns (fx: Effects)
      modifies this`modal, this`toast
      ensures fx.requests == [GetDevice(name)]
      ensures reply.Rejected? ==>
        modal == old(modal) && toast == Some(Toast(ErrorToast, ErrorText(reply.error)))
        && fx.dismissAfter == Some(ErrorDismissMs)
      ensures reply.Resolved? && reply.success && reply.data.Some? ==>
        modal == Some(Modal(Modify, Merge(reply.data.value.device, reply.data.value.ssh)))
        && toast == old(toast) && fx.dismissAfter == None
      ensures reply.Resolved? && reply.success && reply.data.None? ==>
        modal == old(modal) && toast == Some(Toast(ErrorToast, UnknownErrorMessage))
        && fx.dismissAfter == Some(ErrorDismissMs)
      ensures reply.Resolved? && !reply.success ==>
        modal == old(modal) && toast == old(toast) && fx.dismissAfter == None
    {
      fx := Effects([GetDevice(name)], None);
      match reply
      case Rejected(e) =>
        var delay := ShowError(e);
        fx := Effects([GetDevice(name)], Some(delay));
      case Resolved(success, data) =>
        if success {
          match data
          case Some(entry) =>
            modal := Some(Modal(Modify, Merge(entry.device, entry.ssh)));
          case None =>
            var delay := ShowError(Thrown(None));
            fx := Effects([GetDevice(name)], Some(delay));
        }
    }

    /** Typing `v` into the modal input for field `k`. */
    method EditField(k: string, v: string)
      requires modal.Some?
      modifies this`modal
      ensures modal.Some? && modal.value.mode == old(modal).value.mode
      ensures modal.value.data == Merge(old(modal).value.data, map[k := Str(v)])
    {
      modal := Some(Modal(modal.value.mode, Merge(modal.value.data, map[k := Str(v)])));
    }

    /** "Cancel": close the modal, discarding the edit buffer. */
    method CancelModal()
      modifies this`modal
      ensures modal == None
    {
      modal := None;
    }

    /**
     * `submitDevice`, the modal's "Save". Modify: refetch the device, post the
     * full merged record with the buffer laid over it, report, refetch the
     * list and close. Create: check the required fields, post the create call,
     * report, refetch the list and close. Any failure is reported and leaves
     * the modal open, and so does a successful refetch without `data`, which
     * throws on reading its `device`; a refetch whose body says
     * `success: false` closes the modal without posting anything.
     */
    method SubmitDevice(fetched: Reply<Option<DeviceEntry>>, posted: Completion) returns (fx: Effects)
      requires modal.Some?
      modifies this`modal, this`toast
      // modify: the refetch failed
      ensures old(modal).value.mode == Modify && fetched.Rejected? ==>
        && fx == Effects([GetDevice(Get(old(modal).value.data, NicknameField))], Some(ErrorDismissMs))
        && modal == old(modal) && toast == Some(Toast(ErrorToast, ErrorText(fetched.error)))
      // modify: the refetch answered `success: false`
      ensures old(modal).value.mode == Modify && fetched.Resolved? && !fetched.success ==>
        && fx == Effects([GetDevice(Get(old(modal).value.data, NicknameField)), ListDevices], None)
        && modal == None && toast == old(toast)
      // modify: the refetch succeeded without `data`, so reading it threw
      ensures old(modal).value.mode == Modify && fetched.Resolved? && fetched.success && fetched.data.None? ==>
        && fx == Effects([GetDevice(Get(old(modal).value.data, NicknameField))], Some(ErrorDismissMs))
        && modal == old(modal) && toast == Some(Toast(ErrorToast, UnknownErrorMessage))
      // modify: the refetch succeeded, so the full payload is posted
      ensures old(modal).value.mode == Modify && fetched.Resolved? && fetched.success && fetched.data.Some? ==>
        && |fx.requests| >= 2
        && fx.requests[0] == GetDevice(Get(old(modal).value.data, NicknameField))
        && fx.requests[1].ModifyDevice?
        && fx.requests[1].name == Get(old(modal).value.data, NicknameField)
        && IsModifyPayload(fetched.data.value.device, fetched.data.value.ssh, old(modal).value.data,
                           fx.requests[1].params)
      ensures old(modal).value.mode == Modify && fetched.Resolved? && fetched.success && fetched.data.Some?
              && posted.Completed? ==>
        && |fx.requests| == 3 && fx.requests[2] == ListDevices && fx.dismissAfter == Some(SuccessDismissMs)
        && modal == None && toast == Some(Toast(SuccessToast, DeviceUpdated))
      ensures old(modal).value.mode == Modify && fetched.Resolved? && fetched.success && fetched.data.Some?
              && posted.Failed? ==>
        && |fx.requests| == 2 && fx.dismissAfter == Some(ErrorDismissMs)
        && modal == old(modal) && toast == Some(Toast(ErrorToast, ErrorText(posted.error)))
      // create: the gate rejected the form
      ensures old(modal).value.mode == Create && CreateRequest(old(modal).value.data).Err? ==>
        && fx == Effects([], Some(ErrorDismissMs))
        && modal == old(modal) && toast == Some(Toast(ErrorToast, MissingFieldsMessage))
      // create: the create call was posted
      ensures old(modal).value.mode == Create && CreateRequest(old(modal).value.data).Ok? ==>
        var call := CreateRequest(old(modal).value.data).value;
        && |fx.requests| >= 1 && fx.requests[0] == CreateDevice(call.nickname, call.params)
        && (posted.Completed? ==>
              && fx == Effects([CreateDevice(call.nickname, call.params), ListDevices], Some(SuccessDismissMs))
              && modal == None && toast == Some(Toast(SuccessToast, DeviceAdded)))
        && (posted.Failed? ==>
              && fx == Effects([CreateDevice(call.nickname, call.params)], Some(ErrorDismissMs))
              && modal == old(modal) && toast == Some(Toast(ErrorToast, ErrorText(posted.error))))
    {
      var m := modal.value;
      if m.mode == Modify {
        var name := Get(m.data, NicknameField);
        var sent := [GetDevice(name)];
        if fetched.Rejected? {
          var delay := ShowError(fetched.error);
          return Effects(sent, Some(delay));
        }
        if fetched.success {
          if fetched.data.None? {
            var delay := ShowError(Thrown(None));
            return Effects(sent, Some(delay));
          }
          var entry := fetched.data.value;
          var params := BuildModifyParams(entry.device, entry.ssh, m.data);
          sent := sent + [ModifyDevice(name, params)];
          if posted.Failed? {
            var delay := ShowError(posted.error);
            return Effects(sent, Some(delay));
          }
          var delay := ShowSuccess(DeviceUpdated);
          fx := Effects(sent + [ListDevices], Some(delay));
        } else {
          fx := Effects(sent + [ListDevices], None);
        }
      } else {
        match CreateRequest(m.data)
        case Err(msg) =>
          var delay := ShowError(Thrown(Some(msg)));
          return Effects([], Some(delay));
        case Ok(call) =>
          var sent := [CreateDevice(call.nickname, call.params)];
          if posted.Failed? {
            var delay := ShowError(posted.error);
            return Effects(sent, Some(delay));
          }
          var delay := ShowSuccess(DeviceAdded);
          fx := Effects(sent + [ListDevices], Some(delay));
      }
      modal := None;
    }
  }
}
