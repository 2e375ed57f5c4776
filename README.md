# Chronicle dashboard page: a Dafny model

This project models the logic of the Chronicle web UI's dashboard page
(`pages/index.tsx`), the browser front end of a network-device inventory. The
page lists devices, opens a modal to add a device or edit one, deletes
devices, edits the global SSH defaults ("settings") and reports every outcome
in a single toast. The model covers the page's record handling and its state:

- `Values`: the field values the page handles (text, numbers, null/undefined,
  NaN), JavaScript truthiness, and the `Number()` coercion applied to `port`
  and `sshVerbosity`. It also gives the decimal text `String(i)` of an
  integer, and proves that `Number()` of that text gives the integer back.
- `Records`: the object spread `{ ...lower, ...upper }` (`Merge`). It is used
  to merge a device with its SSH profile, to lay the edit buffer over the
  refetched record, and for each single-field write in the modal or the
  settings form. A session of field writes obeys "last write wins" and leaves
  the other keys alone.
- `Payloads`: the create gate (`name`, `deviceName`, `vendor`, `password` and
  `host` must all be truthy) and the create parameters. The modify payload is
  a full-record resend: device, SSH profile and edit buffer laid over each
  other, with numeric coercion of truthy `port`/`sshVerbosity`.
- `Notifications`: the toast's text (`message || 'Unknown error'`) and the
  delay of its dismissal (3000 ms after a success, 5000 ms after an error).
- `Page`: the `Dashboard` class. Its fields are the page's state slots
  (`devices`, `featured`, `settings`, `settingsChanged`, `modal`, `toast`) and
  its methods are the page's handlers. Each server response is a parameter of
  the handler that awaits it (`Reply` for a GET, `Completion` for a POST or
  DELETE). Each handler that sends a request or schedules a toast dismissal
  returns an `Effects` value: the requests it sent, in order, and the delay
  of the dismissal it scheduled. The toast helpers `ShowSuccess` and
  `ShowError` return only that delay.
- `Scenarios`: short client runs of the class. They show the empty create
  form being rejected, the full-record resend on modify, and the
  missing-device-list finding below.

Some behaviours of the code are worth stating up front, since the model keeps
each of them as written:
- A modify posts the whole merged record (device, SSH profile and edit
  buffer), not only the fields that were edited.
- Nothing stops a stale response from overwriting newer state.
- There are no per-operation status or loading flags.
- The toast has no generation token, so a dismissal scheduled for an earlier
  toast clears a later one.
- The device/SSH merge never reports a conflict: the SSH profile simply wins.

## Model

| member | source | states |
|---|---|---|
| `Values.Truthy` | pages/index.tsx:120-124 | JavaScript truthiness: the falsy values are exactly `""`, `0`, null/undefined and NaN (so `"0"` is truthy) |
| `Values.ToNumber` | pages/index.tsx:89-90 | `Number()` on a truthy value: a number is kept; a run of decimal digits becomes the non-negative integer it denotes (leading zeros allowed), and `-` followed by such a run becomes its negation; any other text becomes NaN (both directions) |
| `Values.Digits` | pages/index.tsx:89-90 | the decimal text `String(n)` of a natural number is a non-empty run of digits with no leading zero |
| `Values.ParseDigitsOfDigits` | pages/index.tsx:89-90 | reading back the digits of n gives n |
| `Values.NumberOfDecimalText` | pages/index.tsx:89-90 | the decimal text `String(i)` of any integer is truthy and `Number()` of it gives back that integer. (An input bound to a field holding the number 0 shows "", not "0", and that "" is never coerced.) |
| `Records.Merge` | pages/index.tsx:87 | `{ ...lower, ...upper }`: the key set is the union, every key of `upper` takes its `upper` value, and keys only in `lower` keep their `lower` value |
| `Records.SetFieldOnlyTouchesKey` | pages/index.tsx:261 | a field write `{ ...m, [k]: v }` adds or overwrites key k only and leaves every other key as it was |
| `Records.ApplyEditsLastWriteWins` | pages/index.tsx:237 | after a session of field writes, a key is present iff it was present before or was written; a written key holds the last value written to it, and an unwritten key keeps its original value |
| `Records.EditsLeaveNonEmpty` | pages/index.tsx:244 | after at least one field write the change map is non-empty, so "Save Changes" is enabled |
| `Payloads.MissingRequired` | pages/index.tsx:110 | the gate fires iff some field of `name, deviceName, vendor, password, host` is falsy or absent |
| `Payloads.CreateRequest` | pages/index.tsx:110-127 | the create branch fails with "Missing required fields" iff the gate fires; otherwise the nickname is the truthy `name` field, used only in the path, and the parameters are those of `CreateParams` |
| `Payloads.CreateParams` | pages/index.tsx:115-125 | the create parameters hold exactly `deviceName, vendor, password, host`, plus each of `port, sshVerbosity, kexMethods, hostkeyAlgorithms, user` iff its form value is truthy; they never hold `name` |
| `Payloads.SpreadIfTruthy` | pages/index.tsx:120-124 | a conditional spread adds key k iff the form value is truthy (coerced by `Number()` for a numeric field) and leaves every other key as it was |
| `Payloads.MandatoryPart` | pages/index.tsx:116-119 | the always-sent part holds exactly `deviceName, vendor, password, host`, each with its form value |
| `Payloads.CreateParamsMandatory` | pages/index.tsx:115-119 | each of the four mandatory parameters is always sent, exactly as the form holds them |
| `Payloads.CreateParamsNumeric` | pages/index.tsx:120-121 | `port` and `sshVerbosity`, when sent, are `Number()` of the form value |
| `Payloads.CreateParamsText` | pages/index.tsx:122-124 | `kexMethods`, `hostkeyAlgorithms` and `user`, when sent, are the form value unchanged |
| `Payloads.CoerceIfTruthy` | pages/index.tsx:89-90 | falsy values (empty, 0, absent) are left as they were; truthy ones become a number or NaN |
| `Payloads.ModifyPayloadUnique` | pages/index.tsx:87-90 | the modify payload specification determines one payload for each device, SSH profile and buffer |
| `Payloads.BuildModifyParams` | pages/index.tsx:87-90 | the payload's key set is the union of the device, SSH profile and buffer keys, so nothing is dropped; the buffer wins on its keys, then the SSH profile, then the device; only `port` and `sshVerbosity` are coerced, and only when truthy |
| `Notifications.ErrorText` | pages/index.tsx:55 | an error toast shows the response's non-empty message, or "Unknown error" when it has none; it is never empty |
| `Notifications.DismissDelay` | pages/index.tsx:49-57 | success toasts are dismissed after 3000 ms, error toasts after 5000 ms |
| `Page.Featured` | pages/index.tsx:31 | `featured` is the prefix of the list of length min(2, length of the list) |
| `Page.Dashboard.constructor` | pages/index.tsx:12-18 | the initial state: no devices, nothing featured, no settings, an empty change map, no modal, no toast |
| `Page.Dashboard.SaveEnabled` | pages/index.tsx:244 | "Save Changes" is enabled iff the settings change map is non-empty |
| `Page.Dashboard.Mount` | pages/index.tsx:21-24 | the first render requests the device list and the settings, and nothing else |
| `Page.Dashboard.ShowSuccess` | pages/index.tsx:49-52 | the toast slot holds exactly the new success message (any previous toast is replaced), and a 3000 ms dismissal is scheduled |
| `Page.Dashboard.ShowError` | pages/index.tsx:54-58 | the toast slot holds exactly the new error text (any previous toast is replaced), and a 5000 ms dismissal is scheduled |
| `Page.Dashboard.DismissToast` | pages/index.tsx:51 | a firing dismissal clears the slot unconditionally |
| `Page.Dashboard.DevicesLoadedAsWritten` | pages/index.tsx:26-36 | list fetch as written: on success `devices` becomes the list and `featured` its first two entries; a success without a list empties `devices`, keeps `featured` and shows "Unknown error"; a rejection only shows the error; `success: false` changes nothing |
| `Page.Dashboard.DevicesLoaded` | pages/index.tsx:26-36 | list fetch with `featured` taken from the same list as `devices` (the empty list when the reply has none): every successful fetch leaves `featured` equal to the first min(2, n) devices |
| `Page.Dashboard.SettingsLoaded` | pages/index.tsx:38-47 | settings fetch: stored on success (empty when the body has no `data`), unchanged on `success: false`, error toast on rejection |
| `Page.Dashboard.EditSetting` | pages/index.tsx:237 | typing into a settings input writes that key of the change map only, and enables saving |
| `Page.Dashboard.SaveSettings` | pages/index.tsx:60-69 | the change map is posted; on success the toast says "Settings updated", the map is reset to empty (saving disabled) and the settings are refetched; on failure the map is kept and the error is shown |
| `Page.Dashboard.RemoveDevice` | pages/index.tsx:71-79 | the device is deleted; on success "Device deleted" is shown and the list is refetched, on failure only the error is shown |
| `Page.Dashboard.OpenCreate` | pages/index.tsx:182 | "Add Device" opens a create session on the template whose ten fields are all empty |
| `Page.Dashboard.OpenModify` | pages/index.tsx:204-213 | the edit button fetches the device and, on success, opens a modify session on the merge of its device and SSH records; a success without `data` throws and shows "Unknown error" with the modal unchanged; a rejection shows the error; `success: false` does nothing |
| `Page.Dashboard.EditField` | pages/index.tsx:261 | typing into a modal input writes that field of the buffer only, and keeps the session's mode |
| `Page.Dashboard.CancelModal` | pages/index.tsx:266 | "Cancel" closes the session |
| `Page.Dashboard.SubmitDevice` | pages/index.tsx:81-135 | per branch, which requests go out and in what order, the toast and whether the modal closes. Modify sends the full payload under the buffer's `name`. A gate failure sends nothing and keeps the modal open with "Missing required fields". Any failure keeps the modal open, including a successful refetch without `data`, which posts nothing and shows "Unknown error". A refetch answering `success: false` closes the modal without posting |
| `Scenarios.MissingListAsWritten` | pages/index.tsx:30-31 | as written, a successful fetch without a list leaves `devices` empty while `featured` still shows two devices |
| `Scenarios.MissingListCorrected` | pages/index.tsx:30-31 | with the correction, the same answers leave both empty and show nothing |
| `Scenarios.EmptyCreateFormRejected` | pages/index.tsx:110-113 | saving the untouched "Add Device" form sends no request, keeps the modal open and shows "Missing required fields" with a 5000 ms dismissal |
| `Scenarios.ModifyResendsFullRecord` | pages/index.tsx:85-94 | editing only the port of "r1" still posts every field of the merged record, with the port as the number 2222, and then refetches the list |

## Findings

| source | as written | input that shows it | evidently intended | confidence | as-written member | corrected member |
|---|---|---|---|---|---|---|
| pages/index.tsx:30-31 | `featured` is taken from `res.data.data.devices.slice(0, 2)`, which throws when the list is missing, although the line above guards the same list against being missing | a list reply `{ success: true, data: {} }` after a reply with three devices: `devices` becomes [], `featured` keeps two devices, and "Unknown error" is shown | `featured` is the first two entries of the list `devices` was set to, so the two slots never disagree | medium; not executed | `Page.Dashboard.DevicesLoadedAsWritten` | `Page.Dashboard.DevicesLoaded` |

## Left out

- Network: axios, `API_BASE` and the request URLs are not modelled. Each server
  response is a handler parameter, and each request is a `Request` value.
- Async interleaving: each handler runs from start to finish with the responses
  it awaits. Events that happen between its awaits are not modelled, and
  neither are a follow-up fetch's response arriving inside it or the `modal`
  value captured when `submitDevice` starts. The code has no supersession or
  cancellation, and the model invents none.
- Timers: `setTimeout` is not modelled. A handler reports the delay it
  scheduled, and the firing of a timer is the `DismissToast` event, which
  clears the slot unconditionally.
- Values.ToNumber: accepts only an optionally signed run of decimal digits and
  maps other text to NaN. JavaScript also accepts whitespace, `+`, decimals,
  exponents and hex literals, and returns floats.
- Values: JSON booleans, floats and nested objects are not modelled.
- Page.Dashboard.SettingsLoaded: the settings payload is held as the flat SSH
  defaults record. The `{ ssh: … }` wrapper around it is not modelled, and a
  missing `data` (`undefined`) is held as the same empty slot as `null`.
- Notifications.ErrorText: only string messages are modelled. A non-string
  `message` would be shown as is.
- Page.Dashboard.DevicesLoadedAsWritten: a reply whose `data` object itself is
  missing, which throws before `devices` is set, is not modelled.
- Page.Dashboard.SubmitDevice: requires an open modal. Its "Save" button exists
  only while the modal is open.
- View only, not modelled: the tab and sidebar toggles, all rendering, `Head`,
  `Link` and components/ui/*.
- pages/device/[name].tsx is not part of this model.
