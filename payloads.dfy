/**
 * The request payloads `submitDevice` builds (pages/index.tsx:81-135): the
 * required-field gate and parameter map of a create, and the full-record
 * payload of a modify.
 */
module Payloads {
  import opened Wrappers
  import opened Values
  import opened Records

  /** The form field whose value becomes the path segment of a create. */
  const NicknameField := "name"
  const DeviceNameField := "deviceName"
  const VendorField := "vendor"
  const PasswordField := "password"
  const HostField := "host"
  const PortField := "port"
  const SshVerbosityField := "sshVerbosity"
  const KexMethodsField := "kexMethods"
  const HostkeyAlgorithmsField := "hostkeyAlgorithms"
  const UserField := "user"

  /** Sent on every create, as given. */
  const MandatoryParams: set<string> := {DeviceNameField, VendorField, PasswordField, HostField}
  /** Sent only when truthy, and then through `Number()`. */
  const NumericParams: set<string> := {PortField, SshVerbosityField}
  /** Sent only when truthy, as given. */
  const TextParams: set<string> := {KexMethodsField, HostkeyAlgorithmsField, UserField}
  /** The fields the create gate checks. */
  const RequiredFields: set<string> := {NicknameField} + MandatoryParams
  const MissingFieldsMessage := "Missing required fields"

  /** `POST /devices/create/{nickname}` with `params` as its query. */
  datatype CreateCall = CreateCall(nickname: Value, params: Record)

  /** The create gate: some required field of the form is falsy (or absent). */
  predicate MissingRequired(form: Record): (missing: bool)
    ensures missing <==> exists k :: k in RequiredFields && !Truthy(Get(form, k))
  {
    || !Truthy(Get(form, NicknameField))
    || !Truthy(Get(form, DeviceNameField))
    || !Truthy(Get(form, VendorField))
    || !Truthy(Get(form, PasswordField))
    || !Truthy(Get(form, HostField))
  }

  /** The conditional spread `...(v && { [k]: v })`, with `Number(v)` for a numeric field. */
  function SpreadIfTruthy(params: Record, form: Record, k: string, numeric: bool): (r: Record)
    ensures k in r <==> k in params || Truthy(Get(form, k))
    ensures Truthy(Get(form, k)) ==> r[k] == if numeric then ToNumber(Get(form, k)) else Get(form, k)
    ensures !Truthy(Get(form, k)) ==> r == params
    ensures forall j :: j != k ==> (j in r <==> j in params)
    ensures forall j :: j != k && j in params ==> r[j] == params[j]
  {
    var v := Get(form, k);
    if Truthy(v) then params[k := if numeric then ToNumber(v) else v] else params
  }

  /** `{ deviceName, vendor, password, host }`: the part of a create's parameters that is always sent. */
  function MandatoryPart(form: Record): (r: Record)
    ensures r.Keys == MandatoryParams
    ensures forall k :: k in r ==> r[k] == Get(form, k)
  {
    map[DeviceNameField := Get(form, DeviceNameField), VendorField := Get(form, VendorField),
        PasswordField := Get(form, PasswordField), HostField := Get(form, HostField)]
  }

  /**
   * The parameters of a create: the four mandatory fields and each truthy
   * optional one; never the nickname.
   */
  function CreateParams(form: Record): (r: Record)
    ensures forall k :: k in r <==>
      k in MandatoryParams || ((k in NumericParams || k in TextParams) && Truthy(Get(form, k)))
    ensures NicknameField !in r
  {
    var mandatory := MandatoryPart(form);
    var withPort := SpreadIfTruthy(mandatory, form, PortField, true);
    var withVerbosity := SpreadIfTruthy(withPort, form, SshVerbosityField, true);
    var withKex := SpreadIfTruthy(withVerbosity, form, KexMethodsField, false);
    var withHostkey := SpreadIfTruthy(withKex, form, HostkeyAlgorithmsField, false);
    SpreadIfTruthy(withHostkey, form, UserField, false)
  }

  /** A create sends each mandatory field exactly as the form holds it. */
  lemma CreateParamsMandatory(form: Record, k: string)
    requires k in MandatoryParams
    ensures k in CreateParams(form) && CreateParams(form)[k] == Get(form, k)
  {
    var withPort := SpreadIfTruthy(MandatoryPart(form), form, PortField, true);
    var withVerbosity := SpreadIfTruthy(withPort, form, SshVerbosityField, true);
    var withKex := SpreadIfTruthy(withVerbosity, form, KexMethodsField, false);
    var withHostkey := SpreadIfTruthy(withKex, form, HostkeyAlgorithmsField, false);
    assert CreateParams(form) == SpreadIfTruthy(withHostkey, form, UserField, false);
    assert k != PortField && k != SshVerbosityField && k != KexMethodsField && k != HostkeyAlgorithmsField && k != UserField;
    assert CreateParams(form)[k] == withHostkey[k] == withKex[k] == withVerbosity[k] == withPort[k];
  }

  /** A create sends `port` and `sshVerbosity`, when present, through `Number()` of a truthy form value. */
  lemma CreateParamsNumeric(form: Record, k: string)
    requires k in NumericParams && k in CreateParams(form)
    ensures Truthy(Get(form, k)) && CreateParams(form)[k] == ToNumber(Get(form, k))
  {
    var withPort := SpreadIfTruthy(MandatoryPart(form), form, PortField, true);
    var withVerbosity := SpreadIfTruthy(withPort, form, SshVerbosityField, true);
    var withKex := SpreadIfTruthy(withVerbosity, form, KexMethodsField, false);
    var withHostkey := SpreadIfTruthy(withKex, form, HostkeyAlgorithmsField, false);
    assert CreateParams(form) == SpreadIfTruthy(withHostkey, form, UserField, false);
    assert k != KexMethodsField && k != HostkeyAlgorithmsField && k != UserField;
    assert CreateParams(form)[k] == withHostkey[k] == withKex[k] == withVerbosity[k];
  }

  /** A create sends the optional text fields, when present, exactly as the form holds them. */
  lemma CreateParamsText(form: Record, k: string)
    requires k in TextParams && k in CreateParams(form)
    ensures CreateParams(form)[k] == Get(form, k)
  {
    var withPort := SpreadIfTruthy(MandatoryPart(form), form, PortField, true);
    var withVerbosity := SpreadIfTruthy(withPort, form, SshVerbosityField, true);
    var withKex := SpreadIfTruthy(withVerbosity, form, KexMethodsField, false);
    var withHostkey := SpreadIfTruthy(withKex, form, HostkeyAlgorithmsField, false);
    assert CreateParams(form) == SpreadIfTruthy(withHostkey, form, UserField, false);
    if k != UserField {
      assert CreateParams(form)[k] == withHostkey[k];
    }
  }

  /**
   * The create branch of `submitDevice`: either the gate's error message
   * (no request is made) or the create call to issue.
   */
  function CreateRequest(form: Record): (r: Result<CreateCall, string>)
    ensures r.Err? <==> MissingRequired(form)
    ensures r.Err? ==> r.error == MissingFieldsMessage
    ensures r.Ok? ==> r.value.nickname == Get(form, NicknameField) && Truthy(r.value.nickname)
    ensures r.Ok? ==> r.value.params == CreateParams(form)
  {
    if MissingRequired(form) then Err(MissingFieldsMessage)
    else Ok(CreateCall(Get(form, NicknameField), CreateParams(form)))
  }

  /** Key `k` of `{ ...{ ...device, ...ssh }, ...buffer }`: the buffer wins, then the SSH profile. */
  function Layered(device: Record, ssh: Record, buffer: Record, k: string): Value
    requires k in device || k in ssh || k in buffer
  {
    if k in buffer then buffer[k] else if k in ssh then ssh[k] else device[k]
  }

  /** The guarded coercion of `port` or `sshVerbosity`: a falsy value is left as it is. */
  function CoerceIfTruthy(v: Value): (r: Value)
    ensures !Truthy(v) ==> r == v
    ensures Truthy(v) ==> r.Num? || r.NaN?
  {
    if Truthy(v) then ToNumber(v) else v
  }

  /**
   * The modify payload: every key of the device, its SSH profile and the edit
   * buffer (a full-record resend, nothing dropped), each with the value of the
   * highest layer that has it; `port` and `sshVerbosity` go through `Number()`
   * when truthy.
   */
  ghost predicate IsModifyPayload(device: Record, ssh: Record, buffer: Record, params: Record) {
    && params.Keys == device.Keys + ssh.Keys + buffer.Keys
    && (forall k :: k in params && k !in NumericParams ==> params[k] == Layered(device, ssh, buffer, k))
    && (forall k :: k in params && k in NumericParams ==>
          params[k] == CoerceIfTruthy(Layered(device, ssh, buffer, k)))
  }

  /** At most one payload satisfies IsModifyPayload for given inputs. */
  lemma ModifyPayloadUnique(device: Record, ssh: Record, buffer: Record, p: Record, q: Record)
    requires IsModifyPayload(device, ssh, buffer, p) && IsModifyPayload(device, ssh, buffer, q)
    ensures p == q
  {
    assert forall k :: k in p ==> p[k] == q[k];
  }

  /** One guarded coercion step on key `k`: only that key may change, and it is coerced. */
  lemma CoerceStep(before: Record, after: Record, k: string)
    requires after == if k in before && Truthy(before[k]) then before[k := ToNumber(before[k])] else before
    ensures after.Keys == before.Keys
    ensures forall j :: j in after && j != k ==> after[j] == before[j]
    ensures k in after ==> after[k] == CoerceIfTruthy(before[k])
  {
  }

  /** The buffer laid over the merged record, with the numeric fields coerced, is the modify payload. */
  lemma CoercedLayersArePayload(device: Record, ssh: Record, buffer: Record, updated: Record, params: Record)
    requires updated.Keys == device.Keys + ssh.Keys + buffer.Keys
    requires forall k :: k in updated ==> updated[k] == Layered(device, ssh, buffer, k)
    requires params.Keys == updated.Keys
    requires forall k :: k in params && k !in NumericParams ==> params[k] == updated[k]
    requires forall k :: k in params && k in NumericParams ==> params[k] == CoerceIfTruthy(updated[k])
    ensures IsModifyPayload(device, ssh, buffer, params)
  {
  }

  /** The modify branch's payload construction (pages/index.tsx:87-90). */
  method BuildModifyParams(device: Record, ssh: Record, buffer: Record) returns (params: Record)
    ensures IsModifyPayload(device, ssh, buffer, params)
  {
    var fullData := Merge(device, ssh);
    var updated := Merge(fullData, buffer);
    assert forall k :: k in updated ==> updated[k] == Layered(device, ssh, buffer, k);
    params := updated;
    if PortField in params && Truthy(params[PortField]) {
      params := params[PortField := ToNumber(params[PortField])];
    }
    CoerceStep(updated, params, PortField);
    ghost var portDone := params;
    if SshVerbosityField in params && Truthy(params[SshVerbosityField]) {
      params := params[SshVerbosityField := ToNumber(params[SshVerbosityField])];
    }
    CoerceStep(portDone, params, SshVerbosityField);
    CoercedLayersArePayload(device, ssh, buffer, updated, params);
  }
}
