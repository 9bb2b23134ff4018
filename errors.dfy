/** XYBluetoothError: the error taxonomy every SDK operation settles with, and
    its user-facing text. */
module Errors {
  import opened Ble

  datatype XYBluetoothError =
    | NotConnected
    | MismatchedPeripheral
    | ServiceNotFound
    | CharacteristicNotFound
    | DataNotPresent
    | TimedOut
    | PeripheralDisconected(state: Option<PeripheralState>)
    | CbPeripheralDelegateError(description: string)
    | ActionNotSupported
    | CouldNotConnect
    | CentralNotPoweredOn
    | CouldNotUnlock
  {
    /** The ten cases that carry no payload. */
    predicate Plain() {
      !PeripheralDisconected? && !CbPeripheralDelegateError?
    }
  }

  const DisconnectedPrefix: string := "Peripheral Disconnected:\n"
  const DelegateErrorPrefix: string := "Peripheral Delegate Error:\n"

  /** `state.debugDescription` of an optional CBPeripheralState: "nil" when
      absent; when present the runtime reflects the imported C enum by its
      type name only. */
  function StateDebugDescription(state: Option<PeripheralState>): (r: string)
    ensures (r == "nil") <==> state.None?
  {
    if state.None? then "nil" else "Optional(__C.CBPeripheralState)"
  }

  /** `XYBluetoothError.toString` */
  function ToString(e: XYBluetoothError): (r: string)
    ensures |r| > 0
    ensures e.PeripheralDisconected? ==> r == DisconnectedPrefix + StateDebugDescription(e.state)
    ensures e.CbPeripheralDelegateError? ==> r == DelegateErrorPrefix + e.description
  {
    match e
    case NotConnected => "Not Connected"
    case MismatchedPeripheral => "Mismatched Peripheral"
    case ServiceNotFound => "Service Not Found"
    case CharacteristicNotFound => "Characteristic Not Found"
    case DataNotPresent => "Data Not Present"
    case TimedOut => "Timed Out"
    case PeripheralDisconected(state) => DisconnectedPrefix + StateDebugDescription(state)
    case CbPeripheralDelegateError(description) => DelegateErrorPrefix + description
    case ActionNotSupported => "Requested Action Not Supported"
    case CouldNotConnect => "Could Not Connect"
    case CentralNotPoweredOn => "Bluetooth is Off"
    case CouldNotUnlock => "Could not unlock"
  }

  /** Reads back the text of a payload-free error; the inverse of ToString on those cases. */
  function Parse(s: string): (r: Option<XYBluetoothError>)
    ensures r.Some? ==> r.value.Plain()
  {
    if s == "Not Connected" then Some(NotConnected)
    else if s == "Mismatched Peripheral" then Some(MismatchedPeripheral)
    else if s == "Service Not Found" then Some(ServiceNotFound)
    else if s == "Characteristic Not Found" then Some(CharacteristicNotFound)
    else if s == "Data Not Present" then Some(DataNotPresent)
    else if s == "Timed Out" then Some(TimedOut)
    else if s == "Requested Action Not Supported" then Some(ActionNotSupported)
    else if s == "Could Not Connect" then Some(CouldNotConnect)
    else if s == "Bluetooth is Off" then Some(CentralNotPoweredOn)
    else if s == "Could not unlock" then Some(CouldNotUnlock)
    else None
  }

  /** The text of every payload-free case reads back as that case. */
  lemma {:induction false} ParseToString(e: XYBluetoothError)
    requires e.Plain()
    ensures Parse(ToString(e)) == Some(e)
  {
    match e
    case NotConnected =>
    case MismatchedPeripheral =>
    case ServiceNotFound =>
    case CharacteristicNotFound =>
    case DataNotPresent =>
    case TimedOut =>
    case ActionNotSupported =>
    case CouldNotConnect =>
    case CentralNotPoweredOn =>
    case CouldNotUnlock =>
  }

  /** The ten payload-free cases have pairwise distinct texts. */
  lemma {:induction false} PlainTextsDistinct(a: XYBluetoothError, b: XYBluetoothError)
    requires a.Plain() && b.Plain() && a != b
    ensures ToString(a) != ToString(b)
  {
    ParseToString(a);
    ParseToString(b);
  }

  /** The texts of the two payload cases start with their fixed prefixes and
      differ from every payload-free text. */
  lemma {:induction false} PayloadTextsPrefixed(e: XYBluetoothError)
    requires !e.Plain()
    ensures e.PeripheralDisconected? ==> DisconnectedPrefix <= ToString(e)
    ensures e.CbPeripheralDelegateError? ==> DelegateErrorPrefix <= ToString(e)
    ensures Parse(ToString(e)) == None
  {
    var t := ToString(e);
    var p := if e.PeripheralDisconected? then DisconnectedPrefix else DelegateErrorPrefix;
    assert t[..|p|] == p;
    assert t[0] == 'P';  // no payload-free text starts with 'P'
  }
}
