/**
 * The emergency Bluetooth page: a list of discovered devices that never holds
 * two devices with one id, and an SMS form whose text is sent through the
 * backend. The browser's device picker and the backend's answer are inputs.
 */
module Bluetooth {
  import opened Wrappers
  import opened Strings

  /** A listed device (its handle and its random distance are not modelled). */
  datatype Device = Device(id: string, name: string, signal: string)

  /** What `navigator.bluetooth.requestDevice` did: a device picked, or the error it threw. */
  datatype ScanOutcome = Picked(id: string, name: Option<string>) | Rejected(errorMessage: string)

  /**
   * What the send-SMS request produced: a parsed answer with its `ok` flag and
   * the body's `twilioConfigured` and `error` fields, or a thrown fetch/parse.
   */
  datatype SmsOutcome = Answered(ok: bool, twilioConfigured: bool, error: Option<string>) | NetworkFailure

  /** The banner's `type`: success, info or error. */
  datatype StatusKind = SuccessKind | InfoKind | ErrorKind

  /** The banner shown under the forms. */
  datatype SendStatus = SendStatus(kind: StatusKind, message: string)

  /** The body posted to the backend. */
  datatype SmsRequest = SmsRequest(phoneNumber: string, message: string, messageType: string)

  /** `x || fallback` on an optional string: an absent or empty name falls back. */
  function OrElse(name: Option<string>, fallback: string): (r: string)
    ensures name.Some? && name.value != "" ==> r == name.value
    ensures name.None? || name.value == "" ==> r == fallback
  {
    if name.Some? && name.value != "" then name.value else fallback
  }

  /** The entry made for a picked device. */
  function NewDevice(id: string, name: Option<string>): Device
  {
    Device(id, OrElse(name, "Unknown Device"), "Strong")
  }

  /** `prev.find(d => d.id === id)`: the first listed device with that id. */
  function FindById(devices: seq<Device>, id: string): (r: Option<Device>)
    ensures r.Some? ==> r.value in devices && r.value.id == id
    ensures r.None? <==> forall k :: 0 <= k < |devices| ==> devices[k].id != id
  {
    if devices == [] then None
    else if devices[0].id == id then Some(devices[0])
    else FindById(devices[1..], id)
  }

  predicate Listed(devices: seq<Device>, id: string)
  {
    exists k :: 0 <= k < |devices| && devices[k].id == id
  }

  predicate DistinctIds(devices: seq<Device>)
  {
    forall j, k :: 0 <= j < k < |devices| ==> devices[j].id != devices[k].id
  }

  /** The `setNearbyDevices` updater: keep the list when the id is listed, else append. */
  function AddIfAbsent(devices: seq<Device>, d: Device): seq<Device>
  {
    if FindById(devices, d.id).Some? then devices else devices + [d]
  }

  /** A device whose id is already listed leaves the list as it was. */
  lemma AddListedKeeps(devices: seq<Device>, d: Device)
    requires Listed(devices, d.id)
    ensures AddIfAbsent(devices, d) == devices
  {
  }

  /** A new id is appended at the end, every earlier entry unchanged. */
  lemma AddNewAppends(devices: seq<Device>, d: Device)
    requires !Listed(devices, d.id)
    ensures AddIfAbsent(devices, d) == devices + [d]
    ensures |AddIfAbsent(devices, d)| == |devices| + 1
  {
  }

  /** Adding never lists one id twice. */
  lemma AddKeepsIdsDistinct(devices: seq<Device>, d: Device)
    requires DistinctIds(devices)
    ensures DistinctIds(AddIfAbsent(devices, d))
    ensures Listed(AddIfAbsent(devices, d), d.id)
  {
    if FindById(devices, d.id).None? {
      var r := devices + [d];
      assert r[|devices|].id == d.id;
    } else {
      var found := FindById(devices, d.id).value;
      var k :| 0 <= k < |devices| && devices[k] == found;
    }
  }

  const SmsHeader: string := "[EMERGENCY BLUETOOTH ALERT]\nType: "
  const MessageLabel: string := "\nMessage: "
  const SmsFooter: string := "\nFrom: Weather Tracker App"

  /** `emergencyMessage`: the text the backend is asked to send. */
  function SmsText(messageType: string, message: string): string
  {
    SmsHeader + messageType + MessageLabel + message + SmsFooter
  }

  /** The text opens with the alert header and the type and closes with the message and the sender line. */
  lemma SmsTextLayout(messageType: string, message: string)
    ensures var t := SmsText(messageType, message);
      && |t| == |SmsHeader| + |messageType| + |MessageLabel| + |message| + |SmsFooter|
      && t[..|SmsHeader|] == SmsHeader
      && t[|SmsHeader|..|SmsHeader| + |messageType|] == messageType
      && t[|t| - |SmsFooter|..] == SmsFooter
      && t[|t| - |SmsFooter| - |message|..|t| - |SmsFooter|] == message
  {
    FiveParts(SmsHeader, messageType, MessageLabel, message, SmsFooter);
  }

  /** For one message type, the text determines the message: nothing typed is lost. */
  lemma SmsTextRecoversMessage(messageType: string, m1: string, m2: string)
    requires SmsText(messageType, m1) == SmsText(messageType, m2)
    ensures m1 == m2
  {
    SmsTextLayout(messageType, m1);
    SmsTextLayout(messageType, m2);
  }

  /** The page's state. */
  class BluetoothPanel {
    var isEnabled: bool
    var isScanning: bool
    var nearbyDevices: seq<Device>
    var selectedDevice: Option<Device>
    var message: string
    var messageType: string
    var phoneNumber: string
    var sendStatus: Option<SendStatus>
    var isSending: bool

    /** The device list never holds two devices with one id. */
    predicate Valid()
      reads this
    {
      DistinctIds(nearbyDevices)
    }

    constructor ()
      ensures Valid()
      ensures !isEnabled && !isScanning && nearbyDevices == [] && selectedDevice.None?
      ensures message == "" && messageType == "Need Help" && phoneNumber == ""
      ensures sendStatus.None? && !isSending
    {
      isEnabled, isScanning, nearbyDevices, selectedDevice := false, false, [], None;
      message, messageType, phoneNumber := "", "Need Help", "";
      sendStatus, isSending := None, false;
    }

    /** The on/off switch. */
    method Toggle()
      modifies this`isEnabled
      ensures isEnabled == !old(isEnabled)
    {
      isEnabled := !isEnabled;
    }

    /** Clicking a listed device selects it. */
    method Select(d: Device)
      modifies this`selectedDevice
      ensures selectedDevice == Some(d)
    {
      selectedDevice := Some(d);
    }

    method SetMessage(text: string)
      modifies this`message
      ensures message == text
    {
      message := text;
    }

    method SetMessageType(text: string)
      modifies this`messageType
      ensures messageType == text
    {
      messageType := text;
    }

    method SetPhoneNumber(text: string)
      modifies this`phoneNumber
      ensures phoneNumber == text
    {
      phoneNumber := text;
    }

    /** `scanForDevices` up to the picker: scanning, the banner cleared. */
    method BeginScan()
      modifies this`isScanning, this`sendStatus
      ensures isScanning && sendStatus.None?
    {
      isScanning := true;
      sendStatus := None;
    }

    /** The rest of `scanForDevices`, once the picker has answered; `finally` ends the scan. */
    method CompleteScan(outcome: ScanOutcome)
      requires Valid()
      modifies this`nearbyDevices, this`sendStatus, this`isScanning
      ensures Valid() && !isScanning
      ensures outcome.Picked? ==>
        && nearbyDevices == AddIfAbsent(old(nearbyDevices), NewDevice(outcome.id, outcome.name))
        && sendStatus == Some(SendStatus(SuccessKind, "\U{2705} Found: " + OrElse(outcome.name, "Device")))
      ensures outcome.Rejected? ==> nearbyDevices == old(nearbyDevices)
      ensures outcome.Rejected? && Contains(outcome.errorMessage, "User cancelled") ==>
        sendStatus == Some(SendStatus(InfoKind, "Device selection cancelled"))
      ensures outcome.Rejected? && !Contains(outcome.errorMessage, "User cancelled") ==>
        sendStatus == Some(SendStatus(ErrorKind, "Bluetooth not available. Please enable Bluetooth on your device."))
    {
      match outcome {
        case Picked(id, name) =>
          var d := NewDevice(id, name);
          AddKeepsIdsDistinct(nearbyDevices, d);
          nearbyDevices := AddIfAbsent(nearbyDevices, d);
          sendStatus := Some(SendStatus(SuccessKind, "\U{2705} Found: " + OrElse(name, "Device")));
        case Rejected(errorMessage) =>
          if Contains(errorMessage, "User cancelled") {
            sendStatus := Some(SendStatus(InfoKind, "Device selection cancelled"));
          } else {
            sendStatus := Some(SendStatus(ErrorKind, "Bluetooth not available. Please enable Bluetooth on your device."));
          }
      }
      isScanning := false;
    }

    /** `sendEmergencySMS` up to the request: sending, the banner says so, the request is built. */
    method BeginSend() returns (request: SmsRequest)
      modifies this`isSending, this`sendStatus
      ensures isSending
      ensures sendStatus == Some(SendStatus(InfoKind, "\U{1F4E4} Sending emergency message..."))
      ensures request == SmsRequest(phoneNumber, SmsText(messageType, message), messageType)
    {
      isSending := true;
      sendStatus := Some(SendStatus(InfoKind, "\U{1F4E4} Sending emergency message..."));
      request := SmsRequest(phoneNumber, SmsText(messageType, message), messageType);
    }

    /** The rest of `sendEmergencySMS`: the message is cleared only on an OK answer; `finally` ends the send. */
    method CompleteSend(outcome: SmsOutcome)
      modifies this`message, this`sendStatus, this`isSending
      ensures !isSending
      ensures outcome.Answered? && outcome.ok ==> message == ""
      ensures !(outcome.Answered? && outcome.ok) ==> message == old(message)
      ensures outcome.Answered? && outcome.ok ==>
        sendStatus == Some(SendStatus(SuccessKind,
          if outcome.twilioConfigured then "\U{2705} Emergency SMS sent successfully!"
          else "\U{2705} Message logged! (Add Twilio credentials to send real SMS)"))
      ensures outcome.Answered? && !outcome.ok ==>
        sendStatus == Some(SendStatus(ErrorKind, OrElse(outcome.error, "Failed to send message")))
      ensures outcome.NetworkFailure? ==>
        sendStatus == Some(SendStatus(ErrorKind, "\U{274C} Network error: Unable to send message"))
    {
      match outcome {
        case Answered(ok, twilioConfigured, error) =>
          if ok {
            sendStatus := Some(SendStatus(SuccessKind,
              if twilioConfigured then "\U{2705} Emergency SMS sent successfully!"
              else "\U{2705} Message logged! (Add Twilio credentials to send real SMS)"));
            message := "";
          } else {
            sendStatus := Some(SendStatus(ErrorKind, OrElse(error, "Failed to send message")));
          }
        case NetworkFailure =>
          sendStatus := Some(SendStatus(ErrorKind, "\U{274C} Network error: Unable to send message"));
      }
      isSending := false;
    }
  }

  /** A whole scan as one step: the list stays free of repeated ids and the scan is over. */
  method ScanForDevices(panel: BluetoothPanel, outcome: ScanOutcome)
    requires panel.Valid()
    modifies panel`isScanning, panel`sendStatus, panel`nearbyDevices
    ensures panel.Valid() && !panel.isScanning
    ensures outcome.Picked? ==> Listed(panel.nearbyDevices, outcome.id)
    ensures outcome.Picked? && Listed(old(panel.nearbyDevices), outcome.id) ==> panel.nearbyDevices == old(panel.nearbyDevices)
    ensures outcome.Picked? && !Listed(old(panel.nearbyDevices), outcome.id) ==>
      panel.nearbyDevices == old(panel.nearbyDevices) + [NewDevice(outcome.id, outcome.name)]
    ensures outcome.Rejected? ==> panel.nearbyDevices == old(panel.nearbyDevices)
  {
    panel.BeginScan();
    panel.CompleteScan(outcome);
    if outcome.Picked? {
      AddKeepsIdsDistinct(old(panel.nearbyDevices), NewDevice(outcome.id, outcome.name));
    }
  }

  /** A whole send as one step: the text posted is the alert text and the send is over. */
  method SendEmergencySms(panel: BluetoothPanel, outcome: SmsOutcome) returns (request: SmsRequest)
    modifies panel`isSending, panel`sendStatus, panel`message
    ensures !panel.isSending
    ensures request.message == SmsText(old(panel.messageType), old(panel.message))
    ensures request.phoneNumber == old(panel.phoneNumber)
    ensures panel.message == (if outcome.Answered? && outcome.ok then "" else old(panel.message))
  {
    request := panel.BeginSend();
    panel.CompleteSend(outcome);
  }
}
