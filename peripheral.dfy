/**
 * BLEPeripheralHelper: the peripheral side of the chat. It keeps two ordered
 * listener lists (advertising phase and chatting phase) and the list of
 * connected centrals, answers the GATT server callbacks, fans text and data
 * out to every connected central, and owns the RFCOMM accept thread.
 *
 * Every outside call (listener callback, GATT response, characteristic
 * notification, thread start and end) is an Effect appended to `trace`.
 */
module Peripheral {
  import opened Wrappers
  import opened JavaText
  import opened Profile
  import opened Capability

  /** A BluetoothDevice; two device objects are equal when their addresses are. */
  type Device = string

  /** A registered listener object; the lists compare listeners by identity. */
  type ListenerId = nat

  /** BLEAdvertiseCallback: the advertising-phase callbacks. */
  datatype AdvEvent =
    | InitSuccess
    | InitFailure(message: string)
    | ClientConnect(device: Device)
    | AdvInfo(message: string)
    | AdvError(message: string)

  /** BLEPeripheralChatEvents: the chatting-phase callbacks. */
  datatype ChatEvent =
    | Message(text: string)
    | ChatInfo(message: string)
    | ClientDisconnect(device: Device)
    | ConnectionError(message: string)
    | InitRfcommSocket
    | ConnectRfcommSocket
    | RfcommData(data: seq<byte>)
    | DataStream(data: seq<byte>)

  datatype Effect =
    | AdvCallback(listener: ListenerId, advEvent: AdvEvent)
    | ChatCallback(listener: ListenerId, chatEvent: ChatEvent)
    /** notifyCharacteristicChanged(device, characteristic with value, false) */
    | Notify(device: Device, characteristic: Uuid, payload: Payload)
    /** sendResponse(device, requestId, status, offset, value) */
    | Response(device: Device, requestId: int, status: int, offset: int, value: seq<byte>)
    | AcceptThreadStarted
    /** AcceptThread.end(): sets the thread's end flag; the thread itself is not stopped. */
    | AcceptThreadEndRequested

  const MSG_NO_CONTEXT := "Context cannot be null!!"
  const MSG_NO_ADAPTER := "Bluetooth not supported in this device!!"
  const MSG_NO_LE := "Bluetooth LE is not supported in this devices!!"
  const MSG_NOT_TESTED := "Not tested yet!"
  /** The insecure accept thread's listen failure: "Socket Type: " + "Insecure" + "listen() failed". */
  const MSG_LISTEN_FAILED := "Socket Type: Insecurelisten() failed"
  /** sendStream sends a block of this many random bytes. */
  const STREAM_BLOCK_SIZE := 512

  /* ---------- ArrayList.remove(Object) ---------- */

  /** remove(x): deletes the first occurrence of x, if any, keeping the order of the rest. */
  function RemoveFirst<T(==)>(s: seq<T>, x: T): (r: seq<T>)
    ensures x !in s ==> r == s
    ensures x in s ==> |r| == |s| - 1 && multiset(r) == multiset(s) - multiset{x}
    ensures forall k :: 0 <= k < IndexOf(s, x) && k < |r| ==> r[k] == s[k]
    ensures forall k :: IndexOf(s, x) <= k < |r| ==> r[k] == s[k + 1]
  {
    var i := IndexOf(s, x);
    if i == |s| then s
    else
      RemoveAt(s, i);
      s[..i] + s[i + 1..]
  }

  /** Deleting the element at index i. */
  lemma RemoveAt<T>(s: seq<T>, i: nat)
    requires i < |s|
    ensures var r := s[..i] + s[i + 1..];
      && |r| == |s| - 1
      && multiset(r) == multiset(s) - multiset{s[i]}
      && (forall k :: 0 <= k < i ==> r[k] == s[k])
      && (forall k :: i <= k < |r| ==> r[k] == s[k + 1])
  {
    assert s == s[..i] + [s[i]] + s[i + 1..];
  }

  /** Adding an element that was not in the list and removing it again gives the list back. */
  lemma RemoveFirstOfAppend<T>(s: seq<T>, x: T)
    requires x !in s
    ensures RemoveFirst(s + [x], x) == s
  {
    var t := s + [x];
    assert IndexOf(t, x) == |s| by {
      assert t[|s|] == x;
      assert forall k :: 0 <= k < |s| ==> t[k] == s[k];
    }
    assert t[..|s|] == s;
  }

  /** Removing an element keeps the earlier occurrences' order and every other element's count. */
  lemma RemoveFirstOther<T>(s: seq<T>, x: T, y: T)
    requires x != y
    ensures multiset(RemoveFirst(s, x))[y] == multiset(s)[y]
  {
  }

  /* ---------- fan-out ---------- */

  /** The calls one notifyAdvListeners makes: the event to each listener, in list order. */
  function AdvFanOut(listeners: seq<ListenerId>, e: AdvEvent): (r: seq<Effect>)
    ensures |r| == |listeners|
    ensures forall i :: 0 <= i < |listeners| ==> r[i] == AdvCallback(listeners[i], e)
  {
    if listeners == [] then [] else [AdvCallback(listeners[0], e)] + AdvFanOut(listeners[1..], e)
  }

  /** The calls one notifyChatListeners makes: the event to each listener, in list order. */
  function ChatFanOut(listeners: seq<ListenerId>, e: ChatEvent): (r: seq<Effect>)
    ensures |r| == |listeners|
    ensures forall i :: 0 <= i < |listeners| ==> r[i] == ChatCallback(listeners[i], e)
  {
    if listeners == [] then [] else [ChatCallback(listeners[0], e)] + ChatFanOut(listeners[1..], e)
  }

  /** One notification of the characteristic per connected device, in list order. */
  function NotifyAll(devices: seq<Device>, characteristic: Uuid, value: Payload): (r: seq<Effect>)
    ensures |r| == |devices|
    ensures forall i :: 0 <= i < |devices| ==> r[i] == Notify(devices[i], characteristic, value)
  {
    if devices == [] then [] else [Notify(devices[0], characteristic, value)] + NotifyAll(devices[1..], characteristic, value)
  }

  /** One more loop iteration appends one more callback. */
  lemma AdvFanOutSnoc(listeners: seq<ListenerId>, i: nat, e: AdvEvent)
    requires i < |listeners|
    ensures AdvFanOut(listeners[..i + 1], e) == AdvFanOut(listeners[..i], e) + [AdvCallback(listeners[i], e)]
  {
  }

  lemma ChatFanOutSnoc(listeners: seq<ListenerId>, i: nat, e: ChatEvent)
    requires i < |listeners|
    ensures ChatFanOut(listeners[..i + 1], e) == ChatFanOut(listeners[..i], e) + [ChatCallback(listeners[i], e)]
  {
  }

  lemma NotifyAllSnoc(devices: seq<Device>, i: nat, characteristic: Uuid, value: Payload)
    requires i < |devices|
    ensures NotifyAll(devices[..i + 1], characteristic, value) ==
      NotifyAll(devices[..i], characteristic, value) + [Notify(devices[i], characteristic, value)]
  {
  }

  /** Fanning out to two lists in turn is fanning out to their concatenation. */
  lemma {:induction false} AdvFanOutAppend(a: seq<ListenerId>, b: seq<ListenerId>, e: AdvEvent)
    ensures AdvFanOut(a + b, e) == AdvFanOut(a, e) + AdvFanOut(b, e)
  {
    if a != [] {
      assert (a + b)[1..] == a[1..] + b;
      AdvFanOutAppend(a[1..], b, e);
    }
  }

  /** A listener registered last is called last, after the others in their old order. */
  lemma RegisteredLastCalledLast(listeners: seq<ListenerId>, l: ListenerId, e: AdvEvent)
    ensures AdvFanOut(listeners + [l], e) == AdvFanOut(listeners, e) + [AdvCallback(l, e)]
  {
    AdvFanOutAppend(listeners, [l], e);
  }

  /* ---------- pure decisions ---------- */

  /** The advertising-phase event init reports: the first failing check decides. */
  function InitEvent(p: Capability.Platform): (e: AdvEvent)
    ensures e == InitSuccess <==>
      p.hasContext && p.hasAdapter && p.adapterEnabled && p.hasLeFeature
    ensures e == InitFailure(MSG_NO_CONTEXT) <==> !p.hasContext
    ensures e == InitFailure(MSG_NO_ADAPTER) <==>
      p.hasContext && (!p.hasAdapter || !p.adapterEnabled)
    ensures e == InitFailure(MSG_NO_LE) <==>
      p.hasContext && p.hasAdapter && p.adapterEnabled && !p.hasLeFeature
  {
    match Capability.FirstFault(p)
    case None => InitSuccess
    case Some(NoContext) => InitFailure(MSG_NO_CONTEXT)
    case Some(AdapterUnavailable) => InitFailure(MSG_NO_ADAPTER)
    case Some(NoLeFeature) => InitFailure(MSG_NO_LE)
  }

  /** `"Error:" + status`: the status follows in canonical decimal. */
  function StatusError(status: int): (m: string)
    ensures StartsWith(m, "Error:")
    ensures JavaDecimal(m[|"Error:"|..], status)
  {
    var m := "Error:" + IntToDecimal(status);
    assert m[|"Error:"|..] == IntToDecimal(status);
    IntToDecimalIsJavaDecimal(status);
    m
  }

  /** getCharacteristicVersionValue: `getVersion().getBytes()`, one byte per character of the version. */
  function VersionValue(): (v: seq<byte>)
    ensures Encodes(v, VERSION)
  {
    GetBytes(VERSION)
  }

  /** getCharacteristicDescValue: `getDescription().getBytes()`, one byte per character. */
  function DescriptionValue(): (v: seq<byte>)
    ensures Encodes(v, DESCRIPTION)
  {
    ProfileStrings();
    GetBytes(DESCRIPTION)
  }

  /** The value a read request answers with: the version or description bytes, else nothing. */
  function ReadValue(characteristic: Uuid): (v: seq<byte>)
    ensures characteristic == CHARACTERISTIC_VERSION_UUID ==> v == VersionValue()
    ensures characteristic == CHARACTERISTIC_DESC_UUID ==> v == DescriptionValue()
    ensures characteristic != CHARACTERISTIC_VERSION_UUID && characteristic != CHARACTERISTIC_DESC_UUID ==> v == []
  {
    if characteristic == CHARACTERISTIC_VERSION_UUID then VersionValue()
    else if characteristic == CHARACTERISTIC_DESC_UUID then DescriptionValue()
    else []
  }

  /**
   * The status a characteristic write is answered with. `decoded` is the
   * outcome of `new String(value, "UTF-8")`: an Err carries the text of the
   * UnsupportedEncodingException. A JVM always supports UTF-8 and turns
   * malformed bytes into U+FFFD, so in practice decoding never fails.
   */
  function WriteStatus(characteristic: Uuid, decoded: Result<string, string>): (status: int)
    ensures status == GATT_SUCCESS || status == GATT_FAILURE
    ensures status == GATT_FAILURE <==> characteristic == CHARACTERISTIC_MESSAGE_UUID && decoded.Err?
  {
    if characteristic == CHARACTERISTIC_MESSAGE_UUID && decoded.Err? then GATT_FAILURE else GATT_SUCCESS
  }

  /** The chat event a characteristic write raises, if any. */
  function WriteEvent(characteristic: Uuid, value: seq<byte>, decoded: Result<string, string>): (e: Option<ChatEvent>)
    ensures characteristic == CHARACTERISTIC_MESSAGE_UUID && decoded.Ok? ==> e == Some(Message(decoded.value))
    ensures characteristic == CHARACTERISTIC_MESSAGE_UUID && decoded.Err? ==> e == Some(ConnectionError(decoded.error))
    ensures characteristic == CHARACTERISTIC_BLE_TRANSFER_UUID ==> e == Some(DataStream(value))
    ensures e.None? <==>
      characteristic != CHARACTERISTIC_MESSAGE_UUID && characteristic != CHARACTERISTIC_BLE_TRANSFER_UUID
  {
    if characteristic == CHARACTERISTIC_MESSAGE_UUID then
      match decoded
      case Ok(msg) => Some(Message(msg))
      case Err(ex) => Some(ConnectionError(ex))
    else if characteristic == CHARACTERISTIC_BLE_TRANSFER_UUID then Some(DataStream(value))
    else None
  }

  /** The effects of creating the accept thread: a listen-failure report if listening fails, then its start. */
  function AcceptThreadCreation(chatListeners: seq<ListenerId>, listenOk: bool): (r: seq<Effect>)
    ensures |r| > 0 && r[|r| - 1] == AcceptThreadStarted
    ensures forall i :: 0 <= i < |r| - 1 ==> r[i].ChatCallback? && r[i].chatEvent == ConnectionError(MSG_LISTEN_FAILED)
    ensures listenOk ==> r == [AcceptThreadStarted]
    ensures !listenOk ==> |r| == |chatListeners| + 1
  {
    (if listenOk then [] else ChatFanOut(chatListeners, ConnectionError(MSG_LISTEN_FAILED))) + [AcceptThreadStarted]
  }

  /** The 512 bytes sendStream fills from its random source. */
  function RandomBlock(random: nat -> byte): (b: seq<byte>)
    ensures |b| == STREAM_BLOCK_SIZE
    ensures forall i :: 0 <= i < |b| ==> b[i] == random(i)
  {
    seq(STREAM_BLOCK_SIZE, i requires 0 <= i => random(i))
  }

  /** The peripheral helper's state. */
  class PeripheralHelper {
    var advListeners: seq<ListenerId>
    var chatListeners: seq<ListenerId>
    /** mConnectedDevices */
    var connectedDevices: seq<Device>
    /** mInsecureAcceptThread != null */
    var acceptThread: bool
    var trace: seq<Effect>

    constructor ()
      ensures advListeners == [] && chatListeners == [] && connectedDevices == []
      ensures !acceptThread && trace == []
    {
      advListeners := [];
      chatListeners := [];
      connectedDevices := [];
      acceptThread := false;
      trace := [];
    }

    /** register(BLEAdvertiseCallback): appends to the advertising-phase list only. */
    method RegisterAdv(l: ListenerId)
      modifies this`advListeners
      ensures advListeners == old(advListeners) + [l]
    {
      advListeners := advListeners + [l];
    }

    /** register(BLEPeripheralChatEvents): appends to the chatting-phase list only. */
    method RegisterChat(l: ListenerId)
      modifies this`chatListeners
      ensures chatListeners == old(chatListeners) + [l]
    {
      chatListeners := chatListeners + [l];
    }

    /** unregister(BLEAdvertiseCallback): removes one occurrence from the advertising-phase list. */
    method UnregisterAdv(l: ListenerId)
      modifies this`advListeners
      ensures advListeners == RemoveFirst(old(advListeners), l)
    {
      advListeners := RemoveFirst(advListeners, l);
    }

    /** unregister(BLEPeripheralChatEvents): removes one occurrence from the chatting-phase list. */
    method UnregisterChat(l: ListenerId)
      modifies this`chatListeners
      ensures chatListeners == RemoveFirst(old(chatListeners), l)
    {
      chatListeners := RemoveFirst(chatListeners, l);
    }

    /** notifyAdvListeners: every advertising-phase listener gets the event once, in order. */
    method NotifyAdvListeners(e: AdvEvent)
      modifies this`trace
      ensures trace == old(trace) + AdvFanOut(advListeners, e)
    {
      var listeners := advListeners;
      var calls: seq<Effect> := [];
      for i := 0 to |listeners|
        invariant calls == AdvFanOut(listeners[..i], e)
        invariant trace == old(trace)
      {
        AdvFanOutSnoc(listeners, i, e);
        calls := calls + [AdvCallback(listeners[i], e)];
      }
      assert listeners[..|listeners|] == listeners;
      trace := trace + calls;
    }

    /** notifyChatListeners: every chatting-phase listener gets the event once, in order. */
    method NotifyChatListeners(e: ChatEvent)
      modifies this`trace
      ensures trace == old(trace) + ChatFanOut(chatListeners, e)
    {
      var listeners := chatListeners;
      var calls: seq<Effect> := [];
      for i := 0 to |listeners|
        invariant calls == ChatFanOut(listeners[..i], e)
        invariant trace == old(trace)
      {
        ChatFanOutSnoc(listeners, i, e);
        calls := calls + [ChatCallback(listeners[i], e)];
      }
      assert listeners[..|listeners|] == listeners;
      trace := trace + calls;
    }

    /** The loop shared by send, sendStream and sendTransferReady. */
    method NotifyConnected(characteristic: Uuid, value: Payload)
      modifies this`trace
      ensures trace == old(trace) + NotifyAll(connectedDevices, characteristic, value)
    {
      var devices := connectedDevices;
      var notifications: seq<Effect> := [];
      for i := 0 to |devices|
        invariant notifications == NotifyAll(devices[..i], characteristic, value)
        invariant trace == old(trace)
      {
        NotifyAllSnoc(devices, i, characteristic, value);
        notifications := notifications + [Notify(devices[i], characteristic, value)];
      }
      assert devices[..|devices|] == devices;
      trace := trace + notifications;
    }

    /**
     * init: exactly one advertising-phase event, decided by the first failing
     * check. Once a context is given the connected-device list is reset,
     * even when a later check fails.
     */
    method Init(p: Capability.Platform)
      modifies this`connectedDevices, this`trace
      ensures connectedDevices == if p.hasContext then [] else old(connectedDevices)
      ensures trace == old(trace) + AdvFanOut(advListeners, InitEvent(p))
    {
      if !p.hasContext {
        NotifyAdvListeners(InitFailure(MSG_NO_CONTEXT));
        return;
      }
      connectedDevices := [];
      if !p.hasAdapter || !p.adapterEnabled {
        NotifyAdvListeners(InitFailure(MSG_NO_ADAPTER));
        return;
      }
      if !p.hasLeFeature {
        NotifyAdvListeners(InitFailure(MSG_NO_LE));
        return;
      }
      NotifyAdvListeners(InitSuccess);
    }

    /** mGattServerCallback.onConnectionStateChange */
    method OnConnectionStateChange(device: Device, status: int, newState: int)
      modifies this`connectedDevices, this`trace
      ensures status == GATT_SUCCESS && newState == STATE_CONNECTED ==>
        && connectedDevices == old(connectedDevices) + [device]
        && trace == old(trace) + AdvFanOut(advListeners, ClientConnect(device))
      ensures status == GATT_SUCCESS && newState == STATE_DISCONNECTED ==>
        && connectedDevices == RemoveFirst(old(connectedDevices), device)
        && trace == old(trace) + ChatFanOut(chatListeners, ClientDisconnect(device))
      ensures status == GATT_SUCCESS && newState != STATE_CONNECTED && newState != STATE_DISCONNECTED ==>
        connectedDevices == old(connectedDevices) && trace == old(trace)
      ensures status != GATT_SUCCESS ==>
        && connectedDevices == old(connectedDevices)
        && trace == old(trace) + ChatFanOut(chatListeners, ConnectionError(StatusError(status)))
                               + AdvFanOut(advListeners, AdvError(StatusError(status)))
    {
      if status == GATT_SUCCESS {
        if newState == STATE_CONNECTED {
          connectedDevices := connectedDevices + [device];
          NotifyAdvListeners(ClientConnect(device));
        } else if newState == STATE_DISCONNECTED {
          connectedDevices := RemoveFirst(connectedDevices, device);
          NotifyChatListeners(ClientDisconnect(device));
        }
      } else {
        var error := StatusError(status);
        NotifyChatListeners(ConnectionError(error));
        NotifyAdvListeners(AdvError(error));
      }
    }

    /** mGattServerCallback.onCharacteristicReadRequest: always answered with success. */
    method OnCharacteristicReadRequest(device: Device, requestId: int, offset: int, characteristic: Uuid)
      modifies this`trace
      ensures trace == old(trace) + [Response(device, requestId, GATT_SUCCESS, offset, ReadValue(characteristic))]
    {
      var value := ReadValue(characteristic);
      trace := trace + [Response(device, requestId, GATT_SUCCESS, offset, value)];
    }

    /**
     * mGattServerCallback.onCharacteristicWriteRequest: at most one chat
     * event, then a response echoing offset and value iff one is needed.
     */
    method OnCharacteristicWriteRequest(device: Device, requestId: int, characteristic: Uuid,
                                        preparedWrite: bool, responseNeeded: bool, offset: int,
                                        value: seq<byte>, decoded: Result<string, string>)
      modifies this`trace
      ensures var events := match WriteEvent(characteristic, value, decoded)
                            case None => []
                            case Some(e) => ChatFanOut(chatListeners, e);
              var response := if responseNeeded
                              then [Response(device, requestId, WriteStatus(characteristic, decoded), offset, value)]
                              else [];
              trace == old(trace) + events + response
    {
      var gattResult := GATT_SUCCESS;
      if characteristic == CHARACTERISTIC_MESSAGE_UUID {
        match decoded {
          case Ok(msg) =>
            NotifyChatListeners(Message(msg));
          case Err(ex) =>
            NotifyChatListeners(ConnectionError(ex));
            gattResult := GATT_FAILURE;
        }
      } else if characteristic == CHARACTERISTIC_BLE_TRANSFER_UUID {
        NotifyChatListeners(DataStream(value));
      }
      if responseNeeded {
        trace := trace + [Response(device, requestId, gattResult, offset, value)];
      }
    }

    /** mGattServerCallback.onDescriptorWriteRequest: a success echo iff a response is needed. */
    method OnDescriptorWriteRequest(device: Device, requestId: int, descriptor: Uuid,
                                    preparedWrite: bool, responseNeeded: bool, offset: int,
                                    value: seq<byte>)
      modifies this`trace
      ensures trace == old(trace) + if responseNeeded then [Response(device, requestId, GATT_SUCCESS, offset, value)] else []
    {
      if responseNeeded {
        trace := trace + [Response(device, requestId, GATT_SUCCESS, offset, value)];
      }
    }

    /**
     * `new AcceptThread(false)` followed by `start()`: the constructor reports
     * a failed listen to the chat listeners. `listenOk` is whether listening
     * on the insecure RFCOMM socket succeeds.
     */
    method CreateAcceptThread(listenOk: bool)
      modifies this`acceptThread, this`trace
      ensures acceptThread
      ensures trace == old(trace) + AcceptThreadCreation(chatListeners, listenOk)
    {
      if !listenOk {
        NotifyChatListeners(ConnectionError(MSG_LISTEN_FAILED));
      }
      acceptThread := true;
      trace := trace + [AcceptThreadStarted];
    }

    /**
     * initRfcommService: creates and starts the accept thread only when there
     * is none, then publishes the local address (the "bluetooth_address"
     * secure setting) to every connected central and raises
     * INIT_RFCOMM_SOCKET.
     */
    method InitRfcommService(listenOk: bool, localAddress: string)
      modifies this`acceptThread, this`trace
      ensures acceptThread
      ensures trace == old(trace)
                       + (if old(acceptThread) then [] else AcceptThreadCreation(chatListeners, listenOk))
                       + NotifyAll(connectedDevices, CHARACTERISTIC_RFCOMM_TRANSFER_UUID, Text(localAddress))
                       + ChatFanOut(chatListeners, InitRfcommSocket)
    {
      ghost var created: seq<Effect> := [];
      if !acceptThread {
        CreateAcceptThread(listenOk);
        created := AcceptThreadCreation(chatListeners, listenOk);
      }
      assert trace == old(trace) + created;
      SendTransferReady(localAddress);
      NotifyChatListeners(InitRfcommSocket);
    }

    /**
     * stopRfcommService: asks a running accept thread to end (it only sets
     * the thread's flag) and drops the reference to it.
     */
    method StopRfcommService()
      modifies this`acceptThread, this`trace
      ensures !acceptThread
      ensures trace == old(trace) + if old(acceptThread) then [AcceptThreadEndRequested] else []
    {
      if acceptThread {
        trace := trace + [AcceptThreadEndRequested];
      }
      acceptThread := false;
    }

    /** send(String): one message notification per connected device. */
    method Send(msg: string)
      modifies this`trace
      ensures trace == old(trace) + NotifyAll(connectedDevices, CHARACTERISTIC_MESSAGE_UUID, Text(msg))
    {
      NotifyConnected(CHARACTERISTIC_MESSAGE_UUID, Text(msg));
    }

    /** sendStream: an info event, then one 512-byte random block to each connected device. */
    method SendStream(random: nat -> byte)
      modifies this`trace
      ensures trace == old(trace) + ChatFanOut(chatListeners, ChatInfo(MSG_NOT_TESTED))
                                  + NotifyAll(connectedDevices, CHARACTERISTIC_BLE_TRANSFER_UUID, Bytes(RandomBlock(random)))
    {
      NotifyChatListeners(ChatInfo(MSG_NOT_TESTED));
      var randomBytes := RandomBlock(random);
      NotifyConnected(CHARACTERISTIC_BLE_TRANSFER_UUID, Bytes(randomBytes));
    }

    /** sendTransferReady: the local address to each connected device on the RFCOMM-transfer characteristic. */
    method SendTransferReady(localAddress: string)
      modifies this`trace
      ensures trace == old(trace) + NotifyAll(connectedDevices, CHARACTERISTIC_RFCOMM_TRANSFER_UUID, Text(localAddress))
    {
      NotifyConnected(CHARACTERISTIC_RFCOMM_TRANSFER_UUID, Text(localAddress));
    }
  }

  /** A fresh helper after one chat listener registers and one central connects. */
  method ConnectedHelper(listener: ListenerId, central: Device) returns (helper: PeripheralHelper)
    ensures fresh(helper)
    ensures helper.advListeners == [] && helper.chatListeners == [listener]
    ensures helper.connectedDevices == [central] && !helper.acceptThread && helper.trace == []
  {
    helper := new PeripheralHelper();
    helper.RegisterChat(listener);
    helper.OnConnectionStateChange(central, GATT_SUCCESS, STATE_CONNECTED);
  }

  /**
   * Two initRfcommService calls on that helper: one accept thread, two
   * address notifications and two INIT_RFCOMM_SOCKET events.
   */
  method InitRfcommTwice(listener: ListenerId, central: Device, localAddress: string) returns (effects: seq<Effect>)
    ensures effects == [AcceptThreadStarted,
                        Notify(central, CHARACTERISTIC_RFCOMM_TRANSFER_UUID, Text(localAddress)),
                        ChatCallback(listener, InitRfcommSocket),
                        Notify(central, CHARACTERISTIC_RFCOMM_TRANSFER_UUID, Text(localAddress)),
                        ChatCallback(listener, InitRfcommSocket)]
  {
    var helper := ConnectedHelper(listener, central);
    var notify := Notify(central, CHARACTERISTIC_RFCOMM_TRANSFER_UUID, Text(localAddress));
    var callback := ChatCallback(listener, InitRfcommSocket);
    assert NotifyAll([central], CHARACTERISTIC_RFCOMM_TRANSFER_UUID, Text(localAddress)) == [notify];
    assert ChatFanOut([listener], InitRfcommSocket) == [callback];
    helper.InitRfcommService(true, localAddress);
    assert helper.trace == [AcceptThreadStarted, notify, callback];
    helper.InitRfcommService(true, localAddress);
    effects := helper.trace;
    assert effects == [AcceptThreadStarted, notify, callback] + [notify] + [callback];
  }

  /** A central that connects and then disconnects leaves the list as it was. */
  lemma ConnectThenDisconnect(devices: seq<Device>, device: Device)
    requires device !in devices
    ensures RemoveFirst(devices + [device], device) == devices
  {
    RemoveFirstOfAppend(devices, device);
  }
}
