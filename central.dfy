/**
 * BLECentralHelper: the central side of the chat. It checks the platform,
 * turns the GATT client callbacks into chat events, writes messages and
 * MTU-sized data blocks (retrying refused writes), and keeps the MTU, the
 * alphabet test-pattern counter and the announced RFCOMM address.
 *
 * There is one discovery listener and one chat listener; every call to
 * them, every GATT request and every pause is an Effect appended to `trace`.
 */
module Central {
  import opened Wrappers
  import opened JavaText
  import opened Profile
  import opened Capability

  /** BLEDiscoverCallback, as far as init uses it. */
  datatype DiscoverEvent = InitSuccess | InitFailure(message: string)

  /** BLECentralChatEvents (with the BLEChatEvents it extends). */
  datatype ChatEvent =
    | Connect
    | Disconnect
    | Version(version: string)
    | Description(description: string)
    | RfcommConnect
    | MtuChanged(mtuStatus: int, newMtu: int)
    | Message(text: string)
    | StreamSent(sentStatus: int)
    | Info(message: string)
    | ConnectionError(error: string)

  datatype WriteType = WriteDefault | WriteNoResponse

  /** Requests made of the BluetoothGatt object or the adapter. */
  datatype GattOp =
    | DiscoverServices
    | ReadCharacteristic(readUuid: Uuid)
    | SetNotification(notifyUuid: Uuid)
    | Write(writeUuid: Uuid, payload: Payload, writeType: WriteType)
    | RequestMtu(size: int)
    /** connect2RfcommSocket: register the discovery receiver and start classic discovery. */
    | StartClassicDiscovery

  datatype Effect =
    | Discover(discoverEvent: DiscoverEvent)
    | Chat(chatEvent: ChatEvent)
    | Gatt(op: GattOp)
    | Sleep(millis: int)
    | Thrown(exception: string)

  /** BLEChatEvents.SENT_SUCCEED / SENT_FAILED */
  const SENT_SUCCEED := 0
  const SENT_FAILED := 1
  /** BLECentralChatEvents.MTU_CHANGE_SUCCEED / MTU_CHANGE_FAILED */
  const MTU_CHANGE_SUCCEED := 0
  const MTU_CHANGE_FAILED := 1

  const MAX_RETRIES := 5
  const DEFAULT_MTU := 20
  /** 'a' and 'z' */
  const FIRST_LETTER := 97
  const LAST_LETTER := 122

  const MSG_INVALID_CONTEXT := "Invalid Context!"
  const MSG_NO_ADAPTER := "Bluetooth not supported in this device!!"
  const MSG_NO_LE := "Bluetooth LE is not supported in this devices!!"
  const MSG_STATE_ERROR := "Connection state error! : Error = "
  const MSG_SEND_FAILED := "Couldn't send data!!"
  const MSG_SEND_MORE_FAILED := "Couldn't send more data!!"
  const MSG_INTERRUPTED := "Interrupted while sleeping!!"
  const MSG_MTU_FAILED := "Couldn't set MTU!!"
  const MSG_BLE_TRANSFER_CHANGED := "BLE_TRANS Charac changed!!"

  /* ---------- init ---------- */

  /** The discovery callback init makes: the first failing check decides. */
  function InitEvent(p: Platform): (e: DiscoverEvent)
    ensures e == InitSuccess <==>
      p.hasContext && p.hasAdapter && p.adapterEnabled && p.hasLeFeature
    ensures e == InitFailure(MSG_INVALID_CONTEXT) <==> !p.hasContext
    ensures e == InitFailure(MSG_NO_ADAPTER) <==>
      p.hasContext && (!p.hasAdapter || !p.adapterEnabled)
    ensures e == InitFailure(MSG_NO_LE) <==>
      p.hasContext && p.hasAdapter && p.adapterEnabled && !p.hasLeFeature
  {
    match FirstFault(p)
    case None => InitSuccess
    case Some(NoContext) => InitFailure(MSG_INVALID_CONTEXT)
    case Some(AdapterUnavailable) => InitFailure(MSG_NO_ADAPTER)
    case Some(NoLeFeature) => InitFailure(MSG_NO_LE)
  }

  /* ---------- mGattCallback ---------- */

  /** `"Connection state error! : Error = " + status`, with the status in canonical decimal. */
  function StateError(status: int): (m: string)
    ensures StartsWith(m, MSG_STATE_ERROR)
    ensures JavaDecimal(m[|MSG_STATE_ERROR|..], status)
  {
    var m := MSG_STATE_ERROR + IntToDecimal(status);
    assert m[|MSG_STATE_ERROR|..] == IntToDecimal(status);
    IntToDecimalIsJavaDecimal(status);
    m
  }

  /**
   * onConnectionStateChange: a successful connection starts service
   * discovery and tells the app nothing; a successful disconnection is
   * reported; a failed status gives exactly one connection error.
   */
  function ConnectionStateEffects(status: int, newState: int): (r: seq<Effect>)
    ensures status == GATT_SUCCESS && newState == STATE_CONNECTED ==> r == [Gatt(DiscoverServices)]
    ensures status == GATT_SUCCESS && newState == STATE_DISCONNECTED ==> r == [Chat(Disconnect)]
    ensures status == GATT_SUCCESS && newState != STATE_CONNECTED && newState != STATE_DISCONNECTED ==> r == []
    ensures status != GATT_SUCCESS ==>
      |r| == 1 && r[0].Chat? && r[0].chatEvent.ConnectionError? &&
      StartsWith(r[0].chatEvent.error, MSG_STATE_ERROR) &&
      JavaDecimal(r[0].chatEvent.error[|MSG_STATE_ERROR|..], status)
  {
    if status == GATT_SUCCESS then
      if newState == STATE_CONNECTED then [Gatt(DiscoverServices)]
      else if newState == STATE_DISCONNECTED then [Chat(Disconnect)]
      else []
    else [Chat(ConnectionError(StateError(status)))]
  }

  /** The requests made for one discovered chat service. */
  const SERVICE_SETUP: seq<Effect> := [
    Gatt(ReadCharacteristic(CHARACTERISTIC_VERSION_UUID)),
    Gatt(ReadCharacteristic(CHARACTERISTIC_DESC_UUID)),
    Gatt(SetNotification(CHARACTERISTIC_MESSAGE_UUID)),
    Gatt(SetNotification(CHARACTERISTIC_RFCOMM_TRANSFER_UUID)),
    Gatt(SetNotification(CHARACTERISTIC_BLE_TRANSFER_UUID))]

  function CountOf(services: seq<Uuid>, u: Uuid): nat
  {
    if services == [] then 0 else (if services[0] == u then 1 else 0) + CountOf(services[1..], u)
  }

  /** The loop of onServicesDiscovered: the setup requests once for each chat service, in order. */
  function ServiceRequests(services: seq<Uuid>): (r: seq<Effect>)
    ensures |r| == 5 * CountOf(services, SERVICE_UUID)
    ensures forall i :: 0 <= i < |r| ==> r[i] == SERVICE_SETUP[i % 5]
    ensures forall i :: 0 <= i < |r| ==> r[i].Gatt?
  {
    if services == [] then []
    else
      var rest := ServiceRequests(services[1..]);
      if services[0] == SERVICE_UUID then
        var r := SERVICE_SETUP + rest;
        assert forall i :: 5 <= i < |r| ==> r[i] == rest[i - 5] && (i - 5) % 5 == i % 5;
        r
      else rest
  }

  /**
   * onServicesDiscovered: the setup requests for each chat service, then
   * onConnect, whatever the status and even when no chat service is found.
   */
  function ServicesDiscoveredEffects(services: seq<Uuid>, status: int): (r: seq<Effect>)
    ensures |r| == 5 * CountOf(services, SERVICE_UUID) + 1 && r[|r| - 1] == Chat(Connect)
    ensures forall i :: 0 <= i < |r| - 1 ==> r[i] == SERVICE_SETUP[i % 5]
    ensures forall i :: 0 <= i < |r| - 1 ==> r[i].Gatt?
    ensures SERVICE_UUID !in services ==> r == [Chat(Connect)]
  {
    CountOfAbsent(services, SERVICE_UUID);
    ServiceRequests(services) + [Chat(Connect)]
  }

  /** A UUID is counted at least once exactly when it is in the list. */
  lemma {:induction false} CountOfAbsent(services: seq<Uuid>, u: Uuid)
    ensures CountOf(services, u) == 0 <==> u !in services
  {
    if services != [] {
      CountOfAbsent(services[1..], u);
      assert services == [services[0]] + services[1..];
    }
  }

  /**
   * onCharacteristicRead: three independent checks on the UUID (the status
   * is not looked at). `text` is the value read as a string.
   */
  function CharacteristicReadEffects(characteristic: Uuid, text: string, status: int): (r: seq<Effect>)
    ensures |r| % 2 == 0 && |r| <= 6
    ensures forall i :: 0 <= i < |r| && i % 2 == 0 ==> r[i].Chat? && r[i + 1] == Gatt(SetNotification(characteristic))
  {
    (if characteristic == CHARACTERISTIC_MESSAGE_UUID
     then [Chat(Message(text)), Gatt(SetNotification(characteristic))] else [])
    + (if characteristic == CHARACTERISTIC_VERSION_UUID
       then [Chat(Version(text)), Gatt(SetNotification(characteristic))] else [])
    + (if characteristic == CHARACTERISTIC_DESC_UUID
       then [Chat(Description(text)), Gatt(SetNotification(characteristic))] else [])
  }

  /**
   * Since the profile UUIDs are distinct, a read raises at most one event:
   * the one for its characteristic, followed by a notification request.
   */
  lemma CharacteristicReadOneEvent(characteristic: Uuid, text: string, status: int)
    ensures var r := CharacteristicReadEffects(characteristic, text, status);
      && (characteristic == CHARACTERISTIC_MESSAGE_UUID ==>
            r == [Chat(Message(text)), Gatt(SetNotification(characteristic))])
      && (characteristic == CHARACTERISTIC_VERSION_UUID ==>
            r == [Chat(Version(text)), Gatt(SetNotification(characteristic))])
      && (characteristic == CHARACTERISTIC_DESC_UUID ==>
            r == [Chat(Description(text)), Gatt(SetNotification(characteristic))])
      && (characteristic !in {CHARACTERISTIC_MESSAGE_UUID, CHARACTERISTIC_VERSION_UUID, CHARACTERISTIC_DESC_UUID} ==> r == [])
  {
    ProfileUuidsDistinct();
  }

  /** onCharacteristicWrite: only a BLE-transfer write is reported, as sent iff it succeeded. */
  function CharacteristicWriteEffects(characteristic: Uuid, status: int): (r: seq<Effect>)
    ensures characteristic != CHARACTERISTIC_BLE_TRANSFER_UUID ==> r == []
    ensures characteristic == CHARACTERISTIC_BLE_TRANSFER_UUID ==>
      |r| == 1 && r[0].Chat? && r[0].chatEvent.StreamSent? &&
      (r[0].chatEvent.sentStatus == SENT_SUCCEED <==> status == GATT_SUCCESS) &&
      (r[0].chatEvent.sentStatus == SENT_FAILED <==> status != GATT_SUCCESS)
  {
    if characteristic == CHARACTERISTIC_BLE_TRANSFER_UUID then
      [Chat(StreamSent(if status == GATT_SUCCESS then SENT_SUCCEED else SENT_FAILED))]
    else []
  }

  /** The status onMtuChanged reports: succeeded iff the GATT status is success. */
  function MtuChangeStatus(status: int): (s: int)
    ensures s == MTU_CHANGE_SUCCEED <==> status == GATT_SUCCESS
    ensures s == MTU_CHANGE_FAILED <==> status != GATT_SUCCESS
  {
    if status == GATT_SUCCESS then MTU_CHANGE_SUCCEED else MTU_CHANGE_FAILED
  }

  /* ---------- sendData ---------- */

  /** `new byte[n]`: n zero bytes. */
  function Zeros(n: nat): (b: seq<byte>)
    ensures |b| == n && forall i :: 0 <= i < n ==> b[i] == 0
  {
    seq(n, _ => 0)
  }

  function DataWrite(data: seq<byte>): Effect
  {
    Gatt(Write(CHARACTERISTIC_BLE_TRANSFER_UUID, Bytes(data), WriteNoResponse))
  }

  /**
   * The effects of sendData's retry loop from the attempt with iRetries ==
   * retries on. `writeOk(k)` is whether write attempt k is accepted and
   * `interrupted(k)` whether the pause after attempt k is interrupted.
   */
  function RetryEffects(data: seq<byte>, writeOk: nat -> bool, interrupted: nat -> bool, retries: nat): (r: seq<Effect>)
    requires retries <= MAX_RETRIES + 1
    ensures |r| >= 1 && r[0] == DataWrite(data)
    ensures r[|r| - 1] == DataWrite(data) || r[|r| - 1].Chat?
    ensures forall i :: 0 <= i < |r| ==> r[i] == DataWrite(data) || r[i] == Sleep(SEND_INTERVAL) || r[i].Chat?
    decreases MAX_RETRIES + 1 - retries
  {
    if writeOk(retries) then [DataWrite(data)]
    else if retries > MAX_RETRIES then [DataWrite(data), Chat(ConnectionError(MSG_SEND_MORE_FAILED))]
    else if interrupted(retries) then [DataWrite(data), Sleep(SEND_INTERVAL), Chat(ConnectionError(MSG_INTERRUPTED))]
    else [DataWrite(data), Sleep(SEND_INTERVAL)] + RetryEffects(data, writeOk, interrupted, retries + 1)
  }

  /** RetryEffects with the effects so far carried along: the shape of the sendData loop. */
  function RetryFrom(acc: seq<Effect>, data: seq<byte>, writeOk: nat -> bool, interrupted: nat -> bool, retries: nat): seq<Effect>
    requires retries <= MAX_RETRIES + 1
    decreases MAX_RETRIES + 1 - retries
  {
    var written := acc + [DataWrite(data)];
    if writeOk(retries) then written
    else if retries > MAX_RETRIES then written + [Chat(ConnectionError(MSG_SEND_MORE_FAILED))]
    else if interrupted(retries) then written + [Sleep(SEND_INTERVAL)] + [Chat(ConnectionError(MSG_INTERRUPTED))]
    else RetryFrom(written + [Sleep(SEND_INTERVAL)], data, writeOk, interrupted, retries + 1)
  }

  lemma {:induction false} RetryFromAppends(acc: seq<Effect>, data: seq<byte>, writeOk: nat -> bool, interrupted: nat -> bool, retries: nat)
    requires retries <= MAX_RETRIES + 1
    ensures RetryFrom(acc, data, writeOk, interrupted, retries) == acc + RetryEffects(data, writeOk, interrupted, retries)
    decreases MAX_RETRIES + 1 - retries
  {
    var write, pause := DataWrite(data), Sleep(SEND_INTERVAL);
    if writeOk(retries) {
    } else if retries > MAX_RETRIES {
      AppendTwo(acc, write, Chat(ConnectionError(MSG_SEND_MORE_FAILED)), []);
    } else if interrupted(retries) {
      AppendThree(acc, write, pause, Chat(ConnectionError(MSG_INTERRUPTED)));
    } else {
      var rest := RetryEffects(data, writeOk, interrupted, retries + 1);
      assert RetryEffects(data, writeOk, interrupted, retries) == [write, pause] + rest;
      RetryFromAppends(acc + [write] + [pause], data, writeOk, interrupted, retries + 1);
      AppendTwo(acc, write, pause, rest);
    }
  }

  lemma AppendTwo(acc: seq<Effect>, x: Effect, y: Effect, rest: seq<Effect>)
    ensures acc + [x] + [y] + rest == acc + ([x, y] + rest)
  {
    assert [x] + [y] == [x, y];
  }

  lemma AppendThree(acc: seq<Effect>, x: Effect, y: Effect, z: Effect)
    ensures acc + [x] + [y] + [z] == acc + [x, y, z]
  {
    assert [x] + [y] + [z] == [x, y, z];
  }

  function CountWrites(effects: seq<Effect>): nat
  {
    if effects == [] then 0
    else (if effects[0].Gatt? && effects[0].op.Write? then 1 else 0) + CountWrites(effects[1..])
  }

  function CountErrors(effects: seq<Effect>): nat
  {
    if effects == [] then 0
    else (if effects[0].Chat? && effects[0].chatEvent.ConnectionError? then 1 else 0) + CountErrors(effects[1..])
  }

  lemma {:induction false} CountAppend(a: seq<Effect>, b: seq<Effect>)
    ensures CountWrites(a + b) == CountWrites(a) + CountWrites(b)
    ensures CountErrors(a + b) == CountErrors(a) + CountErrors(b)
  {
    if a == [] {
      assert a + b == b;
    } else {
      var ab := a + b;
      assert ab[0] == a[0] && ab[1..] == a[1..] + b;
      CountAppend(a[1..], b);
    }
  }

  lemma CountSingle(e: Effect)
    ensures CountWrites([e]) == if e.Gatt? && e.op.Write? then 1 else 0
    ensures CountErrors([e]) == if e.Chat? && e.chatEvent.ConnectionError? then 1 else 0
  {
    assert [e][1..] == [];
  }

  /** The effects of one refused attempt followed by a pause. */
  lemma CountRetryStep(data: seq<byte>, rest: seq<Effect>)
    ensures CountWrites([DataWrite(data), Sleep(SEND_INTERVAL)] + rest) == 1 + CountWrites(rest)
    ensures CountErrors([DataWrite(data), Sleep(SEND_INTERVAL)] + rest) == CountErrors(rest)
  {
    CountSingle(DataWrite(data));
    CountSingle(Sleep(SEND_INTERVAL));
    CountAppend([DataWrite(data)], [Sleep(SEND_INTERVAL)]);
    CountAppend([DataWrite(data), Sleep(SEND_INTERVAL)], rest);
  }

  /** The effects of one attempt, refused or accepted, that ends the loop. */
  lemma CountFinal(data: seq<byte>, tail: seq<Effect>)
    requires forall i :: 0 <= i < |tail| ==> !(tail[i].Gatt? && tail[i].op.Write?)
    requires |tail| <= 2
    ensures CountWrites([DataWrite(data)] + tail) == 1
    ensures CountErrors([DataWrite(data)] + tail) == CountErrors(tail)
  {
    CountSingle(DataWrite(data));
    CountAppend([DataWrite(data)], tail);
    if |tail| > 0 {
      CountSingle(tail[0]);
      assert tail == [tail[0]] + tail[1..];
      CountAppend([tail[0]], tail[1..]);
      if |tail| > 1 {
        CountSingle(tail[1]);
        assert tail[1..] == [tail[1]];
      }
    }
  }

  /**
   * Whatever the outcomes, the loop makes at most MAX_RETRIES + 2 write
   * attempts and reports at most one error, as its last effect.
   */
  lemma {:induction false} RetryBounds(data: seq<byte>, writeOk: nat -> bool, interrupted: nat -> bool, retries: nat)
    requires retries <= MAX_RETRIES + 1
    ensures var r := RetryEffects(data, writeOk, interrupted, retries);
      && 1 <= CountWrites(r) <= MAX_RETRIES + 2 - retries
      && CountErrors(r) <= 1
      && (CountErrors(r) == 1 ==> r[|r| - 1].Chat? && r[|r| - 1].chatEvent.ConnectionError?)
    decreases MAX_RETRIES + 1 - retries
  {
    if writeOk(retries) {
      CountFinal(data, []);
    } else if retries > MAX_RETRIES {
      CountFinal(data, [Chat(ConnectionError(MSG_SEND_MORE_FAILED))]);
      CountSingle(Chat(ConnectionError(MSG_SEND_MORE_FAILED)));
    } else if interrupted(retries) {
      CountFinal(data, [Sleep(SEND_INTERVAL), Chat(ConnectionError(MSG_INTERRUPTED))]);
      CountSingle(Sleep(SEND_INTERVAL));
      CountSingle(Chat(ConnectionError(MSG_INTERRUPTED)));
      CountAppend([Sleep(SEND_INTERVAL)], [Chat(ConnectionError(MSG_INTERRUPTED))]);
    } else {
      var rest := RetryEffects(data, writeOk, interrupted, retries + 1);
      RetryBounds(data, writeOk, interrupted, retries + 1);
      CountRetryStep(data, rest);
    }
  }

  /** If every write is refused and no pause is interrupted: seven attempts, then one error. */
  lemma {:induction false} RetryAllRefused(data: seq<byte>, writeOk: nat -> bool, interrupted: nat -> bool, retries: nat)
    requires retries <= MAX_RETRIES + 1
    requires forall k :: !writeOk(k) && !interrupted(k)
    ensures var r := RetryEffects(data, writeOk, interrupted, retries);
      && CountWrites(r) == MAX_RETRIES + 2 - retries
      && CountErrors(r) == 1
      && r[|r| - 1] == Chat(ConnectionError(MSG_SEND_MORE_FAILED))
    decreases MAX_RETRIES + 1 - retries
  {
    if retries <= MAX_RETRIES {
      var rest := RetryEffects(data, writeOk, interrupted, retries + 1);
      RetryAllRefused(data, writeOk, interrupted, retries + 1);
      CountRetryStep(data, rest);
    } else {
      CountFinal(data, [Chat(ConnectionError(MSG_SEND_MORE_FAILED))]);
      CountSingle(Chat(ConnectionError(MSG_SEND_MORE_FAILED)));
    }
  }

  /** If attempt j is the first accepted one and no pause before it is interrupted: j + 1 attempts, no error. */
  lemma {:induction false} RetryFirstAccepted(data: seq<byte>, writeOk: nat -> bool, interrupted: nat -> bool, retries: nat, j: nat)
    requires retries <= j <= MAX_RETRIES + 1
    requires writeOk(j) && forall k :: retries <= k < j ==> !writeOk(k) && !interrupted(k)
    ensures var r := RetryEffects(data, writeOk, interrupted, retries);
      && CountWrites(r) == j + 1 - retries
      && CountErrors(r) == 0
      && r[|r| - 1] == DataWrite(data)
    decreases j - retries
  {
    if retries < j {
      var rest := RetryEffects(data, writeOk, interrupted, retries + 1);
      RetryFirstAccepted(data, writeOk, interrupted, retries + 1, j);
      CountRetryStep(data, rest);
    } else {
      CountFinal(data, []);
    }
  }

  /* ---------- getAlphabetDataBlock ---------- */

  /** The counter update: after 'z' comes 'a', otherwise the next letter. */
  function NextLetter(c: int): (r: int)
    ensures FIRST_LETTER <= c <= LAST_LETTER ==> FIRST_LETTER <= r <= LAST_LETTER
    ensures FIRST_LETTER <= c <= LAST_LETTER ==> (r == FIRST_LETTER <==> c == LAST_LETTER)
    ensures c < LAST_LETTER ==> r == c + 1
  {
    if c > LAST_LETTER - 1 then FIRST_LETTER else c + 1
  }

  /** The counter after n letters starting from c. */
  function LetterAfter(c: int, n: nat): (r: int)
    ensures FIRST_LETTER <= c <= LAST_LETTER ==> FIRST_LETTER <= r <= LAST_LETTER
  {
    if n == 0 then c else NextLetter(LetterAfter(c, n - 1))
  }

  /** The n letters appended starting from counter c. */
  function Letters(c: int, n: nat): (s: string)
    requires FIRST_LETTER <= c <= LAST_LETTER
    ensures |s| == n && IsAscii(s)
    ensures forall k :: 0 <= k < n ==> s[k] as int == LetterAfter(c, k)
  {
    if n == 0 then [] else Letters(c, n - 1) + [LetterAfter(c, n - 1) as char]
  }

  /** One more letter: the block grows by the counter's letter and the counter moves on. */
  lemma LettersStep(c: int, n: nat)
    requires FIRST_LETTER <= c <= LAST_LETTER
    ensures Letters(c, n + 1) == Letters(c, n) + [LetterAfter(c, n) as char]
    ensures LetterAfter(c, n + 1) == NextLetter(LetterAfter(c, n))
  {
  }

  /** The counter walks the alphabet cyclically: n steps from c land n letters further, modulo 26. */
  lemma {:induction false} LetterAfterCycles(c: int, n: nat)
    requires FIRST_LETTER <= c <= LAST_LETTER
    ensures LetterAfter(c, n) == FIRST_LETTER + (c - FIRST_LETTER + n) % 26
  {
    if n > 0 {
      LetterAfterCycles(c, n - 1);
      var x := (c - FIRST_LETTER + n - 1) % 26;
      var q := (c - FIRST_LETTER + n - 1) / 26;
      assert c - FIRST_LETTER + n == 26 * q + x + 1;
      if x == 25 {
        assert c - FIRST_LETTER + n == 26 * (q + 1);
      } else {
        assert (c - FIRST_LETTER + n) % 26 == x + 1;
      }
    }
  }

  /** Two blocks in a row continue the alphabet where the first left off. */
  lemma {:induction false} LettersContinue(c: int, n: nat, m: nat)
    requires FIRST_LETTER <= c <= LAST_LETTER
    ensures Letters(c, n) + Letters(LetterAfter(c, n), m) == Letters(c, n + m)
    ensures LetterAfter(LetterAfter(c, n), m) == LetterAfter(c, n + m)
  {
    if m > 0 {
      LettersContinue(c, n, m - 1);
    }
  }

  /** The loop bound of getAlphabetDataBlock: `numElems - 3` iterations when positive. */
  function LetterCount(numElems: int): (n: nat)
    ensures n + 3 == if numElems > 3 then numElems else 3
  {
    if numElems - 3 > 0 then numElems - 3 else 0
  }

  /** The central helper's state. */
  class CentralHelper {
    /** mMtu */
    var mtu: int
    /** mLetterCounter */
    var letterCounter: int
    /** mRfcommSocketAddress (null until announced) */
    var rfcommAddress: Option<string>
    var trace: seq<Effect>

    ghost predicate Valid()
      reads this
    {
      FIRST_LETTER <= letterCounter <= LAST_LETTER
    }

    constructor ()
      ensures Valid()
      ensures mtu == DEFAULT_MTU && letterCounter == FIRST_LETTER
      ensures rfcommAddress == None && trace == []
    {
      mtu := DEFAULT_MTU;
      letterCounter := FIRST_LETTER;
      rfcommAddress := None;
      trace := [];
    }

    /** init: exactly one discovery callback. */
    method Init(p: Platform)
      modifies this`trace
      ensures trace == old(trace) + [Discover(InitEvent(p))]
    {
      if !p.hasContext {
        trace := trace + [Discover(InitFailure(MSG_INVALID_CONTEXT))];
        return;
      }
      if !p.hasAdapter || !p.adapterEnabled {
        trace := trace + [Discover(InitFailure(MSG_NO_ADAPTER))];
        return;
      }
      if !p.hasLeFeature {
        trace := trace + [Discover(InitFailure(MSG_NO_LE))];
        return;
      }
      trace := trace + [Discover(InitSuccess)];
    }

    method OnConnectionStateChange(status: int, newState: int)
      modifies this`trace
      ensures trace == old(trace) + ConnectionStateEffects(status, newState)
    {
      trace := trace + ConnectionStateEffects(status, newState);
    }

    method OnServicesDiscovered(services: seq<Uuid>, status: int)
      modifies this`trace
      ensures trace == old(trace) + ServicesDiscoveredEffects(services, status)
    {
      trace := trace + ServicesDiscoveredEffects(services, status);
    }

    method OnCharacteristicRead(characteristic: Uuid, text: string, status: int)
      modifies this`trace
      ensures trace == old(trace) + CharacteristicReadEffects(characteristic, text, status)
    {
      trace := trace + CharacteristicReadEffects(characteristic, text, status);
    }

    method OnCharacteristicWrite(characteristic: Uuid, status: int)
      modifies this`trace
      ensures trace == old(trace) + CharacteristicWriteEffects(characteristic, status)
    {
      trace := trace + CharacteristicWriteEffects(characteristic, status);
    }

    /** onMtuChanged: the reported MTU is stored whatever the status. */
    method OnMtuChanged(newMtu: int, status: int)
      modifies this`mtu, this`trace
      ensures mtu == newMtu
      ensures trace == old(trace) + [Chat(MtuChanged(MtuChangeStatus(status), newMtu))]
    {
      var chatStatus := MtuChangeStatus(status);
      mtu := newMtu;
      trace := trace + [Chat(MtuChanged(chatStatus, mtu))];
    }

    /**
     * onCharacteristicChanged: a message is passed on, an RFCOMM address is
     * stored and classic discovery started, a BLE-transfer change is
     * reported as information. `text` is the value read as a string.
     */
    method OnCharacteristicChanged(characteristic: Uuid, text: string)
      modifies this`rfcommAddress, this`trace
      ensures characteristic == CHARACTERISTIC_MESSAGE_UUID ==>
        rfcommAddress == old(rfcommAddress) && trace == old(trace) + [Chat(Message(text))]
      ensures characteristic == CHARACTERISTIC_RFCOMM_TRANSFER_UUID ==>
        rfcommAddress == Some(text) && trace == old(trace) + [Gatt(StartClassicDiscovery)]
      ensures characteristic == CHARACTERISTIC_BLE_TRANSFER_UUID ==>
        rfcommAddress == old(rfcommAddress) && trace == old(trace) + [Chat(Info(MSG_BLE_TRANSFER_CHANGED))]
      ensures characteristic != CHARACTERISTIC_MESSAGE_UUID && characteristic != CHARACTERISTIC_RFCOMM_TRANSFER_UUID &&
              characteristic != CHARACTERISTIC_BLE_TRANSFER_UUID ==>
        rfcommAddress == old(rfcommAddress) && trace == old(trace)
    {
      ProfileUuidsDistinct();
      if characteristic == CHARACTERISTIC_MESSAGE_UUID {
        trace := trace + [Chat(Message(text))];
      } else if characteristic == CHARACTERISTIC_RFCOMM_TRANSFER_UUID {
        rfcommAddress := Some(text);
        trace := trace + [Gatt(StartClassicDiscovery)];
      } else if characteristic == CHARACTERISTIC_BLE_TRANSFER_UUID {
        trace := trace + [Chat(Info(MSG_BLE_TRANSFER_CHANGED))];
      }
    }

    /**
     * send(byte[]) / send(String): a default-type write of the message
     * characteristic; a refused write is reported at once.
     */
    method Send(value: Payload, accepted: bool)
      modifies this`trace
      ensures trace == old(trace) + [Gatt(Write(CHARACTERISTIC_MESSAGE_UUID, value, WriteDefault))]
                                  + if accepted then [] else [Chat(ConnectionError(MSG_SEND_FAILED))]
    {
      trace := trace + [Gatt(Write(CHARACTERISTIC_MESSAGE_UUID, value, WriteDefault))];
      if !accepted {
        trace := trace + [Chat(ConnectionError(MSG_SEND_FAILED))];
      }
    }

    /**
     * sendData: writes an MTU-sized zero block without response, retrying
     * refused writes with a pause. A negative MTU makes the allocation throw.
     */
    method SendData(writeOk: nat -> bool, interrupted: nat -> bool)
      modifies this`trace
      ensures mtu < 0 ==> trace == old(trace) + [Thrown("NegativeArraySizeException")]
      ensures mtu >= 0 ==> trace == old(trace) + RetryEffects(Zeros(mtu), writeOk, interrupted, 0)
    {
      if mtu < 0 {
        trace := trace + [Thrown("NegativeArraySizeException")];
        return;
      }
      var data := Zeros(mtu);
      RetryFromAppends(trace, data, writeOk, interrupted, 0);
      ghost var goal := RetryFrom(trace, data, writeOk, interrupted, 0);
      var retries := 0;
      while true
        invariant retries <= MAX_RETRIES + 1
        invariant RetryFrom(trace, data, writeOk, interrupted, retries) == goal
        decreases MAX_RETRIES + 1 - retries
      {
        trace := trace + [DataWrite(data)];
        if writeOk(retries) {
          return;
        }
        if retries > MAX_RETRIES {
          trace := trace + [Chat(ConnectionError(MSG_SEND_MORE_FAILED))];
          return;
        }
        retries := retries + 1;
        trace := trace + [Sleep(SEND_INTERVAL)];
        if interrupted(retries - 1) {
          trace := trace + [Chat(ConnectionError(MSG_INTERRUPTED))];
          return;
        }
      }
    }

    /** changeMtu: requests the size; a refused request is reported and leaves the MTU as it was. */
    method ChangeMtu(size: int, accepted: bool)
      modifies this`trace
      ensures trace == old(trace) + [Gatt(RequestMtu(size))]
                                  + if accepted then [] else [Chat(ConnectionError(MSG_MTU_FAILED))]
    {
      trace := trace + [Gatt(RequestMtu(size))];
      if !accepted {
        trace := trace + [Chat(ConnectionError(MSG_MTU_FAILED))];
      }
    }

    method SetMtu(size: int)
      modifies this`mtu
      ensures mtu == size
    {
      mtu := size;
    }

    method GetMtu() returns (r: int)
      ensures r == mtu
    {
      r := mtu;
    }

    /**
     * getAlphabetDataBlock: `numElems - 3` letters continuing the cycle from
     * the counter, then three zero bytes.
     */
    method GetAlphabetDataBlock(numElems: int) returns (data: seq<byte>)
      requires Valid()
      modifies this`letterCounter
      ensures Valid()
      ensures letterCounter == LetterAfter(old(letterCounter), LetterCount(numElems))
      ensures data == GetBytes(Letters(old(letterCounter), LetterCount(numElems))) + [0, 0, 0]
    {
      ghost var start := letterCounter;
      var counter := letterCounter;
      var text := "";
      var e := 0;
      while e < numElems - 3
        invariant 0 <= e <= LetterCount(numElems)
        invariant text == Letters(start, e)
        invariant counter == LetterAfter(start, e)
        invariant FIRST_LETTER <= counter <= LAST_LETTER
      {
        LettersStep(start, e);
        text := text + [counter as char];
        counter := NextLetter(counter);
        e := e + 1;
      }
      letterCounter := counter;
      data := GetBytes(text) + [0, 0, 0];
    }
  }

  /** The bytes of a data block: max(numElems, 3) of them, the letters a..z cyclically, then three zeros. */
  lemma AlphabetBlockShape(c: int, numElems: int)
    requires FIRST_LETTER <= c <= LAST_LETTER
    ensures var data := GetBytes(Letters(c, LetterCount(numElems))) + [0, 0, 0];
      && |data| == (if numElems > 3 then numElems else 3)
      && data[|data| - 3..] == [0, 0, 0]
      && forall k :: 0 <= k < |data| - 3 ==> data[k] as int == FIRST_LETTER + (c - FIRST_LETTER + k) % 26
  {
    var n := LetterCount(numElems);
    var data := GetBytes(Letters(c, n)) + [0, 0, 0];
    forall k | 0 <= k < |data| - 3
      ensures data[k] as int == FIRST_LETTER + (c - FIRST_LETTER + k) % 26
    {
      LetterAfterCycles(c, k);
    }
  }

  /**
   * A fresh helper's MTU is 20; a refused change keeps it, the value
   * reported by onMtuChanged replaces it even on failure, and setMtu(n)
   * makes getMtu return n.
   */
  method MtuScenario(reported: int, n: int) returns (initial: int, afterRefused: int, afterReport: int, afterSet: int)
    ensures initial == DEFAULT_MTU && afterRefused == DEFAULT_MTU
    ensures afterReport == reported && afterSet == n
  {
    var helper := new CentralHelper();
    initial := helper.GetMtu();
    helper.ChangeMtu(512, false);
    afterRefused := helper.GetMtu();
    helper.OnMtuChanged(reported, GATT_FAILURE);
    afterReport := helper.GetMtu();
    helper.SetMtu(n);
    afterSet := helper.GetMtu();
  }

  /** Two data blocks in a row continue the alphabet across the boundary. */
  method AlphabetScenario() returns (first: seq<byte>, second: seq<byte>)
    ensures first == [97, 98, 0, 0, 0] && second == [99, 100, 101, 0, 0, 0]
  {
    var helper := new CentralHelper();
    first := helper.GetAlphabetDataBlock(5);
    second := helper.GetAlphabetDataBlock(6);
  }
}
