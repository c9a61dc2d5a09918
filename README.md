# BluetoothLEChat in Dafny

A verified model of the core logic of BluetoothLEChat. This Android chat app talks
over Bluetooth LE in one of two roles:

- as a **peripheral**, a GATT server that advertises the chat service;
- as a **central**, a GATT client that scans for a peripheral, connects and
  subscribes to it.

It falls back to classic Bluetooth when neither role is active. The model
covers the sequential decisions under the Android plumbing:

- **Chat** (`chat.dfy`, BluetoothChatFragment):
  - the incoming and outgoing command protocol (`/name`, `/send`,
    `/transfer`, `/transfertest`), decided over Java `split(" ", 2)`;
  - the routing of a message by BLE mode, and the PING/PONG reply;
  - the counters kept by the two `onDataStream` listeners;
  - the two bulk-transfer loops of `StreamThread`.
- **Peripheral** (`peripheral.dfy`, BLEPeripheralHelper):
  - the two ordered listener lists and their fan-out, and the list of
    connected centrals;
  - `init`, and the GATT server callbacks (connection state, read request,
    write request, descriptor write);
  - the once-only RFCOMM accept thread;
  - the per-device notifications made by `send`, `sendStream` and
    `sendTransferReady`.
- **Central** (`central.dfy`, BLECentralHelper):
  - `init`, and the GATT client callbacks (connection state, services
    discovered, read, write, MTU changed, characteristic changed);
  - `send`, and the `sendData` write-retry loop;
  - the MTU field, and the `getAlphabetDataBlock` test-pattern generator.
- **Discovery** (`discovery.dfy`, BLEDiscoveringActivity):
  - the scan list, de-duplicated by address and re-sorted after each
    insertion;
  - the `name@address` entry text and its parse-back on click.
- **Profile** (`profile.dfy`, BLEChatProfile): the nine UUIDs, the served
  version and description strings, the state and status descriptions.

Shared modules:

- `capability.dfy`: the ordered platform checks both `init`s run.
- `java_text.dfy`: the Java string operations the code relies on:
  - `split` with limit 2 and with no limit;
  - `substring`, `indexOf` and `getBytes` on ASCII text;
  - decimal rendering of an `int` in string concatenation.
- `jdk_sort.dfy`: the small-list path of `java.util.TimSort`, which
  `ArrayAdapter.sort` runs.
- `wrappers.dfy`: `Option`, `Result` and `byte`.

How the Android side is modelled:

- **Outside calls.** Each helper class keeps a `trace` of Effects. An Effect
  is a listener callback, a GATT request or response, a notification sent to
  a device, a pause, an accept thread starting, or a request that it end. The fragment
  shows what it does as a sequence of Actions.
- **Android objects.** Devices are their address strings. Listeners are
  identities. UUIDs are their 128-bit values.
- **Outcomes decided outside the model** are parameters:
  - whether the platform checks pass;
  - whether a write is accepted, and whether a sleep is interrupted;
  - what each semaphore wait does, and when `end()` is observed;
  - the clock, the random bytes, the local Bluetooth address;
  - the result of UTF-8 decoding.

Two consequences of the code are worth stating:

- **Scan-list order.** The scan list is sorted with a comparator that
  returns the larger RSSI instead of a sign (BLEDiscoveringActivity.java:87).
  With negative RSSIs every comparison answers "less", so TimSort reverses
  the list: results for AA:01 (RSSI -40) and then AA:02 (RSSI -70) are
  listed AA:02, AA:01 (`Discovery.ScanScenario`).
- **Duplicate scan results.** A duplicate result keeps the first-seen name
  and RSSI.

Some modelled paths are not reached in the source as written, and are modelled
as the code would run if they were:

- `answerBack`: its call is commented out (BluetoothChatFragment.java:437);
- `sendViaLoop`: its call is commented out (BluetoothChatFragment.java:1027);
- `getAlphabetDataBlock`: its call is commented out (BLECentralHelper.java:447);
- the central's `onDataStream` listener (BluetoothChatFragment.java:724-734):
  BLECentralHelper never calls `onDataStream`; its only caller is
  BLEPeripheralHelper.java:203.

## Model

| member | source | states |
|---|---|---|
| Profile.ProfileUuidsDistinct | Application/src/main/java/com/example/android/ble/BLEChatProfile.java:12-20 | the nine service, characteristic and descriptor UUIDs are pairwise distinct, so dispatch on a UUID is unambiguous |
| Profile.ProfileStrings | Application/src/main/java/com/example/android/ble/BLEChatProfile.java:25-26 | the version "1" is served as the single byte 0x31; the description is ASCII and served as 29 bytes |
| Profile.StateDescription | Application/src/main/java/com/example/android/ble/BLEChatProfile.java:31-40 | CONNECTED, CONNECTING, DISCONNECTED and DISCONNECTING map to "Connected", "Connecting", "Disconnected" and "Disconnecting" |
| Profile.UnknownStateDescription | Application/src/main/java/com/example/android/ble/BLEChatProfile.java:41-42 | any other state gives "Unknown State " followed by the state's canonical Java decimal (parses back to it, no leading zero, no "-0") |
| Profile.StateDescriptionInjective | Application/src/main/java/com/example/android/ble/BLEChatProfile.java:31-44 | distinct states get distinct descriptions |
| Profile.StatusDescription | Application/src/main/java/com/example/android/ble/BLEChatProfile.java:46-53 | "SUCCESS" iff the status is GATT_SUCCESS; otherwise "Unknown Status " followed by the status's canonical Java decimal |
| Capability.FirstFault | Application/src/main/java/com/example/android/ble/BLEPeripheralHelper.java:209-231 | each init failure is chosen exactly when its check fails and every earlier check passes (context, then adapter present and enabled, then the LE feature); no failure iff all pass |
| JavaText.IntToDecimalRoundTrip | Application/src/main/java/com/example/android/ble/BLEChatProfile.java:42 | the decimal text Java concatenation gives an int parses back to that int, negative values included |
| JavaText.IntToDecimalIsJavaDecimal | Application/src/main/java/com/example/android/ble/BLEChatProfile.java:42 | Java's rendering of every int is canonical: it parses back, has no leading zero except "0" and never reads "-0" |
| JavaText.JavaDecimalUnique | Application/src/main/java/com/example/android/ble/BLEChatProfile.java:42 | a canonical decimal of n is exactly the text Java concatenation writes for n |
| JavaText.IntToDecimalInjective | Application/src/main/java/com/example/android/ble/BLEChatProfile.java:42 | distinct ints render as distinct decimal texts |
| JavaText.SplitLimit2OfJoin | Application/src/main/java/com/example/android/bluetoothchat/BluetoothChatFragment.java:890 | `(a + " " + b).split(" ", 2)` is [a, b] when a has no space: everything after the first space is kept whole |
| JavaText.FirstSplitPieceOfJoin | Application/src/main/java/com/example/android/ble/BLEDiscoveringActivity.java:115 | `split("@")[0]` of a + "@" + b is a when a has no '@' and b has a character other than '@' |
| JavaText.IndexOf | Application/src/main/java/com/example/android/ble/BLEPeripheralHelper.java:245 | the position of the first occurrence (which `ArrayList.remove` deletes and `split` cuts at), or the length when there is none |
| JavaText.Substring | Application/src/main/java/com/example/android/ble/BLEDiscoveringActivity.java:118 | `substring(begin)` succeeds iff 0 <= begin <= length, and the text is the prefix followed by the result |
| JavaText.GetBytes | Application/src/main/java/com/example/android/ble/BLECentralHelper.java:487 | `getBytes()` of ASCII text holds one byte per character, with the character's code |
| JavaText.AsciiRoundTrip | Application/src/main/java/com/example/android/ble/BLECentralHelper.java:487 | reading the bytes of an ASCII string back as text gives the string |
| JdkSort.Sort | Application/src/main/java/com/example/android/ble/BLEDiscoveringActivity.java:84-89 | the sorted list has the original length (the permutation is SortPermutes, the reversal under an always-less comparator AlwaysLessReverses) |
| JdkSort.SortPermutes | Application/src/main/java/com/example/android/ble/BLEDiscoveringActivity.java:84-89 | whatever the comparator returns, the sort only rearranges the list (same multiset) |
| JdkSort.AlwaysLessReverses | Application/src/main/java/com/example/android/ble/BLEDiscoveringActivity.java:84-89 | a comparator that answers "less" for every pair of elements makes the sort reverse the list |
| Discovery.EntryText | Application/src/main/java/com/example/android/ble/BLEDiscoveringActivity.java:37-40 | the entry text is the name, then '@', then the address, and nothing else |
| Discovery.RssiComparator | Application/src/main/java/com/example/android/ble/BLEDiscoveringActivity.java:86-88 | the comparator returns the larger of the two RSSIs, not a sign; it is negative exactly when both RSSIs are |
| Discovery.ParseEntry | Application/src/main/java/com/example/android/ble/BLEDiscoveringActivity.java:112-118 | onItemClick fails on non-empty text made only of '@' (split gives no elements), then on text shorter than 17 characters; otherwise the address is the last 17 characters and the name is the text before the first '@', or all of it when there is none |
| Discovery.ParseEntryRoundTrip | Application/src/main/java/com/example/android/ble/BLEDiscoveringActivity.java:37-40 | clicking the entry of a device with a 17-character address and no '@' in either field recovers exactly its name and address |
| Discovery.ParseEntryCutsName | Application/src/main/java/com/example/android/ble/BLEDiscoveringActivity.java:115 | a name containing '@' comes back cut at its first '@'; the address is still recovered |
| Discovery.PermutationKeepsDistinct | Application/src/main/java/com/example/android/ble/BLEDiscoveringActivity.java:83-89 | rearranging a list whose addresses are pairwise distinct keeps them distinct |
| Discovery.NegativeRssiSortReverses | Application/src/main/java/com/example/android/ble/BLEDiscoveringActivity.java:84-89 | when every RSSI is negative, the RSSI comparator makes the sort reverse the list |
| Discovery.ScanList.constructor | Application/src/main/java/com/example/android/ble/BLEDiscoveringActivity.java:56 | the list starts empty, with distinct addresses |
| Discovery.ScanList.OnScanResult | Application/src/main/java/com/example/android/ble/BLEDiscoveringActivity.java:75-90 | a known address leaves the list unchanged (first-seen name and RSSI kept); a new one grows it by one, to the sorted old list plus the device (multiset old + new); addresses stay pairwise distinct |
| Discovery.ScanScenario | Application/src/main/java/com/example/android/ble/BLEDiscoveringActivity.java:75-90 | AA:01 (-40), AA:02 (-70), AA:01 (-35) leave two entries, AA:02 then AA:01, with AA:01's first RSSI |
| Peripheral.RemoveFirst | Application/src/main/java/com/example/android/ble/BLEPeripheralHelper.java:245 | `ArrayList.remove(x)`: an absent x changes nothing; otherwise one occurrence of x is removed (length one less, multiset minus x), the elements before the first x stay in place and the rest move up by one |
| Peripheral.RemoveFirstOfAppend | Application/src/main/java/com/example/android/ble/BLEPeripheralHelper.java:101-112 | removing an element that was just appended, and was not there before, gives the old list back |
| Peripheral.RemoveFirstOther | Application/src/main/java/com/example/android/ble/BLEPeripheralHelper.java:101-112 | removing x leaves the number of occurrences of every other element unchanged |
| Peripheral.ConnectThenDisconnect | Application/src/main/java/com/example/android/ble/BLEPeripheralHelper.java:240-247 | a central that was not connected, connects and then disconnects leaves the connected list as it was |
| Peripheral.AdvFanOut | Application/src/main/java/com/example/android/ble/BLEPeripheralHelper.java:148-168 | one advertising-phase notify calls each listener once, in list order, with the event |
| Peripheral.ChatFanOut | Application/src/main/java/com/example/android/ble/BLEPeripheralHelper.java:178-206 | one chatting-phase notify calls each listener once, in list order, with the event |
| Peripheral.NotifyAll | Application/src/main/java/com/example/android/ble/BLEPeripheralHelper.java:523-530 | one notification per connected device, in list order, carrying the characteristic and value |
| Peripheral.AdvFanOutAppend | Application/src/main/java/com/example/android/ble/BLEPeripheralHelper.java:148-168 | fanning out to a concatenation of two lists is fanning out to each in turn |
| Peripheral.RegisteredLastCalledLast | Application/src/main/java/com/example/android/ble/BLEPeripheralHelper.java:84-86 | a listener registered last is called last, after the others in their old order |
| Peripheral.InitEvent | Application/src/main/java/com/example/android/ble/BLEPeripheralHelper.java:209-231 | INIT_SUCCESS iff all checks pass; each failure message exactly when its check is the first to fail |
| Peripheral.StatusError | Application/src/main/java/com/example/android/ble/BLEPeripheralHelper.java:249 | "Error:" followed by the status's canonical Java decimal (parses back to it, no leading zero, no "-0") |
| Peripheral.VersionValue | Application/src/main/java/com/example/android/ble/BLEPeripheralHelper.java:507-511 | the bytes of the version string, one per character |
| Peripheral.DescriptionValue | Application/src/main/java/com/example/android/ble/BLEPeripheralHelper.java:517-521 | the bytes of the description string, one per character |
| Peripheral.ReadValue | Application/src/main/java/com/example/android/ble/BLEPeripheralHelper.java:262-269 | the version bytes for the version UUID, the description bytes for the description UUID, and no bytes for any other UUID |
| Peripheral.WriteStatus | Application/src/main/java/com/example/android/ble/BLEPeripheralHelper.java:287-312 | GATT_FAILURE exactly when decoding a message write throws UnsupportedEncodingException, otherwise GATT_SUCCESS; the decoding outcome is a parameter, and since the JVM always supports UTF-8 (malformed bytes become U+FFFD) the failure branch is not reachable in practice |
| Peripheral.WriteEvent | Application/src/main/java/com/example/android/ble/BLEPeripheralHelper.java:287-304 | a message write raises MESSAGE with the decoded text (or the decoding error); a BLE-transfer write raises BLE_STREAM with the raw bytes; no event iff the UUID is neither |
| Peripheral.AcceptThreadCreation | Application/src/main/java/com/example/android/ble/BLEPeripheralHelper.java:580-597 | creating the thread ends with its start; before that come one listen-failure report per chat listener when listening fails, and nothing otherwise |
| Peripheral.RandomBlock | Application/src/main/java/com/example/android/ble/BLEPeripheralHelper.java:537-538 | sendStream's block is 512 bytes taken from the random source |
| Peripheral.PeripheralHelper.constructor | Application/src/main/java/com/example/android/ble/BLEPeripheralHelper.java:53-66 | both listener lists and the device list start empty, with no accept thread |
| Peripheral.PeripheralHelper.RegisterAdv | Application/src/main/java/com/example/android/ble/BLEPeripheralHelper.java:84-86 | appends to the advertising-phase list; the frame leaves everything else unchanged |
| Peripheral.PeripheralHelper.RegisterChat | Application/src/main/java/com/example/android/ble/BLEPeripheralHelper.java:93-95 | appends to the chatting-phase list; the frame leaves everything else unchanged |
| Peripheral.PeripheralHelper.UnregisterAdv | Application/src/main/java/com/example/android/ble/BLEPeripheralHelper.java:101-103 | removes one occurrence from the advertising-phase list only |
| Peripheral.PeripheralHelper.UnregisterChat | Application/src/main/java/com/example/android/ble/BLEPeripheralHelper.java:110-112 | removes one occurrence from the chatting-phase list only |
| Peripheral.PeripheralHelper.NotifyAdvListeners | Application/src/main/java/com/example/android/ble/BLEPeripheralHelper.java:148-168 | the loop appends exactly the fan-out of the event to the advertising-phase list |
| Peripheral.PeripheralHelper.NotifyChatListeners | Application/src/main/java/com/example/android/ble/BLEPeripheralHelper.java:178-206 | the loop appends exactly the fan-out of the event to the chatting-phase list |
| Peripheral.PeripheralHelper.NotifyConnected | Application/src/main/java/com/example/android/ble/BLEPeripheralHelper.java:523-530 | the loop over connected devices appends one notification per device, in order |
| Peripheral.PeripheralHelper.Init | Application/src/main/java/com/example/android/ble/BLEPeripheralHelper.java:209-231 | exactly one advertising-phase event, the one InitEvent chooses; the device list is reset once a context is given, even when a later check fails |
| Peripheral.PeripheralHelper.OnConnectionStateChange | Application/src/main/java/com/example/android/ble/BLEPeripheralHelper.java:235-253 | success + CONNECTED appends the device and notifies CLIENT_CONNECT to the advertising listeners; success + DISCONNECTED removes one occurrence and notifies CLIENT_DISCONNECT to the chat listeners; other success states do nothing; a failure leaves the list and reports "Error:"+status to the chat listeners, then to the advertising listeners |
| Peripheral.PeripheralHelper.OnCharacteristicReadRequest | Application/src/main/java/com/example/android/ble/BLEPeripheralHelper.java:256-276 | one response, always GATT_SUCCESS, with the request's id and offset and the value ReadValue chooses |
| Peripheral.PeripheralHelper.OnCharacteristicWriteRequest | Application/src/main/java/com/example/android/ble/BLEPeripheralHelper.java:279-314 | the write's chat event (if any) fanned out, then a response iff one is needed, with WriteStatus and the echoed offset and value |
| Peripheral.PeripheralHelper.OnDescriptorWriteRequest | Application/src/main/java/com/example/android/ble/BLEPeripheralHelper.java:317-328 | a GATT_SUCCESS response echoing offset and value iff one is needed, and nothing else |
| Peripheral.PeripheralHelper.CreateAcceptThread | Application/src/main/java/com/example/android/ble/BLEPeripheralHelper.java:395-396 | the thread exists afterwards, and the trace grows by AcceptThreadCreation |
| Peripheral.PeripheralHelper.InitRfcommService | Application/src/main/java/com/example/android/ble/BLEPeripheralHelper.java:393-400 | the accept thread is created only when none exists; every call notifies the address to each connected device and then raises INIT_RFCOMM_SOCKET |
| Peripheral.PeripheralHelper.StopRfcommService | Application/src/main/java/com/example/android/ble/BLEPeripheralHelper.java:405-410 | a running thread's end flag is set (recorded as an end request) and the reference is dropped; afterwards there is no thread |
| Peripheral.PeripheralHelper.Send | Application/src/main/java/com/example/android/ble/BLEPeripheralHelper.java:523-530 | one message notification per connected device |
| Peripheral.PeripheralHelper.SendStream | Application/src/main/java/com/example/android/ble/BLEPeripheralHelper.java:535-546 | one "Not tested yet!" info event per chat listener, then the same 512-byte block to each connected device |
| Peripheral.PeripheralHelper.SendTransferReady | Application/src/main/java/com/example/android/ble/BLEPeripheralHelper.java:554-562 | one RFCOMM-transfer notification carrying the local address per connected device |
| Peripheral.ConnectedHelper | Application/src/main/java/com/example/android/ble/BLEPeripheralHelper.java:240-243 | a fresh helper with one chat listener and one connected central has nothing in its trace |
| Peripheral.InitRfcommTwice | Application/src/main/java/com/example/android/ble/BLEPeripheralHelper.java:393-400 | two calls with one listener and one central: a single thread start, then the notification and INIT_RFCOMM_SOCKET twice |
| Central.InitEvent | Application/src/main/java/com/example/android/ble/BLECentralHelper.java:92-113 | onInitSuccess iff all checks pass; "Invalid Context!", then adapter, then LE failure, each exactly when its check is the first to fail |
| Central.StateError | Application/src/main/java/com/example/android/ble/BLECentralHelper.java:245 | "Connection state error! : Error = " followed by the status's canonical Java decimal (parses back to it, no leading zero, no "-0") |
| Central.ConnectionStateEffects | Application/src/main/java/com/example/android/ble/BLECentralHelper.java:222-250 | success + CONNECTED starts service discovery and tells the app nothing; success + DISCONNECTED gives onDisconnect; other success states nothing; a failure gives exactly one connection error: that prefix followed by the status's canonical Java decimal |
| Central.ServiceRequests | Application/src/main/java/com/example/android/ble/BLECentralHelper.java:257-266 | the five setup requests (two reads, three notification registrations) once for each chat service, in order, and only GATT requests |
| Central.ServicesDiscoveredEffects | Application/src/main/java/com/example/android/ble/BLECentralHelper.java:253-273 | for each SERVICE_UUID in the discovered list, in order, the five setup requests (read version, read description, enable notifications on message, RFCOMM-transfer and BLE-transfer), so 5 per chat service, then one onConnect, whatever the status; only onConnect when no chat service is found |
| Central.CountOfAbsent | Application/src/main/java/com/example/android/ble/BLECentralHelper.java:257-259 | a service UUID is counted zero times iff it is not in the list |
| Central.CharacteristicReadEffects | Application/src/main/java/com/example/android/ble/BLECentralHelper.java:276-316 | the effects come in pairs, at most three: each a chat event followed by a notification request on the characteristic read |
| Central.CharacteristicReadOneEvent | Application/src/main/java/com/example/android/ble/BLECentralHelper.java:276-316 | a read of the message, version or description characteristic raises just its event, followed by a notification request; any other UUID gives nothing |
| Central.CharacteristicWriteEffects | Application/src/main/java/com/example/android/ble/BLECentralHelper.java:319-332 | only a BLE-transfer write is reported: one onStreamSent, SENT_SUCCEED iff GATT_SUCCESS |
| Central.MtuChangeStatus | Application/src/main/java/com/example/android/ble/BLECentralHelper.java:338 | MTU_CHANGE_SUCCEED iff GATT_SUCCESS, MTU_CHANGE_FAILED otherwise |
| Central.Zeros | Application/src/main/java/com/example/android/ble/BLECentralHelper.java:448 | `new byte[n]` is n zero bytes |
| Central.RetryEffects | Application/src/main/java/com/example/android/ble/BLECentralHelper.java:456-471 | the loop starts with a write of the block and ends with a write or an error; every effect is that write, a pause of SEND_INTERVAL, or a chat event |
| Central.RetryBounds | Application/src/main/java/com/example/android/ble/BLECentralHelper.java:456-471 | whatever the outcomes: at least one and at most MAX_RETRIES + 2 write attempts, and at most one error, which is then the last effect |
| Central.RetryAllRefused | Application/src/main/java/com/example/android/ble/BLECentralHelper.java:456-471 | when every write is refused and no sleep is interrupted: exactly 7 attempts and one "Couldn't send more data!!" error, at the end |
| Central.RetryFirstAccepted | Application/src/main/java/com/example/android/ble/BLECentralHelper.java:456-471 | when attempt j is the first accepted one: the loop stops after it, j + 1 attempts and no error |
| Central.RetryFromAppends | Application/src/main/java/com/example/android/ble/BLECentralHelper.java:457-471 | running the loop after earlier effects appends exactly the loop's effects: RetryFrom(acc, ...) is acc followed by RetryEffects |
| Central.NextLetter | Application/src/main/java/com/example/android/ble/BLECentralHelper.java:485 | a counter in 'a'..'z' stays there; it goes back to 'a' exactly from 'z' and otherwise advances by one |
| Central.LetterAfter | Application/src/main/java/com/example/android/ble/BLECentralHelper.java:485 | the counter update keeps a counter in 'a'..'z' in that range |
| Central.Letters | Application/src/main/java/com/example/android/ble/BLECentralHelper.java:483-486 | the text built has n ASCII letters, the k-th being the counter after k steps |
| Central.LettersStep | Application/src/main/java/com/example/android/ble/BLECentralHelper.java:484-485 | one iteration appends the counter's letter and advances the counter |
| Central.LetterAfterCycles | Application/src/main/java/com/example/android/ble/BLECentralHelper.java:485 | n steps from c reach 'a' + (c - 'a' + n) mod 26: the alphabet is walked cyclically |
| Central.LettersContinue | Application/src/main/java/com/example/android/ble/BLECentralHelper.java:475-486 | two blocks in a row carry on the alphabet where the first stopped |
| Central.LetterCount | Application/src/main/java/com/example/android/ble/BLECentralHelper.java:483 | the loop runs numElems - 3 times when that is positive, so blocks hold max(numElems, 3) bytes |
| Central.AlphabetBlockShape | Application/src/main/java/com/example/android/ble/BLECentralHelper.java:480-494 | a block has max(numElems, 3) bytes: cyclic letters from the counter, then three zero bytes |
| Central.CentralHelper.constructor | Application/src/main/java/com/example/android/ble/BLECentralHelper.java:479-501 | mMtu starts at 20, the letter counter at 'a', with no RFCOMM address |
| Central.CentralHelper.Init | Application/src/main/java/com/example/android/ble/BLECentralHelper.java:92-113 | exactly one discovery callback, the one InitEvent chooses |
| Central.CentralHelper.OnConnectionStateChange | Application/src/main/java/com/example/android/ble/BLECentralHelper.java:222-250 | appends ConnectionStateEffects |
| Central.CentralHelper.OnServicesDiscovered | Application/src/main/java/com/example/android/ble/BLECentralHelper.java:253-273 | appends ServicesDiscoveredEffects |
| Central.CentralHelper.OnCharacteristicRead | Application/src/main/java/com/example/android/ble/BLECentralHelper.java:276-316 | appends CharacteristicReadEffects |
| Central.CentralHelper.OnCharacteristicWrite | Application/src/main/java/com/example/android/ble/BLECentralHelper.java:319-332 | appends CharacteristicWriteEffects |
| Central.CentralHelper.OnMtuChanged | Application/src/main/java/com/example/android/ble/BLECentralHelper.java:335-346 | mMtu becomes the reported value whatever the status; one onMtuChanged event with the status MtuChangeStatus gives |
| Central.CentralHelper.OnCharacteristicChanged | Application/src/main/java/com/example/android/ble/BLECentralHelper.java:350-378 | the message UUID passes the text on; the RFCOMM-transfer UUID stores the address and starts classic discovery; the BLE-transfer UUID reports info; any other UUID does nothing |
| Central.CentralHelper.Send | Application/src/main/java/com/example/android/ble/BLECentralHelper.java:381-395 | one default-type write of the message characteristic; a refused write gives "Couldn't send data!!" |
| Central.CentralHelper.SendData | Application/src/main/java/com/example/android/ble/BLECentralHelper.java:445-472 | a negative MTU throws at the allocation; otherwise the loop makes exactly the retry effects of an MTU-sized zero block written without response |
| Central.CentralHelper.ChangeMtu | Application/src/main/java/com/example/android/ble/BLECentralHelper.java:508-520 | one MTU request; a refused one gives one "Couldn't set MTU!!" error and leaves mMtu unchanged |
| Central.CentralHelper.SetMtu | Application/src/main/java/com/example/android/ble/BLECentralHelper.java:526-528 | mMtu becomes the size |
| Central.CentralHelper.GetMtu | Application/src/main/java/com/example/android/ble/BLECentralHelper.java:533-535 | returns mMtu |
| Central.CentralHelper.GetAlphabetDataBlock | Application/src/main/java/com/example/android/ble/BLECentralHelper.java:479-495 | the loop keeps the counter in 'a'..'z', advances it by the number of letters written, and returns those letters' bytes followed by three zeros |
| Central.MtuScenario | Application/src/main/java/com/example/android/ble/BLECentralHelper.java:501-535 | the MTU is 20 at first and after a refused change; it is the reported value after onMtuChanged, even a failed one; getMtu returns n after setMtu(n) |
| Central.AlphabetScenario | Application/src/main/java/com/example/android/ble/BLECentralHelper.java:479-495 | blocks of 5 and then 6 bytes are "ab" and then "cde", each followed by three zeros |
| Chat.FirstToken | Application/src/main/java/com/example/android/bluetoothchat/BluetoothChatFragment.java:237 | tokens[0] of split(" ", 2) is the prefix up to the first space, and has no space |
| Chat.TransferDataActions | Application/src/main/java/com/example/android/bluetoothchat/BluetoothChatFragment.java:905-911 | only a peripheral acts: exactly one RFCOMM service start, then "Initializing RFCOMM socket..." shown, and nothing else |
| Chat.IncomingActions | Application/src/main/java/com/example/android/bluetoothchat/BluetoothChatFragment.java:888-899 | fails (tokens[1] out of bounds) exactly on "/name"; text not starting with "/" is shown once, verbatim |
| Chat.IncomingCommandEffects | Application/src/main/java/com/example/android/bluetoothchat/BluetoothChatFragment.java:893-895 | RFCOMM starts only on "/send" in PERIPHERAL mode; no command is shown as a chat message |
| Chat.IncomingName | Application/src/main/java/com/example/android/bluetoothchat/BluetoothChatFragment.java:890-892 | "/name " + X renames the peer to all of X, spaces included |
| Chat.IncomingSend | Application/src/main/java/com/example/android/bluetoothchat/BluetoothChatFragment.java:893-895 | "/send", alone or followed by anything, does what transferData does in the current mode |
| Chat.IncomingOtherCommand | Application/src/main/java/com/example/android/bluetoothchat/BluetoothChatFragment.java:889-896 | any other "/" command produces nothing at all |
| Chat.SendStreamActions | Application/src/main/java/com/example/android/bluetoothchat/BluetoothChatFragment.java:255-261 | the peripheral helper's sendStream in PERIPHERAL mode, the central helper's sendData in CENTRAL mode, nothing in NONE, and never a message delivery |
| Chat.ClassicActions | Application/src/main/java/com/example/android/bluetoothchat/BluetoothChatFragment.java:270-287 | classic actions only; "not connected" iff not connected; the text is written iff connected and non-empty; at most one action, and a write carries the message unchanged |
| Chat.BleActions | Application/src/main/java/com/example/android/bluetoothchat/BluetoothChatFragment.java:588-601 | nothing for empty text; otherwise the mode's helper send (if any) and then one echo; never classic |
| Chat.SendMessageActions | Application/src/main/java/com/example/android/bluetoothchat/BluetoothChatFragment.java:263-268 | the classic path in NONE mode, the BLE path otherwise |
| Chat.ClassicOnlyInNone | Application/src/main/java/com/example/android/bluetoothchat/BluetoothChatFragment.java:263-268 | a classic action happens iff the mode is NONE and the classic path has something to do |
| Chat.BleSendsOnce | Application/src/main/java/com/example/android/bluetoothchat/BluetoothChatFragment.java:588-601 | in BLE mode a non-empty message goes through exactly one helper, the one for the mode, and is echoed once |
| Chat.OutgoingActions | Application/src/main/java/com/example/android/bluetoothchat/BluetoothChatFragment.java:235-253 | "/transfertest" schedules changeMtu(512) after 2100 ms; "/transfer" calls sendStream; neither reaches sendMessage; anything else goes to sendMessage unchanged |
| Chat.OutgoingNameIsMessage | Application/src/main/java/com/example/android/bluetoothchat/BluetoothChatFragment.java:235-253 | "/name Z3C" is passed to sendMessage like any message |
| Chat.IsPing | Application/src/main/java/com/example/android/bluetoothchat/BluetoothChatFragment.java:348 | on ASCII text, equalsIgnoreCase("PING"): four characters whose upper cases spell PING; the only non-ASCII matches have a dotted or dotless i second |
| Chat.Reply | Application/src/main/java/com/example/android/bluetoothchat/BluetoothChatFragment.java:348 | "PONG" iff the message equals "PING" ignoring case, "PING" otherwise |
| Chat.RepliesAlternate | Application/src/main/java/com/example/android/bluetoothchat/BluetoothChatFragment.java:348 | the reply to a reply is the other word; "ping" and "PiNg" are pings, "PONG" and "PING " are not |
| Chat.AnswerBackActions | Application/src/main/java/com/example/android/bluetoothchat/BluetoothChatFragment.java:342-357 | the reply goes through sendMessage: sent by the mode's helper and echoed in BLE mode, written in connected classic mode, and the not-connected notice in classic mode without a connection |
| Chat.ReceivedNotice | Application/src/main/java/com/example/android/bluetoothchat/BluetoothChatFragment.java:729 | "Received n bytes via BLE!": that prefix and suffix around n's canonical Java decimal (parses back to n, no leading zero, no "-0") |
| Chat.RateNotice | Application/src/main/java/com/example/android/bluetoothchat/BluetoothChatFragment.java:859 | "n B/s": n's canonical Java decimal, followed by " B/s" |
| Chat.CentralStreamListener.constructor | Application/src/main/java/com/example/android/bluetoothchat/BluetoothChatFragment.java:724 | the remembered length starts at 0 |
| Chat.CentralStreamListener.OnDataStream | Application/src/main/java/com/example/android/bluetoothchat/BluetoothChatFragment.java:724-734 | a "Received" notice only when the length differs from the previous block; the length is remembered |
| Chat.PeripheralStreamListener.constructor | Application/src/main/java/com/example/android/bluetoothchat/BluetoothChatFragment.java:837-839 | the length, starting time, rate and progress counters start at 0 |
| Chat.PeripheralStreamListener.OnDataStream | Application/src/main/java/com/example/android/bluetoothchat/BluetoothChatFragment.java:837-874 | the notice and progress bar on a new length; a window starts at the first block, and once 1000 ms have passed it reports the bytes counted and restarts; the block is added to the rate and to the progress, which is shown |
| Chat.CentralNoticeScenario | Application/src/main/java/com/example/android/bluetoothchat/BluetoothChatFragment.java:724-734 | three 512-byte blocks and then a 20-byte one give exactly two notices |
| Chat.EmptyBlockScenario | Application/src/main/java/com/example/android/bluetoothchat/BluetoothChatFragment.java:724-731 | an empty first block is never reported |
| Chat.RateScenario | Application/src/main/java/com/example/android/bluetoothchat/BluetoothChatFragment.java:841-873 | 512-byte blocks at 1000, 1500 and 2000 ms report 1024 B/s at the third block and leave 512 counted, with progress 1536 |
| Chat.EventLoop | Application/src/main/java/com/example/android/bluetoothchat/BluetoothChatFragment.java:999-1012 | the loop never leaves both ended and waiting, runs at least as many iterations as already counted, and only appends actions |
| Chat.EventLoopSent | Application/src/main/java/com/example/android/bluetoothchat/BluetoothChatFragment.java:999-1012 | each iteration adds exactly the MTU read before the loop, and the count passes the bound by less than one MTU |
| Chat.EventLoopRequests | Application/src/main/java/com/example/android/bluetoothchat/BluetoothChatFragment.java:1002-1003 | each iteration issues one "/transfer", which is one stream request outside NONE mode |
| Chat.EventLoopExit | Application/src/main/java/com/example/android/bluetoothchat/BluetoothChatFragment.java:1002 | unless left waiting on the semaphore, the loop exits only when ended or at 1 MiB |
| Chat.NeverEnds | Application/src/main/java/com/example/android/bluetoothchat/BluetoothChatFragment.java:1002-1011 | with no end signal and every wait released, the loop stops only at the bound |
| Chat.EventLoopUninterrupted | Application/src/main/java/com/example/android/bluetoothchat/BluetoothChatFragment.java:999-1012 | with 0 < MTU, no end signal and every wait released: ceil(1048576 / MTU) iterations and stream requests, 1048576 <= iBytesSent < 1048576 + MTU, and no int overflow |
| Chat.ForLoop | Application/src/main/java/com/example/android/bluetoothchat/BluetoothChatFragment.java:988-994 | the loop leaves only when ended or at 1 MiB, runs at least as many iterations as already counted, and only appends actions |
| Chat.ElapsedNotice | Application/src/main/java/com/example/android/bluetoothchat/BluetoothChatFragment.java:995-996 | "1 MB took " + n + " secs to complete", where n is the canonical Java decimal of the elapsed milliseconds divided by 1000, truncated |
| Chat.ForLoopSent | Application/src/main/java/com/example/android/bluetoothchat/BluetoothChatFragment.java:991 | each iteration of sendViaLoop adds the MTU, the count passes the bound by less than one MTU, and the loop leaves only when ended or past the bound |
| Chat.ForLoopRequests | Application/src/main/java/com/example/android/bluetoothchat/BluetoothChatFragment.java:991-994 | each iteration issues one stream request outside NONE mode |
| Chat.JavaDiv | Application/src/main/java/com/example/android/bluetoothchat/BluetoothChatFragment.java:995 | long division by a positive divisor truncates toward zero |
| Chat.StreamThread.constructor | Application/src/main/java/com/example/android/bluetoothchat/BluetoothChatFragment.java:955-957 | a new thread is not ended |
| Chat.StreamThread.End | Application/src/main/java/com/example/android/bluetoothchat/BluetoothChatFragment.java:1035-1037 | sets the end flag |
| Chat.StreamThread.SendViaEvent | Application/src/main/java/com/example/android/bluetoothchat/BluetoothChatFragment.java:999-1012 | the while loop produces exactly the run EventLoop describes: actions, final iBytesSent, end flag, and whether it is left waiting |
| Chat.StreamThread.SendViaLoop | Application/src/main/java/com/example/android/bluetoothchat/BluetoothChatFragment.java:988-997 | the for loop produces exactly the run ForLoop describes, followed by the elapsed-seconds notice |
| Chat.TransferTestScenario | Application/src/main/java/com/example/android/bluetoothchat/BluetoothChatFragment.java:999-1012 | at the default MTU of 20 with every write acknowledged: 52429 data requests and 1048580 bytes counted |

## Left out

- UI and lifecycle. Activities, the fragment lifecycle, menus, toasts,
  progress dialogs and status bars appear only as Actions. BLEAdvertisingActivity
  is not part of this model.
- Android BLE and classic Bluetooth APIs. Scanning, advertising, GATT
  service setup, connecting and notification delivery become Effects or
  Actions, with no semantics of their own.
- Blocking I/O and persistence. Four pieces are not modelled, because they
  are socket, stream and file operations on foreign objects:
  - the accept thread's `run` (only its construction is modelled). Its
    `end()` only sets a flag, which `run` tests after each read, so the
    thread keeps running until its blocked `accept()` or `read()` returns;
  - the RFCOMM connect in the central's discovery receiver;
  - `sendFile` and `send2Rfcomm`;
  - `save2File`.
- BluetoothChatService, DeviceListActivity, Constants and the app's own
  classic-Bluetooth echo are not part of this model. `BLEMode` is taken to
  be the enum NONE | CENTRAL | PERIPHERAL, and the Android `STATE_*` and
  `GATT_*` constants are given their SDK values.
- Concurrency and timing. Threads, semaphores, `synchronized`,
  `Handler.post`/`postDelayed` and sleeps are left out. Posted callbacks
  take effect at once, in the order they are posted. A sleep is a `Sleep`
  Effect, or a parameter saying whether it is interrupted.
- `StreamThread.run`, `nextMessage` and the semaphore become oracles:
  - each wait either returns, is interrupted or never returns;
  - an interruption reaches the central listener, whose `onConnectionError`
    ends the thread;
  - when `end()` is observed is given per test of the loop condition.
- A listener list changed while a notify loop is iterating over it is not
  modelled. Iterator behaviour under concurrent modification is out of
  scope.
- `null` lists before `init`. The peripheral's device list is modelled as
  existing from the start. Before `init` the source would throw on it
  instead.
- Character encoding. A `String` characteristic value is kept as text (the
  `Text` payload), not encoded as UTF-8. The result of decoding the bytes of
  a write request is a parameter. `getBytes` is modelled for ASCII text
  only. Lengths are counted in characters, not UTF-16 code units.
- Randomness and the clock. The random block is a function parameter. Clock
  readings are parameters.
- JdkSort.Sort: follows TimSort's no-merge path for every length. Java lists
  of 32 or more elements are merge-sorted instead. `SortPermutes` holds
  either way, but `AlwaysLessReverses` is only claimed for the path
  modelled.
- Chat.StreamThread.SendViaEvent: requires a positive MTU. With an MTU of 0
  the source loop never reaches the bound; with a negative MTU it reaches it
  only through Java `int` wrap-around of `iBytesSent`, which the model's
  unbounded integers do not represent.
- Chat.StreamThread.SendViaLoop: requires a positive MTU, for the same
  reason.
- Chat.PeripheralStreamListener.OnDataStream: counts with unbounded integers.
  The Java `int` progress total and the `long` counters could in principle
  wrap around.
- Central.CentralHelper.GetAlphabetDataBlock: the counter is modelled in
  'a'..'z', which is where it starts and stays. The source's counter field
  is private, so no other value can reach it.
