/**
 * BluetoothChatFragment: the chat screen's command protocol (incoming and
 * outgoing text, routed by the BLE mode), the ping/pong reply, the two
 * bulk-transfer loops of StreamThread, and the counters the data-stream
 * callbacks keep.
 *
 * What the screen does is written as a sequence of Actions: the helper
 * calls it makes (send, sendStream, sendData, initRfcommService, changeMtu)
 * and the lines it shows. The helpers themselves are modelled in the
 * Peripheral and Central modules.
 */
module Chat {
  import opened Wrappers
  import opened JavaText

  /** BLEMode: how the chat is connected. The fragment starts in CENTRAL. */
  datatype BleMode = NONE | CENTRAL | PERIPHERAL

  const DEFAULT_MODE := CENTRAL

  datatype Action =
    | ShowIncoming(incoming: string)
    | ShowOutgoing(outgoing: string)
    | ShowInfo(info: string)
    | ShowConnectedName(name: string)
    | ShowProgressBar
    | Progress(progress: int)
    /** BluetoothChatService.write of the message's bytes. */
    | ClassicWrite(written: string)
    /** The "not connected" toast of the classic path. */
    | ClassicNotConnected
    /** BLEPeripheralHelper.send / BLECentralHelper.send. */
    | PeripheralSend(peripheralText: string)
    | CentralSend(centralText: string)
    /** BLEPeripheralHelper.sendStream / BLECentralHelper.sendData. */
    | PeripheralSendStream
    | CentralSendData
    /** BLEPeripheralHelper.initRfcommService. */
    | PeripheralInitRfcomm
    /** BLECentralHelper.changeMtu(mtuSize), posted to run after delayMillis. */
    | ChangeMtuLater(mtuSize: int, delayMillis: int)

  /** The exception processIncomingMsg throws: tokens[1] of a one-element array. */
  datatype CommandFault = TokenIndexOutOfBounds

  const TRANSFER_TEST_MTU := 512
  const TRANSFER_TEST_DELAY := 2100
  const MSG_INIT_RFCOMM := "Initializing RFCOMM socket..."
  const ERROR_PREFIX := "[!] Error : "
  const MSG_SEMAPHORE := "Interrupted while in a semaphore!!"

  /** The bulk-transfer tests stop after one mebibyte. */
  const ONE_MIB := 1024 * 1024

  /** Integer.MAX_VALUE: iBytesSent is a Java int. */
  const INT_MAX := 0x7FFF_FFFF

  /* ---------- commands ---------- */

  /** tokens[0] of `msg.split(" ", 2)`: the text up to the first space. */
  function FirstToken(msg: string): (t: string)
    ensures StartsWith(msg, t) && ' ' !in t
    ensures |t| < |msg| ==> msg[|t|] == ' '
  {
    SplitLimit2(msg, ' ')[0]
  }

  /** A helper call or echo that only sendMessage makes. */
  predicate IsDelivery(a: Action)
  {
    a.ShowOutgoing? || a.ClassicWrite? || a.ClassicNotConnected? || a.PeripheralSend? || a.CentralSend?
  }

  predicate IsClassic(a: Action)
  {
    a.ClassicWrite? || a.ClassicNotConnected?
  }

  /** transferData: only a peripheral answers "/send", by starting its RFCOMM service. */
  function TransferDataActions(mode: BleMode): (r: seq<Action>)
    ensures r != [] <==> mode == PERIPHERAL
    ensures PeripheralInitRfcomm in r <==> mode == PERIPHERAL
    ensures r != [] ==> r[|r| - 1] == ShowInfo(MSG_INIT_RFCOMM)
    ensures |r| <= 2
  {
    if mode == PERIPHERAL then [PeripheralInitRfcomm, ShowInfo(MSG_INIT_RFCOMM)] else []
  }

  /**
   * processIncomingMsg: plain text is shown; "/name rest" renames the peer;
   * "/send" starts the transfer; any other command is ignored.
   */
  function IncomingActions(msg: string, mode: BleMode): (r: Result<seq<Action>, CommandFault>)
    ensures r.Err? <==> msg == "/name"
    ensures !StartsWith(msg, "/") ==> r == Ok([ShowIncoming(msg)])
  {
    if StartsWith(msg, "/") then
      var tokens := SplitLimit2(msg, ' ');
      if tokens[0] == "/name" then
        if |tokens| < 2 then Err(TokenIndexOutOfBounds) else Ok([ShowConnectedName(tokens[1])])
      else if tokens[0] == "/send" then Ok(TransferDataActions(mode))
      else Ok([])
    else Ok([ShowIncoming(msg)])
  }

  /** Only "/send" reaching a peripheral starts RFCOMM, and no command is shown as chat text. */
  lemma IncomingCommandEffects(msg: string, mode: BleMode)
    ensures var r := IncomingActions(msg, mode);
      && (r.Ok? && PeripheralInitRfcomm in r.value ==> mode == PERIPHERAL && FirstToken(msg) == "/send")
      && (r.Ok? && StartsWith(msg, "/") ==> forall a :: a in r.value ==> !a.ShowIncoming?)
  {
  }

  /** "/name " followed by any text renames the peer to all of that text, spaces included. */
  lemma IncomingName(name: string, mode: BleMode)
    ensures IncomingActions("/name " + name, mode) == Ok([ShowConnectedName(name)])
  {
    assert "/name " + name == "/name" + [' '] + name;
    SplitLimit2OfJoin("/name", ' ', name);
  }

  /** "/send", alone or followed by anything, acts only in PERIPHERAL mode. */
  lemma IncomingSend(rest: string, mode: BleMode)
    ensures IncomingActions("/send", mode) == Ok(TransferDataActions(mode))
    ensures IncomingActions("/send " + rest, mode) == Ok(TransferDataActions(mode))
  {
    assert "/send " + rest == "/send" + [' '] + rest;
    SplitLimit2OfJoin("/send", ' ', rest);
  }

  /** Any other command produces nothing at all. */
  lemma IncomingOtherCommand(msg: string, mode: BleMode)
    requires StartsWith(msg, "/") && FirstToken(msg) != "/name" && FirstToken(msg) != "/send"
    ensures IncomingActions(msg, mode) == Ok([])
  {
  }

  /** sendStream: the peripheral streams random blocks, the central sends alphabet blocks. */
  function SendStreamActions(mode: BleMode): (r: seq<Action>)
    ensures |r| <= 1
    ensures r == [] <==> mode == NONE
    ensures mode == PERIPHERAL ==> r == [PeripheralSendStream]
    ensures mode == CENTRAL ==> r == [CentralSendData]
    ensures forall a :: a in r ==> !IsDelivery(a)
  {
    match mode
    case PERIPHERAL => [PeripheralSendStream]
    case CENTRAL => [CentralSendData]
    case NONE => []
  }

  /** sendMessageViaClassicBT: refused when not connected; empty text is not written. */
  function ClassicActions(msg: string, connected: bool): (r: seq<Action>)
    ensures forall a :: a in r ==> IsClassic(a)
    ensures !connected <==> r == [ClassicNotConnected]
    ensures ClassicWrite(msg) in r <==> connected && msg != ""
    ensures |r| <= 1 && forall a :: a in r && a.ClassicWrite? ==> a.written == msg
  {
    if !connected then [ClassicNotConnected]
    else if |msg| > 0 then [ClassicWrite(msg)]
    else []
  }

  /** sendMessageViaBLE: a non-empty message goes to the mode's helper and is echoed. */
  function BleActions(msg: string, mode: BleMode): (r: seq<Action>)
    ensures forall a :: a in r ==> !IsClassic(a)
    ensures msg == "" ==> r == []
    ensures msg != "" ==> |r| == (if mode == NONE then 1 else 2) && r[|r| - 1] == ShowOutgoing(msg)
    ensures msg != "" && mode == PERIPHERAL ==> r[0] == PeripheralSend(msg)
    ensures msg != "" && mode == CENTRAL ==> r[0] == CentralSend(msg)
  {
    if |msg| > 0 then
      (if mode == PERIPHERAL then [PeripheralSend(msg)]
       else if mode == CENTRAL then [CentralSend(msg)]
       else []) + [ShowOutgoing(msg)]
    else []
  }

  /** sendMessage: the classic path exactly when the mode is NONE. */
  function SendMessageActions(msg: string, mode: BleMode, classicConnected: bool): (r: seq<Action>)
    ensures mode == NONE ==> r == ClassicActions(msg, classicConnected)
    ensures mode != NONE ==> r == BleActions(msg, mode)
  {
    if mode != NONE then BleActions(msg, mode) else ClassicActions(msg, classicConnected)
  }

  /** The classic path is taken exactly when the mode is NONE (and it has something to do). */
  lemma ClassicOnlyInNone(msg: string, mode: BleMode, classicConnected: bool)
    ensures (exists a :: a in SendMessageActions(msg, mode, classicConnected) && IsClassic(a)) <==>
      mode == NONE && (!classicConnected || msg != "")
  {
    var r := SendMessageActions(msg, mode, classicConnected);
    if mode == NONE && (!classicConnected || msg != "") {
      assert r[0] in r && IsClassic(r[0]);
    }
  }

  /** In BLE mode a non-empty message is sent through exactly one helper and echoed once. */
  lemma BleSendsOnce(msg: string, mode: BleMode, classicConnected: bool)
    requires mode != NONE && msg != ""
    ensures var r := SendMessageActions(msg, mode, classicConnected);
      |r| == 2 && (r[0].PeripheralSend? || r[0].CentralSend?) && r[1] == ShowOutgoing(msg)
      && (r[0].PeripheralSend? <==> mode == PERIPHERAL)
  {
  }

  /**
   * processOutgoingMsg: a first token of "/transfertest" schedules an MTU
   * change to 512 after 2.1 s, "/transfer" calls sendStream, and anything
   * else is handed to sendMessage unchanged.
   */
  function OutgoingActions(msg: string, mode: BleMode, classicConnected: bool): (r: seq<Action>)
    ensures FirstToken(msg) == "/transfertest" ==> r == [ChangeMtuLater(TRANSFER_TEST_MTU, TRANSFER_TEST_DELAY)]
    ensures FirstToken(msg) == "/transfer" ==> r == SendStreamActions(mode)
    ensures FirstToken(msg) == "/transfertest" || FirstToken(msg) == "/transfer" ==>
      forall a :: a in r ==> !IsDelivery(a)
    ensures FirstToken(msg) != "/transfertest" && FirstToken(msg) != "/transfer" ==>
      r == SendMessageActions(msg, mode, classicConnected)
  {
    if StartsWith(msg, "/") then
      var tokens := SplitLimit2(msg, ' ');
      if tokens[0] == "/transfertest" then [ChangeMtuLater(TRANSFER_TEST_MTU, TRANSFER_TEST_DELAY)]
      else if tokens[0] == "/transfer" then SendStreamActions(mode)
      else SendMessageActions(msg, mode, classicConnected)
    else
      assert FirstToken(msg) != "/transfer" && FirstToken(msg) != "/transfertest" by {
        if |FirstToken(msg)| > 0 { assert msg[0] == FirstToken(msg)[0]; }
      }
      SendMessageActions(msg, mode, classicConnected)
  }

  /** Typed "/name ..." text, such as "/name Z3C", is passed to sendMessage unchanged. */
  lemma OutgoingNameIsMessage(mode: BleMode, classicConnected: bool)
    ensures OutgoingActions("/name Z3C", mode, classicConnected) == SendMessageActions("/name Z3C", mode, classicConnected)
  {
    assert "/name Z3C" == "/name" + [' '] + "Z3C";
    SplitLimit2OfJoin("/name", ' ', "Z3C");
  }

  /**
   * equalsIgnoreCase("PING"): per character, the characters whose upper or
   * lower case matches. On ASCII text that is "PING" after upper-casing;
   * the only other matches are the dotted and dotless i.
   */
  predicate IsPing(msg: string)
    ensures IsAscii(msg) ==>
      (IsPing(msg) <==> |msg| == 4 && forall i :: 0 <= i < 4 ==> AsciiUpper(msg[i]) == "PING"[i])
    ensures IsPing(msg) && !IsAscii(msg) ==> |msg| == 4 && (msg[1] == 'İ' || msg[1] == 'ı')
  {
    && |msg| == 4
    && msg[0] in {'P', 'p'}
    && msg[1] in {'I', 'i', 'İ', 'ı'}
    && msg[2] in {'N', 'n'}
    && msg[3] in {'G', 'g'}
  }

  /** The reply answerBack computes. */
  function Reply(msg: string): (r: string)
    ensures r == "PONG" <==> IsPing(msg)
    ensures r == "PING" <==> !IsPing(msg)
  {
    if IsPing(msg) then "PONG" else "PING"
  }

  /** A conversation of replies alternates: the reply to a reply is the other word. */
  lemma RepliesAlternate(msg: string)
    ensures Reply(Reply(msg)) != Reply(msg)
    ensures IsPing("ping") && IsPing("PiNg") && !IsPing("PONG") && !IsPing("PING ")
  {
    if IsPing(msg) {
      assert !IsPing("PONG") by { assert "PONG"[1] == 'O'; }
    } else {
      assert IsPing("PING");
    }
    assert !IsPing("PONG") by { assert "PONG"[1] == 'O'; }
  }

  /** answerBack: the reply, sent (after the delays) through sendMessage. */
  function AnswerBackActions(msg: string, mode: BleMode, classicConnected: bool): (r: seq<Action>)
    ensures mode == PERIPHERAL ==> r == [PeripheralSend(Reply(msg)), ShowOutgoing(Reply(msg))]
    ensures mode == CENTRAL ==> r == [CentralSend(Reply(msg)), ShowOutgoing(Reply(msg))]
    ensures mode == NONE && classicConnected ==> r == [ClassicWrite(Reply(msg))]
    ensures mode == NONE && !classicConnected ==> r == [ClassicNotConnected]
  {
    SendMessageActions(Reply(msg), mode, classicConnected)
  }

  /* ---------- data-stream notices ---------- */

  /** "Received n bytes via BLE!" */
  function ReceivedNotice(length: int): (r: string)
    ensures StartsWith(r, "Received ") && |r| > |"Received "| + |" bytes via BLE!"|
    ensures r[|r| - |" bytes via BLE!"|..] == " bytes via BLE!"
    ensures JavaDecimal(r[|"Received "|..|r| - |" bytes via BLE!"|], length)
  {
    var r := "Received " + IntToDecimal(length) + " bytes via BLE!";
    assert r[|"Received "|..|r| - |" bytes via BLE!"|] == IntToDecimal(length);
    IntToDecimalIsJavaDecimal(length);
    r
  }

  /** "n B/s" */
  function RateNotice(bytesPerSec: int): (r: string)
    ensures |r| > |" B/s"| && JavaDecimal(r[..|r| - |" B/s"|], bytesPerSec)
    ensures r[|r| - |" B/s"|..] == " B/s"
  {
    var r := IntToDecimal(bytesPerSec) + " B/s";
    assert r[..|r| - |" B/s"|] == IntToDecimal(bytesPerSec);
    IntToDecimalIsJavaDecimal(bytesPerSec);
    r
  }

  /** The central listener's onDataStream: it reports a block only when its length changes. */
  class CentralStreamListener {
    var lastLength: int
    var actions: seq<Action>

    constructor ()
      ensures lastLength == 0 && actions == []
    {
      lastLength := 0;
      actions := [];
    }

    method OnDataStream(data: seq<byte>)
      modifies this
      ensures lastLength == |data|
      ensures actions == old(actions) +
        (if old(lastLength) != |data| then [ShowInfo(ReceivedNotice(|data|))] else [])
    {
      if lastLength != |data| {
        actions := actions + [ShowInfo(ReceivedNotice(|data|))];
        lastLength := |data|;
      }
    }
  }

  /**
   * The peripheral listener's onDataStream: the same length notice (and the
   * progress bar shown with it), a bytes-per-second meter over windows of at
   * least 1000 ms, and the progress total. `now` is the wall clock reading.
   */
  class PeripheralStreamListener {
    var lastLength: int
    var startingTime: int
    var bytesPerSec: int
    var progress: int
    var actions: seq<Action>

    constructor ()
      ensures lastLength == 0 && startingTime == 0 && bytesPerSec == 0 && progress == 0 && actions == []
    {
      lastLength := 0;
      startingTime := 0;
      bytesPerSec := 0;
      progress := 0;
      actions := [];
    }

    method OnDataStream(data: seq<byte>, now: int)
      modifies this
      ensures lastLength == |data|
      ensures progress == old(progress) + |data|
      ensures var start := if old(startingTime) == 0 then now else old(startingTime);
        var report := start + 1000 <= now;
        && startingTime == (if report then 0 else start)
        && bytesPerSec == (if report then 0 else old(bytesPerSec)) + |data|
        && actions == old(actions)
          + (if old(lastLength) != |data| then [ShowInfo(ReceivedNotice(|data|)), ShowProgressBar] else [])
          + (if report then [ShowInfo(RateNotice(old(bytesPerSec)))] else [])
          + [Progress(progress)]
    {
      if lastLength != |data| {
        actions := actions + [ShowInfo(ReceivedNotice(|data|)), ShowProgressBar];
        lastLength := |data|;
      }
      if startingTime == 0 {
        startingTime := now;
      }
      if startingTime + 1000 <= now {
        actions := actions + [ShowInfo(RateNotice(bytesPerSec))];
        bytesPerSec := 0;
        startingTime := 0;
      }
      bytesPerSec := bytesPerSec + |data|;
      progress := progress + |data|;
      actions := actions + [Progress(progress)];
    }
  }

  /** Three 512-byte blocks give one length notice; a later 20-byte block gives a second. */
  method CentralNoticeScenario() returns (notices: seq<Action>)
    ensures notices == [ShowInfo(ReceivedNotice(512)), ShowInfo(ReceivedNotice(20))]
  {
    var block := seq(512, i => 0 as byte);
    var listener := new CentralStreamListener();
    listener.OnDataStream(block);
    listener.OnDataStream(block);
    listener.OnDataStream(block);
    listener.OnDataStream(block[..20]);
    notices := listener.actions;
  }

  /** An empty first block is never reported: the remembered length starts at 0. */
  method EmptyBlockScenario() returns (notices: seq<Action>)
    ensures notices == []
  {
    var listener := new CentralStreamListener();
    listener.OnDataStream([]);
    notices := listener.actions;
  }

  /**
   * Blocks of 512 bytes at 1000, 1500 and 2000 ms: the window opened at
   * 1000 closes at 2000 reporting the 1024 bytes seen before that block,
   * and the meter restarts with the third block.
   */
  method RateScenario() returns (actions: seq<Action>, bytesPerSec: int, progress: int)
    ensures actions == [ShowInfo(ReceivedNotice(512)), ShowProgressBar, Progress(512), Progress(1024),
                        ShowInfo(RateNotice(1024)), Progress(1536)]
    ensures bytesPerSec == 512 && progress == 1536
  {
    var block := seq(512, i => 0 as byte);
    var listener := new PeripheralStreamListener();
    listener.OnDataStream(block, 1000);
    listener.OnDataStream(block, 1500);
    listener.OnDataStream(block, 2000);
    actions, bytesPerSec, progress := listener.actions, listener.bytesPerSec, listener.progress;
  }

  /* ---------- StreamThread ---------- */

  /**
   * What `mSemaphore.acquire()` does in one iteration of sendViaEvent: it
   * returns after nextMessage released a permit, throws InterruptedException,
   * or never returns (no permit ever comes).
   */
  datatype Wait = Released | Interrupted | Blocked

  datatype EventRun = EventRun(actions: seq<Action>, bytesSent: int, iterations: nat, ended: bool, blocked: bool)

  /**
   * sendViaEvent from iteration k on, with iBytesSent == sent and the actions
   * so far in acc. endAt(k) says whether another thread has called end()
   * by the k-th test of the loop condition; waits(k) is the k-th acquire.
   * An interrupted acquire reports a connection error to the central
   * listener, whose onConnectionError ends the thread.
   */
  function EventLoop(mtu: int, mode: BleMode, endAt: nat -> bool, waits: nat -> Wait,
                     acc: seq<Action>, k: nat, sent: int, ended: bool): (r: EventRun)
    requires 0 < mtu
    ensures k <= r.iterations && !(r.ended && r.blocked)
    ensures StartsWith(r.actions, acc)
    decreases ONE_MIB - sent
  {
    var stop := ended || endAt(k);
    if stop || sent >= ONE_MIB then EventRun(acc, sent, k, stop, false)
    else
      var next := sent + mtu;
      var step := acc + SendStreamActions(mode) + [Progress(next)];
      match waits(k)
      case Released => EventLoop(mtu, mode, endAt, waits, step, k + 1, next, false)
      case Interrupted =>
        EventLoop(mtu, mode, endAt, waits, step + [ShowInfo(ERROR_PREFIX + MSG_SEMAPHORE)], k + 1, next, true)
      case Blocked => EventRun(step, next, k + 1, false, true)
  }

  /** The number of sendStream/sendData calls in a list of actions. */
  function StreamRequests(s: seq<Action>): (n: nat)
    ensures n <= |s|
  {
    if s == [] then 0
    else StreamRequests(s[..|s| - 1]) + (if s[|s| - 1].PeripheralSendStream? || s[|s| - 1].CentralSendData? then 1 else 0)
  }

  lemma {:induction false} StreamRequestsAppend(a: seq<Action>, b: seq<Action>)
    ensures StreamRequests(a + b) == StreamRequests(a) + StreamRequests(b)
    decreases |b|
  {
    if b != [] {
      var s := a + b;
      assert s[..|s| - 1] == a + b[..|b| - 1];
      assert s[|s| - 1] == b[|b| - 1];
      StreamRequestsAppend(a, b[..|b| - 1]);
    } else {
      assert a + b == a;
    }
  }

  lemma StreamStep(acc: seq<Action>, mode: BleMode, extra: seq<Action>)
    requires forall a :: a in extra ==> !a.PeripheralSendStream? && !a.CentralSendData?
    ensures StreamRequests(acc + SendStreamActions(mode) + extra) == StreamRequests(acc) + (if mode == NONE then 0 else 1)
  {
    var request := SendStreamActions(mode);
    StreamRequestsAppend(acc + request, extra);
    StreamRequestsAppend(acc, request);
    StreamRequestsNone(extra);
    if mode != NONE {
      assert request[..0] == [];
      assert StreamRequests(request) == StreamRequests(request[..0]) + 1;
    } else {
      assert StreamRequests(request) == 0;
    }
  }

  lemma {:induction false} StreamRequestsNone(s: seq<Action>)
    requires forall a :: a in s ==> !a.PeripheralSendStream? && !a.CentralSendData?
    ensures StreamRequests(s) == 0
    decreases |s|
  {
    if s != [] {
      assert s[|s| - 1] in s;
      StreamRequestsNone(s[..|s| - 1]);
    }
  }

  /** The step EventLoop takes after an unfinished iteration k. */
  lemma EventLoopStep(mtu: int, mode: BleMode, endAt: nat -> bool, waits: nat -> Wait,
                      acc: seq<Action>, k: nat, sent: int, ended: bool)
    requires 0 < mtu && !(ended || endAt(k)) && sent < ONE_MIB && !waits(k).Blocked?
    ensures var tail := if waits(k).Interrupted? then [ShowInfo(ERROR_PREFIX + MSG_SEMAPHORE)] else [];
      EventLoop(mtu, mode, endAt, waits, acc, k, sent, ended) ==
      EventLoop(mtu, mode, endAt, waits, acc + SendStreamActions(mode) + ([Progress(sent + mtu)] + tail),
                k + 1, sent + mtu, waits(k).Interrupted?)
  {
    var step := acc + SendStreamActions(mode) + [Progress(sent + mtu)];
    if waits(k).Interrupted? {
      var error := [ShowInfo(ERROR_PREFIX + MSG_SEMAPHORE)];
      assert step + error == acc + SendStreamActions(mode) + ([Progress(sent + mtu)] + error);
      assert EventLoop(mtu, mode, endAt, waits, acc, k, sent, ended) ==
        EventLoop(mtu, mode, endAt, waits, step + error, k + 1, sent + mtu, true);
    } else {
      assert step == acc + SendStreamActions(mode) + ([Progress(sent + mtu)] + []);
      assert EventLoop(mtu, mode, endAt, waits, acc, k, sent, ended) ==
        EventLoop(mtu, mode, endAt, waits, step, k + 1, sent + mtu, false);
    }
  }

  /**
   * Whatever the end signals and acquires do, each iteration adds exactly
   * the MTU to the count, and the count passes the bound by less than one MTU.
   */
  lemma {:induction false} EventLoopSent(mtu: int, mode: BleMode, endAt: nat -> bool, waits: nat -> Wait,
                                        acc: seq<Action>, k: nat, sent: int, ended: bool)
    requires 0 < mtu && sent == k * mtu && (k == 0 || (k - 1) * mtu < ONE_MIB)
    ensures var r := EventLoop(mtu, mode, endAt, waits, acc, k, sent, ended);
      && k <= r.iterations
      && r.bytesSent == r.iterations * mtu
      && (r.iterations == 0 || (r.iterations - 1) * mtu < ONE_MIB)
    decreases ONE_MIB - sent
  {
    if !(ended || endAt(k) || sent >= ONE_MIB) && !waits(k).Blocked? {
      assert sent + mtu == (k + 1) * mtu;
      EventLoopStep(mtu, mode, endAt, waits, acc, k, sent, ended);
      var tail := if waits(k).Interrupted? then [ShowInfo(ERROR_PREFIX + MSG_SEMAPHORE)] else [];
      EventLoopSent(mtu, mode, endAt, waits, acc + SendStreamActions(mode) + ([Progress(sent + mtu)] + tail),
                    k + 1, sent + mtu, waits(k).Interrupted?);
    } else if !(ended || endAt(k) || sent >= ONE_MIB) {
      assert sent + mtu == (k + 1) * mtu;
    }
  }

  /**
   * Each iteration issues one "/transfer", which is one stream request
   * outside NONE mode.
   */
  lemma {:induction false} EventLoopRequests(mtu: int, mode: BleMode, endAt: nat -> bool, waits: nat -> Wait,
                                            acc: seq<Action>, k: nat, sent: int, ended: bool)
    requires 0 < mtu
    ensures var r := EventLoop(mtu, mode, endAt, waits, acc, k, sent, ended);
      StreamRequests(r.actions) == StreamRequests(acc) + (if mode == NONE then 0 else r.iterations - k)
    decreases ONE_MIB - sent
  {
    if !(ended || endAt(k) || sent >= ONE_MIB) {
      var tail := if waits(k).Interrupted? then [ShowInfo(ERROR_PREFIX + MSG_SEMAPHORE)] else [];
      var step := acc + SendStreamActions(mode) + ([Progress(sent + mtu)] + tail);
      StreamStep(acc, mode, [Progress(sent + mtu)] + tail);
      if waits(k).Blocked? {
        assert step == acc + SendStreamActions(mode) + [Progress(sent + mtu)];
        assert EventLoop(mtu, mode, endAt, waits, acc, k, sent, ended) == EventRun(step, sent + mtu, k + 1, false, true);
      } else {
        EventLoopStep(mtu, mode, endAt, waits, acc, k, sent, ended);
        EventLoopRequests(mtu, mode, endAt, waits, step, k + 1, sent + mtu, waits(k).Interrupted?);
      }
    }
  }

  /** The loop leaves only when ended, past the bound, or blocked on the semaphore. */
  lemma {:induction false} EventLoopExit(mtu: int, mode: BleMode, endAt: nat -> bool, waits: nat -> Wait,
                                        acc: seq<Action>, k: nat, sent: int, ended: bool)
    requires 0 < mtu
    ensures var r := EventLoop(mtu, mode, endAt, waits, acc, k, sent, ended);
      !r.blocked ==> r.ended || r.bytesSent >= ONE_MIB
    decreases ONE_MIB - sent
  {
    if !(ended || endAt(k) || sent >= ONE_MIB) && !waits(k).Blocked? {
      EventLoopStep(mtu, mode, endAt, waits, acc, k, sent, ended);
      var tail := if waits(k).Interrupted? then [ShowInfo(ERROR_PREFIX + MSG_SEMAPHORE)] else [];
      EventLoopExit(mtu, mode, endAt, waits, acc + SendStreamActions(mode) + ([Progress(sent + mtu)] + tail),
                    k + 1, sent + mtu, waits(k).Interrupted?);
    }
  }

  /** q is n / d rounded up when q·d reaches n and (q - 1)·d does not. */
  lemma CeilingDivision(n: int, d: int, q: int)
    requires 0 < d && 0 <= n && q * d >= n && (q - 1) * d < n
    ensures q == (n + d - 1) / d
  {
    var a := n + d - 1;
    var m := a / d;
    assert m * d <= a < m * d + d;
    assert q * d <= a < q * d + d;
    ProductBelow(q - m, d);
    ProductBelow(m - q, d);
  }

  /** A multiple of a positive d that stays below d has a factor below 1. */
  lemma ProductBelow(x: int, d: int)
    requires 0 < d && x * d < d
    ensures x < 1
  {
  }

  /**
   * With a positive MTU, no end signal and every acquire released, the loop
   * issues ceil(1 MiB / MTU) stream requests (one per iteration outside
   * NONE mode) and stops with 1 MiB <= iBytesSent < 1 MiB + MTU; the count
   * never exceeds Integer.MAX_VALUE, so the Java int does not wrap.
   */
  lemma EventLoopUninterrupted(mtu: int, mode: BleMode, endAt: nat -> bool, waits: nat -> Wait, acc: seq<Action>)
    requires 0 < mtu <= INT_MAX
    requires forall j :: !endAt(j) && waits(j) == Released
    ensures var r := EventLoop(mtu, mode, endAt, waits, acc, 0, 0, false);
      && r.iterations == (ONE_MIB + mtu - 1) / mtu
      && ONE_MIB <= r.bytesSent < ONE_MIB + mtu
      && r.bytesSent <= INT_MAX
      && r.bytesSent == r.iterations * mtu
      && !r.ended && !r.blocked
      && StreamRequests(r.actions) == StreamRequests(acc) + (if mode == NONE then 0 else r.iterations)
  {
    var r := EventLoop(mtu, mode, endAt, waits, acc, 0, 0, false);
    EventLoopSent(mtu, mode, endAt, waits, acc, 0, 0, false);
    EventLoopRequests(mtu, mode, endAt, waits, acc, 0, 0, false);
    NeverEnds(mtu, mode, endAt, waits, acc, 0, 0);
    assert r.iterations > 0;
    CeilingDivision(ONE_MIB, mtu, r.iterations);
    assert r.bytesSent == (r.iterations - 1) * mtu + mtu;
  }

  /** Without end signals and with every acquire released, the loop ends only at the bound. */
  lemma {:induction false} NeverEnds(mtu: int, mode: BleMode, endAt: nat -> bool, waits: nat -> Wait,
                                    acc: seq<Action>, k: nat, sent: int)
    requires 0 < mtu
    requires forall j :: !endAt(j) && waits(j) == Released
    ensures var r := EventLoop(mtu, mode, endAt, waits, acc, k, sent, false);
      !r.ended && !r.blocked && r.bytesSent >= ONE_MIB
    decreases ONE_MIB - sent
  {
    if sent < ONE_MIB {
      NeverEnds(mtu, mode, endAt, waits, acc + SendStreamActions(mode) + [Progress(sent + mtu)], k + 1, sent + mtu);
    }
  }

  datatype LoopRun = LoopRun(actions: seq<Action>, bytesSent: int, iterations: nat, ended: bool)

  /**
   * sendViaLoop's for loop from iteration k on: it requests a stream and
   * shows the progress before adding the MTU, and never waits.
   */
  function ForLoop(mtu: int, mode: BleMode, endAt: nat -> bool,
                   acc: seq<Action>, k: nat, sent: int, ended: bool): (r: LoopRun)
    requires 0 < mtu
    ensures k <= r.iterations && (r.ended || r.bytesSent >= ONE_MIB)
    ensures StartsWith(r.actions, acc)
    decreases ONE_MIB - sent
  {
    var stop := ended || endAt(k);
    if stop || sent >= ONE_MIB then LoopRun(acc, sent, k, stop)
    else ForLoop(mtu, mode, endAt, acc + SendStreamActions(mode) + [Progress(sent)], k + 1, sent + mtu, false)
  }

  /**
   * Each iteration adds the MTU to the count, and the count passes the
   * bound by less than one MTU; the loop leaves only when ended or past
   * the bound.
   */
  lemma {:induction false} ForLoopSent(mtu: int, mode: BleMode, endAt: nat -> bool,
                                      acc: seq<Action>, k: nat, sent: int, ended: bool)
    requires 0 < mtu && sent == k * mtu && (k == 0 || (k - 1) * mtu < ONE_MIB)
    ensures var r := ForLoop(mtu, mode, endAt, acc, k, sent, ended);
      && k <= r.iterations
      && r.bytesSent == r.iterations * mtu
      && (r.iterations == 0 || (r.iterations - 1) * mtu < ONE_MIB)
      && (r.ended || r.bytesSent >= ONE_MIB)
    decreases ONE_MIB - sent
  {
    if !(ended || endAt(k) || sent >= ONE_MIB) {
      assert sent + mtu == (k + 1) * mtu;
      ForLoopSent(mtu, mode, endAt, acc + SendStreamActions(mode) + [Progress(sent)], k + 1, sent + mtu, false);
    }
  }

  /** Each iteration requests one stream outside NONE mode. */
  lemma {:induction false} ForLoopRequests(mtu: int, mode: BleMode, endAt: nat -> bool,
                                          acc: seq<Action>, k: nat, sent: int, ended: bool)
    requires 0 < mtu
    ensures var r := ForLoop(mtu, mode, endAt, acc, k, sent, ended);
      && k <= r.iterations
      && StreamRequests(r.actions) == StreamRequests(acc) + (if mode == NONE then 0 else r.iterations - k)
    decreases ONE_MIB - sent
  {
    if !(ended || endAt(k) || sent >= ONE_MIB) {
      StreamStep(acc, mode, [Progress(sent)]);
      ForLoopRequests(mtu, mode, endAt, acc + SendStreamActions(mode) + [Progress(sent)], k + 1, sent + mtu, false);
    }
  }

  /** System.currentTimeMillis difference / 1000 in Java long arithmetic (truncating). */
  function JavaDiv(a: int, d: int): (q: int)
    requires d > 0
    ensures a >= 0 ==> 0 <= a - q * d < d
    ensures a < 0 ==> 0 <= q * d - a < d
  {
    if a >= 0 then a / d else -((-a) / d)
  }

  /** "1 MB took n secs to complete", n being the whole seconds elapsed, in canonical decimal. */
  function ElapsedNotice(startMillis: int, endMillis: int): (r: string)
    ensures StartsWith(r, "1 MB took ") && |r| > |"1 MB took "| + |" secs to complete"|
    ensures r[|r| - |" secs to complete"|..] == " secs to complete"
    ensures JavaDecimal(r[|"1 MB took "|..|r| - |" secs to complete"|], JavaDiv(endMillis - startMillis, 1000))
  {
    var secs := JavaDiv(endMillis - startMillis, 1000);
    var r := "1 MB took " + IntToDecimal(secs) + " secs to complete";
    assert r[|"1 MB took "|..|r| - |" secs to complete"|] == IntToDecimal(secs);
    IntToDecimalIsJavaDecimal(secs);
    r
  }

  class StreamThread {
    var ended: bool
    var actions: seq<Action>

    constructor ()
      ensures !ended && actions == []
    {
      ended := false;
      actions := [];
    }

    method End()
      modifies this`ended
      ensures ended
    {
      ended := true;
    }

    /**
     * sendViaEvent, given the MTU read once before the loop. It returns the
     * final iBytesSent and whether the thread was left waiting on the
     * semaphore for good.
     */
    method SendViaEvent(mtu: int, mode: BleMode, endAt: nat -> bool, waits: nat -> Wait)
      returns (bytesSent: int, blocked: bool)
      requires 0 < mtu
      modifies this
      ensures var r := EventLoop(mtu, mode, endAt, waits, old(actions), 0, 0, old(ended));
        actions == r.actions && bytesSent == r.bytesSent && ended == r.ended && blocked == r.blocked
    {
      ghost var r := EventLoop(mtu, mode, endAt, waits, actions, 0, 0, ended);
      bytesSent, blocked := 0, false;
      var k: nat := 0;
      while true
        invariant EventLoop(mtu, mode, endAt, waits, actions, k, bytesSent, ended) == r
        decreases ONE_MIB - bytesSent
      {
        if endAt(k) {
          End();
        }
        if ended || bytesSent >= ONE_MIB {
          return;
        }
        actions := actions + SendStreamActions(mode);
        bytesSent := bytesSent + mtu;
        actions := actions + [Progress(bytesSent)];
        match waits(k) {
          case Released =>
          case Interrupted =>
            End();
            actions := actions + [ShowInfo(ERROR_PREFIX + MSG_SEMAPHORE)];
          case Blocked =>
            blocked := true;
            return;
        }
        k := k + 1;
      }
    }

    /**
     * sendViaLoop, given the MTU and the clock readings before and after
     * the loop; it ends by showing the elapsed whole seconds.
     */
    method SendViaLoop(mtu: int, mode: BleMode, endAt: nat -> bool, startMillis: int, endMillis: int)
      returns (bytesSent: int)
      requires 0 < mtu
      modifies this
      ensures var r := ForLoop(mtu, mode, endAt, old(actions), 0, 0, old(ended));
        && actions == r.actions + [ShowInfo(ElapsedNotice(startMillis, endMillis))]
        && bytesSent == r.bytesSent && ended == r.ended
    {
      ghost var r := ForLoop(mtu, mode, endAt, actions, 0, 0, ended);
      bytesSent := 0;
      var k: nat := 0;
      while true
        invariant ForLoop(mtu, mode, endAt, actions, k, bytesSent, ended) == r
        decreases ONE_MIB - bytesSent
      {
        if endAt(k) {
          End();
        }
        if ended || bytesSent >= ONE_MIB {
          break;
        }
        actions := actions + SendStreamActions(mode);
        actions := actions + [Progress(bytesSent)];
        bytesSent := bytesSent + mtu;
        k := k + 1;
      }
      actions := actions + [ShowInfo(ElapsedNotice(startMillis, endMillis))];
    }
  }

  /**
   * A central transfer test at the default MTU of 20 with every write
   * acknowledged: 52429 alphabet blocks are requested and 1048580 bytes counted.
   */
  method TransferTestScenario() returns (requests: nat, bytesSent: int)
    ensures requests == 52429 && bytesSent == 1048580
  {
    var endAt: nat -> bool := _ => false;
    var waits: nat -> Wait := _ => Released;
    var thread := new StreamThread();
    var blocked;
    bytesSent, blocked := thread.SendViaEvent(20, CENTRAL, endAt, waits);
    EventLoopUninterrupted(20, CENTRAL, endAt, waits, []);
    requests := StreamRequests(thread.actions);
  }
}
