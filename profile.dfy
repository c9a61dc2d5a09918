/**
 * BLEChatProfile: the GATT service, characteristic and descriptor UUIDs of
 * the chat profile, the version and description strings it serves, and the
 * log descriptions of connection states and GATT statuses.
 */
module Profile {
  import opened Wrappers
  import opened JavaText

  /** A java.util.UUID, compared by its 128-bit value. */
  newtype Uuid = x: int | 0 <= x < 0x1_0000_0000_0000_0000_0000_0000_0000_0000

  const SERVICE_UUID: Uuid := 0x1706BBC0_88AB_4B8D_877E_2237916EE929
  const CHARACTERISTIC_MESSAGE_UUID: Uuid := 0x275348FB_C14D_4FD5_B434_7C3F351DEA5F
  const DESCRIPTOR_MESSAGE_UUID: Uuid := 0x45bda094_ff40_4cb8_835d_0da8742bb1eb
  const CHARACTERISTIC_VERSION_UUID: Uuid := 0xBD28E457_4026_4270_A99F_F9BC20182E15
  const CHARACTERISTIC_DESC_UUID: Uuid := 0xFDD00F2A_DAA3_47F5_8715_9DE659E5EB7B
  const CHARACTERISTIC_RFCOMM_TRANSFER_UUID: Uuid := 0x34df5318_94de_4c1d_af31_31616c7fd9dd
  const DESCRIPTOR_RFCOMM_TRANSFER_UUID: Uuid := 0x42a210d6_b6c5_4f82_a9cc_67d0e1d76a1e
  const CHARACTERISTIC_BLE_TRANSFER_UUID: Uuid := 0x482f1096_137b_46cc_8ca8_3457c15cc433
  const DESCRIPTOR_BLE_TRANSFER_UUID: Uuid := 0x421ecb34_bb49_4b70_a5ea_042c1f38ec32

  /** A characteristic value: set from a String (sent UTF-8 encoded) or from bytes. */
  datatype Payload = Text(text: string) | Bytes(data: seq<byte>)

  /** The nine identifiers of the profile, in declaration order. */
  const PROFILE_UUIDS: seq<Uuid> := [
    SERVICE_UUID, CHARACTERISTIC_MESSAGE_UUID, DESCRIPTOR_MESSAGE_UUID,
    CHARACTERISTIC_VERSION_UUID, CHARACTERISTIC_DESC_UUID,
    CHARACTERISTIC_RFCOMM_TRANSFER_UUID, DESCRIPTOR_RFCOMM_TRANSFER_UUID,
    CHARACTERISTIC_BLE_TRANSFER_UUID, DESCRIPTOR_BLE_TRANSFER_UUID]

  /** Pause between write retries, in milliseconds. */
  const SEND_INTERVAL := 100

  const VERSION := "1"
  const DESCRIPTION := "BLEChat - Juan Gomez :_AtilA_"

  /* Android SDK constants (BluetoothProfile / BluetoothGatt). */
  const STATE_DISCONNECTED := 0
  const STATE_CONNECTING := 1
  const STATE_CONNECTED := 2
  const STATE_DISCONNECTING := 3
  const GATT_SUCCESS := 0
  const GATT_FAILURE := 0x101

  /** The helpers dispatch on characteristic UUIDs; no two of them coincide. */
  lemma ProfileUuidsDistinct()
    ensures |PROFILE_UUIDS| == 9
    ensures forall i, j :: 0 <= i < j < |PROFILE_UUIDS| ==> PROFILE_UUIDS[i] != PROFILE_UUIDS[j]
  {
  }

  /** The version and description served to centrals are ASCII, one byte per character. */
  lemma ProfileStrings()
    ensures IsAscii(VERSION) && GetBytes(VERSION) == [0x31]
    ensures IsAscii(DESCRIPTION) && |GetBytes(DESCRIPTION)| == 29
  {
  }

  predicate IsKnownState(state: int)
  {
    state == STATE_CONNECTED || state == STATE_CONNECTING ||
    state == STATE_DISCONNECTED || state == STATE_DISCONNECTING
  }

  /** getStateDescription: the name of a connection state, for logging. */
  function StateDescription(state: int): (r: string)
    ensures state == STATE_CONNECTED ==> r == "Connected"
    ensures state == STATE_CONNECTING ==> r == "Connecting"
    ensures state == STATE_DISCONNECTED ==> r == "Disconnected"
    ensures state == STATE_DISCONNECTING ==> r == "Disconnecting"
  {
    if state == STATE_CONNECTED then "Connected"
    else if state == STATE_CONNECTING then "Connecting"
    else if state == STATE_DISCONNECTED then "Disconnected"
    else if state == STATE_DISCONNECTING then "Disconnecting"
    else "Unknown State " + IntToDecimal(state)
  }

  /**
   * Any other state is described as "Unknown State " followed by the
   * canonical decimal of the state value.
   */
  lemma UnknownStateDescription(state: int)
    requires !IsKnownState(state)
    ensures StartsWith(StateDescription(state), "Unknown State ")
    ensures JavaDecimal(StateDescription(state)[|"Unknown State "|..], state)
  {
    var r := StateDescription(state);
    assert r[|"Unknown State "|..] == IntToDecimal(state);
    IntToDecimalIsJavaDecimal(state);
  }

  /** Distinct states get distinct descriptions, so the log identifies the state. */
  lemma StateDescriptionInjective(a: int, b: int)
    ensures StateDescription(a) == StateDescription(b) ==> a == b
  {
    if StateDescription(a) == StateDescription(b) {
      if !IsKnownState(a) && !IsKnownState(b) {
        UnknownStateDescription(a);
        UnknownStateDescription(b);
      }
    }
  }

  /** getStatusDescription: "SUCCESS" for GATT_SUCCESS, otherwise "Unknown Status n". */
  function StatusDescription(status: int): (r: string)
    ensures status == GATT_SUCCESS <==> r == "SUCCESS"
    ensures status != GATT_SUCCESS ==>
      StartsWith(r, "Unknown Status ") && JavaDecimal(r[|"Unknown Status "|..], status)
  {
    if status == GATT_SUCCESS then "SUCCESS"
    else
      var r := "Unknown Status " + IntToDecimal(status);
      assert r[|"Unknown Status "|..] == IntToDecimal(status);
      IntToDecimalIsJavaDecimal(status);
      r
  }
}
