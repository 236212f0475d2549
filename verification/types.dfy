/**
 * Types and constants shared by the gateway model: the fixed-width integers
 * of the C source, Bluetooth addresses, the IQ report, the angle and the
 * position records, and the capacities of app_config.h.
 */
module AoaTypes {

  type byte = x: int | 0 <= x < 0x100
  type int8 = x: int | -0x80 <= x < 0x80
  type uint16 = x: int | 0 <= x < 0x1_0000
  type uint32 = x: int | 0 <= x < 0x1_0000_0000

  /** bd_addr: six bytes, compared with memcmp. */
  type BdAddr = s: seq<byte> | |s| == 6 witness [0, 0, 0, 0, 0, 0]

  /** A 128-bit UUID as the 16 bytes memcmp compares. */
  type Uuid = s: seq<byte> | |s| == 16 witness seq(16, _ => 0)

  /**
   * aoa_id_t: a character string compared by content. It is derived from an
   * address by aoa_address_to_id, which is not part of this model.
   */
  type AoaId = string

  /**
   * A BLE channel index, 0 to 39 (data channels 0-36, advertising channels
   * 37-39): the indices the channel table covers.
   */
  type ChannelIndex = c: int | 0 <= c < 40

  // Capacities (app_config.h).
  const MAX_NUM_TAGS: nat := 30
  const MAX_NUM_LOCATORS: nat := 8

  // Sample geometry of the 4x4 uniform rectangular array (app_config.h).
  const AOA_NUM_SNAPSHOTS: nat := 4
  const AOA_NUM_ARRAY_ELEMENTS: nat := 16
  const AOA_REF_PERIOD_SAMPLES: nat := 7

  datatype Option<T> = None | Some(value: T)

  /**
   * aoa_iq_report_t; its `length` field is |samples|. The channel is the
   * uint8_t relayed by the tag's GATT value, so it can lie past 39.
   */
  datatype IqReport = IqReport(
    address: BdAddr,
    addressType: byte,
    channel: byte,
    rssi: int8,
    eventCounter: uint16,
    samples: seq<int8>)

  /** aoa_angle_t; the float fields are reals here. */
  datatype Angle = Angle(
    azimuth: real,
    elevation: real,
    distance: real,
    rssi: int,
    channel: int,
    sequence: int)

  /** aoa_position_t */
  datatype Position = Position(x: real, y: real, z: real)

  const ZERO_ANGLE := Angle(0.0, 0.0, 0.0, 0, 0, 0)
  const ZERO_POSITION := Position(0.0, 0.0, 0.0)
}

/** The linear scan with early exit that every lookup of the source performs. */
module Search {
  import opened AoaTypes

  /**
   * The lowest index whose element satisfies `matches`, or None when no
   * element does.
   */
  function FirstIndex<T>(s: seq<T>, matches: T -> bool): (r: Option<nat>)
    ensures r.Some? ==> r.value < |s| && matches(s[r.value])
    ensures r.Some? ==> forall j :: 0 <= j < r.value ==> !matches(s[j])
    ensures r.None? <==> forall j :: 0 <= j < |s| ==> !matches(s[j])
  {
    if |s| == 0 then None
    else if matches(s[0]) then Some(0)
    else match FirstIndex(s[1..], matches) {
      case None => None
      case Some(k) => Some(k + 1)
    }
  }

  /**
   * The scan sees only the prefix up to the first match: a later element
   * appended to the sequence cannot change the answer, and it becomes the
   * answer only when nothing before it matched.
   */
  lemma {:induction false} FirstIndexAppend<T>(s: seq<T>, x: T, matches: T -> bool)
    ensures FirstIndex(s + [x], matches) ==
      match FirstIndex(s, matches) {
        case Some(k) => Some(k)
        case None => if matches(x) then Some(|s|) else None
      }
  {
    if |s| > 0 {
      assert (s + [x])[1..] == s[1..] + [x];
      FirstIndexAppend(s[1..], x, matches);
    }
  }
}
