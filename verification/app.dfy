/**
 * The application layer of app.c: the advertising-data parser, the locator
 * registry read from the configuration, the asset tag table with its
 * per-locator angle and ready slots, the readiness gate that triggers the
 * position estimate, and the IQ report path from angle calculation to the
 * tag's observation. The RTL locationing library is a parameter: each call
 * it would receive is a value of RtlCall, and its answers come from Rtl.
 */
module App {
  import opened AoaTypes
  import opened Search
  import opened Conn
  import opened Aoa

  // ---------------------------------------------------------------------------
  // Advertising data
  // ---------------------------------------------------------------------------

  /** AD types of the incomplete and complete lists of 128-bit service UUIDs (app.h). */
  const AD_FIELD_INCOMPLETE: byte := 0x06
  const AD_FIELD_COMPLETE: byte := 0x07
  const SERVICE_UUID_LEN: nat := 16

  /** The byte the parser reads at offset k; reads past the data yield 0 here. */
  function ByteAt(adv: seq<byte>, k: nat): byte {
    if k < |adv| then adv[k] else 0
  }

  /** The 16 bytes memcmp compares at offset p. */
  function ChunkAt(adv: seq<byte>, p: nat): seq<byte> {
    seq<byte>(SERVICE_UUID_LEN, j requires 0 <= j < SERVICE_UUID_LEN => ByteAt(adv, p + j))
  }

  /** Where the AD structure after the one at offset s starts: its length byte plus one. */
  function NextStructure(adv: seq<byte>, s: nat): nat {
    s + ByteAt(adv, s) + 1
  }

  /**
   * The offsets of the AD structures from offset i on (Bluetooth Core
   * Specification, Vol 3, Part C, Section 11): each structure is a length
   * byte followed by that many bytes, the first of which is the AD type.
   */
  function Structures(adv: seq<byte>, i: nat): seq<nat>
    decreases |adv| - i
  {
    if i >= |adv| then [] else [i] + Structures(adv, NextStructure(adv, i))
  }

  /**
   * The structure at offset s is a 128-bit service UUID list holding the
   * UUID in one of the 16-byte slots that start inside it, at s + 2 + 16k.
   */
  ghost predicate ListsService(adv: seq<byte>, s: nat, uuid: Uuid) {
    && (ByteAt(adv, s + 1) == AD_FIELD_INCOMPLETE || ByteAt(adv, s + 1) == AD_FIELD_COMPLETE)
    && exists p :: s + 2 <= p < NextStructure(adv, s) && (p - s - 2) % SERVICE_UUID_LEN == 0
                   && ChunkAt(adv, p) == uuid
  }

  /** The walk always moves forward and stays inside the data, so it ends. */
  lemma {:induction false} StructuresAscend(adv: seq<byte>, i: nat)
    ensures forall j :: 0 <= j < |Structures(adv, i)| ==> i <= Structures(adv, i)[j] < |adv|
    ensures forall j :: 0 < j < |Structures(adv, i)| ==>
      Structures(adv, i)[j] == NextStructure(adv, Structures(adv, i)[j - 1])
    decreases |adv| - i
  {
    if i < |adv| {
      StructuresAscend(adv, NextStructure(adv, i));
    }
  }

  /**
   * find_service_in_advertisement: true iff some AD structure lists the
   * UUID; structures of other types are skipped.
   */
  method FindServiceInAdvertisement(adv: seq<byte>, uuid: Uuid) returns (found: bool)
    ensures found <==> exists k :: 0 <= k < |Structures(adv, 0)| && ListsService(adv, Structures(adv, 0)[k], uuid)
  {
    found := false;
    var i := 0;
    ghost var visited: seq<nat> := [];
    while i < |adv|
      invariant Structures(adv, 0) == visited + Structures(adv, i)
      invariant forall k :: 0 <= k < |visited| ==> !ListsService(adv, visited[k], uuid)
      decreases |adv| - i
    {
      var fieldLength := ByteAt(adv, i);
      var fieldType := ByteAt(adv, i + 1);
      var next := i + fieldLength + 1;
      assert Structures(adv, i) == [i] + Structures(adv, next);
      if fieldType == AD_FIELD_INCOMPLETE || fieldType == AD_FIELD_COMPLETE {
        found := FindUuidInStructure(adv, i, uuid);
        if found {
          assert Structures(adv, 0)[|visited|] == i;
          return;
        }
      }
      visited := visited + [i];
      i := next;
    }
    assert Structures(adv, 0) == visited;
  }

  /**
   * The inner loop of find_service_in_advertisement over the 16-byte slots
   * of the service list at offset s.
   */
  method FindUuidInStructure(adv: seq<byte>, s: nat, uuid: Uuid) returns (found: bool)
    requires ByteAt(adv, s + 1) == AD_FIELD_INCOMPLETE || ByteAt(adv, s + 1) == AD_FIELD_COMPLETE
    ensures found <==> ListsService(adv, s, uuid)
  {
    var next := NextStructure(adv, s);
    var p := s + 2;
    while p < next
      invariant s + 2 <= p && (p - s - 2) % SERVICE_UUID_LEN == 0
      invariant forall q :: s + 2 <= q < p && (q - s - 2) % SERVICE_UUID_LEN == 0 ==> ChunkAt(adv, q) != uuid
      decreases next - p
    {
      if ChunkAt(adv, p) == uuid {
        return true;
      }
      p := p + SERVICE_UUID_LEN;
    }
    assert !ListsService(adv, s, uuid) by {
      forall q | s + 2 <= q < next && (q - s - 2) % SERVICE_UUID_LEN == 0
        ensures ChunkAt(adv, q) != uuid
      {
        assert q < p;
      }
    }
    return false;
  }

  // ---------------------------------------------------------------------------
  // The RTL locationing library as calls and answers
  // ---------------------------------------------------------------------------

  datatype Axis = AxisX | AxisY | AxisZ
  const AXES: seq<Axis> := [AxisX, AxisY, AxisZ]

  datatype MeasurementKind = MeasureAzimuth | MeasureElevation | MeasureDistance

  /** struct sl_rtl_loc_locator_item: a locator's placement. */
  datatype LocatorItem = LocatorItem(
    coordinateX: real, coordinateY: real, coordinateZ: real,
    orientationX: real, orientationY: real, orientationZ: real)

  /** One call into sl_rtl_loc_* or sl_rtl_util_* on a tag's library items. */
  datatype RtlCall =
    | LocInit
    | LocSetMode
    | LocAddLocator(item: LocatorItem)
    | LocCreatePositionEstimator
    | UtilInit(axis: Axis)
    | UtilSetFilteringAmount(axis: Axis)
    | SetLocatorMeasurement(locatorId: uint32, kind: MeasurementKind, value: real)
    | LocProcess
    | LocGetResult(axis: Axis)
    | UtilFilter(axis: Axis, value: real)
    | LocClearMeasurements

  /** enum sl_rtl_error_code; 0 is SL_RTL_ERROR_SUCCESS. */
  type RtlCode = nat
  const RTL_SUCCESS: RtlCode := 0

  /**
   * The library's answers for the tag with a given ID: the return code of
   * each call, the locator ID that sl_rtl_loc_add_locator assigns to the
   * i-th locator added, the coordinate sl_rtl_loc_get_result yields for an
   * axis, and the value the axis filter yields for an input.
   */
  datatype Rtl = Rtl(
    status: (AoaId, RtlCall) -> RtlCode,
    assignedId: (AoaId, nat) -> uint32,
    result: (AoaId, Axis) -> real,
    filtered: (AoaId, Axis, real) -> real)

  function Fails(rtl: Rtl, id: AoaId): RtlCall -> bool {
    (c: RtlCall) => rtl.status(id, c) != RTL_SUCCESS
  }

  /**
   * How many calls of a CHECK_ERROR chain succeed before the first one that
   * fails: the chain stops at that call and returns its code.
   */
  function Completed<T>(calls: seq<T>, fails: T -> bool): (k: nat)
    ensures k <= |calls|
    ensures forall j :: 0 <= j < k ==> !fails(calls[j])
    ensures k < |calls| ==> fails(calls[k])
  {
    match FirstIndex(calls, fails)
    case None => |calls|
    case Some(k) => k
  }

  /**
   * The count of successful calls is determined by the calls: k is it when
   * the first k succeed and the next one, if any, fails.
   */
  lemma CompletedUnique<T>(calls: seq<T>, fails: T -> bool, k: nat)
    requires k <= |calls|
    requires forall j :: 0 <= j < k ==> !fails(calls[j])
    requires k < |calls| ==> fails(calls[k])
    ensures Completed(calls, fails) == k
  {
  }

  /**
   * A chain of two chains: the second runs only when the whole first one
   * succeeds.
   */
  lemma CompletedConcat<T>(a: seq<T>, b: seq<T>, fails: T -> bool)
    ensures Completed(a + b, fails) ==
      if Completed(a, fails) < |a| then Completed(a, fails) else |a| + Completed(b, fails)
  {
    var ka, kb := Completed(a, fails), Completed(b, fails);
    if ka < |a| {
      assert (a + b)[ka] == a[ka];
      assert forall j :: 0 <= j < ka ==> (a + b)[j] == a[j];
      CompletedUnique(a + b, fails, ka);
    } else {
      assert forall j :: 0 <= j < |a| ==> (a + b)[j] == a[j];
      assert forall j :: |a| <= j < |a| + kb ==> (a + b)[j] == b[j - |a|];
      assert kb < |b| ==> (a + b)[|a| + kb] == b[kb];
      CompletedUnique(a + b, fails, |a| + kb);
    }
  }

  /** The code a chain returns: the first failing call's, or success. */
  function ChainCode(calls: seq<RtlCall>, rtl: Rtl, id: AoaId): (code: RtlCode)
    ensures code == RTL_SUCCESS <==> Completed(calls, Fails(rtl, id)) == |calls|
  {
    var k := Completed(calls, Fails(rtl, id));
    if k < |calls| then rtl.status(id, calls[k]) else RTL_SUCCESS
  }

  // ---------------------------------------------------------------------------
  // Locators and asset tags
  // ---------------------------------------------------------------------------

  /** aoa_locator_t */
  datatype Locator = Locator(id: AoaId, item: LocatorItem)

  /** aoa_asset_tag_t without its library items. */
  datatype AssetTag = AssetTag(
    id: AoaId,
    locId: seq<uint32>,
    angle: seq<Angle>,
    ready: seq<bool>,
    position: Position)

  /** The per-locator arrays hold MAX_NUM_LOCATORS entries. */
  predicate WellFormedTag(tag: AssetTag) {
    |tag.locId| == MAX_NUM_LOCATORS && |tag.angle| == MAX_NUM_LOCATORS && |tag.ready| == MAX_NUM_LOCATORS
  }

  /** A slot of the zero-initialised static tag table. */
  const EMPTY_TAG: AssetTag := AssetTag(
    "", seq(MAX_NUM_LOCATORS, _ => 0), seq(MAX_NUM_LOCATORS, _ => ZERO_ANGLE),
    seq(MAX_NUM_LOCATORS, _ => false), ZERO_POSITION)

  function TagIdIs(id: AoaId): AssetTag -> bool {
    (t: AssetTag) => t.id == id
  }

  function LocatorIdIs(id: AoaId): Locator -> bool {
    (l: Locator) => l.id == id
  }

  /** Every locator below the count has reported since the flags were last cleared. */
  predicate AllReady(tag: AssetTag, count: nat)
    requires WellFormedTag(tag) && count <= MAX_NUM_LOCATORS
  {
    forall i :: 0 <= i < count ==> tag.ready[i]
  }

  /** What on_message does to the tag with an observation from locator loc. */
  function Record(tag: AssetTag, loc: nat, angle: Angle): (r: AssetTag)
    requires WellFormedTag(tag) && loc < MAX_NUM_LOCATORS
    ensures WellFormedTag(r) && r.id == tag.id && r.locId == tag.locId && r.position == tag.position
    ensures r.angle[loc] == angle && r.ready[loc]
    ensures forall i :: 0 <= i < MAX_NUM_LOCATORS && i != loc ==> r.angle[i] == tag.angle[i] && r.ready[i] == tag.ready[i]
  {
    tag.(angle := tag.angle[loc := angle], ready := tag.ready[loc := true])
  }

  /** Records a run of observations, one per locator index, in order. */
  function RecordAll(tag: AssetTag, locs: seq<nat>, angle: Angle): (r: AssetTag)
    requires WellFormedTag(tag) && forall j :: 0 <= j < |locs| ==> locs[j] < MAX_NUM_LOCATORS
    ensures WellFormedTag(r)
    decreases |locs|
  {
    if |locs| == 0 then tag else RecordAll(Record(tag, locs[0], angle), locs[1..], angle)
  }

  /**
   * The readiness gate: after a run of observations, a tag is ready exactly
   * when every locator below the count was ready before or reported in the
   * run.
   */
  lemma {:induction false} RecordAllReady(tag: AssetTag, locs: seq<nat>, angle: Angle, count: nat)
    requires WellFormedTag(tag) && count <= MAX_NUM_LOCATORS
    requires forall j :: 0 <= j < |locs| ==> locs[j] < MAX_NUM_LOCATORS
    ensures forall i :: 0 <= i < MAX_NUM_LOCATORS ==>
      (RecordAll(tag, locs, angle).ready[i] <==> tag.ready[i] || i in locs)
    ensures AllReady(RecordAll(tag, locs, angle), count) <==>
      forall i :: 0 <= i < count ==> tag.ready[i] || i in locs
    decreases |locs|
  {
    if |locs| > 0 {
      RecordAllReady(Record(tag, locs[0], angle), locs[1..], angle, count);
      assert forall i :: i in locs <==> i == locs[0] || i in locs[1..];
    }
  }

  // ---------------------------------------------------------------------------
  // The call chains of init_asset_tag and run_estimation
  // ---------------------------------------------------------------------------

  /** The calls init_asset_tag makes for a new tag, in order. */
  function InitCalls(locators: seq<Locator>): (calls: seq<RtlCall>)
    ensures |calls| == |locators| + 9
  {
    [LocInit, LocSetMode] + AddCalls(locators) + SETUP_CALLS
  }

  /** One add_locator call per configured locator, in table order. */
  function AddCalls(locators: seq<Locator>): (calls: seq<RtlCall>)
    ensures |calls| == |locators|
    ensures forall i :: 0 <= i < |locators| ==> calls[i] == LocAddLocator(locators[i].item)
  {
    seq(|locators|, i requires 0 <= i < |locators| => LocAddLocator(locators[i].item))
  }

  /** The calls of init_asset_tag after the locators: the estimator, then each axis filter. */
  const SETUP_CALLS: seq<RtlCall> :=
    [LocCreatePositionEstimator,
     UtilInit(AxisX), UtilSetFilteringAmount(AxisX),
     UtilInit(AxisY), UtilSetFilteringAmount(AxisY),
     UtilInit(AxisZ), UtilSetFilteringAmount(AxisZ)]

  /** The locator IDs with the first k replaced by the ones the library assigned. */
  function AssignedBelow(locId: seq<uint32>, id: AoaId, rtl: Rtl, k: nat): (r: seq<uint32>)
    requires |locId| == MAX_NUM_LOCATORS
    ensures |r| == MAX_NUM_LOCATORS
  {
    seq(MAX_NUM_LOCATORS, q requires 0 <= q < MAX_NUM_LOCATORS => LocatorIdAt(locId, id, rtl, k, q))
  }

  function LocatorIdAt(locId: seq<uint32>, id: AoaId, rtl: Rtl, k: nat, q: nat): uint32
    requires q < |locId|
  {
    if q < k then rtl.assignedId(id, q) else locId[q]
  }

  /** The flags with the first k cleared. */
  function ClearedBelow(ready: seq<bool>, k: nat): (r: seq<bool>)
    requires |ready| == MAX_NUM_LOCATORS
    ensures |r| == MAX_NUM_LOCATORS
  {
    seq(MAX_NUM_LOCATORS, q requires 0 <= q < MAX_NUM_LOCATORS => if q < k then false else ready[q])
  }

  /** How many add_locator calls of init_asset_tag succeed. */
  function LocatorsAdded(locators: seq<Locator>, rtl: Rtl, id: AoaId): (added: nat)
    ensures added <= |locators|
  {
    var k := Completed(InitCalls(locators), Fails(rtl, id));
    if k <= 2 then 0 else if k - 2 < |locators| then k - 2 else |locators|
  }

  /**
   * The tag slot after init_asset_tag: the ID copied, and for each locator
   * whose add_locator call succeeded, its assigned ID stored and its ready
   * flag cleared; the slot is otherwise untouched.
   */
  function InitializedTag(tag: AssetTag, id: AoaId, locators: seq<Locator>, rtl: Rtl): (r: AssetTag)
    requires WellFormedTag(tag) && |locators| <= MAX_NUM_LOCATORS
    ensures WellFormedTag(r)
  {
    var added := LocatorsAdded(locators, rtl, id);
    tag.(id := id,
         locId := AssignedBelow(tag.locId, id, rtl, added),
         ready := ClearedBelow(tag.ready, added))
  }

  /** init_asset_tag stops at init or set_mode when either fails, before any locator. */
  lemma InitFailsEarly(locators: seq<Locator>, rtl: Rtl, id: AoaId)
    requires rtl.status(id, LocInit) != RTL_SUCCESS || rtl.status(id, LocSetMode) != RTL_SUCCESS
    ensures LocatorsAdded(locators, rtl, id) == 0
    ensures ChainCode(InitCalls(locators), rtl, id) ==
      if rtl.status(id, LocInit) != RTL_SUCCESS then rtl.status(id, LocInit) else rtl.status(id, LocSetMode)
  {
    var calls := InitCalls(locators);
    if rtl.status(id, LocInit) != RTL_SUCCESS {
      CompletedUnique(calls, Fails(rtl, id), 0);
    } else {
      CompletedUnique(calls, Fails(rtl, id), 1);
    }
  }

  /**
   * After init and set_mode, the chain of init_asset_tag is decided by the
   * locators added: a failed add_locator ends it with that call's code, and
   * otherwise the estimator setup decides.
   */
  lemma InitAfterLocators(locators: seq<Locator>, rtl: Rtl, id: AoaId, added: nat, addCode: RtlCode)
    requires rtl.status(id, LocInit) == RTL_SUCCESS && rtl.status(id, LocSetMode) == RTL_SUCCESS
    requires added <= |locators|
    requires forall j :: 0 <= j < added ==> rtl.status(id, LocAddLocator(locators[j].item)) == RTL_SUCCESS
    requires addCode == RTL_SUCCESS ==> added == |locators|
    requires addCode != RTL_SUCCESS ==> added < |locators| && addCode == rtl.status(id, LocAddLocator(locators[added].item))
    ensures LocatorsAdded(locators, rtl, id) == added
    ensures ChainCode(InitCalls(locators), rtl, id) ==
      if addCode != RTL_SUCCESS then addCode else ChainCode(SETUP_CALLS, rtl, id)
  {
    var fails := Fails(rtl, id);
    var prefix := [LocInit, LocSetMode] + AddCalls(locators);
    var calls := InitCalls(locators);
    assert calls == prefix + SETUP_CALLS;
    assert forall j :: 2 <= j < 2 + |locators| ==> calls[j] == LocAddLocator(locators[j - 2].item);
    if addCode != RTL_SUCCESS {
      CompletedUnique(calls, fails, 2 + added);
    } else {
      CompletedUnique(prefix, fails, |prefix|);
      CompletedConcat(prefix, SETUP_CALLS, fails);
    }
  }

  /** A successful init leaves every locator's flag clear and its assigned ID stored. */
  lemma InitSuccess(tag: AssetTag, id: AoaId, locators: seq<Locator>, rtl: Rtl)
    requires WellFormedTag(tag) && |locators| <= MAX_NUM_LOCATORS
    requires ChainCode(InitCalls(locators), rtl, id) == RTL_SUCCESS
    ensures InitializedTag(tag, id, locators, rtl).id == id
    ensures forall i :: 0 <= i < |locators| ==>
      && !InitializedTag(tag, id, locators, rtl).ready[i]
      && InitializedTag(tag, id, locators, rtl).locId[i] == rtl.assignedId(id, i)
  {
  }

  /** Measurements per locator: azimuth and elevation, and distance only for a single locator. */
  function PerLocator(count: nat): nat {
    if count == 1 then 3 else 2
  }

  /** The measurement calls for locator i. */
  function LocatorCalls(tag: AssetTag, count: nat, i: nat): (calls: seq<RtlCall>)
    requires WellFormedTag(tag) && i < MAX_NUM_LOCATORS
    ensures |calls| == PerLocator(count)
  {
    [SetLocatorMeasurement(tag.locId[i], MeasureAzimuth, tag.angle[i].azimuth),
     SetLocatorMeasurement(tag.locId[i], MeasureElevation, tag.angle[i].elevation)]
    + (if count == 1 then [SetLocatorMeasurement(tag.locId[i], MeasureDistance, tag.angle[i].distance)] else [])
  }

  /** How many measurement calls locators 0 .. k-1 make. */
  function GroupStart(count: nat, k: nat): nat {
    if count == 1 then 3 * k else 2 * k
  }

  /** The measurement calls for locators 0 .. k-1, in order. */
  function MeasurementCalls(tag: AssetTag, count: nat, k: nat): (calls: seq<RtlCall>)
    requires WellFormedTag(tag) && k <= MAX_NUM_LOCATORS
    ensures |calls| == GroupStart(count, k)
  {
    if k == 0 then [] else MeasurementCalls(tag, count, k - 1) + LocatorCalls(tag, count, k - 1)
  }

  /** The calls for locator i sit at GroupStart(count, i) in the full measurement list. */
  lemma {:induction false} MeasurementCallAt(tag: AssetTag, count: nat, k: nat, i: nat, m: nat)
    requires WellFormedTag(tag) && k <= MAX_NUM_LOCATORS && i < k && m < PerLocator(count)
    ensures GroupStart(count, i) + m < GroupStart(count, k)
    ensures MeasurementCalls(tag, count, k)[GroupStart(count, i) + m] == LocatorCalls(tag, count, i)[m]
  {
    if i < k - 1 {
      MeasurementCallAt(tag, count, k - 1, i, m);
    }
  }

  /**
   * When the calls of the locators before i all succeed and a call of
   * locator i fails, the measurement chain stops inside locator i's calls
   * with that call's code.
   */
  lemma MeasurementsStopAt(tag: AssetTag, count: nat, rtl: Rtl, i: nat)
    requires WellFormedTag(tag) && i < count <= MAX_NUM_LOCATORS
    requires forall j :: 0 <= j < GroupStart(count, i) ==>
      !Fails(rtl, tag.id)(MeasurementCalls(tag, count, count)[j])
    requires ChainCode(LocatorCalls(tag, count, i), rtl, tag.id) != RTL_SUCCESS
    ensures MeasurementsCompleted(tag, count, rtl) ==
      GroupStart(count, i) + Completed(LocatorCalls(tag, count, i), Fails(rtl, tag.id))
    ensures ChainCode(MeasurementCalls(tag, count, count), rtl, tag.id) == ChainCode(LocatorCalls(tag, count, i), rtl, tag.id)
  {
    var calls := MeasurementCalls(tag, count, count);
    var m := Completed(LocatorCalls(tag, count, i), Fails(rtl, tag.id));
    forall j | GroupStart(count, i) <= j <= GroupStart(count, i) + m
      ensures calls[j] == LocatorCalls(tag, count, i)[j - GroupStart(count, i)]
    {
      MeasurementCallAt(tag, count, count, i, j - GroupStart(count, i));
    }
    CompletedUnique(calls, Fails(rtl, tag.id), GroupStart(count, i) + m);
  }

  /** When locator i's calls all succeed as well, the chain has gone through locator i. */
  lemma MeasurementsContinue(tag: AssetTag, count: nat, rtl: Rtl, i: nat)
    requires WellFormedTag(tag) && i < count <= MAX_NUM_LOCATORS
    requires forall j :: 0 <= j < GroupStart(count, i) ==>
      !Fails(rtl, tag.id)(MeasurementCalls(tag, count, count)[j])
    requires ChainCode(LocatorCalls(tag, count, i), rtl, tag.id) == RTL_SUCCESS
    ensures forall j :: 0 <= j < GroupStart(count, i + 1) ==>
      !Fails(rtl, tag.id)(MeasurementCalls(tag, count, count)[j])
  {
    forall j | GroupStart(count, i) <= j < GroupStart(count, i + 1)
      ensures !Fails(rtl, tag.id)(MeasurementCalls(tag, count, count)[j])
    {
      MeasurementCallAt(tag, count, count, i, j - GroupStart(count, i));
    }
  }

  /** The calls after the measurements: process, three results, three filters, clear. */
  function TailCalls(tag: AssetTag, rtl: Rtl): (calls: seq<RtlCall>)
    ensures |calls| == 8
  {
    [LocProcess,
     LocGetResult(AxisX), LocGetResult(AxisY), LocGetResult(AxisZ),
     UtilFilter(AxisX, rtl.result(tag.id, AxisX)),
     UtilFilter(AxisY, rtl.result(tag.id, AxisY)),
     UtilFilter(AxisZ, rtl.result(tag.id, AxisZ)),
     LocClearMeasurements]
  }

  /** How many measurement calls of run_estimation succeed. */
  function MeasurementsCompleted(tag: AssetTag, count: nat, rtl: Rtl): nat
    requires WellFormedTag(tag) && count <= MAX_NUM_LOCATORS
  {
    Completed(MeasurementCalls(tag, count, count), Fails(rtl, tag.id))
  }

  /** How many of the tail calls succeed; none run after a failed measurement. */
  function TailCompleted(tag: AssetTag, count: nat, rtl: Rtl): nat
    requires WellFormedTag(tag) && count <= MAX_NUM_LOCATORS
  {
    if MeasurementsCompleted(tag, count, rtl) < GroupStart(count, count) then 0
    else Completed(TailCalls(tag, rtl), Fails(rtl, tag.id))
  }

  /** run_estimation's return code: the first failing call's, or success. */
  function EstimationCode(tag: AssetTag, count: nat, rtl: Rtl): RtlCode
    requires WellFormedTag(tag) && count <= MAX_NUM_LOCATORS
  {
    var km := MeasurementsCompleted(tag, count, rtl);
    var kt := TailCompleted(tag, count, rtl);
    if km < GroupStart(count, count) then rtl.status(tag.id, MeasurementCalls(tag, count, count)[km])
    else if kt < 8 then rtl.status(tag.id, TailCalls(tag, rtl)[kt])
    else RTL_SUCCESS
  }

  /**
   * The flags after km measurement calls succeeded: a locator's flag is
   * cleared once all its calls have gone through.
   */
  function FedFlags(ready: seq<bool>, count: nat, km: nat): (r: seq<bool>)
    requires |ready| == MAX_NUM_LOCATORS
    ensures |r| == MAX_NUM_LOCATORS
  {
    seq(MAX_NUM_LOCATORS, i requires 0 <= i < MAX_NUM_LOCATORS =>
      if i < count && GroupStart(count, i + 1) <= km then false else ready[i])
  }

  /**
   * Part of locator i's calls clear no flag; all of them clear exactly its
   * own.
   */
  lemma FedFlagsStep(ready: seq<bool>, count: nat, i: nat, m: nat)
    requires |ready| == MAX_NUM_LOCATORS && i < count <= MAX_NUM_LOCATORS && m < PerLocator(count)
    ensures FedFlags(ready, count, GroupStart(count, i) + m) == FedFlags(ready, count, GroupStart(count, i))
    ensures FedFlags(ready, count, GroupStart(count, i + 1)) == FedFlags(ready, count, GroupStart(count, i))[i := false]
  {
  }

  /** A coordinate after its get_result (call r of the tail) and its filter (call f). */
  function Coordinate(old_value: real, tag: AssetTag, axis: Axis, rtl: Rtl, kt: nat, r: nat, f: nat): real {
    if kt > f then rtl.filtered(tag.id, axis, rtl.result(tag.id, axis))
    else if kt > r then rtl.result(tag.id, axis)
    else old_value
  }

  /**
   * The tag after run_estimation: the flag of each locator whose
   * measurement calls all succeeded is cleared, and each coordinate holds
   * what its get_result and filter calls produced, as far as they ran.
   */
  function EstimatedTag(tag: AssetTag, count: nat, rtl: Rtl): (r: AssetTag)
    requires WellFormedTag(tag) && count <= MAX_NUM_LOCATORS
    ensures WellFormedTag(r)
  {
    var km := MeasurementsCompleted(tag, count, rtl);
    var kt := TailCompleted(tag, count, rtl);
    tag.(ready := FedFlags(tag.ready, count, km),
         position := Position(
           Coordinate(tag.position.x, tag, AxisX, rtl, kt, 1, 4),
           Coordinate(tag.position.y, tag, AxisY, rtl, kt, 2, 5),
           Coordinate(tag.position.z, tag, AxisZ, rtl, kt, 3, 6)))
  }

  /**
   * Once the measurements have gone through, the outcome of run_estimation
   * is decided by how many tail calls succeed.
   */
  lemma TailOutcome(tag: AssetTag, count: nat, rtl: Rtl, k: nat)
    requires WellFormedTag(tag) && count <= MAX_NUM_LOCATORS
    requires MeasurementsCompleted(tag, count, rtl) == GroupStart(count, count)
    requires k <= 8
    requires forall j :: 0 <= j < k ==> rtl.status(tag.id, TailCalls(tag, rtl)[j]) == RTL_SUCCESS
    requires k < 8 ==> rtl.status(tag.id, TailCalls(tag, rtl)[k]) != RTL_SUCCESS
    ensures EstimationCode(tag, count, rtl) == if k < 8 then rtl.status(tag.id, TailCalls(tag, rtl)[k]) else RTL_SUCCESS
    ensures EstimatedTag(tag, count, rtl) == tag.(
      ready := FedFlags(tag.ready, count, GroupStart(count, count)),
      position := Position(
        Coordinate(tag.position.x, tag, AxisX, rtl, k, 1, 4),
        Coordinate(tag.position.y, tag, AxisY, rtl, k, 2, 5),
        Coordinate(tag.position.z, tag, AxisZ, rtl, k, 3, 6)))
  {
    CompletedUnique(TailCalls(tag, rtl), Fails(rtl, tag.id), k);
  }

  /**
   * A successful run clears every flag below the count and leaves the
   * filtered results in the position.
   */
  lemma EstimationSuccess(tag: AssetTag, count: nat, rtl: Rtl)
    requires WellFormedTag(tag) && count <= MAX_NUM_LOCATORS
    requires EstimationCode(tag, count, rtl) == RTL_SUCCESS
    ensures forall i :: 0 <= i < count ==> !EstimatedTag(tag, count, rtl).ready[i]
    ensures EstimatedTag(tag, count, rtl).position == Position(
      rtl.filtered(tag.id, AxisX, rtl.result(tag.id, AxisX)),
      rtl.filtered(tag.id, AxisY, rtl.result(tag.id, AxisY)),
      rtl.filtered(tag.id, AxisZ, rtl.result(tag.id, AxisZ)))
  {
  }

  /**
   * A failure in the measurements of locator i leaves the flags of the
   * locators before it cleared and the others, and the position, untouched.
   */
  lemma EstimationFailsAtLocator(tag: AssetTag, count: nat, rtl: Rtl, i: nat)
    requires WellFormedTag(tag) && count <= MAX_NUM_LOCATORS && i < count
    requires GroupStart(count, i) <= MeasurementsCompleted(tag, count, rtl) < GroupStart(count, i + 1)
    ensures EstimationCode(tag, count, rtl) != RTL_SUCCESS
    ensures forall j :: 0 <= j < MAX_NUM_LOCATORS ==>
      EstimatedTag(tag, count, rtl).ready[j] == (if j < i then false else tag.ready[j])
    ensures EstimatedTag(tag, count, rtl).position == tag.position
  {
    var km := MeasurementsCompleted(tag, count, rtl);
    assert km < GroupStart(count, count);
    assert Fails(rtl, tag.id)(MeasurementCalls(tag, count, count)[km]);
  }

  /**
   * Azimuth and elevation are fed for every locator below the count, and a
   * distance is fed at all exactly when there is a single locator.
   */
  lemma MeasurementsFed(tag: AssetTag, count: nat)
    requires WellFormedTag(tag) && count <= MAX_NUM_LOCATORS
    ensures forall i :: 0 <= i < count ==>
      && SetLocatorMeasurement(tag.locId[i], MeasureAzimuth, tag.angle[i].azimuth) in MeasurementCalls(tag, count, count)
      && SetLocatorMeasurement(tag.locId[i], MeasureElevation, tag.angle[i].elevation) in MeasurementCalls(tag, count, count)
    ensures (exists c :: c in MeasurementCalls(tag, count, count) && c.SetLocatorMeasurement? && c.kind == MeasureDistance)
      <==> count == 1
  {
    var calls := MeasurementCalls(tag, count, count);
    forall i | 0 <= i < count
      ensures SetLocatorMeasurement(tag.locId[i], MeasureAzimuth, tag.angle[i].azimuth) in calls
      ensures SetLocatorMeasurement(tag.locId[i], MeasureElevation, tag.angle[i].elevation) in calls
    {
      MeasurementCallAt(tag, count, count, i, 0);
      MeasurementCallAt(tag, count, count, i, 1);
    }
    if count == 1 {
      MeasurementCallAt(tag, count, count, 0, 2);
      assert calls[2].kind == MeasureDistance;
    } else {
      forall c | c in calls ensures !(c.SetLocatorMeasurement? && c.kind == MeasureDistance) {
        var j :| 0 <= j < |calls| && calls[j] == c;
        var i := j / 2;
        MeasurementCallAt(tag, count, count, i, j % 2);
      }
    }
  }

  // ---------------------------------------------------------------------------
  // The application state
  // ---------------------------------------------------------------------------

  /** The answers of aoa_parse_locator, one per call; NOT_FOUND ends the list. */
  datatype ParseAnswer = ParsedLocator(locator: Locator) | ParseNotFound | ParseFailed(code: nat)

  function AnswerAt(answers: seq<ParseAnswer>, j: nat): ParseAnswer {
    if j < |answers| then answers[j] else ParseNotFound
  }

  /** How many answers from the start are parsed locators. */
  function LeadingLocators(answers: seq<ParseAnswer>): nat {
    Completed(answers, (a: ParseAnswer) => !a.ParsedLocator?)
  }

  /**
   * parse_config ends normally or in app_assert on a parser error. Entered
   * with a full table, its do-while still asks the parser once, and a parsed
   * locator is then written one past the end of locator_list.
   */
  datatype ConfigOutcome = ConfigLoaded | ConfigAssertFailed(code: nat) | ConfigOverflow(locator: Locator)

  /** How parse_config ends when it is entered with a full table. */
  function FullTableOutcome(answer: ParseAnswer): (outcome: ConfigOutcome)
    ensures outcome.ConfigOverflow? <==> answer.ParsedLocator?
    ensures answer.ParsedLocator? ==> outcome.locator == answer.locator
    ensures outcome.ConfigAssertFailed? <==> answer.ParseFailed?
  {
    match answer
    case ParsedLocator(locator) => ConfigOverflow(locator)
    case ParseNotFound => ConfigLoaded
    case ParseFailed(code) => ConfigAssertFailed(code)
  }

  /** The ways on_message ends. */
  datatype MessageOutcome =
    | UnknownLocator
    | TagListFull
    | InitAssertFailed(code: RtlCode)
    | Recorded
    | EstimationAssertFailed(code: RtlCode)
    | Positioned(tagId: AoaId, position: Position)

  /** The tag table, its count and how on_message ended. */
  datatype MessageResult = MessageResult(tags: seq<AssetTag>, tagCount: nat, outcome: MessageOutcome)

  /** The tag table: MAX_NUM_TAGS well-formed slots and a count within them. */
  predicate TagTable(tags: seq<AssetTag>, tagCount: nat) {
    && |tags| == MAX_NUM_TAGS && tagCount <= MAX_NUM_TAGS
    && forall t :: 0 <= t < MAX_NUM_TAGS ==> WellFormedTag(tags[t])
  }

  /**
   * The first half of on_message for tag tagId: the slot of the tag when
   * it is known; otherwise, with room in the table, a new tag initialised
   * in the slot at the count, which grows only when the init succeeds;
   * with no room, or a failed init, no slot and the outcome that ends it.
   */
  datatype Admission = Admission(tags: seq<AssetTag>, tagCount: nat, slot: Option<nat>, refusal: MessageOutcome)

  function AdmitStep(tags: seq<AssetTag>, tagCount: nat, locators: seq<Locator>, tagId: AoaId, rtl: Rtl): (r: Admission)
    requires TagTable(tags, tagCount) && |locators| <= MAX_NUM_LOCATORS
    ensures TagTable(r.tags, r.tagCount)
    ensures r.tagCount == tagCount || r.tagCount == tagCount + 1
    ensures r.slot.Some? ==> r.slot.value < r.tagCount && r.tags[r.slot.value].id == tagId
    ensures forall u :: 0 <= u < MAX_NUM_TAGS && u != tagCount ==> r.tags[u] == tags[u]
    ensures r.slot.Some? && r.slot.value < tagCount ==> r.tags == tags && r.tagCount == tagCount
  {
    match FirstIndex(tags[..tagCount], TagIdIs(tagId))
    case Some(t) => Admission(tags, tagCount, Some(t), Recorded)
    case None =>
      if tagCount == MAX_NUM_TAGS then Admission(tags, tagCount, None, TagListFull)
      else
        var code := ChainCode(InitCalls(locators), rtl, tagId);
        var tags' := tags[tagCount := InitializedTag(tags[tagCount], tagId, locators, rtl)];
        if code != RTL_SUCCESS then Admission(tags', tagCount, None, InitAssertFailed(code))
        else Admission(tags', tagCount + 1, Some(tagCount), Recorded)
  }

  /** A tag slot after the second half of on_message, and how it ended. */
  datatype Observation = Observation(tag: AssetTag, outcome: MessageOutcome)

  /**
   * The second half of on_message: the angle stored in the locator's slot
   * of the tag and its flag set; when every locator below the count is
   * then ready, the estimation runs and either its failure ends it or the
   * position is the one published.
   */
  function ObserveStep(tag: AssetTag, loc: nat, angle: Angle, count: nat, rtl: Rtl): (r: Observation)
    requires WellFormedTag(tag) && loc < MAX_NUM_LOCATORS && count <= MAX_NUM_LOCATORS
    ensures WellFormedTag(r.tag)
    ensures r.tag.id == tag.id && r.tag.locId == tag.locId && r.tag.angle == tag.angle[loc := angle]
  {
    var recorded := Record(tag, loc, angle);
    if !AllReady(recorded, count) then Observation(recorded, Recorded)
    else
      var estimated := EstimatedTag(recorded, count, rtl);
      var code := EstimationCode(recorded, count, rtl);
      Observation(estimated, if code != RTL_SUCCESS then EstimationAssertFailed(code)
                             else Positioned(estimated.id, estimated.position))
  }

  /**
   * on_message with an angle from locator locId for tag tagId: an unknown
   * locator changes nothing; otherwise the tag is admitted and, if it has
   * a slot, the observation recorded in it.
   */
  function MessageStep(tags: seq<AssetTag>, tagCount: nat, locators: seq<Locator>,
                       locId: AoaId, tagId: AoaId, angle: Angle, rtl: Rtl): (r: MessageResult)
    requires TagTable(tags, tagCount) && |locators| <= MAX_NUM_LOCATORS
    ensures TagTable(r.tags, r.tagCount)
  {
    match FirstIndex(locators, LocatorIdIs(locId))
    case None => MessageResult(tags, tagCount, UnknownLocator)
    case Some(loc) =>
      var a := AdmitStep(tags, tagCount, locators, tagId, rtl);
      if a.slot.None? then MessageResult(a.tags, a.tagCount, a.refusal)
      else
        var obs := ObserveStep(a.tags[a.slot.value], loc, angle, |locators|, rtl);
        MessageResult(a.tags[a.slot.value := obs.tag], a.tagCount, obs.outcome)
  }

  /** An MQTT publication: an angle on the (locator, tag) topic, or a position. */
  datatype Publication =
    | AnglePublished(locatorId: AoaId, tagId: AoaId, angle: Angle)
    | PositionPublished(multilocatorId: AoaId, tagId: AoaId, position: Position)

  /** An observation from an unknown locator changes nothing. */
  lemma MessageUnknownLocator(tags: seq<AssetTag>, tagCount: nat, locators: seq<Locator>,
                              locId: AoaId, tagId: AoaId, angle: Angle, rtl: Rtl)
    requires TagTable(tags, tagCount) && |locators| <= MAX_NUM_LOCATORS
    requires forall i :: 0 <= i < |locators| ==> locators[i].id != locId
    ensures MessageStep(tags, tagCount, locators, locId, tagId, angle, rtl) == MessageResult(tags, tagCount, UnknownLocator)
  {
  }

  /** An observation of an unknown tag is dropped, and nothing changes, when the table is full. */
  lemma MessageTagListFull(tags: seq<AssetTag>, locators: seq<Locator>,
                           locId: AoaId, tagId: AoaId, angle: Angle, rtl: Rtl)
    requires TagTable(tags, MAX_NUM_TAGS) && |locators| <= MAX_NUM_LOCATORS
    requires exists i :: 0 <= i < |locators| && locators[i].id == locId
    requires forall t :: 0 <= t < MAX_NUM_TAGS ==> tags[t].id != tagId
    ensures MessageStep(tags, MAX_NUM_TAGS, locators, locId, tagId, angle, rtl) == MessageResult(tags, MAX_NUM_TAGS, TagListFull)
  {
    assert FirstIndex(tags[..MAX_NUM_TAGS], TagIdIs(tagId)).None?;
  }

  /**
   * A failed init of a new tag ends on_message in app_assert without
   * counting the tag; only the slot at the count has been written.
   */
  lemma MessageInitFails(tags: seq<AssetTag>, tagCount: nat, locators: seq<Locator>,
                         locId: AoaId, tagId: AoaId, angle: Angle, rtl: Rtl)
    requires TagTable(tags, tagCount) && tagCount < MAX_NUM_TAGS && |locators| <= MAX_NUM_LOCATORS
    requires exists i :: 0 <= i < |locators| && locators[i].id == locId
    requires forall t :: 0 <= t < tagCount ==> tags[t].id != tagId
    requires ChainCode(InitCalls(locators), rtl, tagId) != RTL_SUCCESS
    ensures var r := MessageStep(tags, tagCount, locators, locId, tagId, angle, rtl);
      && r.tagCount == tagCount
      && r.outcome == InitAssertFailed(ChainCode(InitCalls(locators), rtl, tagId))
      && r.tags == tags[tagCount := InitializedTag(tags[tagCount], tagId, locators, rtl)]
  {
    assert FirstIndex(locators, LocatorIdIs(locId)).Some?;
    assert FirstIndex(tags[..tagCount], TagIdIs(tagId)).None?;
  }

  /**
   * With more than one locator, the first observation of a new tag adds it
   * at the count: the initialised tag, with its ID set and every locator's
   * flag clear, gets the angle recorded, and since only the reporting
   * locator's flag is then set the estimation does not run.
   */
  lemma MessageNewTag(tags: seq<AssetTag>, tagCount: nat, locators: seq<Locator>,
                      locId: AoaId, tagId: AoaId, angle: Angle, rtl: Rtl)
    requires TagTable(tags, tagCount) && tagCount < MAX_NUM_TAGS && 1 < |locators| <= MAX_NUM_LOCATORS
    requires FirstIndex(locators, LocatorIdIs(locId)).Some?
    requires forall t :: 0 <= t < tagCount ==> tags[t].id != tagId
    requires ChainCode(InitCalls(locators), rtl, tagId) == RTL_SUCCESS
    ensures var tag := InitializedTag(tags[tagCount], tagId, locators, rtl);
      && MessageStep(tags, tagCount, locators, locId, tagId, angle, rtl) ==
         MessageResult(tags[tagCount := Record(tag, FirstIndex(locators, LocatorIdIs(locId)).value, angle)],
                       tagCount + 1, Recorded)
      && tag.id == tagId
      && forall i :: 0 <= i < |locators| ==> !tag.ready[i]
  {
    var loc := FirstIndex(locators, LocatorIdIs(locId)).value;
    var tag := InitializedTag(tags[tagCount], tagId, locators, rtl);
    InitSuccess(tags[tagCount], tagId, locators, rtl);
    AdmitNewTag(tags, tagCount, locators, tagId, rtl);
    ObserveNotReady(tag, loc, angle, |locators|, rtl);
    RecordedInNewSlot(tags, tagCount, locators, locId, tagId, angle, rtl, tag, loc);
  }

  /** The two halves of on_message composed for a new tag whose observation is only recorded. */
  lemma RecordedInNewSlot(tags: seq<AssetTag>, tagCount: nat, locators: seq<Locator>,
                          locId: AoaId, tagId: AoaId, angle: Angle, rtl: Rtl, tag: AssetTag, loc: nat)
    requires TagTable(tags, tagCount) && tagCount < MAX_NUM_TAGS && |locators| <= MAX_NUM_LOCATORS
    requires FirstIndex(locators, LocatorIdIs(locId)) == Some(loc)
    requires WellFormedTag(tag)
    requires AdmitStep(tags, tagCount, locators, tagId, rtl) == Admission(tags[tagCount := tag], tagCount + 1, Some(tagCount), Recorded)
    requires ObserveStep(tag, loc, angle, |locators|, rtl) == Observation(Record(tag, loc, angle), Recorded)
    ensures MessageStep(tags, tagCount, locators, locId, tagId, angle, rtl) ==
      MessageResult(tags[tagCount := Record(tag, loc, angle)], tagCount + 1, Recorded)
  {
    UpdateTwice(tags, tagCount, tag, Record(tag, loc, angle));
  }

  /** A second write to the same slot replaces the first. */
  lemma UpdateTwice<T>(s: seq<T>, i: nat, a: T, b: T)
    requires i < |s|
    ensures s[i := a][i := b] == s[i := b]
  {
  }

  /** An unknown tag with room in the table and a successful init gets the slot at the count. */
  lemma AdmitNewTag(tags: seq<AssetTag>, tagCount: nat, locators: seq<Locator>, tagId: AoaId, rtl: Rtl)
    requires TagTable(tags, tagCount) && tagCount < MAX_NUM_TAGS && |locators| <= MAX_NUM_LOCATORS
    requires forall t :: 0 <= t < tagCount ==> tags[t].id != tagId
    requires ChainCode(InitCalls(locators), rtl, tagId) == RTL_SUCCESS
    ensures AdmitStep(tags, tagCount, locators, tagId, rtl) ==
      Admission(tags[tagCount := InitializedTag(tags[tagCount], tagId, locators, rtl)], tagCount + 1, Some(tagCount), Recorded)
  {
    assert FirstIndex(tags[..tagCount], TagIdIs(tagId)).None?;
  }

  /** With another locator's flag clear, an observation is only recorded. */
  lemma ObserveNotReady(tag: AssetTag, loc: nat, angle: Angle, count: nat, rtl: Rtl)
    requires WellFormedTag(tag) && loc < count <= MAX_NUM_LOCATORS && 1 < count
    requires forall i :: 0 <= i < count ==> !tag.ready[i]
    ensures ObserveStep(tag, loc, angle, count, rtl) == Observation(Record(tag, loc, angle), Recorded)
  {
    var other := if loc == 0 then 1 else 0;
    assert !Record(tag, loc, angle).ready[other];
  }

  /** Once the tag has a slot, on_message is the observation in that slot. */
  lemma MessageStepAdmitted(tags: seq<AssetTag>, tagCount: nat, locators: seq<Locator>,
                            locId: AoaId, tagId: AoaId, angle: Angle, rtl: Rtl)
    requires TagTable(tags, tagCount) && |locators| <= MAX_NUM_LOCATORS
    requires FirstIndex(locators, LocatorIdIs(locId)).Some?
    requires AdmitStep(tags, tagCount, locators, tagId, rtl).slot.Some?
    ensures var a := AdmitStep(tags, tagCount, locators, tagId, rtl);
      var t := a.slot.value;
      var obs := ObserveStep(a.tags[t], FirstIndex(locators, LocatorIdIs(locId)).value, angle, |locators|, rtl);
      MessageStep(tags, tagCount, locators, locId, tagId, angle, rtl) == MessageResult(a.tags[t := obs.tag], a.tagCount, obs.outcome)
  {
  }

  /**
   * Once the tag has a slot, on_message touches that slot alone: the angle
   * of the reporting locator is overwritten, every other angle is kept, and
   * the count grows by at most one.
   */
  lemma MessageTouchesOneSlot(tags: seq<AssetTag>, tagCount: nat, locators: seq<Locator>,
                              locId: AoaId, tagId: AoaId, angle: Angle, rtl: Rtl)
    requires TagTable(tags, tagCount) && |locators| <= MAX_NUM_LOCATORS
    requires FirstIndex(locators, LocatorIdIs(locId)).Some?
    requires AdmitStep(tags, tagCount, locators, tagId, rtl).slot.Some?
    ensures var r := MessageStep(tags, tagCount, locators, locId, tagId, angle, rtl);
      var a := AdmitStep(tags, tagCount, locators, tagId, rtl);
      var t := a.slot.value;
      var loc := FirstIndex(locators, LocatorIdIs(locId)).value;
      && (r.tagCount == tagCount || r.tagCount == tagCount + 1)
      && r.tags[t].id == tagId
      && r.tags[t].angle == a.tags[t].angle[loc := angle]
      && (forall u :: 0 <= u < MAX_NUM_TAGS && u != t ==> r.tags[u] == tags[u])
  {
    var a := AdmitStep(tags, tagCount, locators, tagId, rtl);
    var t := a.slot.value;
    var loc := FirstIndex(locators, LocatorIdIs(locId)).value;
    var obs := ObserveStep(a.tags[t], loc, angle, |locators|, rtl);
    var r := MessageStep(tags, tagCount, locators, locId, tagId, angle, rtl);
    assert r.tags == a.tags[t := obs.tag];
    forall u | 0 <= u < MAX_NUM_TAGS && u != t
      ensures r.tags[u] == tags[u]
    {
      if t < tagCount {
        assert a.tags == tags;
      }
    }
  }

  /**
   * The estimation runs exactly when, after the angle is recorded, every
   * locator below the count is ready; a successful one leaves all their
   * flags clear and the filtered position in the tag.
   */
  lemma MessageEstimatesWhenReady(tags: seq<AssetTag>, tagCount: nat, locators: seq<Locator>,
                                  locId: AoaId, tagId: AoaId, angle: Angle, rtl: Rtl)
    requires TagTable(tags, tagCount) && |locators| <= MAX_NUM_LOCATORS
    requires FirstIndex(locators, LocatorIdIs(locId)).Some?
    requires AdmitStep(tags, tagCount, locators, tagId, rtl).slot.Some?
    ensures var r := MessageStep(tags, tagCount, locators, locId, tagId, angle, rtl);
      var a := AdmitStep(tags, tagCount, locators, tagId, rtl);
      var t := a.slot.value;
      var loc := FirstIndex(locators, LocatorIdIs(locId)).value;
      && ((r.outcome.Positioned? || r.outcome.EstimationAssertFailed?) <==>
            AllReady(Record(a.tags[t], loc, angle), |locators|))
      && (r.outcome == Recorded <==> !AllReady(Record(a.tags[t], loc, angle), |locators|))
      && (r.outcome.Positioned? ==>
            && (forall i :: 0 <= i < |locators| ==> !r.tags[t].ready[i])
            && r.outcome.position == r.tags[t].position == Position(
                 rtl.filtered(tagId, AxisX, rtl.result(tagId, AxisX)),
                 rtl.filtered(tagId, AxisY, rtl.result(tagId, AxisY)),
                 rtl.filtered(tagId, AxisZ, rtl.result(tagId, AxisZ))))
  {
    var a := AdmitStep(tags, tagCount, locators, tagId, rtl);
    var t := a.slot.value;
    var loc := FirstIndex(locators, LocatorIdIs(locId)).value;
    var recorded := Record(a.tags[t], loc, angle);
    MessageTouchesOneSlot(tags, tagCount, locators, locId, tagId, angle, rtl);
    if AllReady(recorded, |locators|) && EstimationCode(recorded, |locators|, rtl) == RTL_SUCCESS {
      EstimationSuccess(recorded, |locators|, rtl);
    }
  }

  /**
   * What one app_on_iq_report publishes once on_message has handled its
   * angle: the position first when the estimation produced one, then the
   * angle; nothing when an app_assert ended the process.
   */
  function Published(locatorId: AoaId, tagId: AoaId, angle: Angle, message: MessageOutcome,
                     multilocatorId: AoaId): (ps: seq<Publication>)
    ensures (AnglePublished(locatorId, tagId, angle) in ps) <==>
      !(message.InitAssertFailed? || message.EstimationAssertFailed?)
    ensures (exists p :: p in ps && p.PositionPublished?) <==> message.Positioned?
    ensures message.Positioned? ==> ps[0] == PositionPublished(multilocatorId, message.tagId, message.position)
  {
    match message
    case InitAssertFailed(_) => []
    case EstimationAssertFailed(_) => []
    case Positioned(id, position) =>
      var ps := [PositionPublished(multilocatorId, id, position), AnglePublished(locatorId, tagId, angle)];
      assert ps[0] in ps;
      ps
    case _ => [AnglePublished(locatorId, tagId, angle)]
  }

  /** The ways app_on_iq_report ends. */
  datatype IqOutcome =
    | IqUnknownLocator
    | IqAngleFailed
    | IqDelivered(locatorId: AoaId, tagId: AoaId, angle: Angle, message: MessageOutcome)

  /**
   * The library calls app_on_iq_report and aoa_calculate depend on: the
   * address-to-ID conversion, the AoX estimator, the filtered RSSI distance,
   * and the RTL locationing library.
   */
  datatype Externals = Externals(
    addressToId: (BdAddr, byte) -> AoaId,
    aox: (LocatorSession, SampleSnapshot, Option<nat>) -> AoxOutcome,
    distance: (LocatorSession, int8) -> real,
    rtl: Rtl)

  class AppState {
    /** locator_list[MAX_NUM_LOCATORS] and locator_count */
    const locatorList: array<Locator>
    var locatorCount: nat
    /** asset_tag_list[MAX_NUM_TAGS] and asset_tag_count */
    const assetTagList: array<AssetTag>
    var assetTagCount: nat
    /** multilocator_id */
    var multilocatorId: AoaId
    /** locator_id, the ID of the locator of the last IQ report */
    var locatorId: AoaId

    ghost predicate Valid()
      reads this, assetTagList
    {
      && locatorList.Length == MAX_NUM_LOCATORS && locatorCount <= MAX_NUM_LOCATORS
      && assetTagList.Length == MAX_NUM_TAGS && assetTagCount <= MAX_NUM_TAGS
      && forall t :: 0 <= t < MAX_NUM_TAGS ==> WellFormedTag(assetTagList[t])
    }

    /** The configured locators. */
    ghost function Locators(): seq<Locator>
      reads this, locatorList, assetTagList
      requires Valid()
    {
      locatorList[..locatorCount]
    }

    /** The known asset tags. */
    ghost function Tags(): seq<AssetTag>
      reads this, assetTagList
      requires Valid()
    {
      assetTagList[..assetTagCount]
    }

    /** The static tables before parse_config: no locators, no tags. */
    constructor ()
      ensures Valid() && fresh(locatorList) && fresh(assetTagList)
      ensures locatorCount == 0 && assetTagCount == 0 && multilocatorId == "" && locatorId == ""
      ensures forall t :: 0 <= t < MAX_NUM_TAGS ==> assetTagList[t] == EMPTY_TAG
    {
      var noItem := LocatorItem(0.0, 0.0, 0.0, 0.0, 0.0, 0.0);
      locatorList := new Locator[MAX_NUM_LOCATORS](_ => Locator("", noItem));
      locatorCount := 0;
      assetTagList := new AssetTag[MAX_NUM_TAGS](_ => EMPTY_TAG);
      assetTagCount := 0;
      multilocatorId := "";
      locatorId := "";
    }

    /**
     * The locator loop of parse_config: stores parsed locators from the
     * count on until the parser reports NOT_FOUND or the table holds
     * MAX_NUM_LOCATORS; any other parser error ends in app_assert. A second
     * configuration file may find the table already full: the first answer
     * is still taken, and a parsed locator is reported as ConfigOverflow
     * instead of being written past the end of the table.
     */
    method ParseConfig(answers: seq<ParseAnswer>) returns (outcome: ConfigOutcome)
      requires Valid()
      modifies this`locatorCount, locatorList
      ensures Valid() && locatorCount <= MAX_NUM_LOCATORS
      ensures outcome.ConfigOverflow? <==> old(locatorCount) == MAX_NUM_LOCATORS && AnswerAt(answers, 0).ParsedLocator?
      ensures old(locatorCount) == MAX_NUM_LOCATORS ==>
        && locatorCount == MAX_NUM_LOCATORS
        && (forall i :: 0 <= i < MAX_NUM_LOCATORS ==> locatorList[i] == old(locatorList[i]))
        && outcome == FullTableOutcome(AnswerAt(answers, 0))
      ensures old(locatorCount) < MAX_NUM_LOCATORS ==>
        var taken := if LeadingLocators(answers) < MAX_NUM_LOCATORS - old(locatorCount)
                           then LeadingLocators(answers) else MAX_NUM_LOCATORS - old(locatorCount);
        && locatorCount == old(locatorCount) + taken
        && (forall j :: 0 <= j < taken ==> locatorList[old(locatorCount) + j] == answers[j].locator)
        && (forall i :: 0 <= i < old(locatorCount) || locatorCount <= i < MAX_NUM_LOCATORS ==>
              locatorList[i] == old(locatorList[i]))
        && (outcome.ConfigAssertFailed? <==>
              taken < MAX_NUM_LOCATORS - old(locatorCount) && AnswerAt(answers, taken).ParseFailed?)
    {
      if locatorCount == MAX_NUM_LOCATORS {
        return FullTableOutcome(AnswerAt(answers, 0));
      }
      var j := 0;
      while true
        invariant old(locatorCount) <= locatorCount <= MAX_NUM_LOCATORS
        invariant j == locatorCount - old(locatorCount) && j <= |answers|
        invariant forall q :: 0 <= q < j ==> answers[q].ParsedLocator?
        invariant forall q :: 0 <= q < j ==> locatorList[old(locatorCount) + q] == answers[q].locator
        invariant forall i :: 0 <= i < old(locatorCount) || locatorCount <= i < MAX_NUM_LOCATORS ==>
          locatorList[i] == old(locatorList[i])
        invariant locatorCount < MAX_NUM_LOCATORS
        decreases MAX_NUM_LOCATORS - locatorCount
      {
        var answer := AnswerAt(answers, j);
        if answer.ParsedLocator? {
          locatorList[locatorCount] := answer.locator;
          locatorCount := locatorCount + 1;
          j := j + 1;
          if locatorCount == MAX_NUM_LOCATORS {
            assert LeadingLocators(answers) >= j;
            return ConfigLoaded;
          }
        } else {
          assert LeadingLocators(answers) == j;
          if answer.ParseFailed? {
            return ConfigAssertFailed(answer.code);
          }
          return ConfigLoaded;
        }
      }
    }

    /** find_locator: the lowest configured locator with the ID, or INVALID_IDX as None. */
    method FindLocator(id: AoaId) returns (r: Option<nat>)
      requires Valid()
      ensures r == FirstIndex(Locators(), LocatorIdIs(id))
      ensures r.Some? ==> r.value < locatorCount && locatorList[r.value].id == id
    {
      r := None;
      var i := 0;
      while i < locatorCount && r.None?
        invariant i <= locatorCount
        invariant r.None? ==> forall j :: 0 <= j < i ==> locatorList[j].id != id
        invariant r.Some? ==> r.value < i && locatorList[r.value].id == id
                              && forall j :: 0 <= j < r.value ==> locatorList[j].id != id
      {
        if locatorList[i].id == id {
          r := Some(i);
        }
        i := i + 1;
      }
    }

    /** find_asset_tag: the lowest known tag with the ID, or INVALID_IDX as None. */
    method FindAssetTag(id: AoaId) returns (r: Option<nat>)
      requires Valid()
      ensures r == FirstIndex(Tags(), TagIdIs(id))
      ensures r.Some? ==> r.value < assetTagCount && assetTagList[r.value].id == id
    {
      r := None;
      var i := 0;
      while i < assetTagCount && r.None?
        invariant i <= assetTagCount
        invariant r.None? ==> forall j :: 0 <= j < i ==> assetTagList[j].id != id
        invariant r.Some? ==> r.value < i && assetTagList[r.value].id == id
                              && forall j :: 0 <= j < r.value ==> assetTagList[j].id != id
      {
        if assetTagList[i].id == id {
          r := Some(i);
        }
        i := i + 1;
      }
    }

    /** is_ready: every locator below the count has its flag set (vacuous for none). */
    method IsReady(t: nat) returns (ready: bool)
      requires Valid() && t < MAX_NUM_TAGS
      ensures ready <==> forall i :: 0 <= i < locatorCount ==> assetTagList[t].ready[i]
    {
      var i := 0;
      while i < locatorCount
        invariant i <= locatorCount
        invariant forall j :: 0 <= j < i ==> assetTagList[t].ready[j]
      {
        if !assetTagList[t].ready[i] {
          return false;
        }
        i := i + 1;
      }
      return true;
    }

    /**
     * The add_locator loop of init_asset_tag: adds the configured locators in
     * order until a call fails; each one added has its assigned ID stored and
     * its flag cleared. Returns how many were added and the failing code.
     */
    method AddLocators(t: nat, id: AoaId, rtl: Rtl) returns (code: RtlCode, added: nat)
      requires Valid() && t < MAX_NUM_TAGS
      modifies assetTagList
      ensures Valid()
      ensures added <= locatorCount
      ensures forall j :: 0 <= j < added ==> rtl.status(id, LocAddLocator(locatorList[j].item)) == RTL_SUCCESS
      ensures code == RTL_SUCCESS ==> added == locatorCount
      ensures code != RTL_SUCCESS ==>
        added < locatorCount && code == rtl.status(id, LocAddLocator(locatorList[added].item))
      ensures assetTagList[..] == old(assetTagList[..])[t := old(assetTagList[t]).(
        locId := AssignedBelow(old(assetTagList[t]).locId, id, rtl, added),
        ready := ClearedBelow(old(assetTagList[t]).ready, added))]
    {
      ghost var tag0 := assetTagList[t];
      added := 0;
      code := RTL_SUCCESS;
      assert AssignedBelow(tag0.locId, id, rtl, 0) == tag0.locId;
      assert ClearedBelow(tag0.ready, 0) == tag0.ready;
      while added < locatorCount
        invariant Valid() && added <= locatorCount && code == RTL_SUCCESS
        invariant forall j :: 0 <= j < added ==> rtl.status(id, LocAddLocator(locatorList[j].item)) == RTL_SUCCESS
        invariant assetTagList[..] == old(assetTagList[..])[t := tag0.(
          locId := AssignedBelow(tag0.locId, id, rtl, added),
          ready := ClearedBelow(tag0.ready, added))]
      {
        code := rtl.status(id, LocAddLocator(locatorList[added].item));
        if code != RTL_SUCCESS {
          return;
        }
        var tag := assetTagList[t];
        assetTagList[t] := tag.(locId := tag.locId[added := rtl.assignedId(id, added)],
                                ready := tag.ready[added := false]);
        assert assetTagList[t].locId == AssignedBelow(tag0.locId, id, rtl, added + 1);
        assert assetTagList[t].ready == ClearedBelow(tag0.ready, added + 1);
        added := added + 1;
      }
    }

    /**
     * The last part of init_asset_tag: create the position estimator, then
     * initialise each axis filter and set its filtering amount.
     */
    method CreateEstimator(id: AoaId, rtl: Rtl) returns (code: RtlCode)
      ensures code == ChainCode(SETUP_CALLS, rtl, id)
    {
      ghost var fails := Fails(rtl, id);
      code := rtl.status(id, LocCreatePositionEstimator);
      if code != RTL_SUCCESS {
        CompletedUnique(SETUP_CALLS, fails, 0);
        return;
      }
      for a := 0 to 3
        invariant forall j :: 0 <= j < 1 + 2 * a ==> !fails(SETUP_CALLS[j])
      {
        code := rtl.status(id, UtilInit(AXES[a]));
        assert SETUP_CALLS[1 + 2 * a] == UtilInit(AXES[a]);
        if code != RTL_SUCCESS {
          CompletedUnique(SETUP_CALLS, fails, 1 + 2 * a);
          return;
        }
        code := rtl.status(id, UtilSetFilteringAmount(AXES[a]));
        assert SETUP_CALLS[2 + 2 * a] == UtilSetFilteringAmount(AXES[a]);
        if code != RTL_SUCCESS {
          CompletedUnique(SETUP_CALLS, fails, 2 + 2 * a);
          return;
        }
      }
      CompletedUnique(SETUP_CALLS, fails, |SETUP_CALLS|);
      code := RTL_SUCCESS;
    }

    /** init_asset_tag on slot t: the CHECK_ERROR chain of InitCalls. */
    method InitAssetTag(t: nat, id: AoaId, rtl: Rtl) returns (code: RtlCode)
      requires Valid() && t < MAX_NUM_TAGS
      modifies assetTagList
      ensures Valid()
      ensures assetTagList[..] == old(assetTagList[..])[t := InitializedTag(old(assetTagList[t]), id, Locators(), rtl)]
      ensures code == ChainCode(InitCalls(Locators()), rtl, id)
    {
      ghost var before := assetTagList[..];
      ghost var tag0 := assetTagList[t];
      assetTagList[t] := assetTagList[t].(id := id);
      ghost var named := assetTagList[..];
      assert named == before[t := tag0.(id := id)];
      code := rtl.status(id, LocInit);
      if code == RTL_SUCCESS {
        code := rtl.status(id, LocSetMode);
      }
      if code != RTL_SUCCESS {
        InitFailsEarly(Locators(), rtl, id);
        assert AssignedBelow(tag0.locId, id, rtl, 0) == tag0.locId;
        assert ClearedBelow(tag0.ready, 0) == tag0.ready;
        return;
      }
      var added;
      code, added := AddLocators(t, id, rtl);
      InitAfterLocators(Locators(), rtl, id, added, code);
      UpdateTwice(before, t, tag0.(id := id), InitializedTag(tag0, id, Locators(), rtl));
      if code != RTL_SUCCESS {
        return;
      }
      code := CreateEstimator(id, rtl);
    }

    /**
     * The measurement loop of run_estimation on slot t: for each locator,
     * its measurement calls, then its flag cleared; the first failing call
     * ends the loop with its code.
     */
    method FeedMeasurements(t: nat, rtl: Rtl) returns (code: RtlCode)
      requires Valid() && t < MAX_NUM_TAGS
      modifies assetTagList
      ensures Valid()
      ensures code == ChainCode(MeasurementCalls(old(assetTagList[t]), locatorCount, locatorCount), rtl, old(assetTagList[t]).id)
      ensures assetTagList[..] == old(assetTagList[..])[t := old(assetTagList[t]).(
        ready := FedFlags(old(assetTagList[t]).ready, locatorCount,
                          MeasurementsCompleted(old(assetTagList[t]), locatorCount, rtl)))]
    {
      ghost var before := assetTagList[..];
      ghost var tag0 := assetTagList[t];
      ghost var count := locatorCount;
      assert FedFlags(tag0.ready, count, 0) == tag0.ready;
      for i := 0 to locatorCount
        invariant Valid()
        invariant forall j :: 0 <= j < GroupStart(count, i) ==>
          !Fails(rtl, tag0.id)(MeasurementCalls(tag0, count, count)[j])
        invariant assetTagList[..] == before[t := tag0.(ready := FedFlags(tag0.ready, count, GroupStart(count, i)))]
      {
        var tag := assetTagList[t];
        code := FeedLocator(tag, locatorCount, i, rtl);
        if code != RTL_SUCCESS {
          MeasurementsStopAt(tag0, count, rtl, i);
          FedFlagsStep(tag0.ready, count, i, Completed(LocatorCalls(tag0, count, i), Fails(rtl, tag0.id)));
          return;
        }
        MeasurementsContinue(tag0, count, rtl, i);
        FedFlagsStep(tag0.ready, count, i, 0);
        assetTagList[t] := tag.(ready := tag.ready[i := false]);
        UpdateTwice(before, t, tag, assetTagList[t]);
      }
      CompletedUnique(MeasurementCalls(tag0, count, count), Fails(rtl, tag0.id), GroupStart(count, count));
      code := RTL_SUCCESS;
    }

    /**
     * One pass of the measurement loop: azimuth, elevation and, with a
     * single locator, distance for locator i, stopping at the first
     * failing call.
     */
    method FeedLocator(tag: AssetTag, count: nat, i: nat, rtl: Rtl) returns (code: RtlCode)
      requires WellFormedTag(tag) && i < MAX_NUM_LOCATORS
      ensures code == ChainCode(LocatorCalls(tag, count, i), rtl, tag.id)
    {
      ghost var calls := LocatorCalls(tag, count, i);
      ghost var fails := Fails(rtl, tag.id);
      code := rtl.status(tag.id, SetLocatorMeasurement(tag.locId[i], MeasureAzimuth, tag.angle[i].azimuth));
      if code != RTL_SUCCESS {
        CompletedUnique(calls, fails, 0);
        return;
      }
      code := rtl.status(tag.id, SetLocatorMeasurement(tag.locId[i], MeasureElevation, tag.angle[i].elevation));
      if code != RTL_SUCCESS {
        CompletedUnique(calls, fails, 1);
        return;
      }
      if count == 1 {
        code := rtl.status(tag.id, SetLocatorMeasurement(tag.locId[i], MeasureDistance, tag.angle[i].distance));
        if code != RTL_SUCCESS {
          CompletedUnique(calls, fails, 2);
          return;
        }
      }
      CompletedUnique(calls, fails, |calls|);
    }

    /**
     * run_estimation on slot t: the measurements, then process, the three
     * results stored in the position, the three filters applied to them,
     * and clear; the first failing call ends it with its code.
     */
    method RunEstimation(t: nat, rtl: Rtl) returns (code: RtlCode)
      requires Valid() && t < MAX_NUM_TAGS
      modifies assetTagList
      ensures Valid()
      ensures assetTagList[..] == old(assetTagList[..])[t := EstimatedTag(old(assetTagList[t]), locatorCount, rtl)]
      ensures code == EstimationCode(old(assetTagList[t]), locatorCount, rtl)
    {
      ghost var tag0 := assetTagList[t];
      code := FeedMeasurements(t, rtl);
      if code != RTL_SUCCESS {
        return;
      }
      code := RunTail(t, rtl, tag0);
    }

    /**
     * The calls of run_estimation after the measurements, on slot t. The
     * slot is worked on as a local copy that is stored back wherever the
     * chain stops.
     */
    method RunTail(t: nat, rtl: Rtl, ghost tag0: AssetTag) returns (code: RtlCode)
      requires Valid() && t < MAX_NUM_TAGS && WellFormedTag(tag0)
      requires MeasurementsCompleted(tag0, locatorCount, rtl) == GroupStart(locatorCount, locatorCount)
      requires assetTagList[t] == tag0.(ready := FedFlags(tag0.ready, locatorCount, GroupStart(locatorCount, locatorCount)))
      modifies assetTagList
      ensures Valid()
      ensures assetTagList[..] == old(assetTagList[..])[t := EstimatedTag(tag0, locatorCount, rtl)]
      ensures code == EstimationCode(tag0, locatorCount, rtl)
    {
      var tag := assetTagList[t];
      var k := 0;
      code := rtl.status(tag.id, LocProcess);
      if code == RTL_SUCCESS {
        k := 1;
        code := rtl.status(tag.id, LocGetResult(AxisX));
      }
      if code == RTL_SUCCESS {
        tag := tag.(position := tag.position.(x := rtl.result(tag.id, AxisX)));
        k := 2;
        code := rtl.status(tag.id, LocGetResult(AxisY));
      }
      if code == RTL_SUCCESS {
        tag := tag.(position := tag.position.(y := rtl.result(tag.id, AxisY)));
        k := 3;
        code := rtl.status(tag.id, LocGetResult(AxisZ));
      }
      if code == RTL_SUCCESS {
        tag := tag.(position := tag.position.(z := rtl.result(tag.id, AxisZ)));
        k := 4;
        code := rtl.status(tag.id, UtilFilter(AxisX, tag.position.x));
      }
      if code == RTL_SUCCESS {
        tag := tag.(position := tag.position.(x := rtl.filtered(tag.id, AxisX, tag.position.x)));
        k := 5;
        code := rtl.status(tag.id, UtilFilter(AxisY, tag.position.y));
      }
      if code == RTL_SUCCESS {
        tag := tag.(position := tag.position.(y := rtl.filtered(tag.id, AxisY, tag.position.y)));
        k := 6;
        code := rtl.status(tag.id, UtilFilter(AxisZ, tag.position.z));
      }
      if code == RTL_SUCCESS {
        tag := tag.(position := tag.position.(z := rtl.filtered(tag.id, AxisZ, tag.position.z)));
        k := 7;
        code := rtl.status(tag.id, LocClearMeasurements);
      }
      if code == RTL_SUCCESS {
        k := 8;
      }
      TailOutcome(tag0, locatorCount, rtl, k);
      assetTagList[t] := tag;
    }

    /** The tag lookup and the new-tag branch of on_message. */
    method AdmitTag(tagId: AoaId, rtl: Rtl) returns (slot: Option<nat>, refusal: MessageOutcome)
      requires Valid()
      modifies this`assetTagCount, assetTagList
      ensures Valid()
      ensures Admission(assetTagList[..], assetTagCount, slot, refusal) ==
        AdmitStep(old(assetTagList[..]), old(assetTagCount), Locators(), tagId, rtl)
    {
      refusal := Recorded;
      slot := FindAssetTag(tagId);
      if slot.Some? {
        return;
      }
      if assetTagCount < MAX_NUM_TAGS {
        var sc := InitAssetTag(assetTagCount, tagId, rtl);
        if sc != RTL_SUCCESS {
          return None, InitAssertFailed(sc);
        }
        slot := Some(assetTagCount);
        assetTagCount := assetTagCount + 1;
      } else {
        refusal := TagListFull;
      }
    }

    /** The angle stored for locator loc in slot t, then the readiness gate and the estimation. */
    method Observe(t: nat, loc: nat, angle: Angle, rtl: Rtl) returns (outcome: MessageOutcome)
      requires Valid() && t < MAX_NUM_TAGS && loc < MAX_NUM_LOCATORS
      modifies assetTagList
      ensures Valid()
      ensures assetTagList[..] == old(assetTagList[..])[t := ObserveStep(old(assetTagList[t]), loc, angle, locatorCount, rtl).tag]
      ensures outcome == ObserveStep(old(assetTagList[t]), loc, angle, locatorCount, rtl).outcome
    {
      var tag := assetTagList[t];
      assetTagList[t] := Record(tag, loc, angle);
      var ready := IsReady(t);
      if ready {
        var sc := RunEstimation(t, rtl);
        if sc != RTL_SUCCESS {
          return EstimationAssertFailed(sc);
        }
        outcome := Positioned(assetTagList[t].id, assetTagList[t].position);
      } else {
        outcome := Recorded;
      }
    }

    /**
     * on_message for the parsed topic (locId, tagId) and payload angle.
     * An app_assert ends the process; the state it leaves is the state at
     * that point.
     */
    method OnMessage(locId: AoaId, tagId: AoaId, angle: Angle, rtl: Rtl) returns (outcome: MessageOutcome)
      requires Valid()
      modifies this`assetTagCount, assetTagList
      ensures Valid()
      ensures MessageResult(assetTagList[..], assetTagCount, outcome) ==
        MessageStep(old(assetTagList[..]), old(assetTagCount), Locators(), locId, tagId, angle, rtl)
    {
      var loc := FindLocator(locId);
      if loc.None? {
        return UnknownLocator;
      }
      var slot, refusal := AdmitTag(tagId, rtl);
      if slot.None? {
        return refusal;
      }
      outcome := Observe(slot.value, loc.value, angle, rtl);
    }

    /**
     * app_on_iq_report for an IQ report received on connection conn: the
     * locator's ID from the report's address; an unknown locator ends it,
     * as does a failed angle calculation on the locator's session; the
     * angle then goes to on_message under the tag's ID and is published.
     * The session exists because the event handler creates it first.
     */
    method AppOnIqReport(conn: ConnProperties, report: IqReport, buffers: SampleBuffers, ext: Externals)
      returns (outcome: IqOutcome, published: seq<Publication>)
      requires Valid() && buffers.Valid()
      requires FirstIndex(conn.aoaStates, LocatorAddrIs(report.address)).Some?
      modifies this`locatorId, this`assetTagCount, assetTagList
      modifies buffers.refI, buffers.refQ, buffers.iSamples, buffers.qSamples
      ensures Valid() && locatorId == ext.addressToId(report.address, report.addressType)
      ensures FirstIndex(Locators(), LocatorIdIs(locatorId)).None? ==>
        && outcome == IqUnknownLocator && published == []
        && assetTagCount == old(assetTagCount) && assetTagList[..] == old(assetTagList[..])
        && unchanged(buffers.refI, buffers.refQ, buffers.iSamples, buffers.qSamples)
      ensures FirstIndex(Locators(), LocatorIdIs(locatorId)).Some? ==>
        buffers.ReferenceLoaded(report.samples) && buffers.GridLoaded(report.samples)
      ensures FirstIndex(Locators(), LocatorIdIs(locatorId)).Some? ==>
        var session := conn.aoaStates[FirstIndex(conn.aoaStates, LocatorAddrIs(report.address)).value];
        var angleResult := AngleFromEstimate(report,
                      ext.aox(session, buffers.Snapshot(), CalcFrequencyFromChannel(report.channel)),
                      ext.distance(session, report.rssi));
        && (angleResult.CalcFail? ==>
              && outcome == IqAngleFailed && published == []
              && assetTagCount == old(assetTagCount) && assetTagList[..] == old(assetTagList[..]))
        && (angleResult.CalcOk? ==>
              var tagId := ext.addressToId(conn.address, conn.addressType);
              var m := MessageStep(old(assetTagList[..]), old(assetTagCount), Locators(), locatorId, tagId, angleResult.angle, ext.rtl);
              && outcome == IqDelivered(locatorId, tagId, angleResult.angle, m.outcome)
              && assetTagList[..] == m.tags && assetTagCount == m.tagCount
              && published == Published(locatorId, tagId, angleResult.angle, m.outcome, multilocatorId))
    {
      locatorId := ext.addressToId(report.address, report.addressType);
      var loc := FindLocator(locatorId);
      if loc.None? {
        return IqUnknownLocator, [];
      }
      ghost var tags0 := assetTagList[..];
      var angleResult := CalculateAngle(conn, report, buffers, ext);
      assert assetTagList[..] == tags0;
      ghost var snapshot := buffers.Snapshot();
      if angleResult.CalcFail? {
        return IqAngleFailed, [];
      }
      outcome, published := DeliverAngle(conn, angleResult.angle, ext);
      assert buffers.Snapshot() == snapshot;
    }

    /** The first half of app_on_iq_report: the session of the reporting locator, then the angle. */
    static method CalculateAngle(conn: ConnProperties, report: IqReport, buffers: SampleBuffers, ext: Externals)
      returns (angleResult: CalcResult)
      requires buffers.Valid()
      requires FirstIndex(conn.aoaStates, LocatorAddrIs(report.address)).Some?
      modifies buffers.refI, buffers.refQ, buffers.iSamples, buffers.qSamples
      ensures buffers.Valid()
      ensures buffers.ReferenceLoaded(report.samples) && buffers.GridLoaded(report.samples)
      ensures var session := conn.aoaStates[FirstIndex(conn.aoaStates, LocatorAddrIs(report.address)).value];
        angleResult == AngleFromEstimate(report,
          ext.aox(session, buffers.Snapshot(), CalcFrequencyFromChannel(report.channel)),
          ext.distance(session, report.rssi))
    {
      var s := GetLibitemByLocatorAddress(conn, report.address);
      angleResult := AoaCalculate(buffers, conn.aoaStates[s.value], report, ext.aox, ext.distance);
    }

    /** The second half of app_on_iq_report: the angle to on_message under the tag's ID, then published. */
    method DeliverAngle(conn: ConnProperties, angle: Angle, ext: Externals)
      returns (outcome: IqOutcome, published: seq<Publication>)
      requires Valid()
      modifies this`assetTagCount, assetTagList
      ensures Valid()
      ensures var tagId := ext.addressToId(conn.address, conn.addressType);
        var m := MessageStep(old(assetTagList[..]), old(assetTagCount), Locators(), locatorId, tagId, angle, ext.rtl);
        && outcome == IqDelivered(locatorId, tagId, angle, m.outcome)
        && assetTagList[..] == m.tags && assetTagCount == m.tagCount
        && published == Published(locatorId, tagId, angle, m.outcome, multilocatorId)
    {
      var tagId := ext.addressToId(conn.address, conn.addressType);
      var message := OnMessage(locatorId, tagId, angle, ext.rtl);
      outcome := IqDelivered(locatorId, tagId, angle, message);
      published := Published(locatorId, tagId, angle, message, multilocatorId);
    }
  }
}
