/**
 * app_bt_on_event of app_gateway.c: the connection-oriented gateway's
 * handler of Bluetooth stack events. It admits tags from scan reports,
 * walks each connection through service discovery, characteristic
 * discovery and notification enabling, creates locator sessions as IQ
 * reports from new locators arrive, and forwards every IQ report of a known
 * connection to app_on_iq_report.
 *
 * Stack commands are not executed here: each handler returns the commands
 * it issues, in order, as StackCommand values.
 */
module AppGateway {
  import opened AoaTypes
  import opened Search
  import opened Conn
  import opened Aoa
  import opened App

  /** The IQ sampling service UUID, in the byte order memcmp compares. */
  const IQ_SERVICE: Uuid :=
    [0x45, 0x22, 0x6e, 0x06, 0x61, 0xf3, 0x14, 0x92, 0x10, 0x7b, 0xc1, 0x37, 0x37, 0x62, 0x9f, 0x02]

  /** The IQ report characteristic UUID, in the byte order memcmp compares. */
  const IQ_REPORT_CHAR: Uuid :=
    [0xd2, 0x3a, 0x55, 0x80, 0x3b, 0xaf, 0x99, 0x21, 0x06, 0xc2, 0x8b, 0x39, 0xcc, 0x62, 0x8c, 0x77]

  // Connection parameters, in the stack's units.
  const CONN_INTERVAL_MIN: uint16 := 80
  const CONN_INTERVAL_MAX: uint16 := 80
  const CONN_SLAVE_LATENCY: uint16 := 0
  const CONN_TIMEOUT: uint16 := 100
  const CONN_MIN_CE_LENGTH: uint16 := 0
  const CONN_MAX_CE_LENGTH: uint16 := 0xffff

  // Scanner settings (app.h).
  const SCAN_INTERVAL: uint16 := 16
  const SCAN_WINDOW: uint16 := 16
  const SCAN_PASSIVE: byte := 0

  /**
   * The stack commands the handler issues. All of them use the 1M PHY, and
   * scanning uses the generic discovery mode; their status codes are not
   * modelled.
   */
  datatype StackCommand =
    | ScannerSetMode(mode: byte)
    | ScannerSetTiming(interval: uint16, window: uint16)
    | ConnectionSetDefaultParameters(minInterval: uint16, maxInterval: uint16, latency: uint16,
                                     timeout: uint16, minCeLength: uint16, maxCeLength: uint16)
    | ScannerStart
    | ScannerStop
    | ConnectionOpen(address: BdAddr, addressType: byte)
    | DiscoverPrimaryServicesByUuid(connection: byte, uuid: Uuid)
    | DiscoverCharacteristicsByUuid(connection: byte, service: uint32, uuid: Uuid)
    | SetCharacteristicNotification(connection: byte, characteristic: uint16, flags: byte)

  /** The commands issued on the boot event: scanner set up, connection defaults, scanning started. */
  const BOOT_COMMANDS: seq<StackCommand> :=
    [ScannerSetMode(SCAN_PASSIVE),
     ScannerSetTiming(SCAN_INTERVAL, SCAN_WINDOW),
     ConnectionSetDefaultParameters(CONN_INTERVAL_MIN, CONN_INTERVAL_MAX, CONN_SLAVE_LATENCY,
                                    CONN_TIMEOUT, CONN_MIN_CE_LENGTH, CONN_MAX_CE_LENGTH),
     ScannerStart]

  /**
   * The events app_bt_on_event handles. A UUID is the 16 bytes memcmp reads;
   * the characteristic value carries the IQ report laid over its data.
   */
  datatype BtEvent =
    | SystemBoot
    | ScanReport(address: BdAddr, addressType: byte, packetType: byte, data: seq<byte>)
    | ConnectionOpened(connection: byte, address: BdAddr, addressType: byte)
    | GattService(connection: byte, service: uint32, uuid: Uuid)
    | GattCharacteristic(connection: byte, characteristic: uint16, uuid: Uuid)
    | GattProcedureCompleted(connection: byte)
    | ConnectionClosed(connection: byte)
    | CharacteristicValue(connection: byte, report: IqReport)
    | OtherEvent

  /** What the handler needs besides the tables: the whitelist lookup, and the calls of app_on_iq_report. */
  datatype Environment = Environment(onWhitelist: AoaId -> bool, ext: Externals)

  // ---------------------------------------------------------------------
  // One connection's discovery state machine

  /** The events that are routed to one known connection by its handle. */
  datatype ConnEvent =
    | ServiceFound(service: uint32, uuid: Uuid)
    | CharacteristicFound(characteristic: uint16, uuid: Uuid)
    | ProcedureCompleted
    | IqValue(report: IqReport)

  /** A connection record after one event, and the stack commands issued for it. */
  datatype Step = Step(conn: ConnProperties, commands: seq<StackCommand>)

  /** The event's connection identity (handle, address, type) is never changed by a routed event. */
  predicate SameConnection(c: ConnProperties, d: ConnProperties) {
    && d.connectionHandle == c.connectionHandle
    && d.address == c.address
    && d.addressType == c.addressType
  }

  /**
   * A discovered service: its handle is kept only when the UUID is the IQ
   * service. Nothing else changes, the state included.
   */
  function ServiceStep(c: ConnProperties, service: uint32, uuid: Uuid): (r: ConnProperties)
    ensures SameConnection(c, r)
    ensures r.connectionState == c.connectionState
    ensures r.aoaStates == c.aoaStates && r.cteEnableCharHandle == c.cteEnableCharHandle
    ensures r.cteServiceHandle == service <== uuid == IQ_SERVICE
    ensures uuid != IQ_SERVICE ==> r == c
  {
    if uuid == IQ_SERVICE then c.(cteServiceHandle := service) else c
  }

  /**
   * A discovered characteristic: its handle is kept only when the UUID is
   * the IQ report characteristic, and the state becomes
   * DISCOVER_CHARACTERISTICS whatever it was, RUNNING included.
   */
  function CharacteristicStep(c: ConnProperties, characteristic: uint16, uuid: Uuid): (r: ConnProperties)
    ensures SameConnection(c, r)
    ensures r.connectionState == DiscoverCharacteristics
    ensures r.aoaStates == c.aoaStates && r.cteServiceHandle == c.cteServiceHandle
    ensures r.cteEnableCharHandle == if uuid == IQ_REPORT_CHAR then characteristic else c.cteEnableCharHandle
  {
    var d := if uuid == IQ_REPORT_CHAR then c.(cteEnableCharHandle := characteristic) else c;
    d.(connectionState := DiscoverCharacteristics)
  }

  /**
   * A completed GATT procedure: the end of service discovery asks for the
   * IQ characteristic under the stored service handle and keeps the state;
   * the end of characteristic discovery enables notifications on the stored
   * characteristic handle and moves to ENABLE_CTE; the confirmation of that
   * moves to RUNNING; in RUNNING nothing happens.
   */
  function CompletionStep(c: ConnProperties, connection: byte): (r: Step)
    ensures SameConnection(c, r.conn)
    ensures r.conn.aoaStates == c.aoaStates
    ensures r.conn.cteServiceHandle == c.cteServiceHandle && r.conn.cteEnableCharHandle == c.cteEnableCharHandle
    ensures r.conn.connectionState == match c.connectionState {
      case DiscoverServices => DiscoverServices
      case DiscoverCharacteristics => EnableCte
      case EnableCte => Running
      case Running => Running
    }
    ensures c.connectionState == DiscoverServices <==>
      r.commands == [DiscoverCharacteristicsByUuid(connection, c.cteServiceHandle, IQ_REPORT_CHAR)]
    ensures c.connectionState == DiscoverCharacteristics <==>
      r.commands == [SetCharacteristicNotification(connection, c.cteEnableCharHandle, 1)]
    ensures c.connectionState in {EnableCte, Running} <==> r.commands == []
  {
    match c.connectionState {
      case DiscoverServices =>
        Step(c, [DiscoverCharacteristicsByUuid(connection, c.cteServiceHandle, IQ_REPORT_CHAR)])
      case DiscoverCharacteristics =>
        Step(c.(connectionState := EnableCte), [SetCharacteristicNotification(connection, c.cteEnableCharHandle, 1)])
      case EnableCte =>
        Step(c.(connectionState := Running), [])
      case Running =>
        Step(c, [])
    }
  }

  /**
   * An IQ report on the connection: an empty sample report is ignored; a
   * report from a locator address with no session yet appends one at index
   * num_locators_found, with no bound check; a known address adds nothing.
   * The state is not consulted.
   */
  function IqValueStep(c: ConnProperties, report: IqReport): (r: ConnProperties)
    ensures SameConnection(c, r)
    ensures r.connectionState == c.connectionState
    ensures r.cteServiceHandle == c.cteServiceHandle && r.cteEnableCharHandle == c.cteEnableCharHandle
    ensures |report.samples| == 0 ==> r == c
    ensures |report.samples| > 0 ==> FirstIndex(r.aoaStates, LocatorAddrIs(report.address)).Some?
    ensures r.aoaStates == c.aoaStates ||
      (&& |report.samples| > 0
       && FirstIndex(c.aoaStates, LocatorAddrIs(report.address)).None?
       && r.aoaStates == c.aoaStates + [LocatorSession(report.address)])
  {
    if |report.samples| == 0 then c
    else if FirstIndex(c.aoaStates, LocatorAddrIs(report.address)).None? then
      FirstIndexAppend(c.aoaStates, LocatorSession(report.address), LocatorAddrIs(report.address));
      c.(aoaStates := c.aoaStates + [LocatorSession(report.address)])
    else c
  }

  /** One routed event on a known connection. */
  function ConnStep(c: ConnProperties, connection: byte, e: ConnEvent): Step {
    match e {
      case ServiceFound(service, uuid) => Step(ServiceStep(c, service, uuid), [])
      case CharacteristicFound(characteristic, uuid) => Step(CharacteristicStep(c, characteristic, uuid), [])
      case ProcedureCompleted => CompletionStep(c, connection)
      case IqValue(report) => Step(IqValueStep(c, report), [])
    }
  }

  /** A sequence of routed events on one connection, with the commands they issue, in order. */
  function ConnRun(c: ConnProperties, connection: byte, es: seq<ConnEvent>): Step
    decreases |es|
  {
    if es == [] then Step(c, [])
    else
      var first := ConnStep(c, connection, es[0]);
      var rest := ConnRun(first.conn, connection, es[1..]);
      Step(rest.conn, first.commands + rest.commands)
  }

  /** No two sessions of the connection share a locator address. */
  ghost predicate SessionsDistinct(c: ConnProperties) {
    forall i, j :: 0 <= i < j < |c.aoaStates| ==> c.aoaStates[i].locatorAddr != c.aoaStates[j].locatorAddr
  }

  /** Every routed event keeps the sessions of a connection keyed by distinct locator addresses. */
  lemma StepKeepsSessionsDistinct(c: ConnProperties, connection: byte, e: ConnEvent)
    requires SessionsDistinct(c)
    ensures SessionsDistinct(ConnStep(c, connection, e).conn)
  {
    if e.IqValue? {
      var report := e.report;
      if |report.samples| > 0 && FirstIndex(c.aoaStates, LocatorAddrIs(report.address)).None? {
        var s := ConnStep(c, connection, e).conn.aoaStates;
        assert s == c.aoaStates + [LocatorSession(report.address)];
        forall i, j | 0 <= i < j < |s|
          ensures s[i].locatorAddr != s[j].locatorAddr
        {
          if j == |c.aoaStates| {
            assert !LocatorAddrIs(report.address)(c.aoaStates[i]);
          }
        }
      }
    }
  }

  /** A run of routed events keeps the sessions keyed by distinct locator addresses. */
  lemma {:induction false} RunKeepsSessionsDistinct(c: ConnProperties, connection: byte, es: seq<ConnEvent>)
    requires SessionsDistinct(c)
    ensures SessionsDistinct(ConnRun(c, connection, es).conn)
    decreases |es|
  {
    if es != [] {
      StepKeepsSessionsDistinct(c, connection, es[0]);
      RunKeepsSessionsDistinct(ConnStep(c, connection, es[0]).conn, connection, es[1..]);
    }
  }

  /**
   * A connection in DISCOVER_SERVICES that receives only procedure-completed
   * events stays there, asking for characteristic discovery each time.
   */
  lemma {:induction false} CompletionsKeepDiscoveringServices(c: ConnProperties, connection: byte, n: nat)
    requires c.connectionState == DiscoverServices
    ensures ConnRun(c, connection, seq(n, _ => ProcedureCompleted)) ==
      Step(c, seq(n, _ => DiscoverCharacteristicsByUuid(connection, c.cteServiceHandle, IQ_REPORT_CHAR)))
  {
    if n > 0 {
      var es := seq(n, _ => ProcedureCompleted);
      assert es[0] == ProcedureCompleted && es[1..] == seq(n - 1, _ => ProcedureCompleted);
      CompletionsKeepDiscoveringServices(c, connection, n - 1);
      var d := DiscoverCharacteristicsByUuid(connection, c.cteServiceHandle, IQ_REPORT_CHAR);
      assert [d] + seq(n - 1, _ => d) == seq(n, _ => d);
    }
  }

  /**
   * A connection leaves DISCOVER_SERVICES only through a characteristic
   * event: service, completion and IQ events never move it.
   */
  lemma {:induction false} LeavingDiscoverServicesNeedsCharacteristic(c: ConnProperties, connection: byte, es: seq<ConnEvent>)
    requires c.connectionState == DiscoverServices
    requires ConnRun(c, connection, es).conn.connectionState != DiscoverServices
    ensures exists i :: 0 <= i < |es| && es[i].CharacteristicFound?
    decreases |es|
  {
    if !es[0].CharacteristicFound? {
      var d := ConnStep(c, connection, es[0]).conn;
      assert d.connectionState == DiscoverServices;
      LeavingDiscoverServicesNeedsCharacteristic(d, connection, es[1..]);
      var i :| 0 <= i < |es[1..]| && es[1..][i].CharacteristicFound?;
      assert es[i + 1].CharacteristicFound?;
    }
  }

  /** IQ reports never move a connection's state nor its handles, and only ever add sessions at the end. */
  lemma {:induction false} IqValuesKeepState(c: ConnProperties, connection: byte, es: seq<ConnEvent>)
    requires forall i :: 0 <= i < |es| ==> es[i].IqValue?
    ensures var r := ConnRun(c, connection, es);
      && r.commands == []
      && SameConnection(c, r.conn)
      && r.conn.connectionState == c.connectionState
      && r.conn.cteServiceHandle == c.cteServiceHandle
      && r.conn.cteEnableCharHandle == c.cteEnableCharHandle
      && c.aoaStates <= r.conn.aoaStates
    decreases |es|
  {
    if es != [] {
      IqValuesKeepState(ConnStep(c, connection, es[0]).conn, connection, es[1..]);
    }
  }

  /**
   * The discovery sequence of a freshly opened connection: the IQ service
   * found, its discovery completed, the IQ report characteristic found, its
   * discovery completed, the notification write completed. The connection
   * is then RUNNING with both handles stored, having asked for the
   * characteristic under the service handle and for notifications on the
   * characteristic handle.
   */
  lemma DiscoveryReachesRunning(c: ConnProperties, connection: byte, service: uint32, characteristic: uint16)
    requires c.connectionState == DiscoverServices
    ensures var r := ConnRun(c, connection,
      [ServiceFound(service, IQ_SERVICE), ProcedureCompleted,
       CharacteristicFound(characteristic, IQ_REPORT_CHAR), ProcedureCompleted, ProcedureCompleted]);
      && r.conn == c.(cteServiceHandle := service, cteEnableCharHandle := characteristic, connectionState := Running)
      && r.commands == [DiscoverCharacteristicsByUuid(connection, service, IQ_REPORT_CHAR),
                        SetCharacteristicNotification(connection, characteristic, 1)]
  {
    var es := [ServiceFound(service, IQ_SERVICE), ProcedureCompleted,
               CharacteristicFound(characteristic, IQ_REPORT_CHAR), ProcedureCompleted, ProcedureCompleted];
    var c1 := c.(cteServiceHandle := service);
    var c3 := c1.(cteEnableCharHandle := characteristic, connectionState := DiscoverCharacteristics);
    var c4 := c3.(connectionState := EnableCte);
    var c5 := c4.(connectionState := Running);
    assert ConnRun(c5, connection, es[5..]) == Step(c5, []);
    assert ConnRun(c4, connection, es[4..]) == Step(c5, []);
    assert ConnRun(c3, connection, es[3..]) == Step(c5, [SetCharacteristicNotification(connection, characteristic, 1)]);
    assert ConnRun(c1, connection, es[2..]) == ConnRun(c3, connection, es[3..]);
    assert ConnRun(c1, connection, es[1..]) ==
      Step(c5, [DiscoverCharacteristicsByUuid(connection, service, IQ_REPORT_CHAR),
                SetCharacteristicNotification(connection, characteristic, 1)]);
  }

  /**
   * Session creation has no bound: a connection that already holds
   * MAX_NUM_LOCATORS sessions gets one more from a report of a new locator.
   */
  lemma SessionsExceedLocatorCapacity(c: ConnProperties, report: IqReport)
    requires |c.aoaStates| == MAX_NUM_LOCATORS && |report.samples| > 0
    requires forall i :: 0 <= i < |c.aoaStates| ==> c.aoaStates[i].locatorAddr != report.address
    ensures |IqValueStep(c, report).aoaStates| == MAX_NUM_LOCATORS + 1
  {
  }

  // ---------------------------------------------------------------------
  // The scan-report admission filter

  /** Bits 1 and 2 of the packet type clear: a connectable advertisement. */
  predicate ConnectableAdvertising(packetType: byte) {
    (packetType / 2) % 4 == 0
  }

  /** Some AD structure of the data lists the UUID in a 128-bit service UUID list. */
  ghost predicate AdvertisesService(adv: seq<byte>, uuid: Uuid) {
    exists k :: 0 <= k < |Structures(adv, 0)| && ListsService(adv, Structures(adv, 0)[k], uuid)
  }

  /**
   * A scan report leads to a connection request exactly when the tag is on
   * the whitelist, the advertisement is connectable, it advertises the IQ
   * service, the table has room and no connection has that address.
   */
  ghost predicate ScanAdmits(active: seq<ConnProperties>, onWhitelist: bool, packetType: byte,
                             data: seq<byte>, address: BdAddr) {
    && onWhitelist
    && ConnectableAdvertising(packetType)
    && AdvertisesService(data, IQ_SERVICE)
    && |active| < MAX_NUM_TAGS
    && FirstIndex(active, AddressIs(address)).None?
  }

  // ---------------------------------------------------------------------
  // The handlers, on the connection table in place

  /** The scan report case: stop scanning and open a connection to an admitted tag. */
  method OnScanReport(table: ConnectionTable, env: Environment, address: BdAddr, addressType: byte,
                      packetType: byte, data: seq<byte>)
    returns (commands: seq<StackCommand>)
    requires table.Valid()
    ensures ScanAdmits(table.Active(), env.onWhitelist(env.ext.addressToId(address, addressType)), packetType, data, address) ==>
      commands == [ScannerStop, ConnectionOpen(address, addressType)]
    ensures !ScanAdmits(table.Active(), env.onWhitelist(env.ext.addressToId(address, addressType)), packetType, data, address) ==>
      commands == []
  {
    commands := [];
    var localId := env.ext.addressToId(address, addressType);
    if !env.onWhitelist(localId) {
      return;
    }
    if !ConnectableAdvertising(packetType) {
      return;
    }
    var found := FindServiceInAdvertisement(data, IQ_SERVICE);
    assert found <==> AdvertisesService(data, IQ_SERVICE);
    if found {
      var conn := table.GetConnectionByAddress(address);
      assert |table.Active()| == table.activeConnectionsNum;
      if !table.IsConnectionListFull() && conn.None? {
        commands := [ScannerStop, ConnectionOpen(address, addressType)];
        assert ScanAdmits(table.Active(), env.onWhitelist(localId), packetType, data, address);
      }
    }
  }

  /**
   * The connection-opened case: the connection is added (a full table
   * silently refuses it) and primary service discovery for the IQ service
   * is requested either way.
   */
  method OnConnectionOpened(table: ConnectionTable, connection: byte, address: BdAddr, addressType: byte)
    returns (commands: seq<StackCommand>)
    requires table.Valid()
    modifies table`activeConnectionsNum, table.connProperties
    ensures table.Valid()
    ensures commands == [DiscoverPrimaryServicesByUuid(connection, IQ_SERVICE)]
    ensures old(table.activeConnectionsNum) < MAX_NUM_TAGS ==>
      && table.Active() == old(table.Active()) + [Opened(old(table.connProperties[table.activeConnectionsNum]), connection, address, addressType)]
      && table.connProperties[..] == old(table.connProperties[..])[old(table.activeConnectionsNum) :=
           Opened(old(table.connProperties[table.activeConnectionsNum]), connection, address, addressType)]
    ensures old(table.activeConnectionsNum) == MAX_NUM_TAGS ==>
      table.activeConnectionsNum == MAX_NUM_TAGS && table.connProperties[..] == old(table.connProperties[..])
    ensures old(table.InactiveSlotsInvalid()) ==> table.InactiveSlotsInvalid()
  {
    var _ := table.AddConnection(connection, address, addressType);
    commands := [DiscoverPrimaryServicesByUuid(connection, IQ_SERVICE)];
  }

  /**
   * The service, characteristic and procedure-completed cases: the event
   * reaches the first active connection with its handle through ConnStep;
   * for an unknown handle nothing changes.
   */
  method OnGattEvent(table: ConnectionTable, connection: byte, e: ConnEvent)
    returns (commands: seq<StackCommand>)
    requires table.Valid() && !e.IqValue?
    modifies table.connProperties
    ensures FirstIndex(old(table.Active()), HandleIs(connection)).None? ==>
      commands == [] && table.connProperties[..] == old(table.connProperties[..])
    ensures FirstIndex(old(table.Active()), HandleIs(connection)).Some? ==>
      var k := FirstIndex(old(table.Active()), HandleIs(connection)).value;
      var step := ConnStep(old(table.connProperties[k]), connection, e);
      && commands == step.commands
      && table.connProperties[..] == old(table.connProperties[..])[k := step.conn]
  {
    commands := [];
    var found := table.GetConnectionByHandle(connection);
    if found.None? {
      return;
    }
    var k := found.value;
    var c := table.connProperties[k];
    match e {
      case ServiceFound(service, uuid) =>
        if uuid == IQ_SERVICE {
          table.connProperties[k] := c.(cteServiceHandle := service);
        }
      case CharacteristicFound(characteristic, uuid) =>
        if uuid == IQ_REPORT_CHAR {
          table.connProperties[k] := c.(cteEnableCharHandle := characteristic);
        }
        table.connProperties[k] := table.connProperties[k].(connectionState := DiscoverCharacteristics);
      case ProcedureCompleted =>
        match c.connectionState {
          case DiscoverServices =>
            commands := [DiscoverCharacteristicsByUuid(connection, c.cteServiceHandle, IQ_REPORT_CHAR)];
          case DiscoverCharacteristics =>
            commands := [SetCharacteristicNotification(connection, c.cteEnableCharHandle, 1)];
            table.connProperties[k] := c.(connectionState := EnableCte);
          case EnableCte =>
            table.connProperties[k] := c.(connectionState := Running);
          case Running =>
        }
    }
  }

  /**
   * The characteristic-value case: for a known connection and a non-empty
   * sample report, the reporting locator gets a session if it has none, and
   * the report goes to app_on_iq_report whatever the connection's state.
   */
  method OnCharacteristicValue(table: ConnectionTable, app: AppState, buffers: SampleBuffers, env: Environment,
                               connection: byte, report: IqReport)
    returns (forwarded: Option<IqOutcome>, published: seq<Publication>)
    requires table.Valid() && app.Valid() && buffers.Valid()
    modifies table.connProperties
    modifies app`locatorId, app`assetTagCount, app.assetTagList
    modifies buffers.refI, buffers.refQ, buffers.iSamples, buffers.qSamples
    ensures app.Valid()
    ensures forwarded.Some? <==> FirstIndex(old(table.Active()), HandleIs(connection)).Some? && |report.samples| > 0
    ensures FirstIndex(old(table.Active()), HandleIs(connection)).None? ==>
      table.connProperties[..] == old(table.connProperties[..])
    ensures FirstIndex(old(table.Active()), HandleIs(connection)).Some? ==>
      var k := FirstIndex(old(table.Active()), HandleIs(connection)).value;
      table.connProperties[..] == old(table.connProperties[..])[k := IqValueStep(old(table.connProperties[k]), report)]
    ensures forwarded.Some? ==> app.locatorId == env.ext.addressToId(report.address, report.addressType)
    ensures forwarded.None? ==> published == [] && unchanged(app, app.assetTagList)
  {
    forwarded, published := None, [];
    var found := table.GetConnectionByHandle(connection);
    if found.None? {
      return;
    }
    var k := found.value;
    if |report.samples| == 0 {
      return;
    }
    AddLocatorSession(table, k, report);
    ghost var slots := table.connProperties[..];
    var outcome;
    outcome, published := app.AppOnIqReport(table.connProperties[k], report, buffers, env.ext);
    assert table.connProperties[..] == slots;
    forwarded := Some(outcome);
  }

  /** The lazy session creation of the characteristic-value case, on slot k of the table. */
  method AddLocatorSession(table: ConnectionTable, k: nat, report: IqReport)
    requires table.Valid() && k < MAX_NUM_TAGS && |report.samples| > 0
    modifies table.connProperties
    ensures table.connProperties[..] == old(table.connProperties[..])[k := IqValueStep(old(table.connProperties[k]), report)]
  {
    var c := table.connProperties[k];
    var s := GetLibitemByLocatorAddress(c, report.address);
    if s.None? {
      table.connProperties[k] := c.(aoaStates := c.aoaStates + [LocatorSession(report.address)]);
    }
  }

  /** The connection-closed case: the connection is removed and scanning restarts. */
  method OnConnectionClosed(table: ConnectionTable, connection: byte)
    returns (commands: seq<StackCommand>, deinitialized: seq<LocatorSession>)
    requires table.Valid()
    modifies table`activeConnectionsNum, table.connProperties
    ensures table.Valid()
    ensures commands == [ScannerStart]
    ensures FirstIndex(old(table.Active()), HandleIs(connection)).None? ==>
      && deinitialized == []
      && table.activeConnectionsNum == old(table.activeConnectionsNum)
      && table.connProperties[..] == old(table.connProperties[..])
    ensures FirstIndex(old(table.Active()), HandleIs(connection)).Some? ==>
      var k := FirstIndex(old(table.Active()), HandleIs(connection)).value;
      && deinitialized == old(table.connProperties[k].aoaStates)
      && table.Active() == old(table.Active())[..k] + old(table.Active())[k + 1..]
      && table.InactiveSlotsInvalid()
  {
    var _, removed := table.RemoveConnection(connection);
    deinitialized := removed;
    commands := [ScannerStart];
  }

  /** The connection an event is routed to by handle, with what it carries for that connection. */
  function Routed(e: BtEvent): Option<(byte, ConnEvent)> {
    match e {
      case GattService(connection, service, uuid) => Some((connection, ServiceFound(service, uuid)))
      case GattCharacteristic(connection, characteristic, uuid) => Some((connection, CharacteristicFound(characteristic, uuid)))
      case GattProcedureCompleted(connection) => Some((connection, ProcedureCompleted))
      case CharacteristicValue(connection, report) => Some((connection, IqValue(report)))
      case _ => None
    }
  }

  /**
   * The cases of app_bt_on_event that look a connection up by handle: only
   * the first active connection with the handle changes, as ConnStep says,
   * and for an unknown handle nothing changes.
   */
  method OnRoutedEvent(table: ConnectionTable, app: AppState, buffers: SampleBuffers, env: Environment,
                       connection: byte, e: ConnEvent)
    returns (commands: seq<StackCommand>, forwarded: Option<IqOutcome>, published: seq<Publication>)
    requires table.Valid() && app.Valid() && buffers.Valid()
    modifies table.connProperties
    modifies app`locatorId, app`assetTagCount, app.assetTagList
    modifies buffers.refI, buffers.refQ, buffers.iSamples, buffers.qSamples
    ensures app.Valid()
    ensures FirstIndex(old(table.Active()), HandleIs(connection)).None? ==>
      commands == [] && table.connProperties[..] == old(table.connProperties[..])
    ensures FirstIndex(old(table.Active()), HandleIs(connection)).Some? ==>
      var k := FirstIndex(old(table.Active()), HandleIs(connection)).value;
      var step := ConnStep(old(table.connProperties[k]), connection, e);
      commands == step.commands && table.connProperties[..] == old(table.connProperties[..])[k := step.conn]
    ensures forwarded.Some? <==>
      e.IqValue? && FirstIndex(old(table.Active()), HandleIs(connection)).Some? && |e.report.samples| > 0
    ensures forwarded.None? ==> published == [] && unchanged(app, app.assetTagList)
  {
    forwarded, published := None, [];
    if e.IqValue? {
      commands := [];
      forwarded, published := OnCharacteristicValue(table, app, buffers, env, connection, e.report);
    } else {
      commands := OnGattEvent(table, connection, e);
    }
  }

  /**
   * What app_bt_on_event does on an event that names no connection handle:
   * boot issues the setup commands; a scan report asks for a connection
   * exactly when the advertiser is admitted; an opened connection is
   * appended when there is room and service discovery is requested; a closed
   * one is removed, the first with its handle, and scanning restarts.
   */
  twostate predicate TableEventDone(table: ConnectionTable, env: Environment, e: BtEvent, commands: seq<StackCommand>)
    requires Routed(e).None? && old(table.Valid()) && table.Valid()
    reads table, table.connProperties
  {
    && (e.SystemBoot? || e.OtherEvent? ==>
        commands == (if e.SystemBoot? then BOOT_COMMANDS else []) && unchanged(table, table.connProperties))
    && (e.ScanReport? ==>
        && unchanged(table, table.connProperties)
        && commands == if ScanAdmits(table.Active(), env.onWhitelist(env.ext.addressToId(e.address, e.addressType)),
                                     e.packetType, e.data, e.address)
                       then [ScannerStop, ConnectionOpen(e.address, e.addressType)] else [])
    && (e.ConnectionOpened? ==>
        && commands == [DiscoverPrimaryServicesByUuid(e.connection, IQ_SERVICE)]
        && (old(table.activeConnectionsNum) < MAX_NUM_TAGS ==>
              table.Active() == old(table.Active()) + [Opened(old(table.connProperties[table.activeConnectionsNum]), e.connection, e.address, e.addressType)])
        && (old(table.activeConnectionsNum) == MAX_NUM_TAGS ==>
              table.activeConnectionsNum == MAX_NUM_TAGS && table.connProperties[..] == old(table.connProperties[..])))
    && (e.ConnectionClosed? ==>
        && commands == [ScannerStart]
        && (FirstIndex(old(table.Active()), HandleIs(e.connection)).None? ==>
              table.activeConnectionsNum == old(table.activeConnectionsNum) && table.connProperties[..] == old(table.connProperties[..]))
        && (FirstIndex(old(table.Active()), HandleIs(e.connection)).Some? ==>
              var k := FirstIndex(old(table.Active()), HandleIs(e.connection)).value;
              table.Active() == old(table.Active())[..k] + old(table.Active())[k + 1..]))
  }

  /**
   * The cases of app_bt_on_event that act on the table as a whole: boot,
   * scan report, connection opened and closed.
   */
  method OnTableEvent(table: ConnectionTable, env: Environment, e: BtEvent)
    returns (commands: seq<StackCommand>)
    requires table.Valid() && Routed(e).None?
    modifies table`activeConnectionsNum, table.connProperties
    ensures table.Valid()
    ensures TableEventDone(table, env, e, commands)
  {
    commands := [];
    match e {
      case SystemBoot =>
        commands := BOOT_COMMANDS;
      case ScanReport(address, addressType, packetType, data) =>
        commands := OnScanReport(table, env, address, addressType, packetType, data);
      case ConnectionOpened(connection, address, addressType) =>
        commands := OnConnectionOpened(table, connection, address, addressType);
      case ConnectionClosed(connection) =>
        var deinitialized;
        commands, deinitialized := OnConnectionClosed(table, connection);
      case OtherEvent =>
    }
  }

  /**
   * app_bt_on_event: routed events change at most the one connection their
   * handle names, and only IQ reports reach the tag tables; the other events
   * act on the connection table as TableEventDone says.
   */
  method AppBtOnEvent(table: ConnectionTable, app: AppState, buffers: SampleBuffers, env: Environment, e: BtEvent)
    returns (commands: seq<StackCommand>, forwarded: Option<IqOutcome>, published: seq<Publication>)
    requires table.Valid() && app.Valid() && buffers.Valid()
    modifies table`activeConnectionsNum, table.connProperties
    modifies app`locatorId, app`assetTagCount, app.assetTagList
    modifies buffers.refI, buffers.refQ, buffers.iSamples, buffers.qSamples
    ensures table.Valid() && app.Valid()
    ensures !e.CharacteristicValue? ==> forwarded.None? && published == [] && unchanged(app, app.assetTagList)
    ensures Routed(e).Some? ==>
      var connection := Routed(e).value.0;
      && table.activeConnectionsNum == old(table.activeConnectionsNum)
      && (FirstIndex(old(table.Active()), HandleIs(connection)).None? ==>
            commands == [] && table.connProperties[..] == old(table.connProperties[..]))
      && (FirstIndex(old(table.Active()), HandleIs(connection)).Some? ==>
            var k := FirstIndex(old(table.Active()), HandleIs(connection)).value;
            var step := ConnStep(old(table.connProperties[k]), connection, Routed(e).value.1);
            commands == step.commands && table.connProperties[..] == old(table.connProperties[..])[k := step.conn])
    ensures e.CharacteristicValue? ==>
      (forwarded.Some? <==> FirstIndex(old(table.Active()), HandleIs(e.connection)).Some? && |e.report.samples| > 0)
    ensures Routed(e).None? ==> forwarded.None? && unchanged(buffers.refI, buffers.refQ, buffers.iSamples, buffers.qSamples)
    ensures Routed(e).None? ==> TableEventDone(table, env, e, commands)
  {
    forwarded, published := None, [];
    match Routed(e) {
      case Some((connection, ce)) =>
        commands, forwarded, published := OnRoutedEvent(table, app, buffers, env, connection, ce);
      case None =>
        commands := OnTableEvent(table, env, e);
    }
  }
}
