/**
 * The connection registry of conn.c: a table of MAX_NUM_TAGS connection
 * records, of which the first `activeConnectionsNum` are in use. A pointer
 * into the table is modelled as the slot index.
 */
module Conn {
  import opened AoaTypes
  import opened Search

  const CONNECTION_HANDLE_INVALID: uint16 := 0xFFFF
  const SERVICE_HANDLE_INVALID: uint32 := 0xFFFF_FFFF
  const CHARACTERISTIC_HANDLE_INVALID: uint16 := 0xFFFF

  /** connection_state_t, in declaration order. */
  datatype ConnectionState = DiscoverServices | DiscoverCharacteristics | EnableCte | Running

  /**
   * aoa_libitems_t: one locator session of a connection, keyed by the
   * locator's address. The AoX estimator and distance filter it owns are
   * library state and are not modelled.
   */
  datatype LocatorSession = LocatorSession(locatorAddr: BdAddr)

  /**
   * conn_properties_t. `aoaStates` holds aoa_states[0 .. num_locators_found),
   * so num_locators_found is |aoaStates|; the source never reads the entries
   * beyond num_locators_found before overwriting them.
   */
  datatype ConnProperties = ConnProperties(
    connectionHandle: uint16,
    address: BdAddr,
    addressType: byte,
    cteServiceHandle: uint32,
    cteEnableCharHandle: uint16,
    connectionState: ConnectionState,
    aoaStates: seq<LocatorSession>)

  const ZERO_ADDR: BdAddr := [0, 0, 0, 0, 0, 0]

  /** A slot of the zero-initialised static table, before init_connection. */
  const ZERO_SLOT := ConnProperties(0, ZERO_ADDR, 0, 0, 0, DiscoverServices, [])

  /** The three handles hold the invalid sentinels. */
  predicate HandlesInvalid(c: ConnProperties) {
    && c.connectionHandle == CONNECTION_HANDLE_INVALID
    && c.cteServiceHandle == SERVICE_HANDLE_INVALID
    && c.cteEnableCharHandle == CHARACTERISTIC_HANDLE_INVALID
  }

  /** The slot with its three handles set to the sentinels, the rest kept. */
  function Invalidated(c: ConnProperties): ConnProperties {
    c.(connectionHandle := CONNECTION_HANDLE_INVALID,
       cteServiceHandle := SERVICE_HANDLE_INVALID,
       cteEnableCharHandle := CHARACTERISTIC_HANDLE_INVALID)
  }

  /**
   * The slot as add_connection leaves it: handle, address and type stored,
   * state DISCOVER_SERVICES, no locator sessions. The service and
   * characteristic handles are not touched.
   */
  function Opened(c: ConnProperties, connection: uint16, address: BdAddr, addressType: byte): ConnProperties {
    c.(connectionHandle := connection,
       address := address,
       addressType := addressType,
       connectionState := DiscoverServices,
       aoaStates := [])
  }

  function HandleIs(h: uint16): ConnProperties -> bool {
    (c: ConnProperties) => c.connectionHandle == h
  }

  function AddressIs(a: BdAddr): ConnProperties -> bool {
    (c: ConnProperties) => c.address == a
  }

  function LocatorAddrIs(a: BdAddr): LocatorSession -> bool {
    (s: LocatorSession) => s.locatorAddr == a
  }

  class ConnectionTable {
    /** conn_properties[MAX_NUM_TAGS] */
    const connProperties: array<ConnProperties>
    /** active_connections_num */
    var activeConnectionsNum: nat

    ghost predicate Valid()
      reads this
    {
      connProperties.Length == MAX_NUM_TAGS && activeConnectionsNum <= MAX_NUM_TAGS
    }

    /** Every slot at or beyond the active count carries the three sentinels. */
    ghost predicate InactiveSlotsInvalid()
      reads this, connProperties
    {
      forall i :: activeConnectionsNum <= i < connProperties.Length ==> HandlesInvalid(connProperties[i])
    }

    /** The active connections, in table order. */
    ghost function Active(): seq<ConnProperties>
      reads this, connProperties
      requires Valid()
    {
      connProperties[..activeConnectionsNum]
    }

    /** The table as static storage holds it before init_connection runs. */
    constructor ()
      ensures Valid() && fresh(connProperties)
      ensures activeConnectionsNum == 0
      ensures forall i :: 0 <= i < MAX_NUM_TAGS ==> connProperties[i] == ZERO_SLOT
    {
      connProperties := new ConnProperties[MAX_NUM_TAGS](_ => ZERO_SLOT);
      activeConnectionsNum := 0;
    }

    /** init_connection: no active connections, every slot's handles invalid. */
    method InitConnection()
      requires Valid()
      modifies this`activeConnectionsNum, connProperties
      ensures Valid()
      ensures activeConnectionsNum == 0 && Active() == []
      ensures forall i :: 0 <= i < MAX_NUM_TAGS ==> connProperties[i] == Invalidated(old(connProperties[i]))
      ensures InactiveSlotsInvalid()
    {
      activeConnectionsNum := 0;
      for i := 0 to MAX_NUM_TAGS
        modifies connProperties
        invariant forall j :: 0 <= j < i ==> connProperties[j] == Invalidated(old(connProperties[j]))
        invariant forall j :: i <= j < MAX_NUM_TAGS ==> connProperties[j] == old(connProperties[j])
      {
        connProperties[i] := Invalidated(connProperties[i]);
      }
    }

    /**
     * add_connection: appends a record at the end of the active part when
     * there is room, and returns its slot; on a full table nothing changes.
     * Duplicate handles are not checked.
     */
    method AddConnection(connection: uint16, address: BdAddr, addressType: byte) returns (ret: Option<nat>)
      requires Valid()
      modifies this`activeConnectionsNum, connProperties
      ensures Valid()
      ensures ret.Some? <==> old(activeConnectionsNum) < MAX_NUM_TAGS
      ensures ret.Some? ==>
        && ret.value == old(activeConnectionsNum)
        && activeConnectionsNum == old(activeConnectionsNum) + 1
        && connProperties[..] == old(connProperties[..])[ret.value := Opened(old(connProperties[ret.value]), connection, address, addressType)]
        && Active() == old(Active()) + [Opened(old(connProperties[ret.value]), connection, address, addressType)]
      ensures ret.None? ==>
        activeConnectionsNum == old(activeConnectionsNum) && connProperties[..] == old(connProperties[..])
      ensures old(InactiveSlotsInvalid()) ==> InactiveSlotsInvalid()
      ensures old(InactiveSlotsInvalid()) && ret.Some? ==>
        && connProperties[ret.value].cteServiceHandle == SERVICE_HANDLE_INVALID
        && connProperties[ret.value].cteEnableCharHandle == CHARACTERISTIC_HANDLE_INVALID
    {
      ret := None;
      if activeConnectionsNum < MAX_NUM_TAGS {
        var n := activeConnectionsNum;
        connProperties[n] := Opened(connProperties[n], connection, address, addressType);
        ret := Some(n);
        activeConnectionsNum := n + 1;
        assert Active() == old(Active()) + [connProperties[n]];
      }
    }

    /**
     * remove_connection: returns 1 and changes nothing when no active entry
     * has the handle. Otherwise it tears down the removed entry's locator
     * sessions (returned in order), shifts the later entries down one slot,
     * resets the handles of every slot from the new count on, and returns 0.
     */
    method RemoveConnection(connection: uint16) returns (status: byte, deinitialized: seq<LocatorSession>)
      requires Valid()
      modifies this`activeConnectionsNum, connProperties
      ensures Valid()
      ensures status == 0 || status == 1
      ensures FirstIndex(old(Active()), HandleIs(connection)).None? ==>
        && status == 1 && deinitialized == []
        && activeConnectionsNum == old(activeConnectionsNum)
        && connProperties[..] == old(connProperties[..])
      ensures FirstIndex(old(Active()), HandleIs(connection)).Some? ==>
        var k := FirstIndex(old(Active()), HandleIs(connection)).value;
        && status == 0
        && deinitialized == old(connProperties[k].aoaStates)
        && activeConnectionsNum == old(activeConnectionsNum) - 1
        && Active() == old(Active())[..k] + old(Active())[k + 1..]
        && (forall j :: activeConnectionsNum <= j < MAX_NUM_TAGS ==>
              connProperties[j] == Invalidated(old(connProperties[j])))
      ensures status == 0 ==> InactiveSlotsInvalid() && !IsConnectionListFull()
      ensures old(InactiveSlotsInvalid()) ==> InactiveSlotsInvalid()
    {
      if activeConnectionsNum == 0 {
        return 1, [];
      }
      var found := GetConnectionByHandle(connection);
      if found.None? {
        return 1, [];
      }
      var k := found.value;
      ghost var act := Active();

      deinitialized := DeinitSessions(connProperties[k].aoaStates);

      activeConnectionsNum := activeConnectionsNum - 1;
      var n := activeConnectionsNum;

      ShiftDown(k, n);
      InvalidateFrom(n);
      ShiftedOut(act, Active(), k);
      status := 0;
    }

    /** The shift loop of remove_connection: slot i takes slot i + 1 for k <= i < n. */
    method ShiftDown(k: nat, n: nat)
      requires Valid() && k <= n < MAX_NUM_TAGS
      modifies connProperties
      ensures forall j :: 0 <= j < k ==> connProperties[j] == old(connProperties[j])
      ensures forall j :: k <= j < n ==> connProperties[j] == old(connProperties[j + 1])
      ensures forall j :: n <= j < MAX_NUM_TAGS ==> connProperties[j] == old(connProperties[j])
    {
      for i := k to n
        invariant forall j :: 0 <= j < k ==> connProperties[j] == old(connProperties[j])
        invariant forall j :: k <= j < i ==> connProperties[j] == old(connProperties[j + 1])
        invariant forall j :: i <= j < MAX_NUM_TAGS ==> connProperties[j] == old(connProperties[j])
      {
        connProperties[i] := connProperties[i + 1];
      }
    }

    /** The clearing loop of remove_connection: every slot from n on gets the sentinels. */
    method InvalidateFrom(n: nat)
      requires Valid() && n <= MAX_NUM_TAGS
      modifies connProperties
      ensures forall j :: 0 <= j < n ==> connProperties[j] == old(connProperties[j])
      ensures forall j :: n <= j < MAX_NUM_TAGS ==> connProperties[j] == Invalidated(old(connProperties[j]))
    {
      for i := n to MAX_NUM_TAGS
        invariant forall j :: 0 <= j < n ==> connProperties[j] == old(connProperties[j])
        invariant forall j :: n <= j < i ==> connProperties[j] == Invalidated(old(connProperties[j]))
        invariant forall j :: i <= j < MAX_NUM_TAGS ==> connProperties[j] == old(connProperties[j])
      {
        connProperties[i] := Invalidated(connProperties[i]);
      }
    }

    /** is_connection_list_full: the table holds MAX_NUM_TAGS active entries. */
    function IsConnectionListFull(): (full: bool)
      reads this
      requires Valid()
      ensures full <==> activeConnectionsNum == MAX_NUM_TAGS
    {
      activeConnectionsNum >= MAX_NUM_TAGS
    }

    /** get_connection_by_handle: the lowest active slot with that handle. */
    method GetConnectionByHandle(connectionHandle: uint16) returns (ret: Option<nat>)
      requires Valid()
      ensures ret == FirstIndex(Active(), HandleIs(connectionHandle))
      ensures ret.Some? ==>
        ret.value < activeConnectionsNum && connProperties[ret.value].connectionHandle == connectionHandle
    {
      ret := None;
      var i := 0;
      while i < activeConnectionsNum
        invariant i <= activeConnectionsNum
        invariant forall j :: 0 <= j < i ==> connProperties[j].connectionHandle != connectionHandle
      {
        if connProperties[i].connectionHandle == connectionHandle {
          ret := Some(i);
          break;
        }
        i := i + 1;
      }
    }

    /** get_connection_by_address: the lowest active slot with that address. */
    method GetConnectionByAddress(address: BdAddr) returns (ret: Option<nat>)
      requires Valid()
      ensures ret == FirstIndex(Active(), AddressIs(address))
      ensures ret.Some? ==>
        ret.value < activeConnectionsNum && connProperties[ret.value].address == address
    {
      ret := None;
      var i := 0;
      while i < activeConnectionsNum
        invariant i <= activeConnectionsNum
        invariant forall j :: 0 <= j < i ==> connProperties[j].address != address
      {
        if connProperties[i].address == address {
          ret := Some(i);
          break;
        }
        i := i + 1;
      }
    }
  }

  /** The teardown loop of remove_connection: aoa_deinit on each session, in order. */
  method DeinitSessions(sessions: seq<LocatorSession>) returns (deinitialized: seq<LocatorSession>)
    ensures deinitialized == sessions
  {
    deinitialized := [];
    for i := 0 to |sessions|
      invariant deinitialized == sessions[..i]
    {
      deinitialized := deinitialized + [sessions[i]];
    }
    assert sessions[..|sessions|] == sessions;
  }

  /** A sequence whose slots from k on took the next slot's entry is the old one without entry k. */
  lemma ShiftedOut<T>(before: seq<T>, after: seq<T>, k: nat)
    requires k < |before| && |after| == |before| - 1
    requires forall j :: 0 <= j < k ==> after[j] == before[j]
    requires forall j :: k <= j < |after| ==> after[j] == before[j + 1]
    ensures after == before[..k] + before[k + 1..]
  {
    forall j | 0 <= j < |after|
      ensures after[j] == (before[..k] + before[k + 1..])[j]
    {
      if j >= k {
        assert (before[..k] + before[k + 1..])[j] == before[j + 1];
      }
    }
  }

  /**
   * get_libitem_by_locator_address: the lowest of the connection's first
   * num_locators_found sessions keyed by that locator address.
   */
  method GetLibitemByLocatorAddress(conn: ConnProperties, address: BdAddr) returns (ret: Option<nat>)
    ensures ret == FirstIndex(conn.aoaStates, LocatorAddrIs(address))
    ensures ret.Some? ==>
      ret.value < |conn.aoaStates| && conn.aoaStates[ret.value].locatorAddr == address
  {
    ret := None;
    var i := 0;
    while i < |conn.aoaStates|
      invariant i <= |conn.aoaStates|
      invariant forall j :: 0 <= j < i ==> conn.aoaStates[j].locatorAddr != address
    {
      if conn.aoaStates[i].locatorAddr == address {
        ret := Some(i);
        break;
      }
      i := i + 1;
    }
  }
}
