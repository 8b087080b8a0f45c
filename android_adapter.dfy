/** The data transforms of the Android adapter (src/android/adapter.rs):
    scan filters, connection events, the connected-device filter, the
    advertisement record and the order of `discover_devices`.

    Every awaited platform call becomes an input: the list of connected
    devices, the service discovery of a device, the scan records a scan
    produces, each record getter's result. */
module AndroidAdapter {
  import opened Wrappers
  import opened BluetoothTypes
  import opened AndroidErrors

  /** A platform device handle, identified by its address (`DeviceId`). */
  datatype Device = Device(id: string)

  // ---------------------------------------------------------------------
  // Scan filters

  /** A service criterion: a uuid and an optional mask over its bits. */
  datatype ServiceUuid = ServiceUuid(uuid: Uuid, mask: Option<Uuid>)

  /** A platform scan filter. Only the service criterion is modelled; every
      other criterion of the platform filter is left at its default. */
  datatype ScanFilter = ScanFilter(serviceUuid: Option<ServiceUuid>)

  /** `get_filters`: one filter per service uuid, matching that uuid exactly. */
  function GetFilters(services: seq<Uuid>): (r: seq<ScanFilter>)
    ensures |r| == |services|
    ensures forall i :: 0 <= i < |r| ==> r[i].serviceUuid == Some(ServiceUuid(services[i], None))
  {
    if services == [] then []
    else [ScanFilter(Some(ServiceUuid(services[0], None)))] + GetFilters(services[1..])
  }

  /** The uuids a list of filters asks for, in order. */
  function FilterUuids(filters: seq<ScanFilter>): seq<Uuid>
  {
    if filters == [] then []
    else
      (match filters[0].serviceUuid
       case Some(criterion) => [criterion.uuid]
       case None => [])
      + FilterUuids(filters[1..])
  }

  /** The filters ask for exactly the given services, in the given order. */
  lemma {:induction false} FilterUuidsOfGetFilters(services: seq<Uuid>)
    ensures FilterUuids(GetFilters(services)) == services
  {
    if services != [] {
      FilterUuidsOfGetFilters(services[1..]);
    }
  }

  // ---------------------------------------------------------------------
  // Connection events

  /** The platform's connection state. */
  datatype ConnectionState = Connected | Disconnected | Connecting | Disconnecting

  /** The crate's connection event. */
  datatype ConnectionEvent = Connected | Disconnected

  /** The `filter_map` of `device_connection_events`: settled states become
      events, transitional states are dropped. */
  function ConnectionEventOf(state: ConnectionState): (r: Option<ConnectionEvent>)
    ensures r.None? <==> state == ConnectionState.Connecting || state == ConnectionState.Disconnecting
  {
    match state
    case Connected => Some(ConnectionEvent.Connected)
    case Disconnected => Some(ConnectionEvent.Disconnected)
    case Disconnecting | Connecting => None
  }

  /** The state each event reports. */
  function StateOf(event: ConnectionEvent): ConnectionState
  {
    match event
    case Connected => ConnectionState.Connected
    case Disconnected => ConnectionState.Disconnected
  }

  /** Each event comes from the state of the same name, and only from it. */
  lemma ConnectionEventOfStateOf(state: ConnectionState, event: ConnectionEvent)
    ensures ConnectionEventOf(state) == Some(event) <==> state == StateOf(event)
  {
  }

  /** The stream of events a stream of states produces. */
  function ConnectionEvents(states: seq<ConnectionState>): (r: seq<ConnectionEvent>)
    ensures |r| <= |states|
  {
    if states == [] then []
    else
      (match ConnectionEventOf(states[0])
       case Some(event) => [event]
       case None => [])
      + ConnectionEvents(states[1..])
  }

  /** Nothing is dropped exactly when no state is transitional. */
  lemma {:induction false} ConnectionEventsDropOnlyTransitions(states: seq<ConnectionState>)
    ensures |ConnectionEvents(states)| == |states|
            <==> forall i :: 0 <= i < |states| ==> ConnectionEventOf(states[i]).Some?
  {
    if states != [] {
      ConnectionEventsDropOnlyTransitions(states[1..]);
      assert forall i :: 1 <= i < |states| ==> states[i] == states[1..][i - 1];
    }
  }

  /** The mapping is applied state by state, keeping the order. */
  lemma {:induction false} ConnectionEventsAppend(xs: seq<ConnectionState>, ys: seq<ConnectionState>)
    ensures ConnectionEvents(xs + ys) == ConnectionEvents(xs) + ConnectionEvents(ys)
  {
    if xs == [] {
      assert xs + ys == ys;
    } else {
      assert (xs + ys)[1..] == xs[1..] + ys;
      ConnectionEventsAppend(xs[1..], ys);
    }
  }

  function StatesOf(events: seq<ConnectionEvent>): (r: seq<ConnectionState>)
    ensures |r| == |events|
  {
    if events == [] then [] else [StateOf(events[0])] + StatesOf(events[1..])
  }

  /** Interleaving transitional states does not change the events: the
      events of the settled states are the events themselves. */
  lemma {:induction false} ConnectionEventsOfStates(events: seq<ConnectionEvent>)
    ensures ConnectionEvents(StatesOf(events)) == events
  {
    if events != [] {
      ConnectionEventsOfStates(events[1..]);
    }
  }

  // ---------------------------------------------------------------------
  // Connected devices offering a service

  /** Whether some discovered service has a uuid in `services` (the `any` of the source). */
  predicate OffersAny(discovered: seq<Uuid>, services: seq<Uuid>)
  {
    exists u :: u in discovered && u in services
  }

  /** `prefix` put in front of a successful result; an error passes through. */
  function Prepend<E>(prefix: seq<Device>, r: Result<seq<Device>, E>): Result<seq<Device>, E>
  {
    match r
    case Ok(devices) => Ok(prefix + devices)
    case Err(e) => Err(e)
  }

  lemma PrependNothing<E>(r: Result<seq<Device>, E>)
    ensures Prepend([], r) == r
  {
    if r.Ok? {
      assert [] + r.value == r.value;
    }
  }

  lemma PrependTwice<E>(first: seq<Device>, second: seq<Device>, r: Result<seq<Device>, E>)
    ensures Prepend(first, Prepend(second, r)) == Prepend(first + second, r)
  {
    if r.Ok? {
      assert first + (second + r.value) == (first + second) + r.value;
    }
  }

  /** The connected devices that offer one of `services`, in order; the first
      device whose service discovery fails ends the search with its error.
      `discover` is what the service discovery of a device yields. */
  function DevicesWithServices<E>(devices: seq<Device>, services: seq<Uuid>,
                                  discover: Device -> Result<seq<Uuid>, E>): Result<seq<Device>, E>
  {
    if devices == [] then Ok([])
    else
      match discover(devices[0])
      case Err(e) => Err(e)
      case Ok(found) =>
        Prepend(if OffersAny(found, services) then [devices[0]] else [],
                DevicesWithServices(devices[1..], services, discover))
  }

  /** `connected_devices_with_services`: `connected` is what the platform's
      list of connected devices yields; an empty `services` panics. */
  method ConnectedDevicesWithServices<E>(services: seq<Uuid>, connected: Result<seq<Device>, E>,
                                         discover: Device -> Result<seq<Uuid>, E>)
    returns (r: Result<seq<Device>, E>)
    requires |services| > 0
    ensures connected.Err? ==> r == Err(connected.error)
    ensures connected.Ok? ==> r == DevicesWithServices(connected.value, services, discover)
  {
    if connected.Err? {
      return Err(connected.error);
    }
    var devices := connected.value;
    var devicesWithServices: seq<Device> := [];
    assert devices[0..] == devices;
    PrependNothing(DevicesWithServices(devices, services, discover));
    for i := 0 to |devices|
      invariant Prepend(devicesWithServices, DevicesWithServices(devices[i..], services, discover))
                == DevicesWithServices(devices, services, discover)
    {
      assert devices[i..][0] == devices[i] && devices[i..][1..] == devices[i + 1..];
      var discovered := discover(devices[i]);
      if discovered.Err? {
        return Err(discovered.error);
      }
      var kept := if OffersAny(discovered.value, services) then [devices[i]] else [];
      PrependTwice(devicesWithServices, kept, DevicesWithServices(devices[i + 1..], services, discover));
      devicesWithServices := devicesWithServices + kept;
    }
    assert devices[|devices|..] == [];
    assert devicesWithServices + [] == devicesWithServices;
    return Ok(devicesWithServices);
  }

  /** The search succeeds exactly when every discovery succeeds. */
  lemma {:induction false} DevicesWithServicesSucceeds<E>(devices: seq<Device>, services: seq<Uuid>,
                                                          discover: Device -> Result<seq<Uuid>, E>)
    ensures DevicesWithServices(devices, services, discover).Ok?
            <==> forall i :: 0 <= i < |devices| ==> discover(devices[i]).Ok?
  {
    if devices != [] {
      DevicesWithServicesSucceeds(devices[1..], services, discover);
      assert forall i :: 1 <= i < |devices| ==> devices[i] == devices[1..][i - 1];
    }
  }

  /** A failed search reports the error of the first device whose discovery failed. */
  lemma {:induction false} DevicesWithServicesFirstError<E>(devices: seq<Device>, services: seq<Uuid>,
                                                            discover: Device -> Result<seq<Uuid>, E>, k: nat)
    requires k < |devices| && discover(devices[k]).Err?
    requires forall j :: 0 <= j < k ==> discover(devices[j]).Ok?
    ensures DevicesWithServices(devices, services, discover) == Err(discover(devices[k]).error)
  {
    if k > 0 {
      assert discover(devices[0]).Ok?;
      assert forall j :: 0 <= j < k - 1 ==> devices[1..][j] == devices[j + 1];
      DevicesWithServicesFirstError(devices[1..], services, discover, k - 1);
    }
  }

  /** A successful search keeps a device if and only if it is connected and
      one of its services is asked for. */
  lemma {:induction false} DevicesWithServicesMembers<E>(devices: seq<Device>, services: seq<Uuid>,
                                                         discover: Device -> Result<seq<Uuid>, E>)
    requires DevicesWithServices(devices, services, discover).Ok?
    ensures var kept := DevicesWithServices(devices, services, discover).value;
            |kept| <= |devices|
            && forall d :: d in kept <==> d in devices && discover(d).Ok? && OffersAny(discover(d).value, services)
  {
    if devices != [] {
      DevicesWithServicesMembers(devices[1..], services, discover);
      assert forall d :: d in devices <==> d == devices[0] || d in devices[1..];
    }
  }

  /** Chaining: a successful `first` is put in front of `second`. */
  function Then<E>(first: Result<seq<Device>, E>, second: Result<seq<Device>, E>): Result<seq<Device>, E>
  {
    match first
    case Ok(prefix) => Prepend(prefix, second)
    case Err(e) => Err(e)
  }

  /** The kept devices follow the order of the connected list, and an error
      among earlier devices takes precedence over anything later. */
  lemma {:induction false} DevicesWithServicesAppend<E>(xs: seq<Device>, ys: seq<Device>, services: seq<Uuid>,
                                                        discover: Device -> Result<seq<Uuid>, E>)
    ensures DevicesWithServices(xs + ys, services, discover)
            == Then(DevicesWithServices(xs, services, discover), DevicesWithServices(ys, services, discover))
  {
    if xs == [] {
      assert xs + ys == ys;
      match DevicesWithServices(ys, services, discover)
      case Ok(kept) => assert [] + kept == kept;
      case Err(_) =>
    } else {
      assert (xs + ys)[0] == xs[0];
      assert (xs + ys)[1..] == xs[1..] + ys;
      DevicesWithServicesAppend(xs[1..], ys, services, discover);
      match DevicesWithServices(xs[1..], services, discover)
      case Err(_) =>
      case Ok(prefix) =>
        match DevicesWithServices(ys, services, discover)
        case Err(_) =>
        case Ok(rest) =>
          var head := if discover(xs[0]).Ok? && OffersAny(discover(xs[0]).value, services) then [xs[0]] else [];
          assert head + (prefix + rest) == (head + prefix) + rest;
    }
  }

  // ---------------------------------------------------------------------
  // Advertisement data

  /** What the platform scan record of one advertisement reports; each
      getter may fail with a Java error. `rssi` is already an `i16`: the
      source widens it with `i16::from`, which cannot fail. */
  datatype ScanRecord = ScanRecord(
    device: Device,
    localName: Result<string, JavaError>,
    manufacturerSpecificData: Result<seq<(int, seq<byte>)>, JavaError>,
    serviceUuids: Result<seq<Uuid>, JavaError>,
    serviceDatas: Result<seq<(Uuid, seq<byte>)>, JavaError>,
    txPowerLevel: Result<Option<int>, JavaError>,
    isConnectable: Result<bool, JavaError>,
    rssi: Result<i16, JavaError>)

  datatype ManufacturerData = ManufacturerData(companyId: u16, data: seq<byte>)

  datatype AdvertisementData = AdvertisementData(
    localName: Option<string>,
    manufacturerData: Option<ManufacturerData>,
    services: seq<Uuid>,
    serviceData: map<Uuid, seq<byte>>,
    txPowerLevel: Option<i16>,
    isConnectable: bool)

  datatype AdvertisingDevice = AdvertisingDevice(device: Device, advData: AdvertisementData, rssi: Option<i16>)

  /** The records the source accepts without panicking: the manufacturer
      data must be readable (`unwrap`), hold at most one entry (`assert!`),
      whose company id fits a `u16` (`expect`), and a reported transmit
      power must fit an `i16` (`unwrap`). */
  predicate Accepted(record: ScanRecord)
  {
    && record.manufacturerSpecificData.Ok?
    && |record.manufacturerSpecificData.value| <= 1
    && (forall entry :: entry in record.manufacturerSpecificData.value ==> 0 <= entry.0 < 0x1_0000)
    && (record.txPowerLevel.Ok? && record.txPowerLevel.value.Some?
        ==> -0x8000 <= record.txPowerLevel.value.value < 0x8000)
  }

  /** The `HashMap::from_iter` of the service data: pairs are inserted in
      order, so a later pair replaces an earlier one with the same key. */
  function MapOf(pairs: seq<(Uuid, seq<byte>)>): (m: map<Uuid, seq<byte>>)
    ensures m.Keys == set pair | pair in pairs :: pair.0
  {
    if pairs == [] then map[]
    else
      var last := pairs[|pairs| - 1];
      var m := MapOf(pairs[..|pairs| - 1]);
      assert forall pair :: pair in pairs <==> pair in pairs[..|pairs| - 1] || pair == last;
      m[last.0 := last.1]
  }

  /** Each key maps to the data of the last pair carrying it. */
  lemma {:induction false} MapOfLastWins(pairs: seq<(Uuid, seq<byte>)>, i: nat)
    requires i < |pairs|
    requires forall j :: i < j < |pairs| ==> pairs[j].0 != pairs[i].0
    ensures MapOf(pairs)[pairs[i].0] == pairs[i].1
  {
    if i < |pairs| - 1 {
      var init := pairs[..|pairs| - 1];
      assert init[i] == pairs[i];
      MapOfLastWins(init, i);
    }
  }

  /** The manufacturer data: the first entry, if there is one. */
  function ManufacturerDataOf(entries: seq<(int, seq<byte>)>): (r: Option<ManufacturerData>)
    requires |entries| <= 1
    requires forall entry :: entry in entries ==> 0 <= entry.0 < 0x1_0000
    ensures r.None? <==> entries == []
    ensures r.Some? ==> r.value.companyId as int == entries[0].0 && r.value.data == entries[0].1
  {
    if entries == [] then None
    else Some(ManufacturerData(entries[0].0 as u16, entries[0].1))
  }

  /** The value of a getter, or `fallback` when it failed. */
  function OrElse<T>(r: Result<T, JavaError>, fallback: T): T
  {
    match r
    case Ok(v) => v
    case Err(_) => fallback
  }

  /** The closure of `scan` that turns a scan record into an `AdvertisingDevice`. */
  function AdvertisingDeviceOf(record: ScanRecord): (r: AdvertisingDevice)
    requires Accepted(record)
    ensures r.device == record.device
    // every field that could not be read falls back to "absent"
    ensures record.localName.Err? ==> r.advData.localName.None?
    ensures record.serviceUuids.Err? ==> r.advData.services == []
    ensures record.serviceDatas.Err? ==> r.advData.serviceData == map[]
    ensures record.txPowerLevel.Err? ==> r.advData.txPowerLevel.None?
    ensures record.isConnectable.Err? ==> !r.advData.isConnectable
    ensures record.rssi.Err? ==> r.rssi.None?
    // and every field that could be read is taken as read
    ensures record.localName.Ok? ==> r.advData.localName == Some(record.localName.value)
    ensures record.serviceUuids.Ok? ==> r.advData.services == record.serviceUuids.value
    ensures record.serviceDatas.Ok? ==> r.advData.serviceData == MapOf(record.serviceDatas.value)
    ensures record.txPowerLevel.Ok? ==>
              (r.advData.txPowerLevel.Some? <==> record.txPowerLevel.value.Some?)
              && (r.advData.txPowerLevel.Some? ==> r.advData.txPowerLevel.value as int == record.txPowerLevel.value.value)
    ensures record.isConnectable.Ok? ==> r.advData.isConnectable == record.isConnectable.value
    ensures record.rssi.Ok? ==> r.rssi == Some(record.rssi.value)
    ensures r.advData.manufacturerData == ManufacturerDataOf(record.manufacturerSpecificData.value)
  {
    var txPower := match record.txPowerLevel
                   case Ok(Some(level)) => Some(level as i16)
                   case Ok(None) => None
                   case Err(_) => None;
    AdvertisingDevice(
      record.device,
      AdvertisementData(
        match record.localName case Ok(name) => Some(name) case Err(_) => None,
        ManufacturerDataOf(record.manufacturerSpecificData.value),
        OrElse(record.serviceUuids, []),
        match record.serviceDatas case Ok(pairs) => MapOf(pairs) case Err(_) => map[],
        txPower,
        OrElse(record.isConnectable, false)),
      match record.rssi case Ok(rssi) => Some(rssi) case Err(_) => None)
  }

  /** The records a platform scan with the given filters yields (its stream,
      as far as it is consumed), or the error of starting it. */
  type PlatformScan<E> = seq<ScanFilter> -> Result<seq<ScanRecord>, E>

  function AdvertisingDevicesOf(records: seq<ScanRecord>): (r: seq<AdvertisingDevice>)
    requires forall i :: 0 <= i < |records| ==> Accepted(records[i])
    ensures |r| == |records|
    ensures forall i :: 0 <= i < |r| ==> r[i] == AdvertisingDeviceOf(records[i])
  {
    if records == [] then []
    else [AdvertisingDeviceOf(records[0])] + AdvertisingDevicesOf(records[1..])
  }

  /** `scan`: starts a platform scan with the filters for `services` and maps
      each record it yields, in order. */
  function Scan<E>(services: seq<Uuid>, platformScan: PlatformScan<E>): (r: Result<seq<AdvertisingDevice>, E>)
    requires platformScan(GetFilters(services)).Ok? ==>
               forall i :: 0 <= i < |platformScan(GetFilters(services)).value| ==>
                 Accepted(platformScan(GetFilters(services)).value[i])
    ensures platformScan(GetFilters(services)).Err? ==> r == Err(platformScan(GetFilters(services)).error)
    ensures r.Ok? ==> |r.value| == |platformScan(GetFilters(services)).value|
                      && forall i :: 0 <= i < |r.value| ==>
                           r.value[i].device == platformScan(GetFilters(services)).value[i].device
    ensures platformScan(GetFilters(services)).Ok? ==> r == Ok(AdvertisingDevicesOf(platformScan(GetFilters(services)).value))
  {
    match platformScan(GetFilters(services))
    case Err(e) => Err(e)
    case Ok(records) => Ok(AdvertisingDevicesOf(records))
  }

  // ---------------------------------------------------------------------
  // discover_devices

  function DevicesOf(records: seq<ScanRecord>): (r: seq<Device>)
    ensures |r| == |records|
    ensures forall i :: 0 <= i < |r| ==> r[i] == records[i].device
  {
    if records == [] then [] else [records[0].device] + DevicesOf(records[1..])
  }

  function WrapOk<E>(devices: seq<Device>): (r: seq<Result<Device, E>>)
    ensures |r| == |devices|
    ensures forall i :: 0 <= i < |r| ==> r[i] == Ok(devices[i])
  {
    if devices == [] then [] else [Ok(devices[0])] + WrapOk(devices[1..])
  }

  /** `discover_devices`: the matching connected devices, then the devices of
      the scan records, each wrapped in `Ok`. The scan is started only once
      the connected devices have been found. */
  function DiscoverDevices<E>(services: seq<Uuid>, connected: Result<seq<Device>, E>,
                              discover: Device -> Result<seq<Uuid>, E>,
                              platformScan: PlatformScan<E>): (r: Result<seq<Result<Device, E>>, E>)
    requires |services| > 0
    ensures connected.Err? ==> r == Err(connected.error)
  {
    var matching := match connected
                    case Err(e) => Err(e)
                    case Ok(devices) => DevicesWithServices(devices, services, discover);
    match matching
    case Err(e) => Err(e)
    case Ok(found) =>
      match platformScan(GetFilters(services))
      case Err(e) => Err(e)
      case Ok(records) => Ok(WrapOk(found + DevicesOf(records)))
  }

  /** Every matching connected device comes first, in order, then every
      scanned device, in order, each wrapped in `Ok`. */
  lemma DiscoverDevicesOrder<E>(services: seq<Uuid>, devices: seq<Device>,
                                discover: Device -> Result<seq<Uuid>, E>, platformScan: PlatformScan<E>)
    requires |services| > 0
    requires DevicesWithServices(devices, services, discover).Ok?
    requires platformScan(GetFilters(services)).Ok?
    ensures var found := DevicesWithServices(devices, services, discover).value;
            var records := platformScan(GetFilters(services)).value;
            var r := DiscoverDevices(services, Ok(devices), discover, platformScan);
            && r.Ok? && |r.value| == |found| + |records|
            && (forall i :: 0 <= i < |found| ==> r.value[i] == Ok(found[i]))
            && (forall j :: 0 <= j < |records| ==> r.value[|found| + j] == Ok(records[j].device))
  {
  }

  /** When finding the connected devices fails, no scan is started: the
      outcome is the failed service discovery's error and does not depend on
      the scan. */
  lemma DiscoverDevicesSkipsScanOnError<E>(services: seq<Uuid>, connected: Result<seq<Device>, E>,
                                           discover: Device -> Result<seq<Uuid>, E>,
                                           scan1: PlatformScan<E>, scan2: PlatformScan<E>)
    requires |services| > 0
    requires connected.Err? || DevicesWithServices(connected.value, services, discover).Err?
    ensures DiscoverDevices(services, connected, discover, scan1) == DiscoverDevices(services, connected, discover, scan2)
    ensures connected.Ok? ==>
              DiscoverDevices(services, connected, discover, scan1)
              == Err(DevicesWithServices(connected.value, services, discover).error)
  {
  }

  /** When the connected devices are found but the scan cannot be started,
      the result is the scan's error. */
  lemma DiscoverDevicesScanError<E>(services: seq<Uuid>, devices: seq<Device>,
                                    discover: Device -> Result<seq<Uuid>, E>, platformScan: PlatformScan<E>)
    requires |services| > 0
    requires DevicesWithServices(devices, services, discover).Ok?
    requires platformScan(GetFilters(services)).Err?
    ensures DiscoverDevices(services, Ok(devices), discover, platformScan) == Err(platformScan(GetFilters(services)).error)
  {
  }
}
