/** The property dictionaries BlueZ sends for an `org.bluez.Device1` object
    over D-Bus, as both D-Bus-side `Device` records read them. A key the
    dictionary does not hold is `None`. */
module DbusProperties {
  import opened Results
  import opened HciConstants

  /** The D-Bus interface name of a BlueZ device object. */
  const DeviceInterface: string := "org.bluez.Device1"

  /** The `a{sv}` dictionary of `org.bluez.Device1` properties. */
  datatype DbusProps = DbusProps(
    address: Option<string>,
    paired: Option<bool>,
    connected: Option<bool>,
    servicesResolved: Option<bool>,
    name: Option<string>,
    deviceClass: Option<int>,
    appearance: Option<int>,
    uuids: Option<seq<string>>,
    rssi: Option<int>,
    txPower: Option<int>,
    manufacturerData: Option<map<int, seq<Byte>>>,
    serviceData: Option<map<string, seq<Byte>>>)

  /** A dictionary holding none of the keys. */
  const NoProps := DbusProps(None, None, None, None, None, None, None, None, None, None, None, None)

  /** The four keys `create_from_dbus_dict` indexes with `data[...]`. */
  predicate HasRequiredKeys(data: DbusProps)
  {
    data.address.Some? && data.paired.Some? && data.connected.Some? && data.servicesResolved.Some?
  }

  /** The arguments of a `PropertiesChanged` signal: the interface, the
      changed properties and the names of the invalidated ones. */
  datatype PropertiesChanged = PropertiesChanged(iface: string, changed: DbusProps, invalidated: seq<string>)

  /** `set(xs)` */
  function SetOf(xs: seq<string>): set<string>
  {
    set x | x in xs
  }

  /** `[x] if x is not None else list()` */
  function ListOf<T>(x: Option<T>): (r: seq<T>)
    ensures x.Some? ==> r == [x.value]
    ensures x.None? ==> r == []
  {
    if x.Some? then [x.value] else []
  }

  /** `if update is not None: field = update` */
  function Overwrite<T>(current: Option<T>, update: Option<T>): (r: Option<T>)
    ensures update.Some? ==> r == update
    ensures update.None? ==> r == current
  {
    if update.Some? then update else current
  }
}
