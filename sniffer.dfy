/** The D-Bus sniffer (src/btlesniffer/sniffer.py): its own `Device` record,
    which keeps the data dictionaries it was created with, and the registry
    of records keyed by D-Bus object path that the two signal callbacks
    maintain. */
module Sniffer {
  import opened Results
  import opened HciConstants
  import opened DbusProperties

  /** The fields of a sniffer `Device` at one moment. */
  datatype DeviceState = DeviceState(
    addresses: set<string>,
    paired: bool,
    connected: bool,
    servicesResolved: bool,
    name: Option<string>,
    deviceClass: Option<int>,
    appearance: Option<int>,
    uuids: set<string>,
    rssis: seq<int>,
    txPower: Option<int>,
    manufacturerData: Option<map<int, Bytes>>,
    serviceData: Option<map<string, Bytes>>)

  /** `create_from_dbus_dict`: KeyError unless the four required keys are
      present; the data dictionaries are kept as given (empty if absent). */
  function Created(data: DbusProps): Result<DeviceState, Error>
  {
    if !HasRequiredKeys(data) then Err(KeyError)
    else Ok(DeviceState(
      {data.address.value}, data.paired.value, data.connected.value, data.servicesResolved.value,
      data.name, data.deviceClass, data.appearance, SetOf(data.uuids.GetOr([])), ListOf(data.rssi), data.txPower,
      Some(data.manufacturerData.GetOr(map[])), Some(data.serviceData.GetOr(map[]))))
  }

  /** `update_from_dbus_dict`: each property is taken only when its key is
      present; the data dictionaries of an update are not looked at. */
  function Updated(s: DeviceState, data: DbusProps): DeviceState
  {
    s.(addresses := s.addresses + SetOf(ListOf(data.address)),
       paired := data.paired.GetOr(s.paired),
       connected := data.connected.GetOr(s.connected),
       servicesResolved := data.servicesResolved.GetOr(s.servicesResolved),
       name := Overwrite(s.name, data.name),
       deviceClass := Overwrite(s.deviceClass, data.deviceClass),
       appearance := Overwrite(s.appearance, data.appearance),
       uuids := s.uuids + SetOf(data.uuids.GetOr([])),
       rssis := s.rssis + ListOf(data.rssi),
       txPower := Overwrite(s.txPower, data.txPower))
  }

  /** A record made from a dictionary holds its one address, the flags,
      name, class, appearance and TX power as given (None when absent), the
      RSSI reading if any, and the data dictionaries as given, or empty ones
      when the keys are absent. */
  lemma CreatedFromDict(data: DbusProps)
    ensures Created(data).Err? <==> !HasRequiredKeys(data)
    ensures Created(data).Err? ==> Created(data).error == KeyError
    ensures Created(data).Ok? ==>
      var s := Created(data).value;
      && s.addresses == {data.address.value}
      && s.paired == data.paired.value && s.connected == data.connected.value
      && s.servicesResolved == data.servicesResolved.value
      && s.name == data.name && s.deviceClass == data.deviceClass
      && s.appearance == data.appearance && s.txPower == data.txPower
      && (data.rssi.None? <==> s.rssis == [])
      && (data.rssi.Some? ==> s.rssis == [data.rssi.value])
      && (forall u :: u in s.uuids <==> data.uuids.Some? && u in data.uuids.value)
      && (data.manufacturerData.Some? ==> s.manufacturerData == data.manufacturerData)
      && (data.serviceData.Some? ==> s.serviceData == data.serviceData)
      && (data.manufacturerData.None? ==> s.manufacturerData == Some(map[]))
      && (data.serviceData.None? ==> s.serviceData == Some(map[]))
  {
  }

  /** An update grows the address and UUID sets and the RSSI history, takes
      every property that is present, leaves every absent one alone and
      never touches the data dictionaries. */
  lemma UpdateTakesPresentKeys(s: DeviceState, data: DbusProps)
    ensures var t := Updated(s, data);
      && (data.address.Some? ==> t.addresses == s.addresses + {data.address.value})
      && (data.address.None? ==> t.addresses == s.addresses)
      && s.uuids <= t.uuids && s.rssis <= t.rssis
      && (data.rssi.Some? ==> t.rssis == s.rssis + [data.rssi.value])
      && (data.rssi.None? ==> t.rssis == s.rssis)
      && (forall u :: u in t.uuids <==> u in s.uuids || (data.uuids.Some? && u in data.uuids.value))
      && (data.paired.Some? ==> t.paired == data.paired.value) && (data.paired.None? ==> t.paired == s.paired)
      && (data.connected.Some? ==> t.connected == data.connected.value) && (data.connected.None? ==> t.connected == s.connected)
      && (data.servicesResolved.Some? ==> t.servicesResolved == data.servicesResolved.value)
      && (data.servicesResolved.None? ==> t.servicesResolved == s.servicesResolved)
      && (data.name.Some? ==> t.name == data.name) && (data.name.None? ==> t.name == s.name)
      && (data.deviceClass.Some? ==> t.deviceClass == data.deviceClass) && (data.deviceClass.None? ==> t.deviceClass == s.deviceClass)
      && (data.appearance.Some? ==> t.appearance == data.appearance) && (data.appearance.None? ==> t.appearance == s.appearance)
      && (data.txPower.Some? ==> t.txPower == data.txPower) && (data.txPower.None? ==> t.txPower == s.txPower)
      && t.manufacturerData == s.manufacturerData && t.serviceData == s.serviceData
  {
    if data.address.None? {
      assert SetOf(ListOf(data.address)) == {};
    } else {
      assert SetOf(ListOf(data.address)) == {data.address.value};
    }
  }

  /** An update holding none of the keys changes nothing. */
  lemma UpdateFromEmptyDict(s: DeviceState)
    ensures Updated(s, NoProps) == s
  {
    assert SetOf([]) == {};
  }

  /** Applying the same dictionary twice has the effect of applying it once,
      except that the RSSI reading is recorded twice. */
  lemma UpdateTwice(s: DeviceState, data: DbusProps)
    ensures Updated(Updated(s, data), data) == Updated(s, data).(rssis := s.rssis + ListOf(data.rssi) + ListOf(data.rssi))
  {
  }

  class Device {
    var addresses: set<string>
    var paired: bool
    var connected: bool
    var servicesResolved: bool
    var name: Option<string>
    var deviceClass: Option<int>
    var appearance: Option<int>
    var uuids: set<string>
    var rssis: seq<int>
    var txPower: Option<int>
    var manufacturerData: Option<map<int, Bytes>>
    var serviceData: Option<map<string, Bytes>>

    function View(): DeviceState
      reads this
    {
      DeviceState(addresses, paired, connected, servicesResolved, name, deviceClass, appearance,
                  uuids, rssis, txPower, manufacturerData, serviceData)
    }

    /** `__init__` */
    constructor (address: string, paired: bool, connected: bool, servicesResolved: bool,
                 name: Option<string>, deviceClass: Option<int>, appearance: Option<int>,
                 uuids: Option<seq<string>>, rssi: Option<int>, txPower: Option<int>,
                 manufacturerData: Option<map<int, Bytes>>, serviceData: Option<map<string, Bytes>>)
      ensures View() == DeviceState({address}, paired, connected, servicesResolved, name, deviceClass, appearance,
                                    SetOf(uuids.GetOr([])), ListOf(rssi), txPower, manufacturerData, serviceData)
    {
      this.addresses := {address};
      this.paired := paired;
      this.connected := connected;
      this.servicesResolved := servicesResolved;
      this.name := name;
      this.deviceClass := deviceClass;
      this.appearance := appearance;
      this.uuids := if uuids.Some? then SetOf(uuids.value) else {};
      this.rssis := if rssi.Some? then [rssi.value] else [];
      this.txPower := txPower;
      this.manufacturerData := manufacturerData;
      this.serviceData := serviceData;
    }

    /** `create_from_dbus_dict` */
    static method CreateFromDbusDict(data: DbusProps) returns (r: Result<Device, Error>)
      ensures r.Err? <==> Created(data).Err?
      ensures r.Err? ==> r.error == KeyError
      ensures r.Ok? ==> fresh(r.value) && r.value.View() == Created(data).value
    {
      if data.address.None? || data.paired.None? || data.connected.None? || data.servicesResolved.None? {
        return Err(KeyError);
      }
      var d := new Device(data.address.value, data.paired.value, data.connected.value, data.servicesResolved.value,
                          data.name, data.deviceClass, data.appearance, Some(data.uuids.GetOr([])), data.rssi,
                          data.txPower, Some(data.manufacturerData.GetOr(map[])), Some(data.serviceData.GetOr(map[])));
      return Ok(d);
    }

    /** `update_from_dbus_dict` */
    method UpdateFromDbusDict(data: DbusProps)
      modifies this
      ensures View() == Updated(old(View()), data)
    {
      TakeIdentity(SetOf(ListOf(data.address)), data.paired.GetOr(paired), data.connected.GetOr(connected),
                   data.servicesResolved.GetOr(servicesResolved));
      TakeDescription(data.name, data.deviceClass, data.appearance, data.txPower);
      TakeReadings(SetOf(data.uuids.GetOr([])), ListOf(data.rssi));
    }

    /** Adds addresses and sets the three connection flags. */
    method TakeIdentity(newAddresses: set<string>, paired: bool, connected: bool, servicesResolved: bool)
      modifies this
      ensures View() == old(View()).(addresses := old(addresses) + newAddresses, paired := paired,
                                     connected := connected, servicesResolved := servicesResolved)
    {
      this.addresses := this.addresses + newAddresses;
      this.paired := paired;
      this.connected := connected;
      this.servicesResolved := servicesResolved;
    }

    /** Overwrites each optional field the update provides. */
    method TakeDescription(name: Option<string>, deviceClass: Option<int>, appearance: Option<int>, txPower: Option<int>)
      modifies this
      ensures View() == old(View()).(name := Overwrite(old(this.name), name),
                                     deviceClass := Overwrite(old(this.deviceClass), deviceClass),
                                     appearance := Overwrite(old(this.appearance), appearance),
                                     txPower := Overwrite(old(this.txPower), txPower))
    {
      if name.Some? {
        this.name := name;
      }
      if deviceClass.Some? {
        this.deviceClass := deviceClass;
      }
      if appearance.Some? {
        this.appearance := appearance;
      }
      if txPower.Some? {
        this.txPower := txPower;
      }
    }

    /** Adds service UUIDs and appends the RSSI readings at the end of the history. */
    method TakeReadings(newUuids: set<string>, newRssis: seq<int>)
      modifies this
      ensures View() == old(View()).(uuids := old(uuids) + newUuids, rssis := old(rssis) + newRssis)
    {
      uuids := uuids + newUuids;
      rssis := rssis + newRssis;
    }
  }

  // ---------------------------------------------------------------------
  // The registry

  /** `_cb_interfaces_added` on the registry's values: a new or replacing
      record for `path` when the Device1 interface is among those added. */
  function AfterInterfacesAdded(registry: map<string, DeviceState>, path: string, interfaces: map<string, DbusProps>): Result<map<string, DeviceState>, Error>
  {
    if DeviceInterface !in interfaces then Ok(registry)
    else
      match Created(interfaces[DeviceInterface])
      case Err(e) => Err(e)
      case Ok(d) => Ok(registry[path := d])
  }

  /** `_cb_properties_changed` on the registry's values: only a Device1
      change to a path already registered updates anything. The source tests
      `DEVICE_INTERFACE in params`; of the signal's three arguments only the
      interface name is a string, so this is `params[0] == DEVICE_INTERFACE`. */
  function AfterPropertiesChanged(registry: map<string, DeviceState>, obj: string, params: PropertiesChanged): map<string, DeviceState>
  {
    if params.iface == DeviceInterface && obj in registry then registry[obj := Updated(registry[obj], params.changed)]
    else registry
  }

  /** An added Device1 interface registers the path, replacing whatever was
      recorded for it before; other interfaces and a failed creation leave
      the registry as it was. */
  lemma InterfacesAddedRegisters(registry: map<string, DeviceState>, path: string, interfaces: map<string, DbusProps>)
    ensures var r := AfterInterfacesAdded(registry, path, interfaces);
      && (DeviceInterface !in interfaces ==> r == Ok(registry))
      && (r.Err? <==> DeviceInterface in interfaces && !HasRequiredKeys(interfaces[DeviceInterface]))
      && (r.Err? ==> r.error == KeyError)
      && (r.Ok? && DeviceInterface in interfaces ==>
            && r.value.Keys == registry.Keys + {path}
            && r.value[path] == Created(interfaces[DeviceInterface]).value
            && forall p :: p in registry && p != path ==> r.value[p] == registry[p])
  {
  }

  /** A properties change never adds a path, and changes at most the record
      of the path it names, which only grows. */
  lemma PropertiesChangedUpdatesInPlace(registry: map<string, DeviceState>, obj: string, params: PropertiesChanged)
    ensures var r := AfterPropertiesChanged(registry, obj, params);
      && r.Keys == registry.Keys
      && (forall p :: p in registry && p != obj ==> r[p] == registry[p])
      && (obj in registry ==> registry[obj].addresses <= r[obj].addresses && registry[obj].rssis <= r[obj].rssis)
      && (params.iface != DeviceInterface ==> r == registry)
  {
    if obj in registry {
      UpdateTakesPresentKeys(registry[obj], params.changed);
    }
  }

  /** A change for a path that was never registered is lost, even when a
      later InterfacesAdded registers it. */
  lemma ChangeBeforeAddIsLost(obj: string, params: PropertiesChanged, interfaces: map<string, DbusProps>)
    requires DeviceInterface in interfaces && HasRequiredKeys(interfaces[DeviceInterface])
    ensures var early := AfterPropertiesChanged(map[], obj, params);
      AfterInterfacesAdded(early, obj, interfaces) == AfterInterfacesAdded(map[], obj, interfaces)
  {
  }

  class Sniffer {
    /** The records, keyed by D-Bus object path. */
    var registry: map<string, Device>

    /** `__init__` without a backup to resume from. */
    constructor ()
      ensures registry == map[]
    {
      registry := map[];
    }

    /** No two paths share one record. */
    ghost predicate Valid()
      reads this
    {
      forall p, q :: p in registry && q in registry && p != q ==> registry[p] != registry[q]
    }

    /** The registry's records as values. */
    ghost function Views(): map<string, DeviceState>
      reads this, registry.Values
    {
      map p | p in registry :: registry[p].View()
    }

    /** `_cb_interfaces_added` */
    method CbInterfacesAdded(path: string, interfaces: map<string, DbusProps>) returns (outcome: Outcome<Error>)
      requires Valid()
      modifies this
      ensures Valid()
      ensures outcome.Fail? <==> AfterInterfacesAdded(old(Views()), path, interfaces).Err?
      ensures outcome.Fail? ==> outcome.error == AfterInterfacesAdded(old(Views()), path, interfaces).error
      ensures outcome.Fail? ==> registry == old(registry) && Views() == old(Views())
      ensures outcome.Pass? ==> Views() == AfterInterfacesAdded(old(Views()), path, interfaces).value
    {
      if DeviceInterface in interfaces {
        var created := Device.CreateFromDbusDict(interfaces[DeviceInterface]);
        if created.Err? {
          return Fail(created.error);
        }
        var device := created.value;
        assert forall p :: p in registry ==> registry[p] != device;
        registry := registry[path := device];
        assert Views() == old(Views())[path := device.View()];
      }
      return Pass;
    }

    /** `_cb_properties_changed` */
    method CbPropertiesChanged(obj: string, params: PropertiesChanged)
      requires Valid()
      modifies registry.Values
      ensures Valid() && registry == old(registry)
      ensures Views() == AfterPropertiesChanged(old(Views()), obj, params)
    {
      if params.iface == DeviceInterface {
        if obj in registry {
          var device := registry[obj];
          device.UpdateFromDbusDict(params.changed);
          assert forall p :: p in registry && p != obj ==> registry[p] != device;
        }
      }
    }
  }
}
