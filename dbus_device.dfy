/** `Device` of the D-Bus side (src/btlesniffer/device.py): the record of one
    BlueZ device object, built from its property dictionary and merged with
    later dictionaries and with other records. The clock is a parameter. */
module DbusDevice {
  import opened Results
  import opened HciConstants
  import opened DbusProperties

  /** A `datetime` read from the clock; only its identity matters here. */
  type Timestamp = int

  /** The fields of a `Device` at one moment. */
  datatype DeviceState = DeviceState(
    paths: set<string>,
    addresses: set<string>,
    paired: bool,
    connected: bool,
    servicesResolved: bool,
    name: Option<string>,
    deviceClass: Option<int>,
    appearance: Option<int>,
    uuids: set<string>,
    rssis: seq<int>,
    txPower: Option<int>,
    firstSeen: Timestamp,
    lastSeen: Timestamp,
    manufacturerData: map<int, seq<Bytes>>,
    serviceData: map<string, seq<Bytes>>)

  // ---------------------------------------------------------------------
  // The per-key data lists

  /** The list kept for `k`, or the empty list when there is none. */
  function ListAt<K, V>(lists: map<K, seq<V>>, k: K): seq<V>
  {
    if k in lists then lists[k] else []
  }

  /** The data lists after `lists[k].append(v)` (or `lists[k] = [v]`) for
      every entry of `entries`. */
  function AppendEach<K, V>(lists: map<K, seq<V>>, entries: map<K, V>): map<K, seq<V>>
  {
    map k | k in lists.Keys + entries.Keys :: if k in entries then ListAt(lists, k) + [entries[k]] else lists[k]
  }

  /** The data lists after `lists[k].extend(v)` (or `lists[k] = v`) for
      every entry of `others`. */
  function ExtendEach<K, V>(lists: map<K, seq<V>>, others: map<K, seq<V>>): map<K, seq<V>>
  {
    map k | k in lists.Keys + others.Keys :: if k in others then ListAt(lists, k) + others[k] else lists[k]
  }

  /** Appending: every key of either map gets a list; the old list is a
      prefix of the new one, and a key of `entries` has its value last. */
  lemma AppendEachKeepsOrder<K, V>(lists: map<K, seq<V>>, entries: map<K, V>)
    ensures var r := AppendEach(lists, entries);
      && r.Keys == lists.Keys + entries.Keys
      && (forall k :: k in lists ==> lists[k] <= r[k])
      && (forall k :: k in entries ==> |r[k]| == |ListAt(lists, k)| + 1 && r[k][|r[k]| - 1] == entries[k])
      && (forall k :: k in lists && k !in entries ==> r[k] == lists[k])
  {
  }

  /** Appending the entries of a dictionary is extending with the
      one-element lists `__init__` builds from it. */
  lemma AppendIsExtendByWrapped<K, V>(lists: map<K, seq<V>>, entries: map<K, V>)
    ensures AppendEach(lists, entries) == ExtendEach(lists, AppendEach(map[], entries))
  {
    var wrapped := AppendEach(map[], entries);
    assert forall k :: k in wrapped ==> wrapped[k] == [entries[k]];
    assert AppendEach(lists, entries).Keys == ExtendEach(lists, wrapped).Keys;
  }

  /** The `for k, v in entries.items()` loop that appends each value to the
      list kept for its key. */
  method AppendEntries<K, V>(lists: map<K, seq<V>>, entries: map<K, V>) returns (r: map<K, seq<V>>)
    ensures r == AppendEach(lists, entries)
  {
    r := lists;
    var todo := entries.Keys;
    while todo != {}
      invariant todo <= entries.Keys
      invariant r.Keys == lists.Keys + (entries.Keys - todo)
      invariant forall k :: k in r ==> r[k] == if k in entries && k !in todo then ListAt(lists, k) + [entries[k]] else lists[k]
      decreases todo
    {
      var k :| k in todo;
      if k in r {
        r := r[k := r[k] + [entries[k]]];
      } else {
        r := r[k := [entries[k]]];
      }
      todo := todo - {k};
    }
  }

  /** The `for k, v in others.items()` loop that extends the list kept for
      each key, or adopts the other's list for a new key. */
  method ExtendEntries<K, V>(lists: map<K, seq<V>>, others: map<K, seq<V>>) returns (r: map<K, seq<V>>)
    ensures r == ExtendEach(lists, others)
  {
    r := lists;
    var todo := others.Keys;
    while todo != {}
      invariant todo <= others.Keys
      invariant r.Keys == lists.Keys + (others.Keys - todo)
      invariant forall k :: k in r ==> r[k] == if k in others && k !in todo then ListAt(lists, k) + others[k] else lists[k]
      decreases todo
    {
      var k :| k in todo;
      if k in r {
        r := r[k := r[k] + others[k]];
      } else {
        r := r[k := others[k]];
      }
      todo := todo - {k};
    }
  }

  // ---------------------------------------------------------------------
  // The record's life cycle, on values

  /** `__init__`: one path, one address, the RSSI as a one-element history,
      and every data value wrapped in a one-element list. */
  function Initial(path: string, address: string, paired: bool, connected: bool, servicesResolved: bool,
                   name: Option<string>, deviceClass: Option<int>, appearance: Option<int>,
                   uuids: Option<seq<string>>, rssi: Option<int>, txPower: Option<int>,
                   manufacturerData: Option<map<int, Bytes>>, serviceData: Option<map<string, Bytes>>,
                   now: Timestamp): DeviceState
  {
    DeviceState(
      {path}, {address}, paired, connected, servicesResolved, name, deviceClass, appearance,
      SetOf(uuids.GetOr([])), ListOf(rssi), txPower, now, now,
      AppendEach(map[], manufacturerData.GetOr(map[])), AppendEach(map[], serviceData.GetOr(map[])))
  }

  /** `create_from_dbus_dict`: KeyError unless the four required keys are
      present; every other key is optional. */
  function Created(path: string, data: DbusProps, now: Timestamp): Result<DeviceState, Error>
  {
    if !HasRequiredKeys(data) then Err(KeyError)
    else Ok(Initial(path, data.address.value, data.paired.value, data.connected.value, data.servicesResolved.value,
                    data.name, data.deviceClass, data.appearance, Some(data.uuids.GetOr([])), data.rssi, data.txPower,
                    Some(data.manufacturerData.GetOr(map[])), Some(data.serviceData.GetOr(map[])), now))
  }

  /** `update_from_dbus_dict`: the path is always added and the clock read;
      each property is taken only when its key is present. */
  function UpdatedFromDict(s: DeviceState, path: string, data: DbusProps, now: Timestamp): DeviceState
  {
    s.(lastSeen := now,
       paths := s.paths + {path},
       addresses := s.addresses + SetOf(ListOf(data.address)),
       paired := data.paired.GetOr(s.paired),
       connected := data.connected.GetOr(s.connected),
       servicesResolved := data.servicesResolved.GetOr(s.servicesResolved),
       name := Overwrite(s.name, data.name),
       deviceClass := Overwrite(s.deviceClass, data.deviceClass),
       appearance := Overwrite(s.appearance, data.appearance),
       uuids := s.uuids + SetOf(data.uuids.GetOr([])),
       rssis := s.rssis + ListOf(data.rssi),
       txPower := Overwrite(s.txPower, data.txPower),
       manufacturerData := if data.manufacturerData.Some? then AppendEach(s.manufacturerData, data.manufacturerData.value) else s.manufacturerData,
       serviceData := if data.serviceData.Some? then AppendEach(s.serviceData, data.serviceData.value) else s.serviceData)
  }

  /** `update_from_device`: sets are united, flags or-ed, optional fields
      taken from `b` when it has them, histories concatenated with `a`'s
      entries first; `a` keeps its first sighting and takes `b`'s last. */
  function Merged(a: DeviceState, b: DeviceState): DeviceState
  {
    a.(paths := a.paths + b.paths,
       addresses := a.addresses + b.addresses,
       paired := a.paired || b.paired,
       connected := a.connected || b.connected,
       servicesResolved := a.servicesResolved || b.servicesResolved,
       name := Overwrite(a.name, b.name),
       deviceClass := Overwrite(a.deviceClass, b.deviceClass),
       appearance := Overwrite(a.appearance, b.appearance),
       uuids := a.uuids + b.uuids,
       rssis := a.rssis + b.rssis,
       txPower := Overwrite(a.txPower, b.txPower),
       lastSeen := b.lastSeen,
       manufacturerData := ExtendEach(a.manufacturerData, b.manufacturerData),
       serviceData := ExtendEach(a.serviceData, b.serviceData))
  }

  /** `__eq__`: two records are the same device when they share an address. */
  predicate SameDevice(a: DeviceState, b: DeviceState)
  {
    |a.addresses * b.addresses| > 0
  }

  // ---------------------------------------------------------------------
  // Properties

  /** A record made from a dictionary holds its one path and address, the
      flags, name, class, appearance and TX power as given (None when
      absent), the UUIDs given, an RSSI history of at most the one reading,
      and each data value alone in its list; a missing required key raises
      KeyError. */
  lemma CreatedFromDict(path: string, data: DbusProps, now: Timestamp)
    ensures Created(path, data, now).Err? <==> !HasRequiredKeys(data)
    ensures Created(path, data, now).Err? ==> Created(path, data, now).error == KeyError
    ensures Created(path, data, now).Ok? ==>
      var s := Created(path, data, now).value;
      && s.paths == {path} && s.addresses == {data.address.value}
      && s.paired == data.paired.value && s.connected == data.connected.value
      && s.servicesResolved == data.servicesResolved.value
      && (data.rssi.None? <==> s.rssis == [])
      && (data.rssi.Some? ==> s.rssis == [data.rssi.value])
      && s.firstSeen == s.lastSeen == now
      && s.name == data.name && s.deviceClass == data.deviceClass
      && s.appearance == data.appearance && s.txPower == data.txPower
      && (forall u :: u in s.uuids <==> data.uuids.Some? && u in data.uuids.value)
      && (forall k :: k in s.manufacturerData <==> data.manufacturerData.Some? && k in data.manufacturerData.value)
      && (forall k :: k in s.manufacturerData ==> s.manufacturerData[k] == [data.manufacturerData.value[k]])
      && (forall k :: k in s.serviceData <==> data.serviceData.Some? && k in data.serviceData.value)
      && (forall k :: k in s.serviceData ==> s.serviceData[k] == [data.serviceData.value[k]])
  {
  }

  /** A dictionary that holds none of the keys only adds the path and moves
      the last sighting. */
  lemma UpdateFromEmptyDict(s: DeviceState, path: string, now: Timestamp)
    ensures UpdatedFromDict(s, path, NoProps, now) == s.(paths := s.paths + {path}, lastSeen := now)
  {
    assert SetOf([]) == {};
  }

  /** An update only grows the record: nothing is forgotten, the histories
      keep their old entries first, the first sighting stays, and every
      present property is recorded. */
  lemma UpdateFromDictGrows(s: DeviceState, path: string, data: DbusProps, now: Timestamp)
    ensures var t := UpdatedFromDict(s, path, data, now);
      && path in t.paths && s.paths <= t.paths
      && s.addresses <= t.addresses && (data.address.Some? ==> data.address.value in t.addresses)
      && s.uuids <= t.uuids && (data.uuids.Some? ==> forall u :: u in data.uuids.value ==> u in t.uuids)
      && s.rssis <= t.rssis && (data.rssi.Some? ==> t.rssis == s.rssis + [data.rssi.value])
      && (data.rssi.None? ==> t.rssis == s.rssis)
      && t.firstSeen == s.firstSeen && t.lastSeen == now
      && (forall k :: k in s.manufacturerData ==> k in t.manufacturerData && s.manufacturerData[k] <= t.manufacturerData[k])
      && (forall k :: k in s.serviceData ==> k in t.serviceData && s.serviceData[k] <= t.serviceData[k])
      && (data.manufacturerData.Some? ==> forall k :: k in data.manufacturerData.value ==>
            k in t.manufacturerData && t.manufacturerData[k] == ListAt(s.manufacturerData, k) + [data.manufacturerData.value[k]])
      && (data.serviceData.Some? ==> forall k :: k in data.serviceData.value ==>
            k in t.serviceData && t.serviceData[k] == ListAt(s.serviceData, k) + [data.serviceData.value[k]])
  {
    if data.manufacturerData.Some? {
      AppendEachKeepsOrder(s.manufacturerData, data.manufacturerData.value);
    }
    if data.serviceData.Some? {
      AppendEachKeepsOrder(s.serviceData, data.serviceData.value);
    }
  }

  /** Updating from a dictionary holding the required keys does what merging
      in a record made from that dictionary does, except for the three
      flags: the update overwrites them where the merge or-s them. */
  lemma UpdateFromDictIsMergeOfCreated(s: DeviceState, path: string, data: DbusProps, now: Timestamp)
    requires HasRequiredKeys(data)
    ensures var t := UpdatedFromDict(s, path, data, now);
      var c := Created(path, data, now).value;
      t == Merged(s, c).(paired := data.paired.value, connected := data.connected.value,
                         servicesResolved := data.servicesResolved.value)
  {
    var md := data.manufacturerData.GetOr(map[]);
    var sd := data.serviceData.GetOr(map[]);
    AppendIsExtendByWrapped(s.manufacturerData, md);
    AppendIsExtendByWrapped(s.serviceData, sd);
    assert AppendEach(s.manufacturerData, map[]) == s.manufacturerData;
    assert AppendEach(s.serviceData, map[]) == s.serviceData;
    assert SetOf(ListOf(data.address)) == {data.address.value};
  }

  /** The merged record is the same device as both of its parts, as long as
      each has an address, and it keeps each part's entries. */
  lemma MergedIsSameDevice(a: DeviceState, b: DeviceState)
    ensures var m := Merged(a, b);
      && (a.addresses != {} ==> SameDevice(m, a))
      && (b.addresses != {} ==> SameDevice(m, b))
      && a.paths + b.paths == m.paths && a.uuids + b.uuids == m.uuids
      && a.rssis <= m.rssis && m.rssis[|a.rssis|..] == b.rssis
      && m.firstSeen == a.firstSeen && m.lastSeen == b.lastSeen
  {
    var m := Merged(a, b);
    if a.addresses != {} {
      var x :| x in a.addresses;
      assert x in m.addresses * a.addresses;
    }
    if b.addresses != {} {
      var y :| y in b.addresses;
      assert y in m.addresses * b.addresses;
    }
  }

  /** `__eq__` is symmetric and holds exactly when an address is shared. */
  lemma SameDeviceSymmetric(a: DeviceState, b: DeviceState)
    ensures SameDevice(a, b) <==> SameDevice(b, a)
    ensures SameDevice(a, b) <==> exists x :: x in a.addresses && x in b.addresses
  {
    if SameDevice(a, b) {
      var x :| x in a.addresses * b.addresses;
    }
    if exists x :: x in a.addresses && x in b.addresses {
      var x :| x in a.addresses && x in b.addresses;
      assert x in a.addresses * b.addresses;
    }
    assert a.addresses * b.addresses == b.addresses * a.addresses;
  }

  // ---------------------------------------------------------------------
  // The record as an object

  class Device {
    var paths: set<string>
    var addresses: set<string>
    var paired: bool
    var connected: bool
    var servicesResolved: bool
    var name: Option<string>
    var deviceClass: Option<int>
    var appearance: Option<int>
    var uuids: set<string>
    var rssis: seq<int>
    var txPower: Option<int>
    var firstSeen: Timestamp
    var lastSeen: Timestamp
    var manufacturerData: map<int, seq<Bytes>>
    var serviceData: map<string, seq<Bytes>>

    function View(): DeviceState
      reads this
    {
      DeviceState(paths, addresses, paired, connected, servicesResolved, name, deviceClass, appearance,
                  uuids, rssis, txPower, firstSeen, lastSeen, manufacturerData, serviceData)
    }

    /** `__init__`, with the clock read as `now`. */
    constructor (path: string, address: string, paired: bool, connected: bool, servicesResolved: bool,
                 name: Option<string>, deviceClass: Option<int>, appearance: Option<int>,
                 uuids: Option<seq<string>>, rssi: Option<int>, txPower: Option<int>,
                 manufacturerData: Option<map<int, Bytes>>, serviceData: Option<map<string, Bytes>>,
                 now: Timestamp)
      ensures View() == Initial(path, address, paired, connected, servicesResolved, name, deviceClass, appearance,
                                uuids, rssi, txPower, manufacturerData, serviceData, now)
    {
      this.paths := {path};
      this.addresses := {address};
      this.paired := paired;
      this.connected := connected;
      this.servicesResolved := servicesResolved;
      this.name := name;
      this.deviceClass := deviceClass;
      this.appearance := appearance;
      this.uuids := if uuids.Some? then SetOf(uuids.value) else {};
      this.rssis := if rssi.Some? then [rssi.value] else [];
      this.txPower := txPower;
      this.firstSeen := now;
      this.lastSeen := now;
      var md := map[];
      if manufacturerData.Some? {
        md := AppendEntries(map[], manufacturerData.value);
      }
      this.manufacturerData := md;
      var sd := map[];
      if serviceData.Some? {
        sd := AppendEntries(map[], serviceData.value);
      }
      this.serviceData := sd;
    }

    /** `create_from_dbus_dict` */
    static method CreateFromDbusDict(path: string, data: DbusProps, now: Timestamp) returns (r: Result<Device, Error>)
      ensures r.Err? <==> Created(path, data, now).Err?
      ensures r.Err? ==> r.error == KeyError
      ensures r.Ok? ==> fresh(r.value) && r.value.View() == Created(path, data, now).value
    {
      if data.address.None? || data.paired.None? || data.connected.None? || data.servicesResolved.None? {
        return Err(KeyError);
      }
      var d := new Device(path, data.address.value, data.paired.value, data.connected.value, data.servicesResolved.value,
                          data.name, data.deviceClass, data.appearance, Some(data.uuids.GetOr([])), data.rssi, data.txPower,
                          Some(data.manufacturerData.GetOr(map[])), Some(data.serviceData.GetOr(map[])), now);
      return Ok(d);
    }

    /** `update_from_dbus_dict`, with the clock read as `now`. */
    method UpdateFromDbusDict(path: string, data: DbusProps, now: Timestamp)
      modifies this
      ensures View() == UpdatedFromDict(old(View()), path, data, now)
    {
      Sighted({path}, now);
      TakeIdentity(SetOf(ListOf(data.address)), data.paired.GetOr(paired), data.connected.GetOr(connected),
                   data.servicesResolved.GetOr(servicesResolved));
      TakeDescription(data.name, data.deviceClass, data.appearance, data.txPower);
      TakeReadings(SetOf(data.uuids.GetOr([])), ListOf(data.rssi));
      AppendData(data.manufacturerData, data.serviceData);
    }

    /** `update_from_device`; `other` may be this very record. */
    method UpdateFromDevice(other: Device)
      modifies this
      ensures View() == Merged(old(View()), old(other.View()))
    {
      var b := other.View();
      Sighted(b.paths, b.lastSeen);
      TakeIdentity(b.addresses, paired || b.paired, connected || b.connected, servicesResolved || b.servicesResolved);
      TakeDescription(b.name, b.deviceClass, b.appearance, b.txPower);
      TakeReadings(b.uuids, b.rssis);
      ExtendData(b.manufacturerData, b.serviceData);
    }

    /** Records the object paths and the time of a sighting. */
    method Sighted(newPaths: set<string>, now: Timestamp)
      modifies this
      ensures View() == old(View()).(paths := old(paths) + newPaths, lastSeen := now)
    {
      lastSeen := now;
      paths := paths + newPaths;
    }

    /** Adds addresses and sets the three connection flags. */
    method TakeIdentity(newAddresses: set<string>, paired: bool, connected: bool, servicesResolved: bool)
      modifies this
      ensures View() == old(View()).(addresses := old(addresses) + newAddresses, paired := paired,
                                     connected := connected, servicesResolved := servicesResolved)
    {
      this.addresses := this.addresses + newAddresses;
      this.paired := paired;
      this.connected := connected;
      this.servicesResolved := servicesResolved;
    }

    /** Overwrites each optional field the update provides. */
    method TakeDescription(name: Option<string>, deviceClass: Option<int>, appearance: Option<int>, txPower: Option<int>)
      modifies this
      ensures View() == old(View()).(name := Overwrite(old(this.name), name),
                                     deviceClass := Overwrite(old(this.deviceClass), deviceClass),
                                     appearance := Overwrite(old(this.appearance), appearance),
                                     txPower := Overwrite(old(this.txPower), txPower))
    {
      if name.Some? {
        this.name := name;
      }
      if deviceClass.Some? {
        this.deviceClass := deviceClass;
      }
      if appearance.Some? {
        this.appearance := appearance;
      }
      if txPower.Some? {
        this.txPower := txPower;
      }
    }

    /** The two data-dictionary loops of `update_from_dbus_dict`. */
    method AppendData(manufacturerEntries: Option<map<int, Bytes>>, serviceEntries: Option<map<string, Bytes>>)
      modifies this
      ensures View() == old(View()).(
        manufacturerData := if manufacturerEntries.Some? then AppendEach(old(manufacturerData), manufacturerEntries.value) else old(manufacturerData),
        serviceData := if serviceEntries.Some? then AppendEach(old(serviceData), serviceEntries.value) else old(serviceData))
    {
      if manufacturerEntries.Some? {
        manufacturerData := AppendEntries(manufacturerData, manufacturerEntries.value);
      }
      if serviceEntries.Some? {
        serviceData := AppendEntries(serviceData, serviceEntries.value);
      }
    }

    /** The two data-dictionary loops of `update_from_device`. */
    method ExtendData(manufacturerLists: map<int, seq<Bytes>>, serviceLists: map<string, seq<Bytes>>)
      modifies this
      ensures View() == old(View()).(manufacturerData := ExtendEach(old(manufacturerData), manufacturerLists),
                                     serviceData := ExtendEach(old(serviceData), serviceLists))
    {
      manufacturerData := ExtendEntries(manufacturerData, manufacturerLists);
      serviceData := ExtendEntries(serviceData, serviceLists);
    }

    /** Adds service UUIDs and appends RSSI readings at the end of the history. */
    method TakeReadings(newUuids: set<string>, newRssis: seq<int>)
      modifies this
      ensures View() == old(View()).(uuids := old(uuids) + newUuids, rssis := old(rssis) + newRssis)
    {
      uuids := uuids + newUuids;
      rssis := rssis + newRssis;
    }

    /** `__eq__` between two records. */
    predicate Equals(other: Device)
      reads this, other
    {
      SameDevice(View(), other.View())
    }
  }
}
