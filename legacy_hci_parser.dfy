/** hci_parser.py, the earlier variant of the parser: the same report
    layout, but `_analyse_advert` unpacks the blocks itself, keeps each
    16-bit service list as one tuple, and the match counts two unknown
    vendors as the same vendor. */
module LegacyHciParser {
  import opened Results
  import opened HciConstants
  import opened AdvertisingReport
  import opened DeviceMerge

  /** One AD structure; `services` stays None until `Analyse` sets it. */
  class Advertisement {
    const adType: AdType
    const data: Bytes
    var vendor: Option<int>
    var services: Option<set<int>>

    constructor (adType: AdType, data: Bytes)
      ensures this.adType == adType && this.data == data
      ensures vendor == None && services == None
    {
      this.adType := adType;
      this.data := data;
      vendor := None;
      services := None;
    }

    function Record(): AdRecord
    {
      AdRecord(adType, data)
    }

    /** `analyse`: the same derivation as the later parser, with the services
        wrapped in an Option because they default to None. */
    method Analyse() returns (outcome: Outcome<Error>)
      modifies this
      ensures var d := Analysis(Record());
        && (outcome.Pass? <==> d.Ok?)
        && (d.Err? ==> outcome == Fail(d.error) && vendor == old(vendor) && services == old(services))
        && (d.Ok? && d.value.VendorId? ==> vendor == Some(d.value.id) && services == old(services))
        && (d.Ok? && d.value.ServiceIds? ==> vendor == old(vendor) && services == Some(set s | s in d.value.ids))
        && (d == Ok(NothingDerived) ==> vendor == old(vendor) && services == old(services))
    {
      if adType == ManufacturerSpecificData {
        var id := ManufacturerVendor(data);
        if id.Err? {
          return Fail(id.error);
        }
        vendor := Some(id.value);
      } else if IsServiceListType(adType) {
        var ids := ServiceIdList(data);
        if ids.Err? {
          return Fail(ids.error);
        }
        services := Some(set s | s in ids.value);
      }
      return Pass;
    }
  }

  function Records(ads: seq<Advertisement>): (rs: seq<AdRecord>)
    ensures |rs| == |ads|
    ensures forall k :: 0 <= k < |ads| ==> rs[k] == ads[k].Record()
  {
    seq(|ads|, k requires 0 <= k < |ads| => ads[k].Record())
  }

  /** `AdvertisementPacket`, with the RSSI stored as a one-element tuple. */
  datatype AdvertisementPacket = AdvertisementPacket(
    discoveryType: DiscoveryType,
    addressType: AddressType,
    address: Bytes,
    rssi: seq<int>,
    advertisements: seq<Advertisement>)

  predicate Describes(packet: AdvertisementPacket, report: Report)
  {
    && packet.discoveryType == report.discoveryType
    && packet.addressType == report.addressType
    && packet.address == report.address
    && packet.rssi == [report.rssi]
    && Records(packet.advertisements) == report.records
  }

  /** `AdvertisementPacket.__eq__`: everything but the RSSI. */
  predicate PacketEquals(a: AdvertisementPacket, b: AdvertisementPacket)
  {
    && a.discoveryType == b.discoveryType
    && a.addressType == b.addressType
    && a.address == b.address
    && Records(a.advertisements) == Records(b.advertisements)
  }

  lemma PacketEqualsIgnoresRssi(a: AdvertisementPacket, b: AdvertisementPacket, ra: Report, rb: Report)
    ensures Describes(a, ra) && Describes(b, rb) ==> (PacketEquals(a, b) <==> ra.(rssi := 0) == rb.(rssi := 0))
  {
  }

  /** `AdvertisementPacket.create`: the same header and cursor loop as the
      later parser. */
  method Create(packet: Bytes, offset: nat) returns (r: Result<AdvertisementPacket, Error>)
    ensures r.Err? <==> DecodeReport(packet, offset).Err?
    ensures r.Err? ==> r.error == DecodeReport(packet, offset).error
    ensures r.Ok? ==> Describes(r.value, DecodeReport(packet, offset).value)
  {
    if |packet| < offset + ReportHeaderSize {
      return Err(StructError);
    }
    var discoveryType := DiscoveryTypeOf(packet[offset]);
    if discoveryType.Err? {
      return Err(discoveryType.error);
    }
    var addressType := AddressTypeOf(packet[offset + 1]);
    if addressType.Err? {
      return Err(addressType.error);
    }
    var address := packet[offset + 2..offset + 9];
    var length := packet[offset + 9];
    if |packet| < offset + ReportHeaderSize + length + 1 {
      return Err(StructError);
    }
    var reportData := packet[offset + 10..offset + 10 + length];
    var rssi := SignedByte(packet[offset + 10 + length]);
    var ads := CreateAdvertisements(reportData);
    if ads.Err? {
      return Err(ads.error);
    }
    return Ok(AdvertisementPacket(discoveryType.value, addressType.value, address, [rssi], ads.value));
  }

  /** The cursor loop of `create`. */
  method CreateAdvertisements(reportData: Bytes) returns (r: Result<seq<Advertisement>, Error>)
    ensures r.Err? <==> AdStructures(reportData).Err?
    ensures r.Err? ==> r.error == AdStructures(reportData).error
    ensures r.Ok? ==> Records(r.value) == AdStructures(reportData).value
  {
    var ads: seq<Advertisement> := [];
    var i: nat := 0;
    assert Records(ads) == [];
    ThenEmpty(AdStructures(reportData));
    while i < |reportData|
      invariant AdStructures(reportData) == Then(Records(ads), AdStructuresFrom(reportData, i))
      decreases |reportData| - i
    {
      var adLength := reportData[i];
      if |reportData| <= i + 1 {
        assert AdStructuresFrom(reportData, i) == Err(IndexError);
        return Err(IndexError);
      }
      var adType := AdTypeOf(reportData[i + 1]);
      if adType.Err? {
        assert AdStructuresFrom(reportData, i) == Err(adType.error) by {
          AdStructuresFromStep(reportData, i, i + 2, i + 1 + adLength, i + adLength + 1);
        }
        return Err(adType.error);
      }
      var ad := new Advertisement(adType.value, PySlice(reportData, i + 2, i + 1 + adLength));
      ghost var before, at := ads, i;
      ads := ads + [ad];
      i := i + adLength + 1;
      assert AdStructures(reportData) == Then(Records(ads), AdStructuresFrom(reportData, i)) by {
        ThenStep(Records(before), reportData, at, ad.Record(), i);
        assert Records(ads) == Records(before) + [ad.Record()];
      }
    }
    assert AdStructuresFrom(reportData, i) == Ok([]);
    assert Records(ads) + [] == Records(ads);
    return Ok(ads);
  }

  /** A `Device` of this parser: each service is the tuple of ids of one
      16-bit service list. */
  class Device {
    const discoveryType: DiscoveryType
    const addressType: AddressType
    var addresses: set<Bytes>
    var vendor: Option<int>
    var services: set<seq<int>>
    var advertisements: set<AdRecord>

    constructor (discoveryType: DiscoveryType, addressType: AddressType, addresses: set<Bytes>)
      ensures View() == DeviceView(discoveryType, addressType, addresses, None, {}, {})
    {
      this.discoveryType := discoveryType;
      this.addressType := addressType;
      this.addresses := addresses;
      vendor := None;
      services := {};
      advertisements := {};
    }

    function View(): DeviceView<seq<int>>
      reads this
    {
      DeviceView(discoveryType, addressType, addresses, vendor, services, advertisements)
    }

    /** `union`: the same merge as the later parser, without its type check. */
    method Union(other: Device) returns (r: Result<bool, Error>)
      modifies this
      ensures r == UnionOutcome(old(View()), old(other.View()))
      ensures View() == AfterUnion(old(View()), old(other.View()))
    {
      if vendor != other.vendor {
        return Err(ValueError);
      }
      var newAddresses := addresses + other.addresses;
      var newServices := services + other.services;
      var newAdvertisements := advertisements + other.advertisements;
      if newAddresses == addresses && newServices == services && newAdvertisements == advertisements {
        return Ok(false);
      }
      addresses, services, advertisements := newAddresses, newServices, newAdvertisements;
      return Ok(true);
    }
  }

  /** `Device.__eq__` with the candidate as `self`: `self.vendor is
      other.vendor` also holds when both vendors are None. */
  predicate Matches(candidate: DeviceView<seq<int>>, entry: DeviceView<seq<int>>)
  {
    || candidate.addresses * entry.addresses != {}
    || (&& candidate.vendor == entry.vendor
        && (|| (candidate.services != {} && entry.services <= candidate.services)
            || (candidate.advertisements != {} && entry.advertisements <= candidate.advertisements)))
  }

  lemma MatchesOnSharedAddress()
    ensures SharedAddressMatches(Matches)
  {
    forall a: DeviceView<seq<int>>, b: DeviceView<seq<int>> | a.addresses * b.addresses != {}
      ensures Matches(a, b)
    {
    }
  }

  /** Two devices with no known vendor and no common address still match when
      the candidate's advertisements include all of the entry's. */
  lemma VendorlessDevicesMatch(a: DeviceView<seq<int>>, b: DeviceView<seq<int>>)
    requires a.vendor.None? && b.vendor.None?
    requires a.advertisements != {} && b.advertisements <= a.advertisements
    ensures Matches(a, b)
  {
  }

  /** A concrete pair: two addresses, no vendor, the same Flags block. */
  lemma VendorlessDevicesMatchExample()
    ensures var r := AdRecord(Flags, [0x06]);
      var a := DeviceView(ConnectableUndirectedAdvertising, PublicDeviceAddress, {[1]}, None, {}, {r});
      var b := DeviceView(ConnectableUndirectedAdvertising, RandomDeviceAddress, {[2]}, None, {}, {r});
      a.addresses * b.addresses == {} && Matches(a, b) && Matches(b, a)
  {
    var one: Bytes := [1];
    var two: Bytes := [2];
    assert one[0] != two[0];
    assert {one} * {two} == {};
  }

  /** The candidate `_analyse_advert` builds: manufacturer blocks set the
      vendor (the last one wins), each 16-bit service list adds its tuple of
      ids as one service, and only the other blocks become advertisements. */
  function AnalysedView(report: Report, count: nat): (r: Result<DeviceView<seq<int>>, Error>)
    requires count <= |report.records|
    ensures r.Ok? ==> r.value.discoveryType == report.discoveryType && r.value.addressType == report.addressType
    ensures r.Ok? ==> r.value.addresses == {report.address}
  {
    if count == 0 then Ok(DeviceView(report.discoveryType, report.addressType, {report.address}, None, {}, {}))
    else
      match AnalysedView(report, count - 1)
      case Err(e) => Err(e)
      case Ok(v) =>
        var block := report.records[count - 1];
        match Analysis(block)
        case Err(e) => Err(e)
        case Ok(VendorId(id)) => Ok(v.(vendor := Some(id)))
        case Ok(ServiceIds(ids)) => Ok(v.(services := v.services + {ids}))
        case Ok(NothingDerived) => Ok(v.(advertisements := v.advertisements + {block}))
  }

  lemma {:induction false} AnalysedViewOk(report: Report, count: nat)
    requires count <= |report.records|
    ensures AnalysedView(report, count).Ok? <==> forall k :: 0 <= k < count ==> Analysis(report.records[k]).Ok?
  {
    if count > 0 {
      AnalysedViewOk(report, count - 1);
    }
  }

  /** Only blocks that derive nothing are kept as advertisements. */
  lemma {:induction false} AnalysedViewAdvertisements(report: Report, count: nat)
    requires count <= |report.records| && AnalysedView(report, count).Ok?
    ensures forall r :: r in AnalysedView(report, count).value.advertisements <==>
      r in report.records[..count] && Analysis(r) == Ok(NothingDerived)
  {
    if count > 0 {
      AnalysedViewAdvertisements(report, count - 1);
      assert report.records[..count] == report.records[..count - 1] + [report.records[count - 1]];
    }
  }

  /** The services are exactly the id tuples of the 16-bit service lists. */
  lemma {:induction false} AnalysedViewServices(report: Report, count: nat)
    requires count <= |report.records| && AnalysedView(report, count).Ok?
    ensures forall ids :: ids in AnalysedView(report, count).value.services <==>
      exists k :: 0 <= k < count && Analysis(report.records[k]) == Ok(ServiceIds(ids))
  {
    if count > 0 {
      AnalysedViewServices(report, count - 1);
      var services := AnalysedView(report, count).value.services;
      forall ids | exists k :: 0 <= k < count && Analysis(report.records[k]) == Ok(ServiceIds(ids))
        ensures ids in services
      {
        var k :| 0 <= k < count && Analysis(report.records[k]) == Ok(ServiceIds(ids));
        if k < count - 1 {
          assert ids in AnalysedView(report, count - 1).value.services;
        }
      }
    }
  }

  predicate SetsVendor(record: AdRecord)
  {
    Analysis(record).Ok? && Analysis(record).value.VendorId?
  }

  /** The vendor is that of the last manufacturer block, None when there is none. */
  lemma {:induction false} AnalysedViewVendor(report: Report, count: nat)
    requires count <= |report.records| && AnalysedView(report, count).Ok?
    ensures var vendor := AnalysedView(report, count).value.vendor;
      && (vendor.None? <==> forall k :: 0 <= k < count ==> !SetsVendor(report.records[k]))
      && (vendor.Some? ==> exists k :: 0 <= k < count && Analysis(report.records[k]) == Ok(VendorId(vendor.value))
                            && forall j :: k < j < count ==> !SetsVendor(report.records[j]))
  {
    if count > 0 {
      AnalysedViewVendor(report, count - 1);
      AnalysedViewOk(report, count);
    }
  }

  lemma {:induction false} AnalysedViewErrorPersists(report: Report, k: nat, n: nat)
    requires k <= n <= |report.records| && AnalysedView(report, k).Err?
    ensures AnalysedView(report, n) == AnalysedView(report, k)
    decreases n - k
  {
    if k < n {
      AnalysedViewErrorPersists(report, k, n - 1);
    }
  }

  /** `Device.__eq__` as `list.__contains__` and `list.index` call it on
      CPython 3.9 and later: the registry entry is `self` and the candidate
      is `other`. */
  predicate EntryMatches(candidate: DeviceView<seq<int>>, entry: DeviceView<seq<int>>)
  {
    Matches(entry, candidate)
  }

  /** `device in registry` followed by `registry.index(device)` on CPython
      3.9 and later, where both compare each entry with the candidate. */
  function FindIn(registry: seq<DeviceView<seq<int>>>, candidate: DeviceView<seq<int>>): Option<nat>
  {
    if exists j :: 0 <= j < |registry| && EntryMatches(candidate, registry[j]) then FirstMatch(registry, candidate, EntryMatches)
    else None
  }

  /** The same on CPython 3.8 and earlier: `in` compares the candidate with
      each entry, while `index` compares each entry with the candidate, and
      raises ValueError when it finds none. */
  function FindInUpTo38(registry: seq<DeviceView<seq<int>>>, candidate: DeviceView<seq<int>>): Result<Option<nat>, Error>
  {
    if exists j :: 0 <= j < |registry| && Matches(candidate, registry[j]) then
      match FirstMatch(registry, candidate, EntryMatches)
      case None => Err(ValueError)
      case Some(i) => Ok(Some(i))
    else Ok(None)
  }

  /** Membership followed by `index` finds the first entry that matches the
      candidate as `other`. On CPython 3.8 and earlier it raises ValueError
      exactly when some entry matches the candidate as `self` but none the
      other way round, and otherwise finds nothing or the same entry. */
  lemma FindInIsFirstMatch(registry: seq<DeviceView<seq<int>>>, candidate: DeviceView<seq<int>>)
    ensures FindIn(registry, candidate) == FirstMatch(registry, candidate, EntryMatches)
    ensures FindInUpTo38(registry, candidate).Err? <==>
      (exists j :: 0 <= j < |registry| && Matches(candidate, registry[j]))
      && (forall j :: 0 <= j < |registry| ==> !EntryMatches(candidate, registry[j]))
    ensures FindInUpTo38(registry, candidate).Err? ==> FindInUpTo38(registry, candidate).error == ValueError
    ensures FindInUpTo38(registry, candidate).Ok? && FindInUpTo38(registry, candidate).value.Some? ==>
      FindInUpTo38(registry, candidate).value == FindIn(registry, candidate)
  {
  }

  /** A vendor-less entry with one block, and a vendor-less candidate at
      another address with that block and one more: the entry, as `self`,
      does not cover the candidate's blocks, so the lookup finds nothing and
      the candidate is appended; on CPython 3.8 and earlier `in` finds the
      entry and `index` then raises ValueError. */
  lemma LookupOperandOrderExample()
    ensures var r1, r2 := AdRecord(Flags, [0x06]), AdRecord(Flags, [0x05]);
      var entry := DeviceView(ConnectableUndirectedAdvertising, PublicDeviceAddress, {[1]}, None, {}, {r1});
      var candidate := DeviceView(ConnectableUndirectedAdvertising, PublicDeviceAddress, {[2]}, None, {}, {r1, r2});
      && Matches(candidate, entry) && !EntryMatches(candidate, entry)
      && FindIn([entry], candidate) == None
      && Register([entry], candidate, EntryMatches) == Ok(Registered([entry, candidate], NewDevice))
      && FindInUpTo38([entry], candidate) == Err(ValueError)
  {
    var r1, r2 := AdRecord(Flags, [0x06]), AdRecord(Flags, [0x05]);
    var entry := DeviceView(ConnectableUndirectedAdvertising, PublicDeviceAddress, {[1]}, None, {}, {r1});
    var candidate := DeviceView(ConnectableUndirectedAdvertising, PublicDeviceAddress, {[2]}, None, {}, {r1, r2});
    var one: Bytes := [1];
    var two: Bytes := [2];
    assert one[0] != two[0];
    assert candidate.addresses * entry.addresses == {};
    assert entry.addresses * candidate.addresses == {};
    assert r1 != r2 by {
      assert r1.data[0] != r2.data[0];
    }
    assert r2 in candidate.advertisements && r2 !in entry.advertisements;
    assert !EntryMatches(candidate, entry);
    assert Matches(candidate, entry);
    FindInIsFirstMatch([entry], candidate);
    assert FirstMatch([entry], candidate, EntryMatches) == None;
    assert FindIn([entry], candidate) == None;
    assert [entry] + [candidate] == [entry, candidate];
    assert FindInUpTo38([entry], candidate) == Err(ValueError);
  }

  /** The parser of this variant. */
  class HciParser {
    var registry: seq<Device>

    constructor ()
      ensures registry == []
    {
      registry := [];
    }

    ghost predicate Valid()
      reads this
    {
      forall i, j :: 0 <= i < j < |registry| ==> registry[i] != registry[j]
    }

    function Views(): (vs: seq<DeviceView<seq<int>>>)
      reads this, registry
      ensures |vs| == |registry|
      ensures forall k :: 0 <= k < |registry| ==> vs[k] == registry[k].View()
    {
      seq(|registry|, k reads this, registry requires 0 <= k < |registry| => registry[k].View())
    }

    /** `_parse_packet`. */
    method ParsePacket(packet: Bytes) returns (r: Result<Option<AdvertisementPacket>, Error>)
      ensures r.Err? <==> ParseFrame(packet).Err?
      ensures r.Err? ==> r.error == ParseFrame(packet).error
      ensures r.Ok? && r.value.None? <==> ParseFrame(packet) == Ok(None)
      ensures r.Ok? && r.value.Some? ==> Describes(r.value.value, ParseFrame(packet).value.value)
    {
      var isReport := IsAdvertisingReportFrame(packet);
      if isReport.Err? {
        return Err(isReport.error);
      }
      if !isReport.value {
        return Ok(None);
      }
      var advert := Create(packet, 4);
      if advert.Err? {
        return Err(advert.error);
      }
      return Ok(Some(advert.value));
    }

    /** `_find_device`. */
    method FindDevice(device: Device) returns (r: Option<nat>)
      ensures r == FirstMatch(Views(), device.View(), EntryMatches)
    {
      FindInIsFirstMatch(Views(), device.View());
      return FindIn(Views(), device.View());
    }

    method AppendDevice(device: Device)
      requires Valid() && device !in registry
      modifies this
      ensures Valid()
      ensures registry == old(registry) + [device]
      ensures Views() == old(Views()) + [device.View()]
    {
      registry := registry + [device];
    }

    method UniteInto(i: nat, device: Device) returns (changed: Result<bool, Error>)
      requires Valid() && i < |registry| && device !in registry
      modifies registry[i]
      ensures changed == UnionOutcome(old(Views())[i], old(device.View()))
      ensures Views() == old(Views())[i := AfterUnion(old(Views())[i], old(device.View()))]
    {
      ghost var before := Views();
      changed := registry[i].Union(device);
      assert forall j :: 0 <= j < |registry| && j != i ==> registry[j].View() == before[j];
    }

    /** `_register_device`. */
    method RegisterDevice(device: Device) returns (r: Result<Registration, Error>)
      requires Valid() && device !in registry
      modifies this, registry
      ensures Valid()
      ensures var spec := Register(old(Views()), old(device.View()), EntryMatches);
        && (r.Ok? <==> spec.Ok?)
        && (r.Ok? ==> r.value == spec.value.outcome && Views() == spec.value.registry)
        && (r.Err? ==> r.error == spec.error && Views() == old(Views()))
    {
      if |registry| == 0 {
        AppendDevice(device);
        return Ok(NewDevice);
      }
      var idx := FindDevice(device);
      if idx.None? {
        AppendDevice(device);
        return Ok(NewDevice);
      }
      var i := idx.value;
      ghost var before := Views();
      var changed := UniteInto(i, device);
      if changed.Err? {
        assert before[i := before[i]] == before;
        return Err(changed.error);
      }
      if changed.value {
        return Ok(DeviceUpdate(i));
      }
      assert before[i := before[i]] == before;
      return Ok(NoUpdate(i));
    }

    /** `_analyse_advert`: unpacks each block in turn and folds it into a
        fresh candidate; the advertisements themselves are not changed. */
    method AnalyseAdvert(advert: AdvertisementPacket, ghost report: Report) returns (r: Result<Device, Error>)
      requires Describes(advert, report)
      ensures r.Err? <==> AnalysedView(report, |report.records|).Err?
      ensures r.Err? ==> r.error == AnalysedView(report, |report.records|).error
      ensures r.Ok? ==> fresh(r.value) && r.value.View() == AnalysedView(report, |report.records|).value
    {
      var device := new Device(advert.discoveryType, advert.addressType, {advert.address});
      var ads := advert.advertisements;
      var k := 0;
      while k < |ads|
        invariant k <= |ads|
        invariant AnalysedView(report, k) == Ok(device.View())
        invariant fresh(device)
      {
        var outcome := FoldBlock(device, ads, report, k);
        if outcome.Fail? {
          assert AnalysedView(report, |report.records|) == Err(outcome.error) by {
            AnalysedViewErrorPersists(report, k + 1, |report.records|);
          }
          return Err(outcome.error);
        }
        k := k + 1;
      }
      return Ok(device);
    }

    /** The body of the `_analyse_advert` loop for one block. */
    method FoldBlock(device: Device, ads: seq<Advertisement>, ghost report: Report, k: nat) returns (outcome: Outcome<Error>)
      requires k < |ads| && k < |report.records| && ads[k].Record() == report.records[k]
      requires AnalysedView(report, k) == Ok(device.View())
      modifies device
      ensures outcome.Fail? ==> AnalysedView(report, k + 1) == Err(outcome.error)
      ensures outcome.Pass? ==> AnalysedView(report, k + 1) == Ok(device.View())
    {
      var block := ads[k];
      var derived := Analysis(block.Record());
      match derived {
        case Err(e) =>
          return Fail(e);
        case Ok(VendorId(id)) =>
          device.vendor := Some(id);
        case Ok(ServiceIds(ids)) =>
          device.services := device.services + {ids};
        case Ok(NothingDerived) =>
          device.advertisements := device.advertisements + {block.Record()};
      }
      return Pass;
    }
  }
}
