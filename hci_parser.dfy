/** src/btlesniffer/hci_parser.py: the advertising-report parser and the
    device registry it maintains. */
module HciParser {
  import opened Results
  import opened HciConstants
  import opened AdvertisingReport
  import opened DeviceMerge

  /** One AD structure of a report. Its type and data are fixed at
      construction; `Analyse` fills in the vendor and services it derives. */
  class Advertisement {
    const adType: AdType
    const data: Bytes
    var vendor: Option<int>
    var services: set<int>

    constructor (adType: AdType, data: Bytes)
      ensures this.adType == adType && this.data == data
      ensures vendor == None && services == {}
    {
      this.adType := adType;
      this.data := data;
      vendor := None;
      services := {};
    }

    /** Equality and hashing of an Advertisement look at its type and data only. */
    function Record(): AdRecord
    {
      AdRecord(adType, data)
    }

    /** `analyse`: sets the vendor of manufacturer data and the services of a
        16-bit service list; raises (changing nothing) when the data does not
        unpack or the company id is not listed. */
    method Analyse() returns (outcome: Outcome<Error>)
      modifies this
      ensures var d := Analysis(Record());
        && (outcome.Pass? <==> d.Ok?)
        && (d.Err? ==> outcome == Fail(d.error) && vendor == old(vendor) && services == old(services))
        && (d.Ok? && d.value.VendorId? ==> vendor == Some(d.value.id) && services == old(services))
        && (d.Ok? && d.value.ServiceIds? ==> vendor == old(vendor) && services == (set s | s in d.value.ids))
        && (d == Ok(NothingDerived) ==> vendor == old(vendor) && services == old(services))
      ensures outcome.Pass? && old(vendor) == None && old(services) == {} ==>
        vendor == DerivedVendor(Record()) && services == DerivedServices(Record())
    {
      if adType == ManufacturerSpecificData {
        var id := ManufacturerVendor(data);
        if id.Err? {
          return Fail(id.error);
        }
        vendor := Some(id.value);
      } else if IsServiceListType(adType) {
        var ids := ServiceIdList(data);
        if ids.Err? {
          return Fail(ids.error);
        }
        services := set s | s in ids.value;
      }
      return Pass;
    }
  }

  function Records(ads: seq<Advertisement>): (rs: seq<AdRecord>)
    ensures |rs| == |ads|
    ensures forall k :: 0 <= k < |ads| ==> rs[k] == ads[k].Record()
  {
    seq(|ads|, k requires 0 <= k < |ads| => ads[k].Record())
  }

  /** `AdvertisementPacket`; `rssi` holds the one-element tuple the
      constructor's trailing comma makes of the RSSI. */
  datatype AdvertisementPacket = AdvertisementPacket(
    discoveryType: DiscoveryType,
    addressType: AddressType,
    address: Bytes,
    rssi: seq<int>,
    advertisements: seq<Advertisement>)

  /** The packet carries exactly the content of the decoded report. */
  predicate Describes(packet: AdvertisementPacket, report: Report)
  {
    && packet.discoveryType == report.discoveryType
    && packet.addressType == report.addressType
    && packet.address == report.address
    && packet.rssi == [report.rssi]
    && Records(packet.advertisements) == report.records
  }

  /** `AdvertisementPacket.__eq__`: types, address and advertisements; the
      RSSI takes no part. */
  predicate PacketEquals(a: AdvertisementPacket, b: AdvertisementPacket)
  {
    && a.discoveryType == b.discoveryType
    && a.addressType == b.addressType
    && a.address == b.address
    && Records(a.advertisements) == Records(b.advertisements)
  }

  /** Packets describing the same report are equal, whatever their RSSI, and
      packet equality is an equivalence. */
  lemma PacketEqualsProperties(a: AdvertisementPacket, b: AdvertisementPacket, c: AdvertisementPacket, ra: Report, rb: Report)
    ensures PacketEquals(a, a)
    ensures PacketEquals(a, b) ==> PacketEquals(b, a)
    ensures PacketEquals(a, b) && PacketEquals(b, c) ==> PacketEquals(a, c)
    ensures Describes(a, ra) && Describes(b, rb) && ra.(rssi := 0) == rb.(rssi := 0) ==> PacketEquals(a, b)
  {
  }

  predicate Distinct(ads: seq<Advertisement>)
  {
    forall i, j :: 0 <= i < j < |ads| ==> ads[i] != ads[j]
  }

  /** The advertisements are distinct objects, as `create` left them. */
  predicate Unanalysed(ads: seq<Advertisement>)
    reads ads
  {
    Distinct(ads) && forall a :: a in ads ==> a.vendor == None && a.services == {}
  }

  /** `AdvertisementPacket.create`: decodes the report at `offset` with the
      cursor loop over the AD structures, creating one Advertisement per
      structure. */
  method Create(packet: Bytes, offset: nat) returns (r: Result<AdvertisementPacket, Error>)
    ensures r.Err? <==> DecodeReport(packet, offset).Err?
    ensures r.Err? ==> r.error == DecodeReport(packet, offset).error
    ensures r.Ok? ==> Describes(r.value, DecodeReport(packet, offset).value)
    ensures r.Ok? ==> Unanalysed(r.value.advertisements)
    ensures r.Ok? ==> forall j :: 0 <= j < |r.value.advertisements| ==> fresh(r.value.advertisements[j])
  {
    if |packet| < offset + ReportHeaderSize {
      return Err(StructError);
    }
    var discoveryType := DiscoveryTypeOf(packet[offset]);
    if discoveryType.Err? {
      return Err(discoveryType.error);
    }
    var addressType := AddressTypeOf(packet[offset + 1]);
    if addressType.Err? {
      return Err(addressType.error);
    }
    var address := packet[offset + 2..offset + 9];
    var length := packet[offset + 9];
    if |packet| < offset + ReportHeaderSize + length + 1 {
      return Err(StructError);
    }
    var reportData := packet[offset + 10..offset + 10 + length];
    var rssi := SignedByte(packet[offset + 10 + length]);

    var ads := CreateAdvertisements(reportData);
    if ads.Err? {
      return Err(ads.error);
    }
    return Ok(AdvertisementPacket(discoveryType.value, addressType.value, address, [rssi], ads.value));
  }

  /** The cursor loop of `create`: one fresh Advertisement per AD structure,
      in wire order. */
  method CreateAdvertisements(reportData: Bytes) returns (r: Result<seq<Advertisement>, Error>)
    ensures r.Err? <==> AdStructures(reportData).Err?
    ensures r.Err? ==> r.error == AdStructures(reportData).error
    ensures r.Ok? ==> Records(r.value) == AdStructures(reportData).value
    ensures r.Ok? ==> Unanalysed(r.value)
    ensures r.Ok? ==> forall j :: 0 <= j < |r.value| ==> fresh(r.value[j])
  {
    var ads: seq<Advertisement> := [];
    var i: nat := 0;
    assert Records(ads) == [];
    ThenEmpty(AdStructures(reportData));
    while i < |reportData|
      invariant AdStructures(reportData) == Then(Records(ads), AdStructuresFrom(reportData, i))
      invariant Unanalysed(ads)
      invariant forall j :: 0 <= j < |ads| ==> fresh(ads[j])
      decreases |reportData| - i
    {
      var adLength := reportData[i];
      if |reportData| <= i + 1 {
        assert AdStructuresFrom(reportData, i) == Err(IndexError);
        return Err(IndexError);
      }
      var adType := AdTypeOf(reportData[i + 1]);
      if adType.Err? {
        assert AdStructuresFrom(reportData, i) == Err(adType.error) by {
          AdStructuresFromStep(reportData, i, i + 2, i + 1 + adLength, i + adLength + 1);
        }
        return Err(adType.error);
      }
      var ad := new Advertisement(adType.value, PySlice(reportData, i + 2, i + 1 + adLength));
      ghost var before, at := ads, i;
      assert Unanalysed(ads + [ad]) by {
        assert forall j :: 0 <= j < |ads| ==> ads[j] != ad;
      }
      ads := ads + [ad];
      i := i + adLength + 1;
      assert AdStructures(reportData) == Then(Records(ads), AdStructuresFrom(reportData, i)) by {
        ThenStep(Records(before), reportData, at, ad.Record(), i);
        assert Records(ads) == Records(before) + [ad.Record()];
      }
    }
    assert AdStructuresFrom(reportData, i) == Ok([]);
    assert Records(ads) + [] == Records(ads);
    return Ok(ads);
  }

  /** An advertising-side `Device`. Its types are fixed at construction; the
      sets are rebound by `Union`, the vendor by `_analyse_advert`. */
  class Device {
    const discoveryType: DiscoveryType
    const addressType: AddressType
    var addresses: set<Bytes>
    var vendor: Option<int>
    var services: set<int>
    var advertisements: set<AdRecord>

    constructor (discoveryType: DiscoveryType, addressType: AddressType, addresses: set<Bytes>)
      ensures View() == DeviceView(discoveryType, addressType, addresses, None, {}, {})
    {
      this.discoveryType := discoveryType;
      this.addressType := addressType;
      this.addresses := addresses;
      vendor := None;
      services := {};
      advertisements := {};
    }

    function View(): DeviceView<int>
      reads this
    {
      DeviceView(discoveryType, addressType, addresses, vendor, services, advertisements)
    }

    /** `union`: raises ValueError when the vendors differ; otherwise rebinds
        the three sets to their unions with `other`'s and returns whether that
        added anything. */
    method Union(other: Device) returns (r: Result<bool, Error>)
      modifies this
      ensures r == UnionOutcome(old(View()), old(other.View()))
      ensures View() == AfterUnion(old(View()), old(other.View()))
    {
      if vendor != other.vendor {
        return Err(ValueError);
      }
      var newAddresses := addresses + other.addresses;
      var newServices := services + other.services;
      var newAdvertisements := advertisements + other.advertisements;
      if newAddresses == addresses && newServices == services && newAdvertisements == advertisements {
        return Ok(false);
      }
      addresses, services, advertisements := newAddresses, newServices, newAdvertisements;
      return Ok(true);
    }
  }

  /** `Device.__eq__` with the candidate as `self`: a shared address, or a
      vendor that is known and the same together with a non-empty superset
      of the entry's services or advertisements. */
  predicate Matches(candidate: DeviceView<int>, entry: DeviceView<int>)
  {
    || candidate.addresses * entry.addresses != {}
    || (&& candidate.vendor.Some?
        && candidate.vendor == entry.vendor
        && (|| (candidate.services != {} && entry.services <= candidate.services)
            || (candidate.advertisements != {} && entry.advertisements <= candidate.advertisements)))
  }

  lemma MatchesOnSharedAddress()
    ensures SharedAddressMatches(Matches)
  {
    forall a: DeviceView<int>, b: DeviceView<int> | a.addresses * b.addresses != {}
      ensures Matches(a, b)
    {
    }
  }

  /** Without a known vendor only a shared address makes a match, and the
      relation is symmetric on that part. */
  lemma VendorlessMatchesByAddressOnly(a: DeviceView<int>, b: DeviceView<int>)
    requires a.vendor.None?
    ensures Matches(a, b) <==> a.addresses * b.addresses != {}
    ensures Matches(a, b) ==> Matches(b, a)
  {
    if Matches(a, b) {
      assert a.addresses * b.addresses == b.addresses * a.addresses;
    }
  }

  /** The match is not symmetric: a candidate with more advertisements matches
      an entry of the same vendor that the entry, as candidate, would not match. */
  lemma MatchesIsAsymmetric()
    ensures exists a: DeviceView<int>, b: DeviceView<int> :: Matches(a, b) && !Matches(b, a)
  {
    var r1 := AdRecord(Flags, [0x06]);
    var r2 := AdRecord(Flags, [0x1a]);
    var a := DeviceView(ConnectableUndirectedAdvertising, PublicDeviceAddress, {[1]}, Some(CompanyAppleInc), {}, {r1, r2});
    var b := DeviceView(ConnectableUndirectedAdvertising, PublicDeviceAddress, {[2]}, Some(CompanyAppleInc), {}, {r1});
    assert [1] in a.addresses && a.addresses == {[1]} && b.addresses == {[2]};
    assert a.addresses * b.addresses == {};
    assert r2 in a.advertisements && r2 !in b.advertisements;
    assert Matches(a, b) && !Matches(b, a);
  }

  /** The candidate `_analyse_advert` builds from a report, before it is
      registered: the block-by-block fold over the records. */
  function AnalysedView(report: Report, count: nat): (r: Result<DeviceView<int>, Error>)
    requires count <= |report.records|
    ensures r.Ok? ==> r.value.discoveryType == report.discoveryType && r.value.addressType == report.addressType
    ensures r.Ok? ==> r.value.addresses == {report.address}
  {
    if count == 0 then Ok(DeviceView(report.discoveryType, report.addressType, {report.address}, None, {}, {}))
    else
      match AnalysedView(report, count - 1)
      case Err(e) => Err(e)
      case Ok(v) =>
        var last := report.records[count - 1];
        match Analysis(last)
        case Err(e) => Err(e)
        case Ok(_) =>
          Ok(v.(vendor := DerivedVendor(last),
                services := v.services + DerivedServices(last),
                advertisements := v.advertisements + {last}))
  }

  /** The candidate of `_analyse_advert` raises exactly when some block's
      analysis raises. */
  lemma {:induction false} AnalysedViewOk(report: Report, count: nat)
    requires count <= |report.records|
    ensures AnalysedView(report, count).Ok? <==> forall k :: 0 <= k < count ==> Analysis(report.records[k]).Ok?
  {
    if count > 0 {
      AnalysedViewOk(report, count - 1);
    }
  }

  /** Every block, and nothing else, becomes one of the candidate's advertisements. */
  lemma {:induction false} AnalysedViewAdvertisements(report: Report, count: nat)
    requires count <= |report.records| && AnalysedView(report, count).Ok?
    ensures forall r :: r in AnalysedView(report, count).value.advertisements <==> r in report.records[..count]
  {
    if count > 0 {
      AnalysedViewAdvertisements(report, count - 1);
      assert report.records[..count] == report.records[..count - 1] + [report.records[count - 1]];
    }
  }

  /** The candidate's vendor is the last block's: None unless that block is
      manufacturer data. */
  lemma AnalysedViewVendor(report: Report, count: nat)
    requires count <= |report.records| && AnalysedView(report, count).Ok?
    ensures AnalysedView(report, count).value.vendor == (if count == 0 then None else DerivedVendor(report.records[count - 1]))
  {
  }

  /** The candidate's services are those of all its 16-bit service lists. */
  lemma {:induction false} AnalysedViewServices(report: Report, count: nat)
    requires count <= |report.records| && AnalysedView(report, count).Ok?
    ensures forall s :: s in AnalysedView(report, count).value.services <==>
      exists k :: 0 <= k < count && s in DerivedServices(report.records[k])
  {
    if count > 0 {
      AnalysedViewServices(report, count - 1);
      var v := AnalysedView(report, count - 1).value;
      var services := AnalysedView(report, count).value.services;
      forall s | s in services
        ensures exists k :: 0 <= k < count && s in DerivedServices(report.records[k])
      {
        if s !in DerivedServices(report.records[count - 1]) {
          assert s in v.services;
        }
      }
    }
  }

  /** The vendor a block carries once analysed. */
  function DerivedVendor(record: AdRecord): Option<int>
  {
    match Analysis(record)
    case Ok(VendorId(id)) => Some(id)
    case _ => None
  }

  /** The services a block carries once analysed. */
  function DerivedServices(record: AdRecord): set<int>
  {
    match Analysis(record)
    case Ok(ServiceIds(ids)) => set s | s in ids
    case _ => {}
  }

  lemma AnalysedViewStep(report: Report, k: nat)
    requires k < |report.records| && AnalysedView(report, k).Ok? && Analysis(report.records[k]).Ok?
    ensures var v := AnalysedView(report, k).value;
      var last := report.records[k];
      AnalysedView(report, k + 1) == Ok(v.(vendor := DerivedVendor(last),
        services := v.services + DerivedServices(last),
        advertisements := v.advertisements + {last}))
  {
  }

  /** Once a block raises, the blocks after it are not looked at. */
  lemma {:induction false} AnalysedViewErrorPersists(report: Report, k: nat, n: nat)
    requires k <= n <= |report.records| && AnalysedView(report, k).Err?
    ensures AnalysedView(report, n) == AnalysedView(report, k)
    decreases n - k
  {
    if k < n {
      AnalysedViewErrorPersists(report, k, n - 1);
    }
  }

  /** The first record whose analysis raises decides the error of the whole fold. */
  lemma {:induction false} AnalysedViewError(report: Report, count: nat)
    requires count <= |report.records|
    requires AnalysedView(report, count).Err?
    ensures exists k :: 0 <= k < count && Analysis(report.records[k]) == Err(AnalysedView(report, count).error)
                     && forall j :: 0 <= j < k ==> Analysis(report.records[j]).Ok?
  {
    if AnalysedView(report, count - 1).Err? {
      AnalysedViewError(report, count - 1);
    } else {
      AnalysedViewOk(report, count - 1);
      assert Analysis(report.records[count - 1]) == Err(AnalysedView(report, count).error);
    }
  }

  /** The registry after one turn of the receive loop of `run`, and what
      that turn registered: nothing for a frame that is not an advertising
      report; an exception, with the registry as it was, when the frame, a
      block or the union raises. */
  datatype Turn = Turn(registry: seq<DeviceView<int>>, outcome: Option<Registration>)

  function Handled(registry: seq<DeviceView<int>>, packet: Bytes): Result<Turn, Error>
  {
    match ParseFrame(packet)
    case Err(e) => Err(e)
    case Ok(None) => Ok(Turn(registry, None))
    case Ok(Some(report)) =>
      match AnalysedView(report, |report.records|)
      case Err(e) => Err(e)
      case Ok(candidate) =>
        match Register(registry, candidate, Matches)
        case Err(e) => Err(e)
        case Ok(registered) => Ok(Turn(registered.registry, Some(registered.outcome)))
  }

  /** The parser: the registry of devices seen so far. */
  class HciParser {
    var registry: seq<Device>

    constructor ()
      ensures registry == []
    {
      registry := [];
    }

    /** The registry holds each Device object once. */
    ghost predicate Valid()
      reads this
    {
      forall i, j :: 0 <= i < j < |registry| ==> registry[i] != registry[j]
    }

    ghost function Views(): (vs: seq<DeviceView<int>>)
      reads this, registry
      ensures |vs| == |registry|
      ensures forall k :: 0 <= k < |registry| ==> vs[k] == registry[k].View()
    {
      seq(|registry|, k reads this, registry requires 0 <= k < |registry| => registry[k].View())
    }

    /** `_parse_packet`: decodes the report from offset 4 of an LE Advertising
        Report event and answers None for every other frame. */
    method ParsePacket(packet: Bytes) returns (r: Result<Option<AdvertisementPacket>, Error>)
      ensures r.Err? <==> ParseFrame(packet).Err?
      ensures r.Err? ==> r.error == ParseFrame(packet).error
      ensures r.Ok? && r.value.None? <==> ParseFrame(packet) == Ok(None)
      ensures r.Ok? && r.value.Some? ==> Describes(r.value.value, ParseFrame(packet).value.value)
      ensures r.Ok? && r.value.Some? ==> Unanalysed(r.value.value.advertisements)
      ensures r.Ok? && r.value.Some? ==> forall j :: 0 <= j < |r.value.value.advertisements| ==> fresh(r.value.value.advertisements[j])
    {
      var isReport := IsAdvertisingReportFrame(packet);
      if isReport.Err? {
        return Err(isReport.error);
      }
      if !isReport.value {
        return Ok(None);
      }
      var advert := Create(packet, 4);
      if advert.Err? {
        return Err(advert.error);
      }
      return Ok(Some(advert.value));
    }

    /** `_find_device`: the index of the first entry the candidate matches. */
    method FindDevice(device: Device) returns (r: Option<nat>)
      ensures r == FirstMatch(Views(), device.View(), Matches)
    {
      var idx := 0;
      while idx < |registry|
        invariant idx <= |registry|
        invariant FirstMatch(Views(), device.View(), Matches) == FirstMatchFrom(Views(), device.View(), Matches, idx)
      {
        if Matches(device.View(), registry[idx].View()) {
          return Some(idx);
        }
        idx := idx + 1;
      }
      return None;
    }

    /** `_register_device`: appends a candidate nothing matches, otherwise
        unites it into the first matching entry. */
    method RegisterDevice(device: Device) returns (r: Result<Registration, Error>)
      requires Valid() && device !in registry
      modifies this, registry
      ensures Valid()
      ensures var spec := Register(old(Views()), old(device.View()), Matches);
        && (r.Ok? <==> spec.Ok?)
        && (r.Ok? ==> r.value == spec.value.outcome && Views() == spec.value.registry)
        && (r.Err? ==> r.error == spec.error && Views() == old(Views()))
    {
      if |registry| == 0 {
        AppendDevice(device);
        return Ok(NewDevice);
      }
      var idx := FindDevice(device);
      if idx.None? {
        AppendDevice(device);
        return Ok(NewDevice);
      }
      var i := idx.value;
      ghost var before := Views();
      var changed := UniteInto(i, device);
      if changed.Err? {
        assert before[i := before[i]] == before;
        return Err(changed.error);
      }
      if changed.value {
        return Ok(DeviceUpdate(i));
      }
      assert before[i := before[i]] == before;
      return Ok(NoUpdate(i));
    }

    /** `self.registry.append(device)`. */
    method AppendDevice(device: Device)
      requires Valid() && device !in registry
      modifies this
      ensures Valid()
      ensures registry == old(registry) + [device]
      ensures Views() == old(Views()) + [device.View()]
    {
      registry := registry + [device];
    }

    /** `self.registry[idx].union(device)`: only entry `i` can change. */
    method UniteInto(i: nat, device: Device) returns (changed: Result<bool, Error>)
      requires Valid() && i < |registry| && device !in registry
      modifies registry[i]
      ensures changed == UnionOutcome(old(Views())[i], old(device.View()))
      ensures Views() == old(Views())[i := AfterUnion(old(Views())[i], old(device.View()))]
    {
      ghost var before := Views();
      changed := registry[i].Union(device);
      assert forall j :: 0 <= j < |registry| && j != i ==> registry[j].View() == before[j];
    }

    /** `_analyse_advert`: analyses every block of the packet and folds it into
        a fresh candidate device. */
    method AnalyseAdvert(advert: AdvertisementPacket, ghost report: Report) returns (r: Result<Device, Error>)
      requires Describes(advert, report)
      requires Unanalysed(advert.advertisements)
      modifies advert.advertisements
      ensures r.Err? <==> AnalysedView(report, |report.records|).Err?
      ensures r.Err? ==> r.error == AnalysedView(report, |report.records|).error
      ensures r.Ok? ==> fresh(r.value) && r.value.View() == AnalysedView(report, |report.records|).value
    {
      var device := new Device(advert.discoveryType, advert.addressType, {advert.address});
      var ads := advert.advertisements;
      assert |ads| == |report.records| && ads[0..] == ads;
      var k := 0;
      while k < |ads|
        invariant k <= |ads|
        invariant AnalysedView(report, k) == Ok(device.View())
        invariant Unanalysed(ads[k..])
        invariant fresh(device)
      {
        assert ads[k].Record() == report.records[k];
        var outcome := FoldBlock(device, ads, report, k);
        if outcome.Fail? {
          assert AnalysedView(report, |ads|) == Err(outcome.error) by {
            AnalysedViewErrorPersists(report, k + 1, |ads|);
          }
          return Err(outcome.error);
        }
        k := k + 1;
      }
      return Ok(device);
    }

    /** The body of the `_analyse_advert` loop: analyse one block and fold it
        into the candidate. */
    method FoldBlock(device: Device, ads: seq<Advertisement>, ghost report: Report, k: nat) returns (outcome: Outcome<Error>)
      requires k < |ads| && k < |report.records| && ads[k].Record() == report.records[k]
      requires AnalysedView(report, k) == Ok(device.View())
      requires Unanalysed(ads[k..])
      modifies device, ads[k]
      ensures outcome.Fail? ==> AnalysedView(report, k + 1) == Err(outcome.error)
      ensures outcome.Pass? ==> AnalysedView(report, k + 1) == Ok(device.View())
      ensures Unanalysed(ads[k + 1..])
    {
      var block := ads[k];
      ghost var rest := ads[k + 1..];
      assert block !in rest && Unanalysed(rest) by {
        assert ads[k..] == [block] + rest;
      }
      ghost var last := report.records[k];
      ghost var before := device.View();
      outcome := block.Analyse();
      if outcome.Fail? {
        return;
      }
      assert block.vendor == DerivedVendor(last) && block.services == DerivedServices(last);
      AnalysedViewStep(report, k);
      device.vendor := block.vendor;
      device.services := device.services + block.services;
      device.advertisements := device.advertisements + {block.Record()};
      assert device.View() == before.(vendor := DerivedVendor(last),
        services := before.services + DerivedServices(last),
        advertisements := before.advertisements + {last});
    }

    /** One turn of the receive loop of `run`: parse the frame, and when it is
        an advertising report, analyse it and register the candidate. */
    method HandlePacket(packet: Bytes) returns (r: Result<Option<Registration>, Error>)
      requires Valid()
      modifies this, registry
      ensures Valid()
      ensures var spec := Handled(old(Views()), packet);
        && (r.Ok? <==> spec.Ok?)
        && (r.Ok? ==> r.value == spec.value.outcome && Views() == spec.value.registry)
        && (r.Err? ==> r.error == spec.error && Views() == old(Views()))
    {
      var advert := ParsePacket(packet);
      if advert.Err? {
        return Err(advert.error);
      }
      if advert.value.None? {
        return Ok(None);
      }
      ghost var report := ParseFrame(packet).value.value;
      var device := AnalyseAdvert(advert.value.value, report);
      if device.Err? {
        return Err(device.error);
      }
      var registration := RegisterDevice(device.value);
      if registration.Err? {
        return Err(registration.error);
      }
      return Ok(Some(registration.value));
    }
  }
}
