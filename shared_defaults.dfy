/** The `Device` constructor of src/btlesniffer/hci_parser.py declares
    `svcs: set = set()` and `ads: Set[Advertisement] = set()`. Python
    evaluates a default once, so every candidate `_analyse_advert` builds
    starts with the same two set objects, and the `|=` and `add` of its loop
    grow those shared objects. A registry entry appended as a new device
    keeps referring to them until a `union` rebinds its fields. This module
    models the parser as written, with that sharing; the rest of the model
    (`HciParser`) gives every candidate fresh sets. */
module SharedDefaults {
  import opened Results
  import opened HciConstants
  import opened AdvertisingReport
  import opened DeviceMerge
  import opened HciParser

  /** A registry entry; when `shared` holds, its services and advertisements
      are the two default set objects and `own`'s are not used. */
  datatype Entry = Entry(own: DeviceView<int>, shared: bool)

  /** The registry and the current contents of the two default sets. */
  datatype AsWritten = AsWritten(registry: seq<Entry>, defaultServices: set<int>, defaultAds: set<AdRecord>)

  /** A parser that has not seen a packet. */
  const Start := AsWritten([], {}, {})

  /** The fields Python reads through an entry. */
  function Seen(e: Entry, services: set<int>, ads: set<AdRecord>): DeviceView<int>
  {
    if e.shared then e.own.(services := services, advertisements := ads) else e.own
  }

  function SeenAll(entries: seq<Entry>, services: set<int>, ads: set<AdRecord>): (vs: seq<DeviceView<int>>)
    ensures |vs| == |entries|
    ensures forall i :: 0 <= i < |entries| ==> vs[i] == Seen(entries[i], services, ads)
  {
    seq(|entries|, i requires 0 <= i < |entries| => Seen(entries[i], services, ads))
  }

  /** The candidate as Python sees it: the analysed fields, with the
      default sets grown by what the report's blocks carry. */
  function Candidate(s: AsWritten, analysed: DeviceView<int>): DeviceView<int>
  {
    analysed.(services := s.defaultServices + analysed.services,
              advertisements := s.defaultAds + analysed.advertisements)
  }

  /** `_analyse_advert` followed by `_register_device`, as written. */
  function HandleReport(s: AsWritten, report: Report): Result<(AsWritten, Registration), Error>
  {
    match AnalysedView(report, |report.records|)
    case Err(e) => Err(e)
    case Ok(analysed) =>
      var candidate := Candidate(s, analysed);
      var services, ads := candidate.services, candidate.advertisements;
      var seen := SeenAll(s.registry, services, ads);
      match Register(seen, candidate, Matches)
      case Err(e) => Err(e)
      case Ok(registered) =>
        match registered.outcome
        case NewDevice => Ok((AsWritten(s.registry + [Entry(analysed, true)], services, ads), NewDevice))
        case DeviceUpdate(i) =>
          Ok((AsWritten(s.registry[i := Entry(Merge(seen[i], candidate), false)], services, ads), DeviceUpdate(i)))
        case NoUpdate(i) => Ok((AsWritten(s.registry, services, ads), NoUpdate(i)))
  }

  /** Through the sharing, what Python sees after a packet is the generic
      registration of the candidate into the entries as the grown default
      sets show them. */
  lemma HandleReportRegisters(s: AsWritten, report: Report)
    requires HandleReport(s, report).Ok?
    ensures var analysed := AnalysedView(report, |report.records|).value;
      var candidate := Candidate(s, analysed);
      var after := HandleReport(s, report).value.0;
      var r := Register(SeenAll(s.registry, candidate.services, candidate.advertisements), candidate, Matches);
      && r.Ok?
      && r.value.outcome == HandleReport(s, report).value.1
      && SeenAll(after.registry, after.defaultServices, after.defaultAds) == r.value.registry
  {
    var analysed := AnalysedView(report, |report.records|).value;
    var candidate := Candidate(s, analysed);
    var seen := SeenAll(s.registry, candidate.services, candidate.advertisements);
    var r := Register(seen, candidate, Matches).value;
    var after := HandleReport(s, report).value.0;
    var now := SeenAll(after.registry, after.defaultServices, after.defaultAds);
    assert |now| == |r.registry|;
    forall i | 0 <= i < |now|
      ensures now[i] == r.registry[i]
    {
      if r.outcome.NewDevice? && i == |s.registry| {
        assert r.registry[i] == candidate;
      }
    }
  }

  /** As written, an entry still holding the default sets is matched by every
      later packet that has a block and carries the entry's vendor: the two
      advertisement sets are one object, so `>=` holds. Such a packet is
      never registered as a new device. */
  lemma SharedEntryAbsorbsSameVendor(s: AsWritten, report: Report, i: nat)
    requires i < |s.registry| && s.registry[i].shared
    requires |report.records| > 0
    requires AnalysedView(report, |report.records|).Ok?
    requires AnalysedView(report, |report.records|).value.vendor.Some?
    requires AnalysedView(report, |report.records|).value.vendor == s.registry[i].own.vendor
    ensures HandleReport(s, report).Err? || !HandleReport(s, report).value.1.NewDevice?
  {
    var n := |report.records|;
    var analysed := AnalysedView(report, n).value;
    var candidate := Candidate(s, analysed);
    var seen := SeenAll(s.registry, candidate.services, candidate.advertisements);
    AnalysedViewAdvertisements(report, n);
    assert report.records[n - 1] in candidate.advertisements;
    assert seen[i].advertisements == candidate.advertisements;
    assert Matches(candidate, seen[i]);
    assert FirstMatch(seen, candidate, Matches).Some?;
  }

  // ---------------------------------------------------------------------
  // Two packets from two Apple devices

  const AddressA: Bytes := [0x00, 0x11, 0x11, 0x11, 0x11, 0x11, 0x11]
  const AddressB: Bytes := [0x00, 0x22, 0x22, 0x22, 0x22, 0x22, 0x22]
  const BlockA := AdRecord(ManufacturerSpecificData, [0x4c, 0x00, 0xde, 0xad])
  const BlockB := AdRecord(ManufacturerSpecificData, [0x4c, 0x00, 0xbe, 0xef])
  const ReportA := Report(ConnectableUndirectedAdvertising, PublicDeviceAddress, AddressA, -50, [BlockA])
  const ReportB := Report(ConnectableUndirectedAdvertising, PublicDeviceAddress, AddressB, -60, [BlockB])

  const CandidateA: DeviceView<int> := DeviceView(ConnectableUndirectedAdvertising, PublicDeviceAddress, {AddressA}, Some(CompanyAppleInc), {}, {BlockA})
  const CandidateB: DeviceView<int> := DeviceView(ConnectableUndirectedAdvertising, PublicDeviceAddress, {AddressB}, Some(CompanyAppleInc), {}, {BlockB})

  /** Each report alone makes an Apple candidate holding its one block. */
  lemma AppleCandidates()
    ensures AnalysedView(ReportA, 1) == Ok(CandidateA)
    ensures AnalysedView(ReportB, 1) == Ok(CandidateB)
  {
    AppleCandidate(ReportA, BlockA, [0xde, 0xad]);
    AppleCandidate(ReportB, BlockB, [0xbe, 0xef]);
  }

  lemma AppleCandidate(report: Report, block: AdRecord, tail: Bytes)
    requires block == AdRecord(ManufacturerSpecificData, [0x4c, 0x00] + tail)
    requires report.records == [block]
    ensures AnalysedView(report, 1) == Ok(DeviceView(report.discoveryType, report.addressType, {report.address}, Some(CompanyAppleInc), {}, {block}))
  {
    assert block.data[0] == 0x4c && block.data[1] == 0x00;
    assert ManufacturerVendor(block.data) == Ok(CompanyAppleInc);
    assert Analysis(block) == Ok(VendorId(CompanyAppleInc));
    assert DerivedVendor(block) == Some(CompanyAppleInc);
    assert DerivedServices(block) == {};
    var v0 := DeviceView(report.discoveryType, report.addressType, {report.address}, None, {}, {});
    assert AnalysedView(report, 0) == Ok(v0);
    assert report.records[0] == block;
    var services: set<int> := {};
    var ads: set<AdRecord> := {};
    assert AnalysedView(report, 1) == Ok(v0.(vendor := Some(CompanyAppleInc), services := services + {}, advertisements := ads + {block}));
    assert services + {} == {} && ads + {block} == {block};
  }

  /** After the first report, the registry's one entry still holds the
      default sets, which now contain the first block. */
  const AfterReportA := AsWritten([Entry(CandidateA, true)], {}, {BlockA})

  lemma FirstApplePacket()
    ensures HandleReport(Start, ReportA) == Ok((AfterReportA, NewDevice))
  {
    AppleCandidates();
    var empty: seq<DeviceView<int>> := [];
    var none: set<int> := {};
    var noAds: set<AdRecord> := {};
    assert Candidate(Start, CandidateA) == CandidateA by {
      assert none + CandidateA.services == CandidateA.services;
      assert noAds + CandidateA.advertisements == CandidateA.advertisements;
    }
    assert SeenAll(Start.registry, {}, {BlockA}) == empty;
    assert FirstMatch(empty, CandidateA, Matches) == None;
    var entries: seq<Entry> := [];
    assert entries + [Entry(CandidateA, true)] == AfterReportA.registry;
  }

  /** As written, the second device is taken for the first: the registry ends
      with one entry holding both addresses. */
  lemma ApplePacketsMergedAsWritten()
    ensures HandleReport(Start, ReportA) == Ok((AfterReportA, NewDevice))
    ensures HandleReport(AfterReportA, ReportB).Ok?
    ensures var second := HandleReport(AfterReportA, ReportB).value;
      && second.1 == DeviceUpdate(0)
      && |second.0.registry| == 1
      && second.0.registry[0].own.addresses == {AddressA, AddressB}
  {
    FirstApplePacket();
    AppleCandidates();
    var candidate := Candidate(AfterReportA, CandidateB);
    var seen := SeenAll(AfterReportA.registry, candidate.services, candidate.advertisements);
    assert seen[0] == CandidateA.(services := candidate.services, advertisements := candidate.advertisements);
    assert AddressA != AddressB by {
      assert AddressA[1] != AddressB[1];
    }
    assert Matches(candidate, seen[0]);
    assert FirstMatch(seen, candidate, Matches) == Some(0);
    assert !Covers(seen[0], candidate) by {
      assert AddressB in candidate.addresses && AddressB !in seen[0].addresses;
    }
  }

  /** With fresh sets for every candidate the second device stays a device of
      its own: the registry ends with two entries. */
  lemma ApplePacketsSeparateWithFreshSets()
    ensures AnalysedView(ReportA, 1) == Ok(CandidateA) && AnalysedView(ReportB, 1) == Ok(CandidateB)
    ensures Register([], CandidateA, Matches) == Ok(Registered([CandidateA], NewDevice))
    ensures Register([CandidateA], CandidateB, Matches) == Ok(Registered([CandidateA, CandidateB], NewDevice))
  {
    AppleCandidates();
    var a, b := CandidateA, CandidateB;
    assert AddressA != AddressB by {
      assert AddressA[1] != AddressB[1];
    }
    assert BlockA != BlockB by {
      assert BlockA.data[2] != BlockB.data[2];
    }
    var empty: seq<DeviceView<int>> := [];
    assert FirstMatch(empty, a, Matches) == None;
    assert empty + [a] == [a];
    assert !Matches(b, a);
    assert FirstMatch([a], b, Matches) == None;
    assert [a] + [b] == [a, b];
  }
}
