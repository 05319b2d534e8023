/** The layout of an HCI LE Advertising Report frame as both parser files
    (src/btlesniffer/hci_parser.py and the older hci_parser.py) decode it:
    the frame classifier, the fixed report header, the AD-structure cursor
    loop and the fields `Advertisement.analyse` derives. Everything here is
    a pure specification; the parser modules' methods are proved against it. */
module AdvertisingReport {
  import opened Results
  import opened HciConstants

  /** Size of the `>BB7sB` report header: discovery type, address type,
      a 7-byte address and the AD-data length. */
  const ReportHeaderSize: nat := 10
  const AddressSize: nat := 7

  /** What an Advertisement is compared and hashed by: its type and its data. */
  datatype AdRecord = AdRecord(adType: AdType, data: Bytes)

  /** The decoded content of one advertising report. */
  datatype Report = Report(
    discoveryType: DiscoveryType,
    addressType: AddressType,
    address: Bytes,
    rssi: int,
    records: seq<AdRecord>)

  // ---------------------------------------------------------------------
  // Frame classifier

  /** The test of `_parse_packet`: byte 0 is the Event packet indicator, byte 1
      the LE Meta event and byte 3 the LE Advertising Report sub-event. Python's
      `and` evaluates left to right, so an index is read only when the bytes
      before it matched, and a missing byte raises IndexError. */
  function IsAdvertisingReportFrame(packet: Bytes): (r: Result<bool, Error>)
    ensures r == Ok(true) <==>
      4 <= |packet| && packet[0] == PacketTypeEvent && packet[1] == EventLe
      && packet[3] == LeEventAdvertisingReport
    ensures r.Err? ==> r.error == IndexError && |packet| < 4
    ensures r.Err? <==>
      |packet| == 0
      || (packet[0] == PacketTypeEvent && (|packet| == 1 || (packet[1] == EventLe && |packet| < 4)))
  {
    if |packet| < 1 then Err(IndexError)
    else if packet[0] != PacketTypeEvent then Ok(false)
    else if |packet| < 2 then Err(IndexError)
    else if packet[1] != EventLe then Ok(false)
    else if |packet| < 4 then Err(IndexError)
    else Ok(packet[3] == LeEventAdvertisingReport)
  }

  // ---------------------------------------------------------------------
  // Byte-level helpers

  /** The `b` format of `struct`: a byte read as a two's-complement signed value. */
  function SignedByte(b: Byte): (v: int)
    ensures -128 <= v < 128
    ensures (v + 256) % 256 == b
  {
    if b < 128 then b else b - 256
  }

  /** Python's `s[lo:hi]` for non-negative bounds: both ends are clamped to
      the length and an empty range gives an empty slice. */
  function PySlice(s: Bytes, lo: nat, hi: nat): (r: Bytes)
    ensures |r| == (if lo < hi && lo < |s| then (if hi < |s| then hi else |s|) - lo else 0)
    ensures forall k :: 0 <= k < |r| ==> r[k] == s[lo + k]
  {
    var h := if hi < |s| then hi else |s|;
    if lo < h then s[lo..h] else []
  }

  // ---------------------------------------------------------------------
  // The AD-structure cursor loop

  /** The records the loop of `AdvertisementPacket.create` produces from cursor
      position `i` on: the length byte is `data[i]`, the type byte `data[i+1]`
      (IndexError when it is missing, ValueError when `AdType` does not list
      it), the payload the clamped slice `data[i+2:i+1+length]`, and the cursor
      then advances by `length + 1`. Any error aborts the whole loop. */
  function AdStructuresFrom(data: Bytes, i: nat): (r: Result<seq<AdRecord>, Error>)
    ensures r.Ok? && i < |data| ==> 0 < |r.value| <= |data| - i
    ensures r.Ok? && |data| <= i ==> r.value == []
    ensures r.Err? ==> r.error in {IndexError, ValueError}
    decreases |data| - i
  {
    if |data| <= i then Ok([])
    else if |data| <= i + 1 then Err(IndexError)
    else
      var length := data[i];
      Cons(AdTypeOf(data[i + 1]), PySlice(data, i + 2, i + 1 + length), AdStructuresFrom(data, i + length + 1))
  }

  /** One turn of the loop: the record made of the decoded type and the
      payload, followed by the records of the rest of the loop; the type's
      error comes first, then the rest's. */
  function Cons(adType: Result<AdType, Error>, payload: Bytes, rest: Result<seq<AdRecord>, Error>): (r: Result<seq<AdRecord>, Error>)
    ensures r.Ok? <==> adType.Ok? && rest.Ok?
    ensures r.Ok? ==> r.value == [AdRecord(adType.value, payload)] + rest.value
    ensures r.Err? ==> r.error == if adType.Err? then adType.error else rest.error
  {
    match adType
    case Err(e) => Err(e)
    case Ok(t) =>
      match rest
      case Err(e) => Err(e)
      case Ok(records) => Ok([AdRecord(t, payload)] + records)
  }

  function AdStructures(data: Bytes): Result<seq<AdRecord>, Error>
  {
    AdStructuresFrom(data, 0)
  }

  /** The records decoded so far followed by whatever the rest of the loop decodes. */
  function Then(prefix: seq<AdRecord>, rest: Result<seq<AdRecord>, Error>): Result<seq<AdRecord>, Error>
  {
    match rest
    case Err(e) => Err(e)
    case Ok(records) => Ok(prefix + records)
  }

  lemma ThenEmpty(rest: Result<seq<AdRecord>, Error>)
    ensures Then([], rest) == rest
  {
    if rest.Ok? {
      assert [] + rest.value == rest.value;
    }
  }

  /** One turn of the loop moves one record from the rest to the prefix. */
  lemma ThenStep(prefix: seq<AdRecord>, data: Bytes, i: nat, record: AdRecord, next: nat)
    requires i + 1 < |data| && AdTypeOf(data[i + 1]).Ok?
    requires record == AdRecord(AdTypeOf(data[i + 1]).value, PySlice(data, i + 2, i + 1 + data[i]))
    requires next == i + data[i] + 1
    ensures Then(prefix, AdStructuresFrom(data, i)) == Then(prefix + [record], AdStructuresFrom(data, next))
  {
    AdStructuresFromStep(data, i, i + 2, i + 1 + data[i], next);
    var rest := AdStructuresFrom(data, next);
    if rest.Ok? {
      assert prefix + ([record] + rest.value) == prefix + [record] + rest.value;
    }
  }


  /** The on-wire form of one AD structure: length (type byte plus payload),
      type, payload. */
  function EncodeAdStructure(record: AdRecord): (b: Bytes)
    requires |record.data| < 255
    ensures |b| == |record.data| + 2
  {
    [|record.data| + 1, record.adType.Code()] + record.data
  }

  predicate Encodable(records: seq<AdRecord>)
  {
    forall k :: 0 <= k < |records| ==> |records[k].data| < 255
  }

  function EncodeAdStructures(records: seq<AdRecord>): Bytes
    requires Encodable(records)
  {
    if records == [] then [] else EncodeAdStructure(records[0]) + EncodeAdStructures(records[1..])
  }

  /** One turn of the loop, unfolded, with the payload bounds `lo`, `hi` and
      the next cursor position `next` named by the caller. */
  lemma AdStructuresFromStep(data: Bytes, i: nat, lo: nat, hi: nat, next: nat)
    requires i + 1 < |data| && lo == i + 2 && hi == i + 1 + data[i] && next == i + data[i] + 1
    ensures AdStructuresFrom(data, i) == Cons(AdTypeOf(data[i + 1]), PySlice(data, lo, hi), AdStructuresFrom(data, next))
  {
  }

  /** The loop started where the encoding of `records` begins decodes exactly
      `records`. */
  lemma {:induction false} AdStructuresDecodeAt(data: Bytes, i: nat, records: seq<AdRecord>)
    requires Encodable(records) && i <= |data| && data[i..] == EncodeAdStructures(records)
    ensures AdStructuresFrom(data, i) == Ok(records)
    decreases |records|
  {
    if records == [] {
      assert |data| <= i by {
        assert |data[i..]| == 0;
      }
    } else {
      var head, rest := records[0], records[1..];
      var length := |head.data| + 1;
      var next := i + length + 1;
      EncodedTurn(data, i, records, length, next);
      AdTypeRoundTrip(head.adType);
      AdStructuresDecodeAt(data, next, rest);
      DecodedTurn(data, i, length, head, next, rest);
      assert [head] + rest == records;
    }
  }

  /** A length byte, a type byte that decodes to `head`'s type, `head`'s
      payload, and then a buffer that decodes to `rest`: together they
      decode to `head` followed by `rest`. */
  lemma DecodedTurn(data: Bytes, i: nat, length: nat, head: AdRecord, next: nat, rest: seq<AdRecord>)
    requires i + 1 < |data| && data[i] == length && next == i + length + 1
    requires AdTypeOf(data[i + 1]) == Ok(head.adType)
    requires PySlice(data, i + 2, i + 1 + length) == head.data
    requires AdStructuresFrom(data, next) == Ok(rest)
    ensures AdStructuresFrom(data, i) == Ok([head] + rest)
  {
    AdStructuresFromStep(data, i, i + 2, i + 1 + length, next);
  }

  /** Where the encoding of a non-empty `records` begins, the buffer holds
      the first record's length and type bytes, then its payload, then the
      encoding of the other records. */
  lemma EncodedTurn(data: Bytes, i: nat, records: seq<AdRecord>, length: nat, next: nat)
    requires Encodable(records) && records != [] && i <= |data| && data[i..] == EncodeAdStructures(records)
    requires length == |records[0].data| + 1 && next == i + length + 1
    ensures i + 1 < |data| && next <= |data|
    ensures data[i] == length && data[i + 1] == records[0].adType.Code()
    ensures PySlice(data, i + 2, i + 1 + length) == records[0].data
    ensures data[next..] == EncodeAdStructures(records[1..])
  {
    var head := EncodeAdStructure(records[0]);
    var tail := EncodeAdStructures(records[1..]);
    assert data[i..] == head + tail;
    assert data[i] == data[i..][0] && data[i + 1] == data[i..][1];
    var payload := PySlice(data, i + 2, i + 1 + length);
    forall k | 0 <= k < |payload|
      ensures payload[k] == records[0].data[k]
    {
      assert payload[k] == data[i..][2 + k] == head[2 + k];
    }
    assert data[next..] == data[i..][|head|..];
  }

  /** N concatenated well-formed AD structures decode to exactly those N
      records, in wire order, each with its payload as data. */
  lemma AdStructuresRoundTrip(records: seq<AdRecord>)
    requires Encodable(records)
    ensures AdStructures(EncodeAdStructures(records)) == Ok(records)
  {
    var data := EncodeAdStructures(records);
    assert data[0..] == data;
    AdStructuresDecodeAt(data, 0, records);
  }


  lemma EmptyAdData()
    ensures AdStructures([]) == Ok([])
  {
  }

  /** A last structure whose length byte runs past the end is not rejected:
      its payload is clamped to the bytes that are there. */
  lemma TruncatedStructureIsClamped()
    ensures AdStructures([5, 0x01, 0x06]) == Ok([AdRecord(Flags, [0x06])])
  {
    var data: Bytes := [5, 0x01, 0x06];
    assert AdTypeOf(0x01) == Ok(Flags);
    assert PySlice(data, 2, 6) == [0x06];
    var expected: seq<AdRecord> := [AdRecord(Flags, [0x06])];
    assert AdStructuresFrom(data, 0).value == expected;
  }

  /** A length byte with no type byte after it makes the loop index past the end. */
  lemma MissingTypeByte()
    ensures AdStructures([0x02, 0x01, 0x06, 0x01]) == Err(IndexError)
  {
    assert AdTypeOf(0x01) == Ok(Flags);
    assert AdStructuresFrom([0x02, 0x01, 0x06, 0x01], 3) == Err(IndexError);
  }

  // ---------------------------------------------------------------------
  // The report decoder

  /** `AdvertisementPacket.create(packet, offset)`: the `>BB7sB` header, the
      enum conversions of its first two bytes, the `>{L}sb` body at
      `offset + 10`, then the AD-structure loop, each failing in this order. */
  function DecodeReport(packet: Bytes, offset: nat): (r: Result<Report, Error>)
    ensures |packet| < offset + ReportHeaderSize ==> r == Err(StructError)
    ensures offset + ReportHeaderSize <= |packet| && (packet[offset] > 0x04 || packet[offset + 1] > 0x04) ==>
      r == Err(ValueError)
    ensures r.Ok? ==>
      var length := packet[offset + 9];
      && offset + ReportHeaderSize + length + 1 <= |packet|
      && r.value.discoveryType.Code() == packet[offset]
      && r.value.addressType.Code() == packet[offset + 1]
      && r.value.address == packet[offset + 2..offset + 9]
      && |r.value.address| == AddressSize
      && AdStructures(packet[offset + 10..offset + 10 + length]) == Ok(r.value.records)
      && r.value.rssi == SignedByte(packet[offset + 10 + length])
    ensures offset + ReportHeaderSize <= |packet| && packet[offset] <= 0x04 && packet[offset + 1] <= 0x04 ==>
      var length := packet[offset + 9];
      (|packet| < offset + ReportHeaderSize + length + 1 ==> r == Err(StructError))
      && (offset + ReportHeaderSize + length + 1 <= |packet| ==>
            (r.Err? <==> AdStructures(packet[offset + 10..offset + 10 + length]).Err?))
      && (offset + ReportHeaderSize + length + 1 <= |packet| && AdStructures(packet[offset + 10..offset + 10 + length]).Err? ==>
            r == Err(AdStructures(packet[offset + 10..offset + 10 + length]).error))
  {
    if |packet| < offset + ReportHeaderSize then Err(StructError)
    else
      match DiscoveryTypeOf(packet[offset])
      case Err(e) => Err(e)
      case Ok(discoveryType) =>
        match AddressTypeOf(packet[offset + 1])
        case Err(e) => Err(e)
        case Ok(addressType) =>
          var length := packet[offset + 9];
          if |packet| < offset + ReportHeaderSize + length + 1 then Err(StructError)
          else
            match AdStructures(packet[offset + 10..offset + 10 + length])
            case Err(e) => Err(e)
            case Ok(records) =>
              Ok(Report(discoveryType, addressType, packet[offset + 2..offset + 9], SignedByte(packet[offset + 10 + length]), records))
  }

  /** `_parse_packet`: a frame that is not an LE Advertising Report gives None;
      one that is is decoded from offset 4. */
  function ParseFrame(packet: Bytes): (r: Result<Option<Report>, Error>)
    ensures r.Ok? && r.value.Some? <==> IsAdvertisingReportFrame(packet) == Ok(true) && DecodeReport(packet, 4).Ok?
    ensures IsAdvertisingReportFrame(packet) == Ok(false) ==> r == Ok(None)
    ensures IsAdvertisingReportFrame(packet).Err? ==> r == Err(IndexError)
    ensures IsAdvertisingReportFrame(packet) == Ok(true) && DecodeReport(packet, 4).Err? ==>
      r == Err(DecodeReport(packet, 4).error)
    ensures r.Ok? && r.value.Some? ==> r.value.value == DecodeReport(packet, 4).value
  {
    match IsAdvertisingReportFrame(packet)
    case Err(e) => Err(e)
    case Ok(false) => Ok(None)
    case Ok(true) =>
      match DecodeReport(packet, 4)
      case Err(e) => Err(e)
      case Ok(report) => Ok(Some(report))
  }

  /** The bytes of one report body laid out as the decoder reads it. */
  function EncodeReport(report: Report): (b: Bytes)
    requires |report.address| == AddressSize && -128 <= report.rssi < 128
    requires Encodable(report.records) && |EncodeAdStructures(report.records)| < 256
  {
    var ads := EncodeAdStructures(report.records);
    [report.discoveryType.Code(), report.addressType.Code()] + report.address + [|ads|]
      + ads + [(report.rssi + 256) % 256]
  }

  /** Decoding a report body laid out at any offset of any buffer gives the report back. */
  lemma DecodeReportRoundTrip(prefix: Bytes, report: Report, suffix: Bytes)
    requires |report.address| == AddressSize && -128 <= report.rssi < 128
    requires Encodable(report.records) && |EncodeAdStructures(report.records)| < 256
    ensures DecodeReport(prefix + EncodeReport(report) + suffix, |prefix|) == Ok(report)
  {
    var packet := prefix + EncodeReport(report) + suffix;
    var ads := EncodeAdStructures(report.records);
    ReportInPacket(prefix, report, suffix, packet, |prefix|, |ads|);
    AdStructuresRoundTrip(report.records);
    DecodeReportAt(packet, |prefix|, ads, report);
  }

  /** A packet laid out as `report` encodes, from `offset` on, decodes to it. */
  lemma DecodeReportAt(packet: Bytes, offset: nat, ads: Bytes, report: Report)
    requires offset + ReportHeaderSize + |ads| + 1 <= |packet|
    requires packet[offset] == report.discoveryType.Code() && packet[offset + 1] == report.addressType.Code()
    requires packet[offset + 9] == |ads|
    requires packet[offset + 2..offset + 9] == report.address
    requires packet[offset + 10..offset + 10 + |ads|] == ads && AdStructures(ads) == Ok(report.records)
    requires SignedByte(packet[offset + 10 + |ads|]) == report.rssi
    ensures DecodeReport(packet, offset) == Ok(report)
  {
    assert DiscoveryTypeOf(packet[offset]) == Ok(report.discoveryType);
    assert AddressTypeOf(packet[offset + 1]) == Ok(report.addressType);
  }

  /** Where an encoded report sits in a packet, at offset `offset`. */
  lemma ReportInPacket(prefix: Bytes, report: Report, suffix: Bytes, packet: Bytes, offset: nat, length: nat)
    requires |report.address| == AddressSize && -128 <= report.rssi < 128
    requires Encodable(report.records) && |EncodeAdStructures(report.records)| < 256
    requires packet == prefix + EncodeReport(report) + suffix && offset == |prefix|
    requires length == |EncodeAdStructures(report.records)|
    ensures offset + ReportHeaderSize + length + 1 <= |packet|
    ensures packet[offset] == report.discoveryType.Code() && packet[offset + 1] == report.addressType.Code()
    ensures packet[offset + 9] == length
    ensures packet[offset + 2..offset + 9] == report.address
    ensures packet[offset + 10..offset + 10 + length] == EncodeAdStructures(report.records)
    ensures SignedByte(packet[offset + 10 + length]) == report.rssi
  {
    var body := EncodeReport(report);
    EncodeReportLayout(report);
    assert packet[offset..offset + |body|] == body;
    assert packet[offset + 9] == body[9];
    assert packet[offset + 2..offset + 9] == body[2..9];
    assert packet[offset + 10..offset + 10 + length] == body[10..10 + length];
    assert packet[offset + 10 + length] == body[10 + length];
  }


  lemma EncodeReportLayout(report: Report)
    requires |report.address| == AddressSize && -128 <= report.rssi < 128
    requires Encodable(report.records) && |EncodeAdStructures(report.records)| < 256
    ensures var ads := EncodeAdStructures(report.records);
      var body := EncodeReport(report);
      && |body| == 11 + |ads|
      && body[0] == report.discoveryType.Code()
      && body[1] == report.addressType.Code()
      && body[2..9] == report.address
      && body[9] == |ads|
      && body[10..10 + |ads|] == ads
      && SignedByte(body[10 + |ads|]) == report.rssi
  {
  }

  /** A frame with the Event, LE Meta and LE Advertising Report codes in bytes
      0, 1 and 3 carries the report laid out from byte 4. */
  lemma ParseFrameRoundTrip(parameterLength: Byte, report: Report)
    requires |report.address| == AddressSize && -128 <= report.rssi < 128
    requires Encodable(report.records) && |EncodeAdStructures(report.records)| < 256
    ensures ParseFrame([PacketTypeEvent, EventLe, parameterLength, LeEventAdvertisingReport] + EncodeReport(report))
      == Ok(Some(report))
  {
    var header: Bytes := [PacketTypeEvent, EventLe, parameterLength, LeEventAdvertisingReport];
    DecodeReportRoundTrip(header, report, []);
    assert header + EncodeReport(report) + [] == header + EncodeReport(report);
  }

  /** Section 7.7.65.2 of the Bluetooth Core Specification (Volume 4, Part E)
      puts Num_Reports first and a 6-byte address after the event and address
      types. Decoding such a single-report body with the 7-byte-address header
      reads Num_Reports (1) as the discovery type, the event type as the
      address type, and the address type byte followed by the 6 address bytes
      as the address; the AD data and RSSI still line up. */
  lemma StandardSingleReportLayout(eventType: Byte, addressType: Byte, address: Bytes, records: seq<AdRecord>, rssi: Byte)
    requires |address| == 6 && eventType <= 0x04
    requires Encodable(records) && |EncodeAdStructures(records)| < 256
    ensures
      var ads := EncodeAdStructures(records);
      var body := [1, eventType, addressType] + address + [|ads|] + ads + [rssi];
      DecodeReport(body, 0) == Ok(Report(
        ConnectableDirectedAdvertising,
        AddressTypeOf(eventType).value,
        [addressType] + address,
        SignedByte(rssi),
        records))
  {
    var ads := EncodeAdStructures(records);
    var body := [1, eventType, addressType] + address + [|ads|] + ads + [rssi];
    assert body[2..9] == [addressType] + address;
    assert body[9] == |ads|;
    assert body[10..10 + |ads|] == ads;
    assert body[10 + |ads|] == rssi;
    AdStructuresRoundTrip(records);
  }

  /** The frame 04 3E 0C 02 00 00 AA BB CC DD EE FF 03 02 01 06 CE read with
      the 7-byte address: the address swallows the 0x03 meant as the AD
      length, the AD data is 01 06, which is one structure of length 1 and
      type 0x06 with an empty payload, and the RSSI is -50. */
  lemma SixByteAddressFrameExample()
    ensures ParseFrame([0x04, 0x3e, 0x0c, 0x02, 0x00, 0x00, 0xaa, 0xbb, 0xcc, 0xdd, 0xee, 0xff, 0x03, 0x02, 0x01, 0x06, 0xce])
      == Ok(Some(Report(
           ConnectableUndirectedAdvertising,
           PublicDeviceAddress,
           [0xaa, 0xbb, 0xcc, 0xdd, 0xee, 0xff, 0x03],
           -50,
           [AdRecord(IncompleteListOf128BitServiceClassUUIDs, [])])))
  {
    var frame: Bytes := [0x04, 0x3e, 0x0c, 0x02, 0x00, 0x00, 0xaa, 0xbb, 0xcc, 0xdd, 0xee, 0xff, 0x03, 0x02, 0x01, 0x06, 0xce];
    var ads: Bytes := [0x01, 0x06];
    assert frame[14..16] == ads;
    assert AdTypeOf(0x06) == Ok(IncompleteListOf128BitServiceClassUUIDs);
    assert PySlice(ads, 2, 2) == [];
    var records: seq<AdRecord> := [AdRecord(IncompleteListOf128BitServiceClassUUIDs, [])];
    assert AdStructuresFrom(ads, 2) == Ok([]);
    assert AdStructures(ads).value == records;
    assert frame[6..13] == [0xaa, 0xbb, 0xcc, 0xdd, 0xee, 0xff, 0x03];
  }

  // ---------------------------------------------------------------------
  // Field derivation of Advertisement.analyse

  /** What `analyse` derives from one record. */
  datatype Derived = VendorId(id: int) | ServiceIds(ids: seq<int>) | NothingDerived

  function LeU16(lo: Byte, hi: Byte): (v: int)
    ensures 0 <= v < 0x1_0000
  {
    lo + 256 * hi
  }

  /** `struct.unpack("<H{}s".format(len(data) - 2), data)` followed by
      `CompanyId(vendor)`: fewer than two bytes make the format invalid. */
  function ManufacturerVendor(data: Bytes): (r: Result<int, Error>)
    ensures |data| < 2 ==> r == Err(StructError)
    ensures r.Ok? <==> 2 <= |data| && IsCompanyId(LeU16(data[0], data[1]))
    ensures r.Ok? ==> r.value == LeU16(data[0], data[1])
    ensures 2 <= |data| && !IsCompanyId(LeU16(data[0], data[1])) ==> r == Err(ValueError)
  {
    if |data| < 2 then Err(StructError) else CompanyIdOf(LeU16(data[0], data[1]))
  }

  /** `struct.unpack("<{}H".format(len(data) // 2), data)`: raises unless the
      data is exactly that many little-endian 16-bit values. */
  function ServiceIdList(data: Bytes): (r: Result<seq<int>, Error>)
    ensures r.Ok? <==> |data| % 2 == 0
    ensures r.Err? ==> r.error == StructError
    ensures r.Ok? ==> |r.value| == |data| / 2
    ensures r.Ok? ==> forall k :: 0 <= k < |r.value| ==> r.value[k] == LeU16(data[2 * k], data[2 * k + 1])
  {
    if |data| % 2 != 0 then Err(StructError)
    else Ok(LeU16s(data))
  }

  /** The little-endian 16-bit values of an even-length byte string, in order. */
  function LeU16s(data: Bytes): (ids: seq<int>)
    requires |data| % 2 == 0
    ensures |ids| == |data| / 2
    ensures forall k :: 0 <= k < |ids| ==> ids[k] == LeU16(data[2 * k], data[2 * k + 1])
    decreases |data|
  {
    if |data| == 0 then [] else [LeU16(data[0], data[1])] + LeU16s(data[2..])
  }

  predicate IsServiceListType(t: AdType)
  {
    t == CompleteListOf16BitServiceClassUUIDs || t == IncompleteListOf16BitServiceClassUUIDs
  }

  /** `Advertisement.analyse`: a vendor for manufacturer-specific data, a list of
      16-bit service identifiers for the two 16-bit service list types, and
      nothing for every other type. */
  function Analysis(record: AdRecord): (r: Result<Derived, Error>)
    ensures r.Ok? && r.value.VendorId? ==> record.adType == ManufacturerSpecificData
    ensures r.Ok? && r.value.ServiceIds? ==> IsServiceListType(record.adType)
    ensures record.adType != ManufacturerSpecificData && !IsServiceListType(record.adType) ==> r == Ok(NothingDerived)
    ensures record.adType == ManufacturerSpecificData ==>
      && (r.Ok? <==> 2 <= |record.data| && IsCompanyId(LeU16(record.data[0], record.data[1])))
      && (r.Ok? ==> r.value == VendorId(LeU16(record.data[0], record.data[1])))
      && (r.Err? ==> r.error == (if |record.data| < 2 then StructError else ValueError))
    ensures IsServiceListType(record.adType) ==>
      && (r.Ok? <==> |record.data| % 2 == 0)
      && (r.Ok? ==> r.value.ServiceIds? && |r.value.ids| == |record.data| / 2)
      && (r.Ok? ==> forall k :: 0 <= k < |r.value.ids| ==> r.value.ids[k] == LeU16(record.data[2 * k], record.data[2 * k + 1]))
      && (r.Err? ==> r.error == StructError)
  {
    if record.adType == ManufacturerSpecificData then
      match ManufacturerVendor(record.data)
      case Err(e) => Err(e)
      case Ok(id) => Ok(VendorId(id))
    else if IsServiceListType(record.adType) then
      match ServiceIdList(record.data)
      case Err(e) => Err(e)
      case Ok(ids) => Ok(ServiceIds(ids))
    else Ok(NothingDerived)
  }

  /** The little-endian bytes of a list of 16-bit identifiers. */
  function EncodeServiceIds(ids: seq<int>): (b: Bytes)
    requires forall k :: 0 <= k < |ids| ==> 0 <= ids[k] < 0x1_0000
    ensures |b| == 2 * |ids|
  {
    if ids == [] then [] else [ids[0] % 256, ids[0] / 256] + EncodeServiceIds(ids[1..])
  }

  /** A 16-bit service list record decodes back to the identifiers it was built from. */
  lemma {:induction false} ServiceIdListRoundTrip(ids: seq<int>)
    requires forall k :: 0 <= k < |ids| ==> 0 <= ids[k] < 0x1_0000
    ensures ServiceIdList(EncodeServiceIds(ids)) == Ok(ids)
  {
    if ids != [] {
      var b := EncodeServiceIds(ids);
      assert b[2..] == EncodeServiceIds(ids[1..]);
      ServiceIdListRoundTrip(ids[1..]);
      assert LeU16(b[0], b[1]) == ids[0];
      assert [ids[0]] + ids[1..] == ids;
    }
  }

  /** Manufacturer data 4C 00 DE AD names company 0x004C (Apple). */
  lemma ManufacturerExample()
    ensures Analysis(AdRecord(ManufacturerSpecificData, [0x4c, 0x00, 0xde, 0xad])) == Ok(VendorId(CompanyAppleInc))
  {
  }

  /** A complete 16-bit service list 0D 18 0F 18 names services 0x180D and 0x180F. */
  lemma ServiceListExample()
    ensures Analysis(AdRecord(CompleteListOf16BitServiceClassUUIDs, [0x0d, 0x18, 0x0f, 0x18]))
      == Ok(ServiceIds([0x180d, 0x180f]))
  {
    var r := ServiceIdList([0x0d, 0x18, 0x0f, 0x18]);
    var expected: seq<int> := [0x180d, 0x180f];
    assert r.value == expected;
  }
}
