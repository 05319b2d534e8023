/** The HCI codes the advertising-report decoder relies on, the enum code
    sets that decide which wire codes decode without raising, and the
    UUID-to-name lookup. */
module HciConstants {
  import opened Results

  /** One octet of an HCI buffer. */
  type Byte = x: int | 0 <= x < 256

  /** A Python `bytes` value. */
  type Bytes = seq<Byte>

  /** Receive bound of the discovery loop's socket read. */
  const HciMaxEventSize: nat := 260

  /** `PacketType.Event`: the HCI packet indicator of an event packet. */
  const PacketTypeEvent: Byte := 0x04
  /** `Event.Le`: the LE Meta event code. */
  const EventLe: Byte := 0x3e
  /** `LeEvent.LeAdvertisingReport`: the LE Advertising Report sub-event code. */
  const LeEventAdvertisingReport: Byte := 0x02

  /** `DiscoveryType`: the advertising event kind of a report. */
  datatype DiscoveryType =
    | ConnectableUndirectedAdvertising
    | ConnectableDirectedAdvertising
    | ScannableUndirectedAdvertising
    | NonConnectableUndirectedAdvertising
    | ScanResponse
  {
    function Code(): Byte
    {
      match this
      case ConnectableUndirectedAdvertising => 0x00
      case ConnectableDirectedAdvertising => 0x01
      case ScannableUndirectedAdvertising => 0x02
      case NonConnectableUndirectedAdvertising => 0x03
      case ScanResponse => 0x04
    }
  }

  /** `DiscoveryType(code)`: raises ValueError for a code the enum does not list. */
  function DiscoveryTypeOf(code: Byte): (r: Result<DiscoveryType, Error>)
    ensures r.Ok? <==> code <= 0x04
    ensures r.Ok? ==> r.value.Code() == code
    ensures r.Err? ==> r.error == ValueError
  {
    match code
    case 0x00 => Ok(ConnectableUndirectedAdvertising)
    case 0x01 => Ok(ConnectableDirectedAdvertising)
    case 0x02 => Ok(ScannableUndirectedAdvertising)
    case 0x03 => Ok(NonConnectableUndirectedAdvertising)
    case 0x04 => Ok(ScanResponse)
    case _ => Err(ValueError)
  }

  /** `AddressType`: the kind of device address in a report. */
  datatype AddressType =
    | PublicDeviceAddress
    | RandomDeviceAddress
    | PublicIdentityAddress
    | RandomIdentityAddress
    | UnknownAddressType
  {
    function Code(): Byte
    {
      match this
      case PublicDeviceAddress => 0x00
      case RandomDeviceAddress => 0x01
      case PublicIdentityAddress => 0x02
      case RandomIdentityAddress => 0x03
      case UnknownAddressType => 0x04
    }
  }

  /** `AddressType(code)`: raises ValueError for a code the enum does not list. */
  function AddressTypeOf(code: Byte): (r: Result<AddressType, Error>)
    ensures r.Ok? <==> code <= 0x04
    ensures r.Ok? ==> r.value.Code() == code
    ensures r.Err? ==> r.error == ValueError
  {
    match code
    case 0x00 => Ok(PublicDeviceAddress)
    case 0x01 => Ok(RandomDeviceAddress)
    case 0x02 => Ok(PublicIdentityAddress)
    case 0x03 => Ok(RandomIdentityAddress)
    case 0x04 => Ok(UnknownAddressType)
    case _ => Err(ValueError)
  }

  /** `AdType`: the type tag of an AD structure. */
  datatype AdType =
    | Flags
    | IncompleteListOf16BitServiceClassUUIDs
    | CompleteListOf16BitServiceClassUUIDs
    | IncompleteListOf32BitServiceClassUUIDs
    | CompleteListOf32BitServiceClassUUIDs
    | IncompleteListOf128BitServiceClassUUIDs
    | CompleteListOf128BitServiceClassUUIDs
    | ShortenedLocalName
    | CompleteLocalName
    | TxPowerLevel
    | ClassOfDevice
    | SimplePairingHashC192
    | SimplePairingRandomizerR192
    | SecurityManagerTKValue
    | SecurityManagerOutOfBandFlags
    | SlaveConnectionIntervalRange
    | ListOf16BitServiceSolicitationUUIDs
    | ListOf32BitServiceSolicitationUUIDs
    | ListOf128BitServiceSolicitationUUIDs
    | ServiceData16BitUUID
    | ServiceData32BitUUID
    | ServiceData128BitUUID
    | LeSecureConnectionsConfirmationValue
    | LeSecureConnectionsRandomValue
    | URI
    | IndoorPositioning
    | TransportDiscoveryData
    | PublicTargetAddress
    | RandomTargetAddress
    | Appearance
    | AdvertisingInterval
    | LeBluetoothDeviceAddress
    | LeRole
    | SimplePairingHashC256
    | SimplePairingRandomizerR256
    | InformationData
    | ManufacturerSpecificData
  {
    function Code(): Byte
    {
      match this
      case Flags => 0x01
      case IncompleteListOf16BitServiceClassUUIDs => 0x02
      case CompleteListOf16BitServiceClassUUIDs => 0x03
      case IncompleteListOf32BitServiceClassUUIDs => 0x04
      case CompleteListOf32BitServiceClassUUIDs => 0x05
      case IncompleteListOf128BitServiceClassUUIDs => 0x06
      case CompleteListOf128BitServiceClassUUIDs => 0x07
      case ShortenedLocalName => 0x08
      case CompleteLocalName => 0x09
      case TxPowerLevel => 0x0a
      case ClassOfDevice => 0x0d
      case SimplePairingHashC192 => 0x0e
      case SimplePairingRandomizerR192 => 0x0f
      case SecurityManagerTKValue => 0x10
      case SecurityManagerOutOfBandFlags => 0x11
      case SlaveConnectionIntervalRange => 0x12
      case ListOf16BitServiceSolicitationUUIDs => 0x14
      case ListOf32BitServiceSolicitationUUIDs => 0x1f
      case ListOf128BitServiceSolicitationUUIDs => 0x15
      case ServiceData16BitUUID => 0x16
      case ServiceData32BitUUID => 0x20
      case ServiceData128BitUUID => 0x21
      case LeSecureConnectionsConfirmationValue => 0x22
      case LeSecureConnectionsRandomValue => 0x23
      case URI => 0x24
      case IndoorPositioning => 0x25
      case TransportDiscoveryData => 0x26
      case PublicTargetAddress => 0x17
      case RandomTargetAddress => 0x18
      case Appearance => 0x19
      case AdvertisingInterval => 0x1a
      case LeBluetoothDeviceAddress => 0x1b
      case LeRole => 0x1c
      case SimplePairingHashC256 => 0x1d
      case SimplePairingRandomizerR256 => 0x1e
      case InformationData => 0x3d
      case ManufacturerSpecificData => 0xff
    }
  }

  /** The codes `AdType` lists: 0x01-0x0a, 0x0d-0x12, 0x14-0x26, 0x3d and 0xff. */
  predicate IsAdTypeCode(code: int)
  {
    (0x01 <= code <= 0x0a) || (0x0d <= code <= 0x12) || (0x14 <= code <= 0x26)
    || code == 0x3d || code == 0xff
  }

  /** The member of `AdType` a listed code names. */
  function AdTypeMember(code: Byte): (t: AdType)
    requires IsAdTypeCode(code)
    ensures t.Code() == code
  {
    if code <= 0x08 then AdTypeMember1(code)
    else if code <= 0x12 then AdTypeMember2(code)
    else if code <= 0x1b then AdTypeMember3(code)
    else if code <= 0x23 then AdTypeMember4(code)
    else AdTypeMember5(code)
  }

  function AdTypeMember1(code: Byte): (t: AdType)
    requires IsAdTypeCode(code) && 0x01 <= code <= 0x08
    ensures t.Code() == code
  {
    if code == 0x01 then Flags
    else if code == 0x02 then IncompleteListOf16BitServiceClassUUIDs
    else if code == 0x03 then CompleteListOf16BitServiceClassUUIDs
    else if code == 0x04 then IncompleteListOf32BitServiceClassUUIDs
    else if code == 0x05 then CompleteListOf32BitServiceClassUUIDs
    else if code == 0x06 then IncompleteListOf128BitServiceClassUUIDs
    else if code == 0x07 then CompleteListOf128BitServiceClassUUIDs
    else ShortenedLocalName
  }

  function AdTypeMember2(code: Byte): (t: AdType)
    requires IsAdTypeCode(code) && 0x09 <= code <= 0x12
    ensures t.Code() == code
  {
    if code == 0x09 then CompleteLocalName
    else if code == 0x0a then TxPowerLevel
    else if code == 0x0d then ClassOfDevice
    else if code == 0x0e then SimplePairingHashC192
    else if code == 0x0f then SimplePairingRandomizerR192
    else if code == 0x10 then SecurityManagerTKValue
    else if code == 0x11 then SecurityManagerOutOfBandFlags
    else SlaveConnectionIntervalRange
  }

  function AdTypeMember3(code: Byte): (t: AdType)
    requires IsAdTypeCode(code) && 0x14 <= code <= 0x1b
    ensures t.Code() == code
  {
    if code == 0x14 then ListOf16BitServiceSolicitationUUIDs
    else if code == 0x15 then ListOf128BitServiceSolicitationUUIDs
    else if code == 0x16 then ServiceData16BitUUID
    else if code == 0x17 then PublicTargetAddress
    else if code == 0x18 then RandomTargetAddress
    else if code == 0x19 then Appearance
    else if code == 0x1a then AdvertisingInterval
    else LeBluetoothDeviceAddress
  }

  function AdTypeMember4(code: Byte): (t: AdType)
    requires IsAdTypeCode(code) && 0x1c <= code <= 0x23
    ensures t.Code() == code
  {
    if code == 0x1c then LeRole
    else if code == 0x1d then SimplePairingHashC256
    else if code == 0x1e then SimplePairingRandomizerR256
    else if code == 0x1f then ListOf32BitServiceSolicitationUUIDs
    else if code == 0x20 then ServiceData32BitUUID
    else if code == 0x21 then ServiceData128BitUUID
    else if code == 0x22 then LeSecureConnectionsConfirmationValue
    else LeSecureConnectionsRandomValue
  }

  function AdTypeMember5(code: Byte): (t: AdType)
    requires IsAdTypeCode(code) && 0x24 <= code <= 0xff
    ensures t.Code() == code
  {
    if code == 0x24 then URI
    else if code == 0x25 then IndoorPositioning
    else if code == 0x26 then TransportDiscoveryData
    else if code == 0x3d then InformationData
    else ManufacturerSpecificData
  }

  /** `AdType(code)`: raises ValueError for a code the enum does not list. */
  function AdTypeOf(code: Byte): (r: Result<AdType, Error>)
    ensures r.Ok? <==> IsAdTypeCode(code)
    ensures r.Ok? ==> r.value.Code() == code
    ensures r.Err? ==> r.error == ValueError
  {
    if IsAdTypeCode(code) then Ok(AdTypeMember(code)) else Err(ValueError)
  }

  /** Every listed code decodes back to its own member, so the codes of
      `AdType` are pairwise distinct. */
  lemma AdTypeCodeInjective(a: AdType, b: AdType)
    ensures a.Code() == b.Code() ==> a == b
  {
    AdTypeRoundTrip(a);
    AdTypeRoundTrip(b);
  }

  lemma AdTypeRoundTrip(t: AdType)
    ensures IsAdTypeCode(t.Code()) && AdTypeOf(t.Code()) == Ok(t)
  {
    var code := t.Code();
    if code <= 0x08 {
      MemberRoundTrip1(t);
    } else if code <= 0x12 {
      MemberRoundTrip2(t);
    } else if code <= 0x1b {
      MemberRoundTrip3(t);
    } else if code <= 0x23 {
      MemberRoundTrip4(t);
    } else {
      MemberRoundTrip5(t);
    }
  }

  lemma MemberRoundTrip1(t: AdType)
    requires t.Code() <= 0x08
    ensures IsAdTypeCode(t.Code()) && 0x01 <= t.Code() && AdTypeMember1(t.Code()) == t
  {
  }

  lemma MemberRoundTrip2(t: AdType)
    requires 0x08 < t.Code() <= 0x12
    ensures IsAdTypeCode(t.Code()) && AdTypeMember2(t.Code()) == t
  {
  }

  lemma MemberRoundTrip3(t: AdType)
    requires 0x12 < t.Code() <= 0x1b
    ensures IsAdTypeCode(t.Code()) && AdTypeMember3(t.Code()) == t
  {
  }

  lemma MemberRoundTrip4(t: AdType)
    requires 0x1b < t.Code() <= 0x23
    ensures IsAdTypeCode(t.Code()) && AdTypeMember4(t.Code()) == t
  {
  }

  lemma MemberRoundTrip5(t: AdType)
    requires 0x23 < t.Code()
    ensures IsAdTypeCode(t.Code()) && AdTypeMember5(t.Code()) == t
  {
  }

  /** `CompanyId`: the listed company identifiers are every value from 0x0000
      to 0x0355 except 0x013d, plus 0xffff (RESERVED). */
  predicate IsCompanyId(id: int)
  {
    (0x0000 <= id <= 0x013c) || (0x013e <= id <= 0x0355) || id == 0xffff
  }

  const CompanyMicrosoft: int := 0x0006
  const CompanyAppleInc: int := 0x004c
  const CompanyReserved: int := 0xffff

  /** `CompanyId(id)`: raises ValueError for an identifier the enum does not list. */
  function CompanyIdOf(id: int): (r: Result<int, Error>)
    ensures r.Ok? <==> IsCompanyId(id)
    ensures r.Ok? ==> r.value == id
    ensures r.Err? ==> r.error == ValueError
  {
    if IsCompanyId(id) then Ok(id) else Err(ValueError)
  }

  lemma CompanyIdSamples()
    ensures IsCompanyId(CompanyAppleInc) && IsCompanyId(CompanyMicrosoft) && IsCompanyId(CompanyReserved)
    ensures !IsCompanyId(0x013d) && !IsCompanyId(0x0356) && !IsCompanyId(0xfffe)
  {
  }

  // ---------------------------------------------------------------------
  // uuid_to_string

  /** A few entries of `ALL_128BIT_UUIDS`, the table of full 128-bit UUID strings. */
  const All128BitUuids: map<string, string> := map[
    "a3c87500-8ed3-4bdf-8a39-a01bebede295" := "Eddystone Configuration Service",
    "6e400001-b5a3-f393-e0a9-e50e24dcca9e" := "Nordic UART Service",
    "e95d93af-251d-470a-a062-fa1922dfa9a8" := "MicroBit Event Service"
  ]

  /** A few entries of `ALL_16BIT_UUIDS`, the table of 16-bit assigned numbers. */
  const All16BitUuids: map<int, string> := map[
    0x0001 := "SDP",
    0x180d := "Heart Rate",
    0x180f := "Battery Service",
    0xfffe := "Alliance for Wireless Power (A4WP)"
  ]

  /** The tail shared by every UUID derived from the Bluetooth Base UUID
      (Bluetooth Core Specification, Volume 3, Part B, section 2.5.1). */
  const BaseUuidSuffix: string := "-0000-1000-8000-00805f9b34fb"

  predicate EndsWith(s: string, suffix: string)
  {
    |suffix| <= |s| && s[|s| - |suffix|..] == suffix
  }

  predicate IsHexDigit(c: char)
  {
    ('0' <= c <= '9') || ('a' <= c <= 'f') || ('A' <= c <= 'F')
  }

  function HexDigitValue(c: char): (v: nat)
    requires IsHexDigit(c)
    ensures v < 16
  {
    if '0' <= c <= '9' then c as int - '0' as int
    else if 'a' <= c <= 'f' then c as int - 'a' as int + 10
    else c as int - 'A' as int + 10
  }

  /** `int(s, 16)` on a string of hex digits; None where Python raises ValueError. */
  function ParseHex(s: string): (r: Option<nat>)
    ensures r.Some? <==> |s| > 0 && forall i :: 0 <= i < |s| ==> IsHexDigit(s[i])
  {
    if |s| == 0 || !IsHexDigit(s[|s| - 1]) then None
    else if |s| == 1 then Some(HexDigitValue(s[0]))
    else
      match ParseHex(s[..|s| - 1])
      case None => None
      case Some(v) => Some(16 * v + HexDigitValue(s[|s| - 1]))
  }

  /** `uuid_to_string`: the name of a GATT service or characteristic. */
  function UuidToString(uuid: string): (r: Result<Option<string>, Error>)
    ensures |uuid| != 36 ==> r == Err(ValueError)
    ensures |uuid| == 36 && uuid in All128BitUuids ==> r == Ok(Some(All128BitUuids[uuid]))
    ensures |uuid| == 36 && uuid !in All128BitUuids && !EndsWith(uuid, BaseUuidSuffix) ==> r == Ok(None)
    ensures |uuid| == 36 && uuid !in All128BitUuids && EndsWith(uuid, BaseUuidSuffix) ==>
      (r.Err? <==> ParseHex(uuid[..8]).None?)
    ensures r.Err? ==> r.error == ValueError
    ensures r.Ok? && r.value.Some? ==> r.value.value in All128BitUuids.Values + All16BitUuids.Values
  {
    if |uuid| != 36 then Err(ValueError)
    else if uuid in All128BitUuids then Ok(Some(All128BitUuids[uuid]))
    else if EndsWith(uuid, BaseUuidSuffix) then
      match ParseHex(uuid[..8])
      case None => Err(ValueError)
      case Some(id) => Ok(if id in All16BitUuids then Some(All16BitUuids[id]) else None)
    else Ok(None)
  }

  function Pow16(n: nat): nat
  {
    if n == 0 then 1 else 16 * Pow16(n - 1)
  }

  function HexDigit(d: nat): (c: char)
    requires d < 16
    ensures IsHexDigit(c) && HexDigitValue(c) == d
  {
    if d < 10 then ('0' as int + d) as char else ('a' as int + d - 10) as char
  }

  /** The `n` lower-case hex digits of `v`, most significant first. */
  function HexFixed(v: nat, n: nat): (s: string)
    requires v < Pow16(n)
    ensures |s| == n
  {
    if n == 0 then "" else HexFixed(v / 16, n - 1) + [HexDigit(v % 16)]
  }

  /** The 128-bit UUID string of a 32-bit alias on the Bluetooth Base UUID. */
  function BaseUuid(alias: nat): string
    requires alias < Pow16(8)
  {
    HexFixed(alias, 8) + BaseUuidSuffix
  }

  lemma {:induction false} ParseHexFixed(v: nat, n: nat)
    requires 0 < n && v < Pow16(n)
    ensures ParseHex(HexFixed(v, n)) == Some(v)
  {
    var s := HexFixed(v, n);
    assert s[..n - 1] == HexFixed(v / 16, n - 1);
    if n > 1 {
      ParseHexFixed(v / 16, n - 1);
    }
  }

  /** A UUID on the Bluetooth Base UUID that the 128-bit table does not name
      resolves to its alias' entry in the 16-bit table, or to None. */
  lemma BaseUuidLookup(alias: nat)
    requires alias < Pow16(8) && BaseUuid(alias) !in All128BitUuids
    ensures UuidToString(BaseUuid(alias)) ==
      Ok(if alias in All16BitUuids then Some(All16BitUuids[alias]) else None)
  {
    var u := BaseUuid(alias);
    assert u[..8] == HexFixed(alias, 8);
    assert u[|u| - |BaseUuidSuffix|..] == BaseUuidSuffix;
    ParseHexFixed(alias, 8);
  }

  /** Every value `ParseHex` reads from `n` digits is below 16^n. */
  lemma {:induction false} ParseHexBound(s: string)
    requires ParseHex(s).Some?
    ensures ParseHex(s).value < Pow16(|s|)
  {
    if |s| > 1 {
      ParseHexBound(s[..|s| - 1]);
    }
  }

  /** No key of the 128-bit table lies on the Bluetooth Base UUID. */
  lemma No128BitKeyOnBase(uuid: string)
    requires uuid in All128BitUuids
    ensures !EndsWith(uuid, BaseUuidSuffix)
  {
    assert BaseUuidSuffix[|BaseUuidSuffix| - 1] == 'b';
  }

  /** Whatever spelling `int(uuid[:8], 16)` accepts, a UUID on the Base
      suffix resolves as the canonical spelling of the alias it reads:
      to the alias' entry in the 16-bit table, or to None. */
  lemma AnySpellingOfAlias(uuid: string, alias: nat)
    requires |uuid| == 36 && EndsWith(uuid, BaseUuidSuffix) && ParseHex(uuid[..8]) == Some(alias)
    ensures alias < Pow16(8)
    ensures UuidToString(uuid) == UuidToString(BaseUuid(alias))
    ensures UuidToString(uuid) == Ok(if alias in All16BitUuids then Some(All16BitUuids[alias]) else None)
  {
    ParseHexBound(uuid[..8]);
    if uuid in All128BitUuids {
      No128BitKeyOnBase(uuid);
    }
    var canonical := BaseUuid(alias);
    assert EndsWith(canonical, BaseUuidSuffix) by {
      assert canonical[|canonical| - |BaseUuidSuffix|..] == BaseUuidSuffix;
    }
    if canonical in All128BitUuids {
      No128BitKeyOnBase(canonical);
    }
    BaseUuidLookup(alias);
  }

  /** A hex digit in lower case; any other character is left alone. */
  function LowerHexDigit(c: char): (d: char)
    ensures IsHexDigit(d) <==> IsHexDigit(c)
    ensures IsHexDigit(c) ==> HexDigitValue(d) == HexDigitValue(c)
  {
    if 'A' <= c <= 'F' then (c as int - 'A' as int + 'a' as int) as char else c
  }

  function Lowered(s: string): (t: string)
    ensures |t| == |s|
  {
    if |s| == 0 then [] else Lowered(s[..|s| - 1]) + [LowerHexDigit(s[|s| - 1])]
  }

  /** A string without upper-case hex digits is its own lower-case form. */
  lemma {:induction false} LoweredWithoutUpperCase(s: string)
    requires forall i :: 0 <= i < |s| ==> !('A' <= s[i] <= 'F')
    ensures Lowered(s) == s
  {
    if |s| > 0 {
      LoweredWithoutUpperCase(s[..|s| - 1]);
      assert s[..|s| - 1] + [s[|s| - 1]] == s;
    }
  }

  /** `int(s, 16)` reads upper- and lower-case hex digits alike. */
  lemma {:induction false} ParseHexIgnoresCase(s: string)
    ensures ParseHex(Lowered(s)) == ParseHex(s)
  {
    if |s| > 0 {
      var t := Lowered(s);
      assert t[..|t| - 1] == Lowered(s[..|s| - 1]);
      assert t[|t| - 1] == LowerHexDigit(s[|s| - 1]);
      if |s| > 1 {
        ParseHexIgnoresCase(s[..|s| - 1]);
      }
    }
  }

  lemma HexFixedOf0x18()
    ensures HexFixed(0x18, 6) == "000018"
  {
    assert HexFixed(0, 4) == "0000";
  }

  lemma HexFixedOf0x180d()
    ensures HexFixed(0x180d, 8) == "0000180d"
  {
    HexFixedOf0x18();
    assert HexFixed(0x180, 7) == "000018" + [HexDigit(0)];
    assert HexFixed(0x180, 7) == "0000180";
    assert HexFixed(0x180d, 8) == "0000180" + [HexDigit(13)];
  }

  /** The 16-bit alias 0x180d on the Bluetooth Base UUID, spelled
      "0000180d" followed by the base suffix, names the Heart Rate service. */
  lemma HeartRateExample()
    ensures BaseUuid(0x180d) == "0000180d" + BaseUuidSuffix
    ensures UuidToString("0000180d" + BaseUuidSuffix) == Ok(Some("Heart Rate"))
  {
    HexFixedOf0x180d();
    BaseUuidLookup(0x180d);
  }

  /** The same alias spelled with upper-case digits names the same service. */
  lemma UpperCaseHeartRateExample()
    ensures UuidToString("0000180D" + BaseUuidSuffix) == Ok(Some("Heart Rate"))
  {
    var uuid := "0000180D" + BaseUuidSuffix;
    assert ParseHex("0000180D") == Some(0x180d) by {
      assert Lowered("0000180D") == "0000180d" by {
        LoweredWithoutUpperCase("0000180");
        assert "0000180D"[..7] == "0000180";
        assert "0000180" + ['d'] == "0000180d";
      }
      ParseHexIgnoresCase("0000180D");
      HexFixedOf0x180d();
      ParseHexFixed(0x180d, 8);
    }
    assert uuid[..8] == "0000180D";
    assert EndsWith(uuid, BaseUuidSuffix) by {
      assert uuid[|uuid| - |BaseUuidSuffix|..] == BaseUuidSuffix;
    }
    AnySpellingOfAlias(uuid, 0x180d);
  }

  /** A prefix that is not hexadecimal on the Base suffix raises ValueError. */
  lemma NonHexPrefixExample()
    ensures UuidToString("zzzzzzzz" + BaseUuidSuffix) == Err(ValueError)
  {
    var uuid := "zzzzzzzz" + BaseUuidSuffix;
    assert uuid[..8] == "zzzzzzzz";
    assert !IsHexDigit(uuid[..8][0]);
    assert EndsWith(uuid, BaseUuidSuffix) by {
      assert uuid[|uuid| - |BaseUuidSuffix|..] == BaseUuidSuffix;
    }
    if uuid in All128BitUuids {
      No128BitKeyOnBase(uuid);
    }
  }
}
