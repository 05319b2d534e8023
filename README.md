# btle-sniffer in Dafny

This project models the device-tracking core of btle-sniffer, a Bluetooth
Low Energy sniffer written in Python. The sniffer has two front ends.

- **The HCI front end** (`src/btlesniffer/hci_parser.py`, and its earlier
  variant `hci_parser.py`) reads raw HCI event frames from a Bluetooth socket.
  It picks out LE Advertising Report events and decodes the report header and
  the AD structures ("advertising data" blocks of length, type and payload).
  It derives a vendor and 16-bit service identifiers from the blocks. Each
  report becomes a candidate `Device`. The candidate is either appended to a
  registry or united into the first registered device it matches.
- **The D-Bus front end** (`src/btlesniffer/device.py`, `src/btlesniffer/sniffer.py`)
  receives BlueZ `org.bluez.Device1` property dictionaries. It builds
  `Device` records from them and merges later dictionaries, or other records,
  into them. `Sniffer` keeps a registry keyed by D-Bus object path and
  updates it from the `InterfacesAdded` and `PropertiesChanged` signals.
- **Supporting code** (`src/btlesniffer/hci_constants.py`): the enum code sets
  that decide which wire codes decode, and `uuid_to_string`.

The model has one module per concern:

| module | file | models |
|---|---|---|
| `Results` | results.dfy | Option, Result and the four Python exceptions the core raises (`struct.error`, `ValueError`, `IndexError`, `KeyError`) |
| `HciConstants` | hci_constants.dfy | the classifier constants, the `DiscoveryType`, `AddressType`, `AdType` and `CompanyId` code sets, `uuid_to_string` |
| `AdvertisingReport` | advertising_report.dfy | the value-level specification of frame classification, report decoding, the AD-structure cursor loop and `Advertisement.analyse` |
| `DeviceMerge` | device_merge.dfy | the value-level specification of `Device.union` and of the append-or-merge registry, generic in the match predicate |
| `HciParser` | hci_parser.dfy | `src/btlesniffer/hci_parser.py` as classes and methods, proved against the two specification modules |
| `LegacyHciParser` | legacy_hci_parser.dfy | `hci_parser.py`, the earlier parser, proved the same way |
| `DbusProperties` | dbus_properties.dfy | the `org.bluez.Device1` property dictionary; a missing key is `None` |
| `DbusDevice` | dbus_device.dfy | `src/btlesniffer/device.py`: the record on values, and the `Device` class proved against it |
| `Sniffer` | sniffer.dfy | `src/btlesniffer/sniffer.py`: its own `Device` record and the path-keyed registry callbacks |
| `SharedDefaults` | shared_defaults.dfy | the parser as written, where every candidate shares the default sets; see Findings |

Python's exceptions are modelled as `Err` results. Each method that changes
objects states its new state through a `View()` of the object, and that view
is tied to a specification function on values. The lemmas are proved about
those functions.

## Model

| member | source | states |
|---|---|---|
| HciConstants.DiscoveryTypeOf | src/btlesniffer/hci_constants.py:119-128 | a discovery-type byte decodes iff it is 0x00-0x04, to the member with that code; any other byte is ValueError |
| HciConstants.AddressTypeOf | src/btlesniffer/hci_constants.py:130-139 | an address-type byte decodes iff it is 0x00-0x04, to the member with that code; any other byte is ValueError |
| HciConstants.AdTypeOf | src/btlesniffer/hci_constants.py:159-200 | an AD type byte decodes iff it is one of the listed codes, to the member with that code; otherwise ValueError |
| HciConstants.AdTypeRoundTrip | src/btlesniffer/hci_constants.py:159-200 | every AdType member's code is listed and decodes back to that member |
| HciConstants.AdTypeCodeInjective | src/btlesniffer/hci_constants.py:159-200 | AdType codes are pairwise distinct |
| HciConstants.CompanyIdOf | src/btlesniffer/hci_constants.py:202-1059 | a company id is accepted iff the enum lists it (0x0000-0x0355 except 0x013d, and 0xffff) and then keeps its value; otherwise ValueError |
| HciConstants.CompanyIdSamples | src/btlesniffer/hci_constants.py:202-1059 | 0x004c (Apple), 0x0006 and 0xffff (RESERVED) are listed; 0x013d, 0x0356 and 0xfffe are not |
| HciConstants.ParseHex | src/btlesniffer/hci_constants.py:1632 | `int(s, 16)` succeeds iff the string is non-empty and all hex digits |
| HciConstants.UuidToString | src/btlesniffer/hci_constants.py:1616-1635 | a length other than 36 is ValueError; an exact 128-bit table key gives its name first; a 36-character string without the Base UUID tail gives None; on the Base UUID tail it raises iff the 8-character prefix is not hexadecimal, and every error is ValueError; any name returned comes from one of the two tables |
| HciConstants.ParseHexFixed | src/btlesniffer/hci_constants.py:1632 | parsing the n-digit hex spelling of a value gives that value back |
| HciConstants.BaseUuidLookup | src/btlesniffer/hci_constants.py:1631-1633 | a UUID on the Bluetooth Base UUID that the 128-bit table does not hold gives its 32-bit alias' 16-bit table entry, or None |
| HciConstants.HeartRateExample | src/btlesniffer/hci_constants.py:1172 | the alias 0x180d spelled "0000180d" on the base suffix "-0000-1000-8000-00805f9b34fb" names "Heart Rate" |
| HciConstants.AnySpellingOfAlias | src/btlesniffer/hci_constants.py:1631-1633 | a 36-character string on the Base UUID tail whose prefix `int(_, 16)` reads as an alias resolves exactly as the canonical spelling of that alias: to its 16-bit table entry, or None |
| HciConstants.ParseHexIgnoresCase | src/btlesniffer/hci_constants.py:1632 | `int(s, 16)` reads upper- and lower-case hex digits alike |
| HciConstants.UpperCaseHeartRateExample | src/btlesniffer/hci_constants.py:1631-1633 | "0000180D" on the Base UUID tail also names "Heart Rate" |
| HciConstants.NonHexPrefixExample | src/btlesniffer/hci_constants.py:1631-1632 | "zzzzzzzz" on the Base UUID tail raises ValueError |
| AdvertisingReport.IsAdvertisingReportFrame | src/btlesniffer/hci_parser.py:269 | a frame is an advertising report iff bytes 0, 1 and 3 are 0x04, 0x3e and 0x02; a byte read past the end is IndexError, and only a frame shorter than 4 bytes raises |
| AdvertisingReport.SignedByte | src/btlesniffer/hci_parser.py:89 | the `b` format gives a value in -128..127 congruent to the byte mod 256 |
| AdvertisingReport.PySlice | src/btlesniffer/hci_parser.py:100 | a Python slice clamps both ends to the length; its length and elements are those of the clamped range |
| AdvertisingReport.AdStructuresFrom | src/btlesniffer/hci_parser.py:95-102 | the cursor loop yields at least one and at most as many records as bytes remain; it fails only with IndexError or ValueError |
| AdvertisingReport.AdStructures | src/btlesniffer/hci_parser.py:93-102 | the definition: the cursor loop run from the start of the AD data; its meaning is pinned by AdStructuresRoundTrip, EmptyAdData, TruncatedStructureIsClamped and MissingTypeByte |
| AdvertisingReport.AdStructuresRoundTrip | src/btlesniffer/hci_parser.py:95-109 | N concatenated well-formed AD structures decode to exactly those N records, in wire order, each with its payload |
| AdvertisingReport.EmptyAdData | src/btlesniffer/hci_parser.py:96 | empty AD data yields no records |
| AdvertisingReport.TruncatedStructureIsClamped | src/btlesniffer/hci_parser.py:100 | a length byte that runs past the end is accepted, and the payload is clamped to the bytes present |
| AdvertisingReport.MissingTypeByte | src/btlesniffer/hci_parser.py:98 | a length byte with no type byte after it raises IndexError |
| AdvertisingReport.DecodeReport | src/btlesniffer/hci_parser.py:83-91 | fewer than offset+10 bytes is struct.error; an unknown discovery or address type is ValueError; fewer than offset+11+L bytes is struct.error; when the bytes are present but the AD loop over [offset+10, offset+10+L) fails, that loop's error is passed through; on success the types, the 7-byte address, the AD data [offset+10, offset+10+L) and the signed RSSI at offset+10+L are those read |
| AdvertisingReport.ParseFrame | src/btlesniffer/hci_parser.py:265-272 | a frame too short to classify is IndexError; a frame that is not an advertising report gives None; a report frame gives the report decoded from offset 4, or the decoder's error |
| AdvertisingReport.DecodeReportRoundTrip | src/btlesniffer/hci_parser.py:78-110 | a report body laid out at any offset of any buffer decodes back to the report |
| AdvertisingReport.ParseFrameRoundTrip | src/btlesniffer/hci_parser.py:269-270 | a frame with the three classifier codes carries the report laid out from byte 4 |
| AdvertisingReport.StandardSingleReportLayout | src/btlesniffer/hci_parser.py:83-87 | a single-report body in the layout of the Bluetooth Core Specification decodes with Num_Reports as discovery type, the event type as address type and the address type byte inside the address |
| AdvertisingReport.SixByteAddressFrameExample | src/btlesniffer/hci_parser.py:83-91 | a frame with a 6-byte address decodes with the AD length byte inside the address |
| AdvertisingReport.ManufacturerVendor | src/btlesniffer/hci_parser.py:35-36 | fewer than two bytes is struct.error; otherwise the vendor is the little-endian u16 of the first two bytes, accepted iff CompanyId lists it, and an unlisted id is ValueError |
| AdvertisingReport.ServiceIdList | src/btlesniffer/hci_parser.py:38-39 | the unpack succeeds iff the length is even, and then gives one little-endian u16 per byte pair |
| AdvertisingReport.Analysis | src/btlesniffer/hci_parser.py:29-39 | manufacturer data yields the vendor read as the little-endian u16 of its first two bytes, succeeding iff CompanyId lists it, with struct.error under two bytes and ValueError for an unlisted id; the two 16-bit service lists yield one little-endian u16 per byte pair, succeeding iff the length is even, struct.error otherwise; every other type derives nothing |
| AdvertisingReport.ServiceIdListRoundTrip | src/btlesniffer/hci_parser.py:38-39 | a 16-bit service list decodes back to the identifiers it was built from |
| AdvertisingReport.ManufacturerExample | src/btlesniffer/hci_parser.py:34-36 | manufacturer data 4C 00 DE AD names Apple (0x004c) |
| AdvertisingReport.ServiceListExample | src/btlesniffer/hci_parser.py:37-39 | the service list 0D 18 0F 18 names services 0x180d and 0x180f |
| DeviceMerge.Merge | src/btlesniffer/hci_parser.py:145-154 | the merged device covers both devices, adds nothing else, and keeps the first device's types and vendor |
| DeviceMerge.UnionOutcome | src/btlesniffer/hci_parser.py:139-157 | union raises ValueError iff the vendors differ, and returns False iff the merge changes nothing |
| DeviceMerge.MergeIsLeast | src/btlesniffer/hci_parser.py:145-147 | the merge is the least device covering both |
| DeviceMerge.UnionTwice | src/btlesniffer/hci_parser.py:139-157 | a repeated union with the same device returns False and changes nothing |
| DeviceMerge.FirstMatchFrom | src/btlesniffer/hci_parser.py:231-235 | the index found matches and no earlier index does; None means no index matches |
| DeviceMerge.Register | src/btlesniffer/hci_parser.py:237-254 | with no match the candidate is appended; otherwise only the first matching entry becomes its merge with the candidate, the length is unchanged, and NoUpdate means nothing changed; a vendor mismatch at the first match raises ValueError |
| DeviceMerge.RegisterRecordsAddresses | src/btlesniffer/hci_parser.py:237-254 | the registry grows by at most one, no entry loses an address, and some entry holds all the candidate's addresses |
| DeviceMerge.RegisterTwice | src/btlesniffer/hci_parser.py:237-254 | registering the same candidate again finds its entry and changes nothing |
| HciParser.Advertisement.constructor | src/btlesniffer/hci_parser.py:41-49 | a new block has the given type and data, no vendor and no services |
| HciParser.Advertisement.Record | src/btlesniffer/hci_parser.py:51-68 | the definition: a block's identity for `__eq__` and `__hash__` is its type and data only; vendor and services take no part |
| HciParser.Advertisement.Analyse | src/btlesniffer/hci_parser.py:29-39 | analyse raises exactly when the derivation fails, changing nothing; otherwise it sets the vendor or the services the derivation gives, and leaves the data alone |
| HciParser.PacketEquals | src/btlesniffer/hci_parser.py:125-132 | the definition of `AdvertisementPacket.__eq__` (types, address and blocks, not the RSSI); PacketEqualsProperties states its properties |
| HciParser.PacketEqualsProperties | src/btlesniffer/hci_parser.py:125-132 | packet equality is an equivalence and ignores the RSSI |
| HciParser.Create | src/btlesniffer/hci_parser.py:78-110 | create raises exactly when the report decoder does, with its error; otherwise the packet carries the decoded report, with one fresh unanalysed Advertisement per record |
| HciParser.CreateAdvertisements | src/btlesniffer/hci_parser.py:93-102 | the cursor loop creates one fresh Advertisement per AD structure, in wire order, or raises the decoder's error |
| HciParser.Device.constructor | src/btlesniffer/hci_parser.py:161-173 | a new device has the given types and addresses, no vendor, and empty services and advertisements |
| HciParser.Device.Union | src/btlesniffer/hci_parser.py:139-159 | the result and the new fields are UnionOutcome and AfterUnion of the old fields |
| HciParser.Matches | src/btlesniffer/hci_parser.py:190-198 | the definition of `Device.__eq__` with the candidate as `self`; MatchesOnSharedAddress, VendorlessMatchesByAddressOnly and MatchesIsAsymmetric state its properties |
| HciParser.MatchesOnSharedAddress | src/btlesniffer/hci_parser.py:190-198 | two devices with a common address match |
| HciParser.VendorlessMatchesByAddressOnly | src/btlesniffer/hci_parser.py:190-198 | a candidate without a vendor matches iff an address is shared |
| HciParser.MatchesIsAsymmetric | src/btlesniffer/hci_parser.py:194-196 | some candidate matches an entry that, as candidate, does not match it back |
| HciParser.AnalysedView | src/btlesniffer/hci_parser.py:274-289 | the candidate has the packet's types and its one address |
| HciParser.AnalysedViewOk | src/btlesniffer/hci_parser.py:283-287 | building the candidate raises iff some block's analysis raises |
| HciParser.AnalysedViewAdvertisements | src/btlesniffer/hci_parser.py:287 | the candidate's advertisements are exactly the packet's blocks |
| HciParser.AnalysedViewVendor | src/btlesniffer/hci_parser.py:285 | the candidate's vendor is the last block's, None when that block is not manufacturer data |
| HciParser.AnalysedViewServices | src/btlesniffer/hci_parser.py:286 | the candidate's services are the union of the blocks' services |
| HciParser.AnalysedViewError | src/btlesniffer/hci_parser.py:283-284 | the error is that of the first block whose analysis raises |
| HciParser.HciParser.constructor | src/btlesniffer/hci_parser.py:291-296 | a new parser has an empty registry |
| HciParser.HciParser.ParsePacket | src/btlesniffer/hci_parser.py:265-272 | `_parse_packet` raises, returns None, or returns a packet describing the report, exactly as ParseFrame does |
| HciParser.HciParser.FindDevice | src/btlesniffer/hci_parser.py:226-235 | returns the first registry index the candidate matches, or None |
| HciParser.HciParser.AppendDevice | src/btlesniffer/hci_parser.py:247 | the registry gains the candidate at its end |
| HciParser.HciParser.UniteInto | src/btlesniffer/hci_parser.py:248 | only the united entry changes, to AfterUnion of its old fields |
| HciParser.HciParser.RegisterDevice | src/btlesniffer/hci_parser.py:237-254 | the outcome and the new registry are those of Register on the old registry; on error the registry is unchanged; the registry never holds one object twice |
| HciParser.HciParser.AnalyseAdvert | src/btlesniffer/hci_parser.py:274-289 | returns a fresh device whose fields are AnalysedView of the report, or the first block's error |
| HciParser.HciParser.FoldBlock | src/btlesniffer/hci_parser.py:284-287 | one loop turn advances the candidate by one block of AnalysedView, or stops with that block's error |
| HciParser.Handled | src/btlesniffer/hci_parser.py:212-218 | the definition of one turn of the receive loop on values (parse, analyse, register); HandlePacket is proved to leave exactly this |
| HciParser.HciParser.HandlePacket | src/btlesniffer/hci_parser.py:214-218 | one turn of the receive loop (parse, analyse, register) leaves the registry and outcome of Handled, and an error leaves the registry unchanged |
| LegacyHciParser.Advertisement.constructor | hci_parser.py:31-39 | a new block has the given type and data, no vendor and services None |
| LegacyHciParser.Advertisement.Record | hci_parser.py:41-59 | the definition: a block's identity for `__eq__` and `__hash__` is its type and data only |
| LegacyHciParser.Advertisement.Analyse | hci_parser.py:23-29 | analyse raises exactly when the derivation fails, changing nothing; otherwise it sets the vendor, or the services wrapped in Some |
| LegacyHciParser.PacketEquals | hci_parser.py:76-83 | the definition of the legacy `AdvertisementPacket.__eq__`; PacketEqualsIgnoresRssi states its property |
| LegacyHciParser.PacketEqualsIgnoresRssi | hci_parser.py:76-83 | two packets are equal iff their reports agree on everything but the RSSI |
| LegacyHciParser.Create | hci_parser.py:86-114 | create raises exactly when the shared report decoder does; otherwise the packet carries the decoded report |
| LegacyHciParser.CreateAdvertisements | hci_parser.py:97-106 | the cursor loop creates one Advertisement per AD structure, in wire order, or raises the decoder's error |
| LegacyHciParser.Device.constructor | hci_parser.py:134-146 | a new device has the given types and addresses, no vendor, and empty services and advertisements |
| LegacyHciParser.Device.Union | hci_parser.py:118-132 | the result and the new fields are UnionOutcome and AfterUnion of the old fields |
| LegacyHciParser.Matches | hci_parser.py:158-166 | the definition of the legacy `Device.__eq__` with its first argument as `self`; MatchesOnSharedAddress, VendorlessDevicesMatch and VendorlessDevicesMatchExample state its properties, and EntryMatches applies it the way the registry lookup does |
| LegacyHciParser.EntryMatches | hci_parser.py:194-198 | the definition: `in` and `index` call `entry.__eq__(candidate)` on CPython 3.9 and later, so the entry is `self`; LookupOperandOrderExample shows that this differs from the candidate as `self` |
| LegacyHciParser.MatchesOnSharedAddress | hci_parser.py:158-166 | two devices with a common address match |
| LegacyHciParser.VendorlessDevicesMatch | hci_parser.py:158-166 | two vendor-less devices match when the advertisements of the device that is `self` are a non-empty superset of the other's |
| LegacyHciParser.VendorlessDevicesMatchExample | hci_parser.py:158-166 | two vendor-less devices with distinct addresses and one common block match both ways |
| LegacyHciParser.AnalysedView | hci_parser.py:226-253 | the candidate has the packet's types and its one address |
| LegacyHciParser.AnalysedViewOk | hci_parser.py:236-249 | building the candidate raises iff some block's unpacking raises |
| LegacyHciParser.AnalysedViewAdvertisements | hci_parser.py:247-248 | the advertisements are exactly the blocks that derive nothing |
| LegacyHciParser.AnalysedViewServices | hci_parser.py:242-245 | each 16-bit service list adds its whole tuple of ids as one service, and nothing else does |
| LegacyHciParser.AnalysedViewVendor | hci_parser.py:237-240 | the vendor is that of the last manufacturer block, None when there is none |
| LegacyHciParser.FindIn | hci_parser.py:194-198 | the definition of `device in registry` followed by `registry.index(device)` on CPython 3.9 and later, both comparing each entry with the candidate; FindInIsFirstMatch states what it finds |
| LegacyHciParser.FindInUpTo38 | hci_parser.py:194-198 | the definition of the same lookup on CPython 3.8 and earlier, where `in` compares the candidate with each entry and `index` each entry with the candidate; FindInIsFirstMatch states when it raises |
| LegacyHciParser.FindInIsFirstMatch | hci_parser.py:194-198 | the lookup finds the first entry that matches with the entry as `self`, or None; on CPython 3.8 and earlier it raises ValueError exactly when some entry matches with the candidate as `self` and none with the entry as `self`, and otherwise finds nothing or the same entry |
| LegacyHciParser.LookupOperandOrderExample | hci_parser.py:194-210 | a vendor-less candidate whose blocks strictly include a vendor-less entry's matches it as `self` but not as `other`: the lookup finds nothing and the candidate is appended, and on CPython 3.8 and earlier `index` raises ValueError |
| LegacyHciParser.HciParser.constructor | hci_parser.py:255-259 | a new parser has an empty registry |
| LegacyHciParser.HciParser.ParsePacket | hci_parser.py:216-224 | `_parse_packet` raises, returns None, or returns a packet describing the report, exactly as ParseFrame does |
| LegacyHciParser.HciParser.FindDevice | hci_parser.py:194-198 | returns the first registry index whose entry, as `self`, matches the candidate, or None (CPython 3.9 and later) |
| LegacyHciParser.HciParser.AppendDevice | hci_parser.py:205 | the registry gains the candidate at its end |
| LegacyHciParser.HciParser.UniteInto | hci_parser.py:206 | only the united entry changes, to AfterUnion of its old fields |
| LegacyHciParser.HciParser.RegisterDevice | hci_parser.py:200-210 | the outcome and the new registry are those of Register with the entry-as-`self` match on the old registry; on error the registry is unchanged |
| LegacyHciParser.HciParser.AnalyseAdvert | hci_parser.py:226-253 | returns a fresh device whose fields are AnalysedView of the report, or the first block's error |
| LegacyHciParser.HciParser.FoldBlock | hci_parser.py:236-249 | one loop turn advances the candidate by one block of AnalysedView, or stops with that block's error |
| DbusDevice.AppendEachKeepsOrder | src/btlesniffer/device.py:53-64 | appending keeps every old list as a prefix, puts each new value last, and leaves keys without a new value alone |
| DbusDevice.AppendIsExtendByWrapped | src/btlesniffer/device.py:53-64 | appending a dictionary's values equals extending by the one-element lists `__init__` makes of them |
| DbusDevice.AppendEntries | src/btlesniffer/device.py:54-58 | the loop leaves the lists AppendEach describes |
| DbusDevice.ExtendEntries | src/btlesniffer/device.py:83-92 | the loop leaves the lists ExtendEach describes |
| DbusDevice.Initial | src/btlesniffer/device.py:94-120 | the definition of `__init__` on values; Device.constructor is proved to build it |
| DbusDevice.Created | src/btlesniffer/device.py:13-28 | the definition of `create_from_dbus_dict` on values; CreatedFromDict states its properties |
| DbusDevice.UpdatedFromDict | src/btlesniffer/device.py:30-64 | the definition of `update_from_dbus_dict` on values; UpdateFromEmptyDict, UpdateFromDictGrows and UpdateFromDictIsMergeOfCreated state its properties |
| DbusDevice.Merged | src/btlesniffer/device.py:66-92 | the definition of `update_from_device` on values; MergedIsSameDevice and UpdateFromDictIsMergeOfCreated state its properties |
| DbusDevice.SameDevice | src/btlesniffer/device.py:122-128 | the definition of `__eq__` on values; SameDeviceSymmetric states its properties |
| DbusDevice.CreatedFromDict | src/btlesniffer/device.py:13-28 | a missing required key is KeyError; otherwise the record has its one path and address, the three flags, name, class, appearance and TX power of the dictionary (None when absent), exactly the UUIDs given, the RSSI history of at most the one reading, and each data value alone in its list |
| DbusDevice.UpdateFromEmptyDict | src/btlesniffer/device.py:30-32 | a dictionary without keys only adds the path and moves the last sighting |
| DbusDevice.UpdateFromDictGrows | src/btlesniffer/device.py:30-64 | an update adds the path, keeps every set and history entry, appends the RSSI and each data value last, and keeps the first sighting |
| DbusDevice.UpdateFromDictIsMergeOfCreated | src/btlesniffer/device.py:30-64 | updating from a dictionary equals merging in the record created from it, except that the three flags are overwritten instead of or-ed |
| DbusDevice.MergedIsSameDevice | src/btlesniffer/device.py:66-92 | a merged record equals both parts, holds their paths and UUIDs, has self's RSSIs first, and keeps self's first sighting and the other's last |
| DbusDevice.SameDeviceSymmetric | src/btlesniffer/device.py:122-128 | record equality is symmetric and holds iff an address is shared |
| DbusDevice.Device.constructor | src/btlesniffer/device.py:94-120 | the new record is Initial of the arguments |
| DbusDevice.Device.CreateFromDbusDict | src/btlesniffer/device.py:13-28 | KeyError iff a required key is missing; otherwise a fresh record equal to Created |
| DbusDevice.Device.UpdateFromDbusDict | src/btlesniffer/device.py:30-64 | the new record is UpdatedFromDict of the old one |
| DbusDevice.Device.UpdateFromDevice | src/btlesniffer/device.py:66-92 | the new record is Merged of the old one and the other, also when the other is this record |
| DbusDevice.Device.Sighted | src/btlesniffer/device.py:31-32 | adds the paths and sets the last sighting; nothing else changes |
| DbusDevice.Device.TakeIdentity | src/btlesniffer/device.py:33-40 | adds the addresses and sets the three flags; nothing else changes |
| DbusDevice.Device.TakeDescription | src/btlesniffer/device.py:41-52 | overwrites name, class, appearance and TX power only where a value is given |
| DbusDevice.Device.TakeReadings | src/btlesniffer/device.py:47-50 | unites the UUIDs and appends the RSSIs at the end |
| DbusDevice.Device.AppendData | src/btlesniffer/device.py:53-64 | appends each present dictionary's values to the per-key lists |
| DbusDevice.Device.ExtendData | src/btlesniffer/device.py:83-92 | extends the per-key lists by the other's lists |
| DbusDevice.Device.Equals | src/btlesniffer/device.py:122-128 | the definition of `__eq__` on two records: SameDevice of their fields |
| Sniffer.CreatedFromDict | src/btlesniffer/sniffer.py:19-34 | a missing required key is KeyError; otherwise the record holds its one address, the three flags, name, class, appearance and TX power of the dictionary (None when absent), the RSSI reading if any, the UUIDs given, and the data dictionaries as given, or `{}` when a dictionary is absent |
| Sniffer.UpdateTakesPresentKeys | src/btlesniffer/sniffer.py:36-60 | present keys are taken and absent ones leave their field alone; the address and UUID sets and the RSSI history only grow; the data dictionaries never change |
| Sniffer.UpdateFromEmptyDict | src/btlesniffer/sniffer.py:36-60 | a dictionary without keys changes nothing |
| Sniffer.UpdateTwice | src/btlesniffer/sniffer.py:36-56 | applying a dictionary twice equals applying it once, except that the RSSI is recorded twice |
| Sniffer.Created | src/btlesniffer/sniffer.py:19-34 | the definition of `create_from_dbus_dict` on values; CreatedFromDict states its properties |
| Sniffer.Updated | src/btlesniffer/sniffer.py:36-60 | the definition of `update_from_dbus_dict` on values; UpdateTakesPresentKeys, UpdateFromEmptyDict and UpdateTwice state its properties |
| Sniffer.Device.constructor | src/btlesniffer/sniffer.py:62-77 | the new record holds the arguments, with the UUIDs as a set and the RSSI as a history of at most one reading |
| Sniffer.Device.CreateFromDbusDict | src/btlesniffer/sniffer.py:19-34 | KeyError iff a required key is missing; otherwise a fresh record equal to Created |
| Sniffer.Device.UpdateFromDbusDict | src/btlesniffer/sniffer.py:36-60 | the new record is Updated of the old one |
| Sniffer.Device.TakeIdentity | src/btlesniffer/sniffer.py:37-44 | adds the addresses and sets the three flags; nothing else changes |
| Sniffer.Device.TakeDescription | src/btlesniffer/sniffer.py:45-56 | overwrites name, class, appearance and TX power only where a value is given |
| Sniffer.Device.TakeReadings | src/btlesniffer/sniffer.py:51-54 | unites the UUIDs and appends the RSSI at the end |
| Sniffer.AfterInterfacesAdded | src/btlesniffer/sniffer.py:123-130 | the definition of `_cb_interfaces_added` on the registry's values; InterfacesAddedRegisters states its properties |
| Sniffer.AfterPropertiesChanged | src/btlesniffer/sniffer.py:132-142 | the definition of `_cb_properties_changed` on the registry's values; PropertiesChangedUpdatesInPlace and ChangeBeforeAddIsLost state its properties |
| Sniffer.InterfacesAddedRegisters | src/btlesniffer/sniffer.py:123-130 | without Device1 the registry is unchanged; with it the path gets a new record, replacing any old one, or KeyError leaves the registry as it was; other paths keep their records |
| Sniffer.PropertiesChangedUpdatesInPlace | src/btlesniffer/sniffer.py:132-142 | a change never adds a path, touches only the named registered path, and only grows that record; a change to another interface changes nothing |
| Sniffer.ChangeBeforeAddIsLost | src/btlesniffer/sniffer.py:132-142 | a change for an unregistered path is lost, even when the path is added later |
| Sniffer.Sniffer.constructor | src/btlesniffer/sniffer.py:155-166 | a new sniffer has an empty registry |
| Sniffer.Sniffer.CbInterfacesAdded | src/btlesniffer/sniffer.py:123-130 | the registry's records become AfterInterfacesAdded of the old ones, or the callback raises its KeyError with the registry and every record as they were; no record is shared by two paths |
| Sniffer.Sniffer.CbPropertiesChanged | src/btlesniffer/sniffer.py:132-142 | the registry's records become AfterPropertiesChanged of the old ones, updated in place; the keys stay the same |
| SharedDefaults.HandleReport | src/btlesniffer/hci_parser.py:274-289 | the definition of `_analyse_advert` followed by `_register_device` as written, with the default sets shared; HandleReportRegisters and the Apple lemmas state its properties |
| SharedDefaults.HandleReportRegisters | src/btlesniffer/hci_parser.py:274-289 | as written, a packet registers the candidate into the entries as the grown default sets show them |
| SharedDefaults.SharedEntryAbsorbsSameVendor | src/btlesniffer/hci_parser.py:161-173 | as written, every later packet with a block and the same vendor matches an entry still holding the default sets, so it is never a new device |
| SharedDefaults.AppleCandidates | src/btlesniffer/hci_parser.py:274-289 | each Apple report alone yields a candidate with its one address and its one block |
| SharedDefaults.FirstApplePacket | src/btlesniffer/hci_parser.py:237-254 | as written, the first Apple packet is a new device that keeps the default sets |
| SharedDefaults.ApplePacketsMergedAsWritten | src/btlesniffer/hci_parser.py:161-173 | as written, a second Apple device is merged into the first, leaving one entry with both addresses |
| SharedDefaults.ApplePacketsSeparateWithFreshSets | src/btlesniffer/hci_parser.py:237-254 | with fresh sets the two Apple devices are two registry entries |

## Left out

- The socket and D-Bus plumbing is not modelled: `HciParser.run`, `__enter__` and `__exit__`, `Sniffer.run`, `__enter__`, `__exit__` and `_cb_backup_degistry`, bluez_ffi.py, util.py, main.py and setup.py. These are I/O, foreign calls and packaging. One turn of the receive loop is modelled as `HciParser.HciParser.HandlePacket`.
- The pickle backups (`_backup_registry`) and `Sniffer`'s resume from a backup are not modelled. `Sniffer.Sniffer.constructor` starts with an empty registry.
- The `time.monotonic` backup interval and logging are left out. They do not affect the registry.
- The `__str__` and `__repr__` methods are display only.
- The name tables `ALL_16BIT_UUIDS` and `ALL_128BIT_UUIDS` hold only a few sample entries. The `CompanyId` enum is kept as its exact set of codes, without the names.
- The codes of `Status`, `GapProfile`, `ScanType`, `FilterPolicy` and the command opcodes are not used by the modelled code.
- The root hci_constants.py is not modelled. The codes the parser uses agree with the src copy.
- The parser modules import names their constants modules do not define, so neither would import. Examples are `ALL_16BIT_SERVICES`, `HCI_MAX_EVENT_SIZE` in the root copy, and `OBJECT_MANAGER_INTERFACE` and `PROPERTIES_INTERFACE` from util.py. The model covers the logic, not module loading.
- HciConstants.ParseHex: accepts only a string of ASCII hex digits. `int(s, 16)` also takes other spellings: a sign, surrounding whitespace, underscores between digits, a `0x` prefix, and non-ASCII Unicode decimal digits such as the fullwidth "０". None of these is modelled. On such a prefix before the Base UUID tail (for example "0x00180d" or "０000180d"), UuidToString gives ValueError where Python reads an alias.
- HciConstants.UuidToString: on the Base UUID tail it reads the prefix through ParseHex, so the spellings listed for ParseHex raise ValueError in the model; every prefix of ASCII hex digits, in either case, resolves as in the source (AnySpellingOfAlias, ParseHexIgnoresCase).
- The `TypeError` branches (`uuid_to_string` on a non-string, `union` with a non-`Device`) and the `NotImplemented` branches of `__eq__` are not modelled. Dafny's types rule those arguments out.
- The clock (`datetime.datetime.now()`) is a `now` parameter. `DbusDevice.Device.constructor` uses one `now` for both sightings, where `__init__` reads the clock twice.
- DbusDevice.Device.UpdateFromDevice: the lists are values, so the aliasing of `self.manufacturer_data[k] = v` is not modelled. That line makes both records share one list, and a later `append` on one record shows in the other.
- Sniffer.AfterPropertiesChanged: `DEVICE_INTERFACE in params` is modelled as a test on the interface name, the signal's only string argument.
- HciParser.HciParser.AnalyseAdvert: requires unanalysed blocks, which are what `create` returns, and models fresh default sets for the candidate; the shared sets are modelled separately in `SharedDefaults`. It states no vendor or services for the packet's blocks after the loop, though each `analyse` call sets them. They are read afterwards only by `Advertisement.__str__`, for display; Advertisement.Analyse states what one call sets.
- HciParser.Advertisement.constructor: gives every block a fresh empty `services` set. The shared default `svcs=set()` is harmless, because `analyse` rebinds the field and nothing mutates it.
- LegacyHciParser.HciParser.AnalyseAdvert: gives every candidate fresh sets. hci_parser.py:139-140 has the same shared default sets as the finding below, and its loop grows them with `add`.
- LegacyHciParser.HciParser.FindDevice: the parser's methods follow CPython 3.9 and later, where `in` and `index` both call `entry.__eq__(candidate)`. On CPython 3.8 and earlier `in` calls `candidate.__eq__(entry)`, so `_find_device` can raise ValueError from `index`. FindInUpTo38 and FindInIsFirstMatch state when; RegisterDevice does not model that raise.
- The 7-byte address of the `>BB7sB` header is kept as written. The Bluetooth Core Specification (Volume 4, Part E, section 7.7.65.2) has Num_Reports first and a 6-byte address. `AdvertisingReport.StandardSingleReportLayout` and `AdvertisingReport.SixByteAddressFrameExample` show what the code then reads.
- SharedDefaults.HandleReport: its error result carries no state, so two leaks into the shared default sets are not modelled. When a block's analysis raises mid-loop, the source has already grown the shared sets with the earlier blocks. When `union` raises ValueError during registration, the loop has already grown them with every block of the packet. In both cases the model returns only the error.
- Associativity of `update_from_device` over three records is not stated.

## Findings

| source | as written | input that shows it | evidently intended | confidence | as-written member | corrected member |
|---|---|---|---|---|---|---|
| src/btlesniffer/hci_parser.py:161-173 | `Device.__init__` defaults `svcs` and `ads` to one `set()` each, evaluated once; `_analyse_advert` (lines 286-287) grows them in place, so every candidate and every newly registered device share them | two reports from addresses 00 11 11 11 11 11 11 and 00 22 22 22 22 22 22, each with one manufacturer block, 4C 00 DE AD and 4C 00 BE EF | each candidate starts with fresh empty sets, and the second Apple device is registered as a second entry | high; not executed | SharedDefaults.ApplePacketsMergedAsWritten | SharedDefaults.ApplePacketsSeparateWithFreshSets |
