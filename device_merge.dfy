/** The value-level meaning of the advertising-side `Device` records of both
    parser files: the in-place `union` and the append-or-merge registry of
    `_find_device` / `_register_device`. The records differ between the two
    files only in what a service is (an id, or a tuple of ids) and in the
    match predicate, so both are parameters here. */
module DeviceMerge {
  import opened Results
  import opened HciConstants
  import opened AdvertisingReport

  /** The fields of a `Device` at one moment. */
  datatype DeviceView<S> = DeviceView(
    discoveryType: DiscoveryType,
    addressType: AddressType,
    addresses: set<Bytes>,
    vendor: Option<int>,
    services: set<S>,
    advertisements: set<AdRecord>)

  /** `a` already holds everything `b` would add to it. */
  predicate Covers<S>(a: DeviceView<S>, b: DeviceView<S>)
  {
    b.addresses <= a.addresses && b.services <= a.services && b.advertisements <= a.advertisements
  }

  /** The three set fields of `a` after `a.union(b)` rebinds them; the types
      and the vendor stay those of `a`. */
  function Merge<S>(a: DeviceView<S>, b: DeviceView<S>): (m: DeviceView<S>)
    ensures Covers(m, a) && Covers(m, b)
    ensures m.discoveryType == a.discoveryType && m.addressType == a.addressType && m.vendor == a.vendor
    ensures forall x :: x in m.addresses ==> x in a.addresses || x in b.addresses
    ensures forall s :: s in m.services ==> s in a.services || s in b.services
    ensures forall r :: r in m.advertisements ==> r in a.advertisements || r in b.advertisements
  {
    a.(addresses := a.addresses + b.addresses,
       services := a.services + b.services,
       advertisements := a.advertisements + b.advertisements)
  }

  /** What `a.union(b)` returns: ValueError when the vendors differ, otherwise
      whether any of the three unions added something. */
  function UnionOutcome<S>(a: DeviceView<S>, b: DeviceView<S>): (r: Result<bool, Error>)
    ensures r.Err? <==> a.vendor != b.vendor
    ensures r.Err? ==> r.error == ValueError
    ensures r == Ok(false) <==> a.vendor == b.vendor && Merge(a, b) == a
  {
    if a.vendor != b.vendor then Err(ValueError) else Ok(!Covers(a, b))
  }

  /** The fields of `a` after `a.union(b)`, whatever it returned. */
  function AfterUnion<S>(a: DeviceView<S>, b: DeviceView<S>): DeviceView<S>
  {
    if UnionOutcome(a, b) == Ok(true) then Merge(a, b) else a
  }

  /** Merging is the least upper bound of the two set fields. */
  lemma MergeIsLeast<S>(a: DeviceView<S>, b: DeviceView<S>, c: DeviceView<S>)
    requires Covers(c, a) && Covers(c, b)
    ensures Covers(c, Merge(a, b))
  {
  }

  /** A second union with the same device returns False and changes nothing. */
  lemma UnionTwice<S>(a: DeviceView<S>, b: DeviceView<S>)
    requires UnionOutcome(a, b).Ok?
    ensures UnionOutcome(AfterUnion(a, b), b) == Ok(false)
    ensures AfterUnion(AfterUnion(a, b), b) == AfterUnion(a, b)
  {
    var m := AfterUnion(a, b);
    assert Merge(m, b) == m;
  }

  // ---------------------------------------------------------------------
  // The registry

  /** The match predicate of a parser file: `candidate == entry`. */
  type MatchRule<!S> = (DeviceView<S>, DeviceView<S>) -> bool

  /** `_find_device`: the first index whose entry the candidate matches. */
  function FirstMatchFrom<S>(registry: seq<DeviceView<S>>, candidate: DeviceView<S>, matches: MatchRule<S>, from: nat): (r: Option<nat>)
    requires from <= |registry|
    ensures r.Some? ==> from <= r.value < |registry| && matches(candidate, registry[r.value])
    ensures r.Some? ==> forall j :: from <= j < r.value ==> !matches(candidate, registry[j])
    ensures r.None? ==> forall j :: from <= j < |registry| ==> !matches(candidate, registry[j])
    decreases |registry| - from
  {
    if from == |registry| then None
    else if matches(candidate, registry[from]) then Some(from)
    else FirstMatchFrom(registry, candidate, matches, from + 1)
  }

  function FirstMatch<S>(registry: seq<DeviceView<S>>, candidate: DeviceView<S>, matches: MatchRule<S>): Option<nat>
  {
    FirstMatchFrom(registry, candidate, matches, 0)
  }

  /** What `_register_device` did with the candidate. */
  datatype Registration = NewDevice | DeviceUpdate(index: nat) | NoUpdate(index: nat)

  datatype Registered<S> = Registered(registry: seq<DeviceView<S>>, outcome: Registration)

  /** `_register_device`: with an empty registry or no matching entry the
      candidate is appended; otherwise it is united into the first matching
      entry, and a vendor mismatch raises with the registry untouched. */
  function Register<S>(registry: seq<DeviceView<S>>, candidate: DeviceView<S>, matches: MatchRule<S>): (r: Result<Registered<S>, Error>)
    ensures r.Err? ==> r.error == ValueError
    ensures r.Ok? && r.value.outcome == NewDevice <==> FirstMatch(registry, candidate, matches).None?
    ensures r.Ok? && r.value.outcome == NewDevice ==> r.value.registry == registry + [candidate]
    ensures r.Ok? && !r.value.outcome.NewDevice? ==>
      var i := r.value.outcome.index;
      && FirstMatch(registry, candidate, matches) == Some(i)
      && |r.value.registry| == |registry|
      && r.value.registry[i] == Merge(registry[i], candidate)
      && (forall j :: 0 <= j < |registry| && j != i ==> r.value.registry[j] == registry[j])
      && (r.value.outcome.NoUpdate? <==> r.value.registry == registry)
    ensures r.Err? <==>
      var m := FirstMatch(registry, candidate, matches);
      m.Some? && registry[m.value].vendor != candidate.vendor
  {
    match FirstMatch(registry, candidate, matches)
    case None => Ok(Registered(registry + [candidate], NewDevice))
    case Some(i) =>
      match UnionOutcome(registry[i], candidate)
      case Err(e) => Err(e)
      case Ok(changed) =>
        if changed then
          Ok(Registered(registry[i := Merge(registry[i], candidate)], DeviceUpdate(i)))
        else
          Ok(Registered(registry, NoUpdate(i)))
  }

  /** Every match rule of the parser files accepts two records with a common address. */
  ghost predicate SharedAddressMatches<S(!new)>(matches: MatchRule<S>)
  {
    forall a: DeviceView<S>, b: DeviceView<S> {:trigger matches(a, b)} ::
      a.addresses * b.addresses != {} ==> matches(a, b)
  }

  /** After a successful registration the candidate's addresses are all held
      by one entry, and no entry has lost an address. */
  lemma RegisterRecordsAddresses<S>(registry: seq<DeviceView<S>>, candidate: DeviceView<S>, matches: MatchRule<S>)
    requires Register(registry, candidate, matches).Ok?
    ensures var after := Register(registry, candidate, matches).value.registry;
      && |registry| <= |after| <= |registry| + 1
      && (forall j :: 0 <= j < |registry| ==> registry[j].addresses <= after[j].addresses)
      && exists j :: 0 <= j < |after| && candidate.addresses <= after[j].addresses
  {
    var r := Register(registry, candidate, matches).value;
    if r.outcome.NewDevice? {
      assert r.registry[|registry|] == candidate;
    } else {
      var i := r.outcome.index;
      assert candidate.addresses <= r.registry[i].addresses;
    }
  }

  /** Registering the same candidate a second time finds the entry the first
      registration left it in and changes nothing. */
  lemma RegisterTwice<S(!new)>(registry: seq<DeviceView<S>>, candidate: DeviceView<S>, matches: MatchRule<S>)
    requires SharedAddressMatches(matches)
    requires candidate.addresses != {}
    requires Register(registry, candidate, matches).Ok?
    ensures var once := Register(registry, candidate, matches).value.registry;
      var twice := Register(once, candidate, matches);
      twice.Ok? && twice.value.registry == once && twice.value.outcome.NoUpdate?
  {
    var first := Register(registry, candidate, matches).value;
    var once := first.registry;
    // the entry the candidate ended up in
    var k: nat := if first.outcome.NewDevice? then |registry| else first.outcome.index;
    assert Covers(once[k], candidate) && once[k].vendor == candidate.vendor;
    var x :| x in candidate.addresses;
    assert x in once[k].addresses * candidate.addresses;
    assert matches(candidate, once[k]);
    forall j | 0 <= j < k
      ensures !matches(candidate, once[j])
    {
      assert once[j] == registry[j];
    }
    assert FirstMatchFrom(once, candidate, matches, 0) == Some(k) by {
      FirstMatchIs(once, candidate, matches, k);
    }
    assert Merge(once[k], candidate) == once[k];
  }

  /** The first match is the one index that matches with no match before it. */
  lemma FirstMatchIs<S>(registry: seq<DeviceView<S>>, candidate: DeviceView<S>, matches: MatchRule<S>, k: nat)
    requires k < |registry| && matches(candidate, registry[k])
    requires forall j :: 0 <= j < k ==> !matches(candidate, registry[j])
    ensures FirstMatch(registry, candidate, matches) == Some(k)
  {
  }
}
