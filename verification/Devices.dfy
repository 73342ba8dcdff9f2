/** Device records and the devices they are grouped into (scripts/routerkit_devices.py:305-481). */
module Devices {
  import opened Wrappers
  import opened Ordering

  datatype IdType = MacId | RouterId | VendorId | OtherId

  datatype Online = Online | UnknownState | Offline

  datatype Link = Ethernet | WifiLink | UnknownLink

  /** A display name with its lower-case and casefolded forms. */
  datatype Label = Label(text: string, lower: string, folded: string)

  /** A parsed record. Text fields are absent rather than empty. */
  datatype Record = Record(
    source: string, sourceKind: string, recordId: string, name: Option<Label>, addresses: seq<string>,
    stableId: Option<string>, idType: IdType, vendorId: Option<string>, online: Online, link: Link,
    band: Option<string>, interface: Option<string>, policy: Option<string>, stale: bool)

  datatype Reason = NoIdentity | NoMac | ConflictingIdentity | AmbiguousLabel

  datatype Device = Device(
    recordId: string, name: Label, addresses: set<string>, stableId: Option<string>, idType: IdType, online: Online,
    link: Link, band: Option<string>, interface: Option<string>, policy: Option<string>, sourceKinds: set<string>,
    stale: bool, selectable: bool, reason: Option<Reason>, conflict: bool)

  datatype DeviceError = TooManyRecords | TooManyAddresses

  const MAX_TOTAL_RECORDS := 512
  const MAX_ADDRESSES_PER_DEVICE := 32

  // ---- Identity and keys ----

  function TypeText(t: IdType): string {
    match t
    case MacId => "mac"
    case RouterId => "router_id"
    case VendorId => "vendor_record_id"
    case OtherId => "unknown"
  }

  /** `_display_identity`. */
  function Identity(r: Record): Option<string> {
    if r.stableId.Some? then Some(TypeText(r.idType) + ":" + r.stableId.value)
    else if r.vendorId.Some? then Some("vendor_record_id:" + r.vendorId.value)
    else None
  }

  /** `_assignment_identity`. */
  function AssignmentIdentity(r: Record): Option<string> {
    if r.stableId.Some? && r.idType.MacId? then Some("mac:" + r.stableId.value) else None
  }

  function Joined(xs: seq<string>): string {
    if xs == [] then "" else if |xs| == 1 then xs[0] else xs[0] + "," + Joined(xs[1..])
  }

  /** `_record_group_key`: one key per stable identity; without one, per source record. */
  function GroupKey(r: Record): string {
    if Identity(r).Some? then "stable|" + Identity(r).value
    else "weak|" + r.source + "|" + r.recordId + "|" + Joined(r.addresses)
  }

  lemma {:induction false} MacIdentityShows(r: Record, mac: string)
    ensures Identity(r) == Some("mac:" + mac) <==> r.stableId == Some(mac) && r.idType.MacId?
  {
    if r.stableId.Some? {
      assert Identity(r).value[0] ==
             match r.idType case MacId => 'm' case RouterId => 'r' case VendorId => 'v' case OtherId => 'u';
      if r.idType.MacId? {
        assert Identity(r).value[4..] == r.stableId.value;
      }
    } else if r.vendorId.Some? {
      assert Identity(r).value[0] == 'v';
    }
    assert "mac" + ":" == "mac:";
    assert ("mac:" + mac)[0] == 'm' && ("mac:" + mac)[4..] == mac;
  }

  lemma {:induction false} SameKeySameIdentity(r: Record, s: Record)
    requires GroupKey(r) == GroupKey(s)
    ensures Identity(r) == Identity(s)
  {
    if Identity(r).Some? {
      assert GroupKey(r)[0] == 's' && GroupKey(r)[7..] == Identity(r).value;
    }
    if Identity(s).Some? {
      assert GroupKey(s)[0] == 's' && GroupKey(s)[7..] == Identity(s).value;
    }
  }

  /** `_record_sort_key`. */
  function SortKey(r: Record): (string, string, string) {
    (r.source, r.recordId, if Identity(r).Some? then Identity(r).value else Joined(r.addresses))
  }

  predicate RecordLeq(r: Record, s: Record) {
    var (a, b) := (SortKey(r), SortKey(s));
    if a.0 != b.0 then LexLeq(a.0, b.0) else if a.1 != b.1 then LexLeq(a.1, b.1) else LexLeq(a.2, b.2)
  }

  // ---- Groups ----

  /** The records with a key, in order. */
  function Group(records: seq<Record>, key: string): seq<Record> {
    if records == [] then []
    else
      var rest := Group(records[..|records| - 1], key);
      var last := records[|records| - 1];
      if GroupKey(last) == key then rest + [last] else rest
  }

  /** The keys in order of first appearance. */
  function KeysSeen(records: seq<Record>): seq<string> {
    if records == [] then []
    else
      var rest := KeysSeen(records[..|records| - 1]);
      var key := GroupKey(records[|records| - 1]);
      if key in rest then rest else rest + [key]
  }

  predicate Distinct(keys: seq<string>) {
    forall i, j :: 0 <= i < j < |keys| ==> keys[i] != keys[j]
  }

  lemma {:induction false} SeenKeys(records: seq<Record>)
    ensures Distinct(KeysSeen(records))
    ensures forall key :: key in KeysSeen(records) <==> exists r :: r in records && GroupKey(r) == key
  {
    if records != [] {
      var front, last := records[..|records| - 1], records[|records| - 1];
      SeenKeys(front);
      assert records == front + [last];
      forall key ensures key in KeysSeen(records) <==> exists r :: r in records && GroupKey(r) == key {
        if exists r :: r in records && GroupKey(r) == key {
          var r :| r in records && GroupKey(r) == key;
          assert r in front || r == last;
        }
      }
    }
  }

  lemma {:induction false} GroupMembers(records: seq<Record>, key: string)
    ensures forall r :: r in Group(records, key) <==> r in records && GroupKey(r) == key
    ensures forall r :: multiset(Group(records, key))[r] == if GroupKey(r) == key then multiset(records)[r] else 0
  {
    if records != [] {
      var front, last := records[..|records| - 1], records[|records| - 1];
      GroupMembers(front, key);
      assert records == front + [last];
      forall r ensures multiset(Group(records, key))[r] == if GroupKey(r) == key then multiset(records)[r] else 0 {
        assert multiset(records)[r] == multiset(front)[r] + multiset([last])[r];
      }
    }
  }

  // ---- One device ----

  /** A vendor id that belongs to more than one identity. */
  predicate ConflictingVendor(records: seq<Record>, vendor: string) {
    exists r, s :: r in records && s in records && r.vendorId == Some(vendor) && s.vendorId == Some(vendor)
                   && Identity(r) != Identity(s)
  }

  function TrustedIdentities(group: seq<Record>): set<string> {
    set r | r in group && AssignmentIdentity(r).Some? :: AssignmentIdentity(r).value
  }

  function AllAddresses(group: seq<Record>): set<string> {
    set r, a | r in group && a in r.addresses :: a
  }

  /** The first record that has a value decides. */
  function PickFirst<T>(group: seq<Record>, f: Record -> Option<T>): Option<T> {
    if group == [] then None else if f(group[0]).Some? then f(group[0]) else PickFirst(group[1..], f)
  }

  function NameOf(r: Record): Option<Label> {
    r.name
  }

  function BandOf(r: Record): Option<string> {
    r.band
  }

  function InterfaceOf(r: Record): Option<string> {
    r.interface
  }

  function PolicyOf(r: Record): Option<string> {
    r.policy
  }

  function PickName(group: seq<Record>, fallback: Label): Label {
    PickFirst(group, NameOf).GetOr(fallback)
  }

  function PickOnline(group: seq<Record>): Online {
    if exists r :: r in group && r.online.Online? then Online
    else if exists r :: r in group && r.online.UnknownState? then UnknownState
    else Offline
  }

  /** The one concrete connection type the group agrees on. */
  function PickLink(group: seq<Record>): Link {
    var wired, wifi := exists r :: r in group && r.link.Ethernet?, exists r :: r in group && r.link.WifiLink?;
    if wired && !wifi then Ethernet else if wifi && !wired then WifiLink else UnknownLink
  }

  function WeakSeed(group: seq<Record>): string {
    if group == [] then ""
    else
      var head := group[0].source + ":" + group[0].recordId + ":" + Joined(group[0].addresses);
      if |group| == 1 then head else head + "|" + WeakSeed(group[1..])
  }

  function Seed(group: seq<Record>): string
    requires group != []
  {
    if Identity(group[0]).Some? then Identity(group[0]).value else WeakSeed(group)
  }

  /** Record ids and fallback names, as any functions of the seed and the id. */
  datatype Naming = Naming(digest: string -> string, unnamed: string -> Label)

  function BlockReason(identity: Option<string>, hasTrusted: bool, conflict: bool): Option<Reason> {
    if identity.None? then Some(NoIdentity)
    else if !hasTrusted then Some(NoMac)
    else if conflict then Some(ConflictingIdentity)
    else None
  }

  /** Some record of the group shares its vendor id with another identity. */
  predicate InConflict(records: seq<Record>, group: seq<Record>) {
    exists r :: r in group && r.vendorId.Some? && ConflictingVendor(records, r.vendorId.value)
  }

  /** The device a group stands for. */
  function DeviceFor(records: seq<Record>, group: seq<Record>, naming: Naming): Device
    requires group != []
  {
    DeviceOf(group, InConflict(records, group), naming)
  }

  function DeviceOf(group: seq<Record>, conflict: bool, naming: Naming): Device
    requires group != []
  {
    var id := naming.digest(Seed(group));
    var hasTrusted := |TrustedIdentities(group)| == 1;
    Device(id, PickName(group, naming.unnamed(id)), AllAddresses(group), group[0].stableId, group[0].idType,
           PickOnline(group), PickLink(group), PickFirst(group, BandOf), PickFirst(group, InterfaceOf),
           PickFirst(group, PolicyOf),
           set r | r in group :: r.sourceKind, forall r :: r in group ==> r.stale, hasTrusted && !conflict,
           BlockReason(Identity(group[0]), hasTrusted, conflict), conflict)
  }

  /** The devices of some keys, in their order. */
  function DevicesFor(records: seq<Record>, sorted: seq<Record>, keys: seq<string>, naming: Naming): seq<Device>
    requires forall key :: key in keys ==> Group(sorted, key) != []
  {
    if keys == [] then []
    else
      assert forall key :: key in keys[..|keys| - 1] ==> key in keys;
      DevicesFor(records, sorted, keys[..|keys| - 1], naming)
      + [DeviceFor(records, Group(sorted, keys[|keys| - 1]), naming)]
  }

  // ---- Labels ----

  datatype Shown = Shown(lower: string, addresses: set<string>, link: Link)

  /** What a person choosing a device would see. */
  function ShownAs(d: Device): Shown {
    Shown(d.name.lower, d.addresses, d.link)
  }

  function Occurrences(devices: seq<Device>, shown: Shown): nat {
    if devices == [] then 0
    else Occurrences(devices[..|devices| - 1], shown) + (if ShownAs(devices[|devices| - 1]) == shown then 1 else 0)
  }

  function Unambiguous(devices: seq<Device>, d: Device): Device {
    if Occurrences(devices, ShownAs(d)) > 1 then d.(selectable := false, reason := Some(AmbiguousLabel)) else d
  }

  function Disambiguated(devices: seq<Device>): (r: seq<Device>)
    ensures |r| == |devices|
  {
    seq(|devices|, k requires 0 <= k < |devices| => Unambiguous(devices, devices[k]))
  }

  function StateRank(o: Online): nat {
    match o case Online => 0 case UnknownState => 1 case Offline => 2
  }

  predicate DeviceLeq(d: Device, e: Device) {
    if d.online != e.online then StateRank(d.online) <= StateRank(e.online)
    else if d.name.folded != e.name.folded then LexLeq(d.name.folded, e.name.folded)
    else LexLeq(d.recordId, e.recordId)
  }

  // ---- Everything ----

  function SortedKeys(records: seq<Record>): seq<string> {
    Sort(LexLeq, KeysSeen(Sort(RecordLeq, records)))
  }

  lemma {:induction false} SortedKeysFacts(records: seq<Record>)
    ensures Distinct(SortedKeys(records))
    ensures forall key :: key in SortedKeys(records) <==> exists r :: r in records && GroupKey(r) == key
    ensures forall key :: key in SortedKeys(records) ==> Group(Sort(RecordLeq, records), key) != []
  {
    var sorted := Sort(RecordLeq, records);
    var seen, keys := KeysSeen(sorted), SortedKeys(records);
    SortPermutes(RecordLeq, records);
    SameMembers(sorted, records);
    SeenKeys(sorted);
    SortPermutes(LexLeq, seen);
    SameMembers(keys, seen);
    DistinctPermutes(seen, keys);
    forall key | key in keys ensures Group(sorted, key) != [] {
      var r :| r in sorted && GroupKey(r) == key;
      GroupMembers(sorted, key);
      assert r in Group(sorted, key);
    }
  }

  lemma {:induction false} DistinctPermutes(a: seq<string>, b: seq<string>)
    requires Distinct(a) && multiset(a) == multiset(b)
    ensures Distinct(b)
  {
    forall x ensures multiset(a)[x] <= 1 {
      CountOfDistinct(a, x);
    }
    forall i, j | 0 <= i < j < |b| ensures b[i] != b[j] {
      assert b == b[..j] + b[j..];
      assert b[i] in b[..j] && b[j] in b[j..];
      assert multiset(b)[b[i]] == multiset(b[..j])[b[i]] + multiset(b[j..])[b[i]];
      assert b[..j][i] == b[i] && b[j..][0] == b[j];
      assert multiset(b[..j])[b[i]] >= 1;
      assert b[i] !in multiset(b[j..]) && b[i] !in b[j..];
    }
  }

  lemma {:induction false} CountOfDistinct(a: seq<string>, x: string)
    requires Distinct(a)
    ensures multiset(a)[x] <= 1
  {
    if a != [] {
      var front, last := a[..|a| - 1], a[|a| - 1];
      CountOfDistinct(front, x);
      assert a == front + [last];
      if x == last {
        assert last !in front;
        assert multiset(front)[x] == 0;
      }
    }
  }

  /** `normalize_records`, as far as its devices go. */
  function Normalized(records: seq<Record>, naming: Naming): Result<seq<Device>, DeviceError> {
    if |records| > MAX_TOTAL_RECORDS then Err(TooManyRecords)
    else
      SortedKeysFacts(records);
      var devices := DevicesFor(records, Sort(RecordLeq, records), SortedKeys(records), naming);
      if exists d :: d in devices && |d.addresses| > MAX_ADDRESSES_PER_DEVICE then Err(TooManyAddresses)
      else Ok(Sort(DeviceLeq, Disambiguated(devices)))
  }
}
