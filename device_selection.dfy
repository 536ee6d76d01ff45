/** Physical-device selection (`select_physical_device`): enumerate, rank
    with a hand-written comparator, sort, take the first. */
module DeviceSelection {
  import opened VkTypes

  /** One entry of `enumerate_physical_devices`, together with the device
      type that `get_physical_device_properties` reports for it. */
  datatype PhysicalDevice = PhysicalDevice(handle: Handle, deviceType: PhysicalDeviceType)

  /** The local `DeviceInfo` record: enumeration index, handle and type. */
  datatype DeviceInfo = DeviceInfo(index: nat, handle: Handle, deviceType: PhysicalDeviceType)

  /** `std::cmp::Ordering`. */
  datatype Ordering = Less | Equal | Greater

  /** `usize::cmp`. */
  function CompareIndex(a: nat, b: nat): Ordering {
    if a < b then Less else if a == b then Equal else Greater
  }

  /** The closure passed to `sort_by`, branch for branch. It is exactly the
      lexicographic comparison of (class, enumeration index). */
  function CompareInfos(a: DeviceInfo, b: DeviceInfo): (r: Ordering)
    ensures r == Less <==> RankedBefore(a, b)
    ensures r == Greater <==> RankedBefore(b, a)
    ensures r == Equal <==> Class(a.deviceType) == Class(b.deviceType) && a.index == b.index
  {
    if a.deviceType == b.deviceType then CompareIndex(a.index, b.index)
    else if a.deviceType == DiscreteGpu then Less
    else if b.deviceType == DiscreteGpu then Greater
    else if a.deviceType == IntegratedGpu then Less
    else if b.deviceType == IntegratedGpu then Greater
    else CompareIndex(a.index, b.index)
  }

  /** The preference class the comparator actually distinguishes: discrete,
      then integrated, then one shared class for virtual, CPU and other. */
  function Class(t: PhysicalDeviceType): nat {
    match t
    case DiscreteGpu => 0
    case IntegratedGpu => 1
    case _ => 2
  }

  /** Strict lexicographic order on (class, enumeration index). */
  predicate RankedBefore(a: DeviceInfo, b: DeviceInfo) {
    Class(a.deviceType) < Class(b.deviceType)
    || (Class(a.deviceType) == Class(b.deviceType) && a.index < b.index)
  }

  /** The comparator is a total order, which `sort_by` relies on: it is
      antisymmetric, transitive, and calls two records equal only when
      they share class and index. */
  lemma CompareIsTotalOrder(a: DeviceInfo, b: DeviceInfo, c: DeviceInfo)
    ensures CompareInfos(a, b) == Less <==> CompareInfos(b, a) == Greater
    ensures CompareInfos(a, b) == Equal <==> CompareInfos(b, a) == Equal
    ensures CompareInfos(a, b) == Less && CompareInfos(b, c) == Less ==> CompareInfos(a, c) == Less
    ensures CompareInfos(a, b) != Greater && CompareInfos(b, c) != Greater ==> CompareInfos(a, c) != Greater
  {
  }

  // ---------------------------------------------------------------------
  // `sort_by`, as a stable insertion sort on the comparator

  /** Puts `x` in front of the first element it does not compare greater
      than. */
  function Insert(x: DeviceInfo, s: seq<DeviceInfo>): (r: seq<DeviceInfo>)
    ensures multiset(r) == multiset(s) + multiset{x}
  {
    if s == [] then [x]
    else if CompareInfos(x, s[0]) != Greater then [x] + s
    else
      assert s == [s[0]] + s[1..];
      [s[0]] + Insert(x, s[1..])
  }

  function SortInfos(s: seq<DeviceInfo>): (r: seq<DeviceInfo>)
    ensures multiset(r) == multiset(s)
  {
    if s == [] then []
    else
      assert s == [s[0]] + s[1..];
      Insert(s[0], SortInfos(s[1..]))
  }

  /** No element is ranked before an element that precedes it. */
  predicate Sorted(s: seq<DeviceInfo>) {
    forall i, j :: 0 <= i < j < |s| ==> !RankedBefore(s[j], s[i])
  }

  lemma {:induction false} InsertSorted(x: DeviceInfo, s: seq<DeviceInfo>)
    requires Sorted(s)
    ensures Sorted(Insert(x, s))
  {
    if s != [] && CompareInfos(x, s[0]) == Greater {
      var t := s[1..];
      InsertSorted(x, t);
      var r := Insert(x, s);
      var rest := Insert(x, t);
      assert r == [s[0]] + rest;
      forall j | 0 < j < |r|
        ensures !RankedBefore(r[j], r[0])
      {
        assert r[j] == rest[j - 1];
        assert r[j] in multiset(rest);
        assert r[j] == x || r[j] in multiset(t);
        if r[j] != x {
          var k :| 0 <= k < |t| && t[k] == r[j];
          assert s[k + 1] == r[j];
        }
      }
    } else if s != [] {
      var r := Insert(x, s);
      assert r == [x] + s;
      forall j | 0 < j < |r|
        ensures !RankedBefore(r[j], r[0])
      {
        assert r[j] == s[j - 1];
      }
    }
  }

  /** `sort_by` yields an ordering of the same records in which no record is
      ranked before one that comes earlier. */
  lemma {:induction false} SortInfosSorted(s: seq<DeviceInfo>)
    ensures Sorted(SortInfos(s))
    ensures multiset(SortInfos(s)) == multiset(s)
  {
    if s != [] {
      SortInfosSorted(s[1..]);
      InsertSorted(s[0], SortInfos(s[1..]));
    }
  }

  // ---------------------------------------------------------------------
  // Reference definition: the device first in (class, index) order

  /** Device `i` comes before device `j` in (class, enumeration index) order. */
  predicate Precedes(devices: seq<PhysicalDevice>, i: nat, j: nat)
    requires i < |devices| && j < |devices|
  {
    Class(devices[i].deviceType) < Class(devices[j].deviceType)
    || (Class(devices[i].deviceType) == Class(devices[j].deviceType) && i < j)
  }

  /** Device `k` precedes every other enumerated device. */
  predicate IsBest(devices: seq<PhysicalDevice>, k: nat) {
    k < |devices| && forall j :: 0 <= j < |devices| && j != k ==> Precedes(devices, k, j)
  }

  function BestAmong(devices: seq<PhysicalDevice>, n: nat): (b: nat)
    requires 0 < n <= |devices|
    ensures b < n
    ensures forall j :: 0 <= j < n && j != b ==> Precedes(devices, b, j)
  {
    if n == 1 then 0
    else
      var b := BestAmong(devices, n - 1);
      var last: nat := n - 1;
      if Precedes(devices, last, b) then
        assert forall j :: 0 <= j < last && j != b ==>
          Precedes(devices, b, j) && Precedes(devices, last, j);
        last
      else b
  }

  /** The index of the device that selection should return. */
  function Best(devices: seq<PhysicalDevice>): (k: nat)
    requires |devices| > 0
    ensures IsBest(devices, k)
  {
    BestAmong(devices, |devices|)
  }

  /** At most one device precedes all others. */
  lemma BestIsUnique(devices: seq<PhysicalDevice>, k: nat, m: nat)
    requires IsBest(devices, k) && IsBest(devices, m)
    ensures k == m
  {
    ghost var forward := Precedes(devices, k, m);
    ghost var backward := Precedes(devices, m, k);
  }

  /** The records that the enumeration loop pushes. */
  function BuildInfos(devices: seq<PhysicalDevice>): (infos: seq<DeviceInfo>)
    ensures |infos| == |devices|
  {
    seq(|devices|, i requires 0 <= i < |devices| =>
      DeviceInfo(i, devices[i].handle, devices[i].deviceType))
  }

  /** The first record after sorting is the record of the best device. */
  lemma SortedHeadIsBest(devices: seq<PhysicalDevice>)
    requires |devices| > 0
    ensures |SortInfos(BuildInfos(devices))| > 0
    ensures SortInfos(BuildInfos(devices))[0] == BuildInfos(devices)[Best(devices)]
  {
    var infos := BuildInfos(devices);
    var sorted := SortInfos(infos);
    SortInfosSorted(infos);
    assert |sorted| == |multiset(sorted)| == |multiset(infos)| == |infos|;
    var b := Best(devices);
    var head := sorted[0];
    assert head in multiset(infos);
    var m :| 0 <= m < |infos| && infos[m] == head;
    var best := infos[b];
    assert best in multiset(sorted);
    var p :| 0 <= p < |sorted| && sorted[p] == best;
    // Sorting puts nothing ranked before the head after it ...
    assert p == 0 || !RankedBefore(best, head);
    // ... while the best device's record is ranked before every other.
    BestRankedBefore(devices, b, m);
  }

  /** The best device's record is ranked before any other device's. */
  lemma BestRankedBefore(devices: seq<PhysicalDevice>, b: nat, m: nat)
    requires IsBest(devices, b) && m < |devices|
    ensures m == b || RankedBefore(BuildInfos(devices)[b], BuildInfos(devices)[m])
  {
    if m != b {
      assert Precedes(devices, b, m);
    }
  }

  /** `select_physical_device`: fails only on an empty enumeration, and
      otherwise returns the device first in (class, index) order, so the
      "No suitable GPU found" branch is never taken. */
  method SelectPhysicalDevice(devices: seq<PhysicalDevice>) returns (r: Result<Handle>)
    ensures r.Err? <==> |devices| == 0
    ensures |devices| == 0 ==> r == Err(NO_VULKAN_GPU)
    ensures |devices| > 0 ==> r == Ok(devices[Best(devices)].handle)
  {
    if |devices| == 0 {
      return Err(NO_VULKAN_GPU);
    }
    var infos: seq<DeviceInfo> := [];
    for i := 0 to |devices|
      invariant |infos| == i
      invariant forall k :: 0 <= k < i ==>
                  infos[k] == DeviceInfo(k, devices[k].handle, devices[k].deviceType)
    {
      infos := infos + [DeviceInfo(i, devices[i].handle, devices[i].deviceType)];
    }
    assert infos == BuildInfos(devices);
    SortedHeadIsBest(devices);
    infos := SortInfos(infos);
    r := if |infos| > 0 then Ok(infos[0].handle) else Err(NO_SUITABLE_GPU);
  }

  // ---------------------------------------------------------------------
  // Consequences of the ranking

  /** A discrete GPU is chosen whenever one is enumerated, whatever the order. */
  lemma DiscreteAlwaysWins(devices: seq<PhysicalDevice>, d: nat)
    requires d < |devices| && devices[d].deviceType == DiscreteGpu
    ensures devices[Best(devices)].deviceType == DiscreteGpu
  {
    var b := Best(devices);
    if b != d {
      assert Precedes(devices, b, d);
    }
  }

  /** Without a discrete GPU, an integrated GPU is chosen whenever one is
      enumerated. */
  lemma IntegratedBeatsRest(devices: seq<PhysicalDevice>, g: nat)
    requires g < |devices| && devices[g].deviceType == IntegratedGpu
    requires forall j :: 0 <= j < |devices| ==> devices[j].deviceType != DiscreteGpu
    ensures devices[Best(devices)].deviceType == IntegratedGpu
  {
    var b := Best(devices);
    if b != g {
      assert Precedes(devices, b, g);
    }
  }

  /** Within the winning class the lowest enumeration index is chosen. */
  lemma LowestIndexWithinClass(devices: seq<PhysicalDevice>, j: nat)
    requires j < |devices|
    requires Class(devices[j].deviceType) == Class(devices[Best(devices)].deviceType)
    ensures Best(devices) <= j
  {
    var b := Best(devices);
    if j != b {
      assert Precedes(devices, b, j);
    }
  }

  /** Virtual GPUs, CPUs and other devices share one class: between them
      only the enumeration index decides, so a CPU listed before a virtual
      GPU is chosen, although the source comment ranks virtual above CPU. */
  lemma CpuBeforeVirtualIsChosen(cpu: Handle, virt: Handle)
    ensures Best([PhysicalDevice(cpu, Cpu), PhysicalDevice(virt, VirtualGpu)]) == 0
  {
    var devices := [PhysicalDevice(cpu, Cpu), PhysicalDevice(virt, VirtualGpu)];
    assert IsBest(devices, 0);
    BestIsUnique(devices, 0, Best(devices));
  }

  /** `[CPU, discrete GPU]` selects the discrete GPU. */
  lemma DiscreteAfterCpuIsChosen(cpu: Handle, gpu: Handle)
    ensures Best([PhysicalDevice(cpu, Cpu), PhysicalDevice(gpu, DiscreteGpu)]) == 1
  {
    var devices := [PhysicalDevice(cpu, Cpu), PhysicalDevice(gpu, DiscreteGpu)];
    assert IsBest(devices, 1);
    BestIsUnique(devices, 1, Best(devices));
  }
}
