/**
 * Device discovery in `AudioCapture`: classifying the DirectShow device names
 * ffmpeg lists, the fallback list when none is found, and the choice of a
 * recommended device (an in-place stable sort by priority, then the first
 * recommended entry).
 */
module DeviceDiscovery {
  import opened Wrappers

  datatype DeviceType = StereoMix | Microphone | DefaultInput

  /**
   * A device object as `getDevices` builds it. Fields that some objects lack (the fallback
   * devices carry no `deviceType`, `isRecommended` or `priority`; discovered ones no
   * `isDefault`) are `None`.
   */
  datatype Device = Device(
    name: string,
    mediaType: string,
    id: string,
    deviceType: Option<DeviceType>,
    sampleRates: Option<seq<int>>,
    channels: Option<seq<int>>,
    bitDepths: Option<seq<int>>,
    isRecommended: Option<bool>,
    priority: Option<int>,
    isDefault: Option<bool>)

  const DefaultSampleRates: seq<int> := [44100, 48000, 96000]
  const DefaultChannels: seq<int> := [1, 2]
  const DefaultBitDepths: seq<int> := [16, 24]

  const StereoMixZh: string := "立体声混音"
  const MicrophoneZh: string := "麦克风"

  /** `String.prototype.includes`: `sub` occurs at some position of `s`. */
  predicate Contains(s: string, sub: string)
    ensures sub == [] ==> Contains(s, sub)
    ensures Contains(s, sub) ==> |sub| <= |s|
  {
    |sub| <= |s| && (s[..|sub|] == sub || Contains(s[1..], sub))
  }

  /** A string lacking one of the characters of `sub` cannot contain `sub`. */
  lemma {:induction false} NotContains(s: string, sub: string, k: nat)
    requires k < |sub| && forall i :: 0 <= i < |s| ==> s[i] != sub[k]
    ensures !Contains(s, sub)
  {
    if |sub| <= |s| {
      assert s[..|sub|][k] == s[k];
      NotContains(s[1..], sub, k);
    }
  }

  predicate IsStereoMixName(name: string) {
    Contains(name, StereoMixZh) || Contains(name, "Stereo Mix")
  }

  predicate IsMicrophoneName(name: string) {
    Contains(name, MicrophoneZh) || Contains(name, "Microphone")
  }

  predicate IsDefaultName(name: string) {
    Contains(name, "default") || Contains(name, "Default")
  }

  datatype Classification = Classification(deviceType: DeviceType, isRecommended: bool, priority: int)

  /**
   * The type, recommendation and priority of a listed device. Only stereo mix is recommended,
   * and the priorities 1, 2, 3 follow the first matching family; a name matching none of them
   * keeps the initial microphone/0.
   */
  function Classify(name: string): (c: Classification)
    ensures c.isRecommended <==> c.priority == 1
    ensures c.isRecommended <==> c.deviceType == StereoMix
    ensures 0 <= c.priority <= 3
    ensures c.priority == 0 <==> !IsStereoMixName(name) && !IsMicrophoneName(name) && !IsDefaultName(name)
    ensures c.deviceType == DefaultInput ==> IsDefaultName(name)
  {
    if IsStereoMixName(name) then Classification(StereoMix, true, 1)
    else if IsMicrophoneName(name) then Classification(Microphone, false, 2)
    else if IsDefaultName(name) then Classification(DefaultInput, false, 3)
    else Classification(Microphone, false, 0)
  }

  /** The object pushed for one matched device line; its `id` is its name. */
  function Describe(name: string): (d: Device)
    ensures d.name == name && d.id == name && d.isDefault.None?
    ensures d.isRecommended == Some(IsStereoMixName(name))
    ensures d.deviceType == Some(StereoMix) <==> IsStereoMixName(name)
    ensures d.priority.Some? && 0 <= d.priority.value <= 3
  {
    var c := Classify(name);
    Device(name, "audio", name, Some(c.deviceType), Some(DefaultSampleRates), Some(DefaultChannels),
           Some(DefaultBitDepths), Some(c.isRecommended), Some(c.priority), None)
  }

  /** The two devices pushed when no device line matched. */
  function Fallback(): (r: seq<Device>)
    ensures |r| == 2 && r[0].id == "stereo_mix" && r[1].id == "default"
    ensures forall d :: d in r ==> d.isDefault == Some(true) && d.priority.None? && d.isRecommended.None?
  {
    [Device("立体声混音 (Realtek High Definition Audio)", "audio", "stereo_mix", None, Some(DefaultSampleRates),
            Some(DefaultChannels), Some(DefaultBitDepths), None, None, Some(true)),
     Device("default", "audio", "default", None, Some(DefaultSampleRates),
            Some(DefaultChannels), Some(DefaultBitDepths), None, None, Some(true))]
  }

  /** The `forEach` pass: a missing capability list gets its default. */
  function WithCapabilities(d: Device): (r: Device)
    ensures r.sampleRates.Some? && r.channels.Some? && r.bitDepths.Some?
    ensures r.name == d.name && r.id == d.id && r.priority == d.priority && r.isRecommended == d.isRecommended
  {
    d.(sampleRates := Some(d.sampleRates.GetOr(DefaultSampleRates)),
       channels := Some(d.channels.GetOr(DefaultChannels)),
       bitDepths := Some(d.bitDepths.GetOr(DefaultBitDepths)))
  }

  /** What `getDevices` resolves to, given the device names extracted from ffmpeg's listing. */
  function Discovered(names: seq<string>): (r: seq<Device>)
    ensures |r| == if names == [] then 2 else |names|
  {
    var found := seq(|names|, i requires 0 <= i < |names| => Describe(names[i]));
    var devices := if found == [] then Fallback() else found;
    seq(|devices|, i requires 0 <= i < |devices| => WithCapabilities(devices[i]))
  }

  /**
   * One device per extracted name, in order, named and identified by that name and classified by
   * it; exactly the stereo-mix and default fallbacks when none was extracted; and every device
   * ends with non-empty capability lists.
   */
  lemma DiscoveredShape(names: seq<string>)
    ensures var r := Discovered(names);
      && (names == [] ==> r[0].id == "stereo_mix" && r[1].id == "default" &&
                          r[0].isDefault == Some(true) && r[1].isDefault == Some(true))
      && (forall i :: 0 <= i < |names| ==>
            && r[i].name == names[i] && r[i].id == names[i]
            && r[i].deviceType == Some(Classify(names[i]).deviceType)
            && r[i].priority == Some(Classify(names[i]).priority)
            && r[i].isRecommended == Some(Classify(names[i]).isRecommended))
      && (forall i :: 0 <= i < |r| ==>
            && r[i].sampleRates.Some? && |r[i].sampleRates.value| > 0
            && r[i].channels.Some? && |r[i].channels.value| > 0
            && r[i].bitDepths.Some? && |r[i].bitDepths.value| > 0)
  {
    var r := Discovered(names);
    if names == [] {
      assert r == [WithCapabilities(Fallback()[0]), WithCapabilities(Fallback()[1])];
    } else {
      forall i | 0 <= i < |names| ensures r[i] == WithCapabilities(Describe(names[i])) {
      }
    }
  }

  /** `getDevices` once ffmpeg has listed: pushes one object per name, the fallbacks if none, then fills capabilities. */
  method GetDevices(names: seq<string>) returns (devices: seq<Device>)
    ensures devices == Discovered(names)
  {
    devices := [];
    for i := 0 to |names|
      invariant devices == seq(i, j requires 0 <= j < i => Describe(names[j]))
    {
      devices := devices + [Describe(names[i])];
    }
    if |devices| == 0 {
      devices := devices + [Fallback()[0]];
      devices := devices + [Fallback()[1]];
    }
    ghost var pushed := devices;
    for i := 0 to |devices|
      invariant |devices| == |pushed|
      invariant forall j :: 0 <= j < i ==> devices[j] == WithCapabilities(pushed[j])
      invariant forall j :: i <= j < |devices| ==> devices[j] == pushed[j]
    {
      devices := devices[i := WithCapabilities(devices[i])];
    }
  }

  /** An occurrence of `sub` at any position makes `includes` true. */
  lemma {:induction false} ContainsAt(s: string, sub: string, i: nat)
    requires i + |sub| <= |s| && s[i..i + |sub|] == sub
    ensures Contains(s, sub)
  {
    if i > 0 {
      ContainsAt(s[1..], sub, i - 1);
      assert s[1..][i - 1..i - 1 + |sub|] == s[i..i + |sub|];
    }
  }

  /** Conversely, when `includes` is true, `sub` occurs at some position. */
  lemma {:induction false} ContainsWitness(s: string, sub: string) returns (i: nat)
    requires Contains(s, sub)
    ensures i + |sub| <= |s| && s[i..i + |sub|] == sub
  {
    if s[..|sub|] == sub {
      i := 0;
    } else {
      var j := ContainsWitness(s[1..], sub);
      assert s[1..][j..j + |sub|] == s[j + 1..j + 1 + |sub|];
      i := j + 1;
    }
  }

  /** The tag occurs in `p + tag + q` right after `p`. */
  lemma ContainsInfix(p: string, tag: string, q: string)
    ensures Contains(p + tag + q, tag)
  {
    ContainsAt(p + tag + q, tag, |p|);
  }

  /** Either spelling of stereo mix, anywhere in the name, gives stereo mix, recommended, priority 1. */
  lemma ClassifyStereoMix(p: string, tag: string, q: string)
    requires tag == StereoMixZh || tag == "Stereo Mix"
    ensures Classify(p + tag + q) == Classification(StereoMix, true, 1)
  {
    ContainsInfix(p, tag, q);
  }

  /** Either spelling of microphone, anywhere in a name that does not name stereo mix, gives priority 2. */
  lemma ClassifyMicrophone(p: string, tag: string, q: string)
    requires tag == MicrophoneZh || tag == "Microphone"
    requires !IsStereoMixName(p + tag + q)
    ensures Classify(p + tag + q) == Classification(Microphone, false, 2)
  {
    ContainsInfix(p, tag, q);
  }

  /** "default" or "Default", anywhere in a name that names neither stereo mix nor microphone, gives priority 3. */
  lemma ClassifyDefault(p: string, tag: string, q: string)
    requires tag == "default" || tag == "Default"
    requires !IsStereoMixName(p + tag + q) && !IsMicrophoneName(p + tag + q)
    ensures Classify(p + tag + q) == Classification(DefaultInput, false, 3)
  {
    ContainsInfix(p, tag, q);
  }

  /** A name matching no family keeps the initial values: microphone, not recommended, priority 0. */
  lemma ClassifyUnmatched(name: string)
    requires !IsStereoMixName(name) && !IsMicrophoneName(name) && !IsDefaultName(name)
    ensures Classify(name) == Classification(Microphone, false, 0)
  {
  }

  // ---------------------------------------------------------------- sorting by priority

  /** The sort key `a.priority - b.priority` compares. */
  function Key(d: Device): int {
    d.priority.GetOr(0)
  }

  /**
   * The comparator is consistent only when every priority is a number or every one is
   * `undefined` (then every comparison is NaN and the order is kept).
   */
  predicate ConsistentPriorities(s: seq<Device>) {
    (forall i :: 0 <= i < |s| ==> s[i].priority.Some?) || (forall i :: 0 <= i < |s| ==> s[i].priority.None?)
  }

  predicate Sorted(s: seq<Device>) {
    forall i, j :: 0 <= i < j < |s| ==> Key(s[i]) <= Key(s[j])
  }

  /** Places `x` after every element whose key is not larger, scanning from the back. */
  function Insert(s: seq<Device>, x: Device): (r: seq<Device>)
    ensures |r| == |s| + 1
  {
    if s == [] || Key(s[|s| - 1]) <= Key(x) then s + [x]
    else Insert(s[..|s| - 1], x) + [s[|s| - 1]]
  }

  /** The stable ascending order `Array.prototype.sort` produces with the priority comparator. */
  function SortByPriority(s: seq<Device>): (r: seq<Device>)
    ensures |r| == |s|
  {
    if s == [] then [] else Insert(SortByPriority(s[..|s| - 1]), s[|s| - 1])
  }

  /** The devices of priority key k, in order. */
  function WithKey(s: seq<Device>, k: int): seq<Device> {
    if s == [] then []
    else WithKey(s[..|s| - 1], k) + if Key(s[|s| - 1]) == k then [s[|s| - 1]] else []
  }

  lemma {:induction false} InsertMultiset(s: seq<Device>, x: Device)
    ensures multiset(Insert(s, x)) == multiset(s) + multiset{x}
  {
    if s != [] && Key(s[|s| - 1]) > Key(x) {
      var init, last := s[..|s| - 1], s[|s| - 1];
      InsertMultiset(init, x);
      assert s == init + [last];
    }
  }

  lemma {:induction false} InsertSorted(s: seq<Device>, x: Device)
    requires Sorted(s)
    ensures Sorted(Insert(s, x))
  {
    if s != [] && Key(s[|s| - 1]) > Key(x) {
      var init, last := s[..|s| - 1], s[|s| - 1];
      InsertSorted(init, x);
      InsertMultiset(init, x);
      var ri := Insert(init, x);
      forall i | 0 <= i < |ri| ensures Key(ri[i]) <= Key(last) {
        assert ri[i] in multiset(ri);
        if ri[i] != x {
          assert ri[i] in multiset(init);
          var j :| 0 <= j < |init| && init[j] == ri[i];
          assert s[j] == init[j];
        }
      }
    }
  }

  lemma {:induction false} InsertWithKey(s: seq<Device>, x: Device, k: int)
    ensures WithKey(Insert(s, x), k) == WithKey(s, k) + if Key(x) == k then [x] else []
  {
    var n := |s|;
    if s == [] || Key(s[n - 1]) <= Key(x) {
      assert (s + [x])[..n] == s;
    } else {
      var init, last := s[..n - 1], s[n - 1];
      InsertWithKey(init, x, k);
      var ri := Insert(init, x);
      assert (ri + [last])[..n] == ri;
      assert WithKey(Insert(s, x), k) == WithKey(ri, k) + if Key(last) == k then [last] else [];
    }
  }

  /** The priority sort is a permutation of its input. */
  lemma {:induction false} SortByPriorityPermutation(s: seq<Device>)
    ensures multiset(SortByPriority(s)) == multiset(s)
  {
    if s != [] {
      var init, last := s[..|s| - 1], s[|s| - 1];
      SortByPriorityPermutation(init);
      InsertMultiset(SortByPriority(init), last);
      assert s == init + [last];
    }
  }

  /** The priority sort is ascending. */
  lemma {:induction false} SortByPriorityOrdered(s: seq<Device>)
    ensures Sorted(SortByPriority(s))
  {
    if s != [] {
      var init := s[..|s| - 1];
      SortByPriorityOrdered(init);
      InsertSorted(SortByPriority(init), s[|s| - 1]);
    }
  }

  /** The priority sort is stable: the devices of each priority keep their relative order. */
  lemma {:induction false} SortByPriorityStable(s: seq<Device>, k: int)
    ensures WithKey(SortByPriority(s), k) == WithKey(s, k)
  {
    if s != [] {
      var init := s[..|s| - 1];
      SortByPriorityStable(init, k);
      InsertWithKey(SortByPriority(init), s[|s| - 1], k);
    }
  }

  /** The priority sort holds exactly the devices of its input. */
  lemma SortByPriorityMembers(s: seq<Device>)
    ensures forall d :: d in s <==> d in SortByPriority(s)
  {
    SortByPriorityPermutation(s);
    forall d ensures d in s <==> d in SortByPriority(s) {
      assert d in s <==> d in multiset(s);
      assert d in SortByPriority(s) <==> d in multiset(SortByPriority(s));
    }
  }

  /**
   * The priority sort is ascending, a permutation of its input, and stable: the devices of each
   * priority keep their relative order.
   */
  lemma SortByPriorityCorrect(s: seq<Device>)
    ensures Sorted(SortByPriority(s))
    ensures multiset(SortByPriority(s)) == multiset(s)
    ensures forall k :: WithKey(SortByPriority(s), k) == WithKey(s, k)
  {
    SortByPriorityOrdered(s);
    SortByPriorityPermutation(s);
    forall k ensures WithKey(SortByPriority(s), k) == WithKey(s, k) {
      SortByPriorityStable(s, k);
    }
  }

  /**
   * Inserting x lands it after the elements not larger than it: when everything from position j
   * on is larger and the element before j is not, x goes exactly at j.
   */
  lemma {:induction false} InsertAt(sorted: seq<Device>, x: Device, j: nat)
    requires j <= |sorted|
    requires j == 0 || Key(sorted[j - 1]) <= Key(x)
    requires forall k :: j <= k < |sorted| ==> Key(sorted[k]) > Key(x)
    ensures Insert(sorted, x) == sorted[..j] + [x] + sorted[j..]
  {
    if j < |sorted| {
      var init := sorted[..|sorted| - 1];
      InsertAt(init, x, j);
      assert init[..j] == sorted[..j];
      assert init[j..] + [sorted[|sorted| - 1]] == sorted[j..];
    } else {
      assert sorted[..j] == sorted;
    }
  }

  /** The shifting loop: moves every element of a[..i] larger than x one slot right, returning the gap. */
  method ShiftLarger(a: array<Device>, i: nat, x: Device) returns (j: nat)
    requires i < a.Length
    modifies a
    ensures j <= i
    ensures forall k :: 0 <= k < j ==> a[k] == old(a[k])
    ensures forall k :: j < k <= i ==> a[k] == old(a[k - 1])
    ensures forall k :: i < k < a.Length ==> a[k] == old(a[k])
    ensures j == 0 || Key(old(a[j - 1])) <= Key(x)
    ensures forall k :: j <= k < i ==> Key(old(a[k])) > Key(x)
  {
    j := i;
    while j > 0 && Key(a[j - 1]) > Key(x)
      invariant j <= i
      invariant forall k :: 0 <= k < j ==> a[k] == old(a[k])
      invariant forall k :: j < k <= i ==> a[k] == old(a[k - 1])
      invariant forall k :: i < k < a.Length ==> a[k] == old(a[k])
      invariant forall k :: j <= k < i ==> Key(old(a[k])) > Key(x)
    {
      a[j] := a[j - 1];
      j := j - 1;
    }
  }

  /**
   * Inserts `a[i]` into the sorted prefix `a[..i]` by shifting larger elements right, as
   * insertion sort places one element.
   */
  method InsertLast(a: array<Device>, i: nat)
    requires i < a.Length
    modifies a
    ensures a[..i + 1] == Insert(old(a[..i]), old(a[i]))
    ensures a[i + 1..] == old(a[i + 1..])
  {
    ghost var sorted := a[..i];
    var x := a[i];
    var j := ShiftLarger(a, i, x);
    InsertAt(sorted, x, j);
    a[j] := x;
    assert a[..i + 1] == sorted[..j] + [x] + sorted[j..];
  }

  /** `devices.sort((a, b) => a.priority - b.priority)` on the caller's array. */
  method SortInPlace(a: array<Device>)
    modifies a
    ensures a[..] == SortByPriority(old(a[..]))
  {
    ghost var s := a[..];
    for i := 0 to a.Length
      invariant a[..i] == SortByPriority(s[..i])
      invariant a[i..] == s[i..]
    {
      assert s[..i + 1][..i] == s[..i];
      InsertLast(a, i);
      assert a[i + 1..] == s[i + 1..];
    }
    assert s[..a.Length] == s;
  }

  // ---------------------------------------------------------------- the recommended device

  predicate IsRecommended(d: Device) {
    d.isRecommended.GetOr(false)
  }

  /** `find(device => device.isRecommended)`: the index of the first recommended device. */
  function FirstRecommended(s: seq<Device>): (r: Option<nat>)
    ensures r.Some? ==> r.value < |s| && IsRecommended(s[r.value])
    ensures r.Some? ==> forall j :: 0 <= j < r.value ==> !IsRecommended(s[j])
    ensures r.None? ==> forall j :: 0 <= j < |s| ==> !IsRecommended(s[j])
  {
    if s == [] then None
    else if IsRecommended(s[0]) then Some(0)
    else match FirstRecommended(s[1..])
      case None => None
      case Some(i) => Some(i + 1)
  }

  /** What `getRecommendedDevice` returns for a non-null list: `None` stands for `null`. */
  function Recommendation(s: seq<Device>): (r: Option<Device>)
    ensures r.None? <==> s == []
  {
    if s == [] then None
    else
      var sorted := SortByPriority(s);
      match FirstRecommended(sorted)
      case Some(i) => Some(sorted[i])
      case None => Some(sorted[0])
  }

  /**
   * The recommendation is one of the given devices. If any device is recommended, it is a
   * recommended device of the smallest priority among the recommended ones; otherwise it has the
   * smallest priority of all.
   */
  lemma RecommendationCorrect(s: seq<Device>)
    ensures Recommendation(s).None? <==> s == []
    ensures Recommendation(s).Some? ==> Recommendation(s).value in s
    ensures (exists d :: d in s && IsRecommended(d)) ==>
      && IsRecommended(Recommendation(s).value)
      && forall d :: d in s && IsRecommended(d) ==> Key(Recommendation(s).value) <= Key(d)
    ensures (forall d :: d in s ==> !IsRecommended(d)) && s != [] ==>
      forall d :: d in s ==> Key(Recommendation(s).value) <= Key(d)
  {
    if s != [] {
      var sorted := SortByPriority(s);
      SortByPriorityOrdered(s);
      SortByPriorityMembers(s);
      var r := Recommendation(s).value;
      assert r in sorted;
      match FirstRecommended(sorted)
      case Some(i) =>
        forall d | d in s && IsRecommended(d) ensures Key(r) <= Key(d) {
          var j :| 0 <= j < |sorted| && sorted[j] == d;
          assert i <= j;
        }
      case None =>
        forall d | d in s ensures Key(r) <= Key(d) {
          var j :| 0 <= j < |sorted| && sorted[j] == d;
          if 0 < j {
            assert Key(sorted[0]) <= Key(sorted[j]);
          }
        }
    }
  }

  /**
   * `getRecommendedDevice`: `null` for a null or empty list; otherwise the list is sorted in
   * place and the first recommended device, or the first device, is returned.
   */
  method GetRecommendedDevice(devices: array?<Device>) returns (r: Option<Device>)
    requires devices != null ==> ConsistentPriorities(devices[..])
    modifies devices
    ensures devices == null ==> r.None?
    ensures devices != null ==> r == Recommendation(old(devices[..]))
    ensures devices != null && devices.Length > 0 ==> devices[..] == SortByPriority(old(devices[..]))
    ensures devices != null && devices.Length == 0 ==> devices[..] == old(devices[..])
  {
    if devices == null || devices.Length == 0 {
      return None;
    }
    SortInPlace(devices);
    var sortedDevices := devices[..];
    var recommended := FirstRecommended(sortedDevices);
    if recommended.Some? {
      return Some(sortedDevices[recommended.value]);
    }
    return Some(sortedDevices[0]);
  }

  /** Sorting two devices whose priorities are out of order swaps them. */
  lemma SortPairSwaps(a: Device, b: Device)
    requires Key(b) < Key(a)
    ensures SortByPriority([a, b]) == [b, a]
  {
    assert [a, b][..1] == [a] && [a][..0] == [];
    assert SortByPriority([a]) == [a];
    assert Insert([a], b) == Insert([], b) + [a];
  }

  /** Sorting two devices whose priorities are in order keeps them. */
  lemma SortPairKeeps(a: Device, b: Device)
    requires Key(a) <= Key(b)
    ensures SortByPriority([a, b]) == [a, b]
  {
    assert [a, b][..1] == [a] && [a][..0] == [];
  }

  /** A recommended device of priority 1 wins over an earlier one of priority 2. */
  lemma RecommendationPrefersRecommended(a: Device, b: Device)
    requires a.priority == Some(2) && a.isRecommended == Some(false)
    requires b.priority == Some(1) && b.isRecommended == Some(true)
    ensures Recommendation([a, b]) == Some(b)
  {
    SortPairSwaps(a, b);
  }

  /** A recommended device wins even over a lower priority number. */
  lemma RecommendationOverridesPriority(a: Device, b: Device)
    requires a.priority == Some(1) && a.isRecommended == Some(false)
    requires b.priority == Some(2) && b.isRecommended == Some(true)
    ensures Recommendation([a, b]) == Some(b)
  {
    SortPairKeeps(a, b);
  }

  /** With nothing recommended, the lowest priority number wins. */
  lemma RecommendationFallsBackToPriority(a: Device, b: Device)
    requires a.priority == Some(2) && a.isRecommended == Some(false)
    requires b.priority == Some(1) && b.isRecommended.GetOr(false) == false
    ensures Recommendation([a, b]) == Some(b)
  {
    SortPairSwaps(a, b);
  }

  /**
   * With nothing recommended, a device that matched no family (priority 0) is chosen ahead of a
   * microphone (priority 2), although it was never marked as preferred.
   */
  lemma UncategorizedBeforeMicrophone(microphone: string, other: string)
    requires Classify(microphone).priority == 2 && Classify(other).priority == 0
    ensures Recommendation([Describe(microphone), Describe(other)]) == Some(Describe(other))
  {
    SortPairSwaps(Describe(microphone), Describe(other));
  }
}
