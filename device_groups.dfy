/**
 * Device groups and the list operations the context performs on them:
 * lookup by Guid (first match, as LINQ's `First`/`FirstOrDefault` do),
 * removal of the found element, and in-place updates of the found element.
 */
module DeviceGroups {
  import opened Common

  /** The four kinds of device; each has its own list of groups in the context. */
  datatype DeviceType = Joystick | Keyboard | Mouse | Generic

  /** A physical device; the context only ever reads its Guid. */
  datatype Device = Device(guid: Guid)

  /** A named collection of devices of one kind. */
  datatype DeviceGroup = DeviceGroup(guid: Guid, title: string, devices: seq<Device>)

  /** No two groups of one list share a Guid. */
  predicate DistinctGuids(groups: seq<DeviceGroup>)
  {
    forall i, j :: 0 <= i < j < |groups| ==> groups[i].guid != groups[j].guid
  }

  /** Index of the first group whose Guid is `guid`, or None when there is none. */
  function FirstIndexOf(groups: seq<DeviceGroup>, guid: Guid): (r: Option<nat>)
    ensures r.Some? ==> r.value < |groups| && groups[r.value].guid == guid
    ensures r.Some? ==> forall j :: 0 <= j < r.value ==> groups[j].guid != guid
    ensures r.None? <==> forall j :: 0 <= j < |groups| ==> groups[j].guid != guid
  {
    if |groups| == 0 then None
    else if groups[0].guid == guid then Some(0)
    else match FirstIndexOf(groups[1..], guid)
      case None => None
      case Some(i) => Some(i + 1)
  }

  /** The list with the element at `i` taken out, the rest kept in order. */
  function RemoveAt(groups: seq<DeviceGroup>, i: nat): (r: seq<DeviceGroup>)
    requires i < |groups|
    ensures |r| == |groups| - 1
    ensures forall j :: 0 <= j < i ==> r[j] == groups[j]
    ensures forall j :: i <= j < |r| ==> r[j] == groups[j + 1]
    ensures multiset(r) + multiset{groups[i]} == multiset(groups)
  {
    assert groups == groups[..i] + [groups[i]] + groups[i + 1..];
    groups[..i] + groups[i + 1..]
  }

  /** After removing the group a lookup found, a list with distinct Guids no longer holds that Guid. */
  lemma RemovedGroupIsGone(groups: seq<DeviceGroup>, guid: Guid)
    requires DistinctGuids(groups)
    requires FirstIndexOf(groups, guid).Some?
    ensures FirstIndexOf(RemoveAt(groups, FirstIndexOf(groups, guid).value), guid).None?
    ensures DistinctGuids(RemoveAt(groups, FirstIndexOf(groups, guid).value))
  {
    // Follows from RemoveAt's element-wise contract together with DistinctGuids.
  }

  /** Replacing the found group by one with the same Guid leaves the lookup pointing at it. */
  lemma LookupAfterUpdate(groups: seq<DeviceGroup>, guid: Guid, g: DeviceGroup)
    requires FirstIndexOf(groups, guid).Some?
    requires g.guid == guid
    ensures FirstIndexOf(groups[FirstIndexOf(groups, guid).value := g], guid)
            == FirstIndexOf(groups, guid)
  {
    var i := FirstIndexOf(groups, guid).value;
    assert groups[i := g][i].guid == guid;
  }

  /** Appending a group whose Guid is not yet in the list: the lookup finds it, and Guids stay distinct. */
  lemma LookupAfterAppend(groups: seq<DeviceGroup>, g: DeviceGroup)
    requires FirstIndexOf(groups, g.guid).None?
    ensures FirstIndexOf(groups + [g], g.guid) == Some(|groups|)
    ensures DistinctGuids(groups) ==> DistinctGuids(groups + [g])
  {
    var s := groups + [g];
    assert s[|groups|].guid == g.guid;
    assert forall j :: 0 <= j < |groups| ==> s[j] == groups[j];
    assert forall j :: 0 <= j < |groups| ==> s[j].guid != g.guid;
    if DistinctGuids(groups) {
      forall a, b | 0 <= a < b < |s| ensures s[a].guid != s[b].guid {
        if b < |groups| {
          assert s[a] == groups[a] && s[b] == groups[b];
        }
      }
    }
  }
}
