/**
 * The selection state of `src/App.tsx`: the ordered list of chosen service ids (one id may
 * appear several times) and the per-instance form data, stored under the key
 * `${serviceId}_${index}` of the instance's position in that list.
 */
module Selection {
  import opened JsValues

  /** The selection list and the saved form data of its instances. */
  datatype AppState = AppState(selected: seq<string>, servicesData: map<string, Record>)

  /** `${serviceId}_${index}`. */
  function ServiceKey(serviceId: string, index: nat): string
  {
    serviceId + "_" + NatToString(index)
  }

  /** The key is the id, an underscore, and the decimal digits of the position. */
  lemma ServiceKeyParts(serviceId: string, index: nat)
    ensures var key := ServiceKey(serviceId, index);
      && |key| > |serviceId| + 1 && key[..|serviceId|] == serviceId && key[|serviceId|] == '_'
      && AllDigits(key[|serviceId| + 1..]) && DecimalValue(key[|serviceId| + 1..]) == index
  {
    var key := ServiceKey(serviceId, index);
    assert key[|serviceId| + 1..] == NatToString(index);
  }

  /** The key names its instance: the last '_' separates the id from the position, since
      the decimal text of the position holds no '_'. */
  lemma ServiceKeyInjective(a: string, i: nat, b: string, j: nat)
    requires ServiceKey(a, i) == ServiceKey(b, j)
    ensures a == b && i == j
  {
    var k := ServiceKey(a, i);
    var da, db := NatToString(i), NatToString(j);
    assert k[|a|] == '_' && k[|b|] == '_';
    assert a == k[..|a|] == b;
    assert da == k[|a| + 1..] == db;
    NatToStringInjective(i, j);
  }

  /** `servicesData[`${id}_${index}`] || {}`: the saved data of the instance at `index`
      (an object is always truthy, so only a missing entry gives `{}`). */
  function InstanceData(s: AppState, index: nat): (r: Record)
    requires index < |s.selected|
    ensures ServiceKey(s.selected[index], index) in s.servicesData ==> r == s.servicesData[ServiceKey(s.selected[index], index)]
    ensures ServiceKey(s.selected[index], index) !in s.servicesData ==> r == map[]
  {
    var key := ServiceKey(s.selected[index], index);
    if key in s.servicesData then s.servicesData[key] else map[]
  }

  /** `handleServiceToggle`: selecting a service appends one more instance of it. */
  function HandleServiceToggle(s: AppState, serviceId: string): (r: AppState)
    ensures |r.selected| == |s.selected| + 1
    ensures r.selected[..|s.selected|] == s.selected && r.selected[|s.selected|] == serviceId
    ensures r.servicesData == s.servicesData
  {
    AppState(s.selected + [serviceId], s.servicesData)
  }

  /** `handleServiceDataChange(key, data)`: the form of one instance saves its data. */
  function HandleServiceDataChange(s: AppState, key: string, data: Record): (r: AppState)
    ensures r.selected == s.selected
    ensures r.servicesData.Keys == s.servicesData.Keys + {key} && r.servicesData[key] == data
    ensures forall k | k in s.servicesData && k != key :: r.servicesData[k] == s.servicesData[k]
  {
    AppState(s.selected, s.servicesData[key := data])
  }

  /** The form of instance `index` saves under that instance's key: afterwards the instance
      reads back exactly what was saved, and every other instance reads what it read
      before. */
  lemma DataChangeReadsBack(s: AppState, index: nat, data: Record, j: nat)
    requires index < |s.selected| && j < |s.selected|
    ensures InstanceData(HandleServiceDataChange(s, ServiceKey(s.selected[index], index), data), j)
      == if j == index then data else InstanceData(s, j)
  {
    if j != index && ServiceKey(s.selected[j], j) == ServiceKey(s.selected[index], index) {
      ServiceKeyInjective(s.selected[j], j, s.selected[index], index);
    }
  }

  /** `list.filter((_, i) => i !== index)`: the list without its `index`-th element; an
      index outside the list removes nothing. */
  function WithoutIndex<T>(list: seq<T>, index: int): (r: seq<T>)
    ensures 0 <= index < |list| ==> |r| == |list| - 1
    ensures 0 <= index < |list| ==> forall j | 0 <= j < index :: r[j] == list[j]
    ensures 0 <= index < |list| ==> forall j | index <= j < |r| :: r[j] == list[j + 1]
    ensures !(0 <= index < |list|) ==> r == list
  {
    if 0 <= index < |list| then list[..index] + list[index + 1..] else list
  }

  /** The key `handleRemoveService` deletes: `${selectedServices[index]}_${index}`, where an
      index outside the list reads the element as `undefined`. */
  function RemovedKey(selected: seq<string>, index: int): (key: string)
    ensures 0 <= index < |selected| ==> key == ServiceKey(selected[index], index)
    ensures index >= |selected| ==> key == ServiceKey("undefined", index)
  {
    (if 0 <= index < |selected| then selected[index] else "undefined") + "_" + IntToString(index)
  }

  /** `handleRemoveService(index)` as written: drops the instance from the list and deletes
      its saved data, but leaves every later instance's data under its old position. */
  function HandleRemoveService(s: AppState, index: int): (r: AppState)
    ensures r.selected == WithoutIndex(s.selected, index)
    ensures r.servicesData.Keys == s.servicesData.Keys - {RemovedKey(s.selected, index)}
    ensures forall k | k in r.servicesData :: r.servicesData[k] == s.servicesData[k]
  {
    AppState(WithoutIndex(s.selected, index), s.servicesData - {RemovedKey(s.selected, index)})
  }

  lemma RemovedKeyIsServiceKey(selected: seq<string>, index: nat)
    requires index < |selected|
    ensures RemovedKey(selected, index) == ServiceKey(selected[index], index)
  {
  }

  /** Toggling a service on and then removing that last instance restores the list, and the
      saved data too when that position held none. */
  lemma RemoveUndoesToggle(s: AppState, serviceId: string)
    requires ServiceKey(serviceId, |s.selected|) !in s.servicesData
    ensures HandleRemoveService(HandleServiceToggle(s, serviceId), |s.selected|) == s
  {
    var t := HandleServiceToggle(s, serviceId);
    RemovedKeyIsServiceKey(t.selected, |s.selected|);
    var r := HandleRemoveService(t, |s.selected|);
    assert r.selected == s.selected;
    assert r.servicesData == s.servicesData;
  }

  /** Instances before the removed one keep their saved data. */
  lemma RemoveKeepsEarlierData(s: AppState, index: nat, j: nat)
    requires j < index < |s.selected|
    ensures j < |HandleRemoveService(s, index).selected|
    ensures InstanceData(HandleRemoveService(s, index), j) == InstanceData(s, j)
  {
    RemovedKeyIsServiceKey(s.selected, index);
    var r := HandleRemoveService(s, index);
    assert r.selected[j] == s.selected[j];
    if ServiceKey(s.selected[j], j) == ServiceKey(s.selected[index], index) {
      ServiceKeyInjective(s.selected[j], j, s.selected[index], index);
    }
  }

  /** The instances after the removed one move down one position, but their saved data stays
      under the old key: removing the first of [photobooth, bundle] leaves the bundle reading
      `bundle_0`, which is empty, while its price stays orphaned under `bundle_1`. */
  lemma RemoveLosesLaterData(s: AppState, bundleData: Record)
    requires s.selected == ["photobooth", "bundle"]
    requires bundleData == map["price" := Num(15000)]
    requires s.servicesData == map[ServiceKey(s.selected[1], 1) := bundleData]
    ensures InstanceData(s, 1) == bundleData
    ensures HandleRemoveService(s, 0).selected == [s.selected[1]]
    ensures InstanceData(HandleRemoveService(s, 0), 0) == map[] != bundleData
    ensures ServiceKey(s.selected[1], 1) in HandleRemoveService(s, 0).servicesData
  {
    RemovedKeyIsServiceKey(s.selected, 0);
    var r := HandleRemoveService(s, 0);
    assert r.selected == [s.selected[1]];
    if ServiceKey(s.selected[0], 0) == ServiceKey(s.selected[1], 1) {
      ServiceKeyInjective(s.selected[0], 0, s.selected[1], 1);
    }
    if ServiceKey(s.selected[1], 0) == ServiceKey(s.selected[1], 1) {
      ServiceKeyInjective(s.selected[1], 0, s.selected[1], 1);
    }
    assert "price" in bundleData;
  }

  /** Where the instance now at `j` stood before `index` was removed. */
  function OldPosition(index: nat, j: nat): (p: nat)
    ensures p != index
  {
    if j < index then j else j + 1
  }

  /** Whether a key is the data key of some instance of the list. */
  predicate IsInstanceKey(selected: seq<string>, k: string)
  {
    exists j | 0 <= j < |selected| :: ServiceKey(selected[j], j) == k
  }

  /** The data key the instance now at `j` used before `index` was removed. */
  function OldKey(s: AppState, index: nat, j: nat): string
    requires index < |s.selected| && j < |s.selected| - 1
  {
    ServiceKey(s.selected[OldPosition(index, j)], OldPosition(index, j))
  }

  /** The saved data of the first `n` remaining instances, each under its new key. */
  function MovedData(s: AppState, sel: seq<string>, index: nat, n: nat): (m: map<string, Record>)
    requires index < |s.selected| && |sel| == |s.selected| - 1 && n <= |sel|
    ensures forall k | k in m :: exists j | 0 <= j < n :: k == ServiceKey(sel[j], j)
    ensures forall j | 0 <= j < n :: ServiceKey(sel[j], j) in m <==> OldKey(s, index, j) in s.servicesData
    ensures forall j | 0 <= j < n && ServiceKey(sel[j], j) in m :: m[ServiceKey(sel[j], j)] == s.servicesData[OldKey(s, index, j)]
    decreases n
  {
    if n == 0 then map[]
    else
      var m := MovedData(s, sel, index, n - 1);
      var key := ServiceKey(sel[n - 1], n - 1);
      forall j | 0 <= j < n - 1
        ensures ServiceKey(sel[j], j) != key
      {
        if ServiceKey(sel[j], j) == key {
          ServiceKeyInjective(sel[j], j, sel[n - 1], n - 1);
        }
      }
      if OldKey(s, index, n - 1) in s.servicesData then m[key := s.servicesData[OldKey(s, index, n - 1)]]
      else
        assert key !in m;
        m
  }

  /** The removal with renumbering: the saved data of every later instance moves down with it,
      and every instance key of the old list that is not an instance key of the new one is
      deleted. Other entries of the data are kept. */
  function RemoveServiceRenumbered(s: AppState, index: nat): (r: AppState)
    requires index < |s.selected|
    ensures r.selected == WithoutIndex(s.selected, index)
    ensures forall j | 0 <= j < |r.selected| :: InstanceData(r, j) == InstanceData(s, OldPosition(index, j))
    ensures forall k | k in r.servicesData && !IsInstanceKey(r.selected, k) :: k in s.servicesData && !IsInstanceKey(s.selected, k) && r.servicesData[k] == s.servicesData[k]
    ensures forall k | k in s.servicesData && !IsInstanceKey(s.selected, k) && !IsInstanceKey(r.selected, k) :: k in r.servicesData
  {
    var sel := WithoutIndex(s.selected, index);
    var kept := map k | k in s.servicesData && !IsInstanceKey(s.selected, k) && !IsInstanceKey(sel, k) :: s.servicesData[k];
    var moved := MovedData(s, sel, index, |sel|);
    var r := AppState(sel, kept + moved);
    forall j | 0 <= j < |sel|
      ensures InstanceData(r, j) == InstanceData(s, OldPosition(index, j))
    {
      var p := OldPosition(index, j);
      assert sel[j] == s.selected[p];
      assert IsInstanceKey(sel, ServiceKey(sel[j], j));
    }
    r
  }
}
