/**
 * The counting in `src/components/ServiceSelection/ServiceSelection.tsx`: how many
 * instances of each service are selected, in the order the services were first chosen,
 * and the display name of a selected id.
 */
module ServiceSelection {
  import opened Wrappers
  import opened Types
  import ServiceConfig

  /** One entry of the `counts` object: a service id and how often it is selected. */
  datatype Tally = Tally(id: string, count: nat)

  predicate DistinctIds(t: seq<Tally>)
  {
    forall i, j | 0 <= i < j < |t| :: t[i].id != t[j].id
  }

  predicate HasId(t: seq<Tally>, id: string)
  {
    exists i | 0 <= i < |t| :: t[i].id == id
  }

  /** `counts[id] || 0`. */
  function CountOf(t: seq<Tally>, id: string): (n: nat)
    ensures !HasId(t, id) ==> n == 0
    ensures forall i | 0 <= i < |t| && t[i].id == id && (forall j | 0 <= j < i :: t[j].id != id) :: n == t[i].count
    decreases |t|
  {
    if |t| == 0 then 0
    else if t[0].id == id then t[0].count
    else
      assert forall i | 1 <= i < |t| :: t[i] == t[1..][i - 1];
      CountOf(t[1..], id)
  }

  /** The sum of all counts. */
  function SumOfCounts(t: seq<Tally>): nat
    decreases |t|
  {
    if |t| == 0 then 0 else t[0].count + SumOfCounts(t[1..])
  }

  /** The position of `id` among the entries. */
  function IndexOf(t: seq<Tally>, id: string): (p: nat)
    requires HasId(t, id)
    ensures p < |t| && t[p].id == id && forall j | 0 <= j < p :: t[j].id != id
    decreases |t|
  {
    if t[0].id == id then 0
    else
      assert HasId(t[1..], id) by {
        var i :| 0 <= i < |t| && t[i].id == id;
        assert t[1..][i - 1] == t[i];
      }
      1 + IndexOf(t[1..], id)
  }

  /** In a list with distinct ids, each entry's count is the count of its id. */
  lemma CountOfEntry(t: seq<Tally>, i: nat)
    requires DistinctIds(t) && i < |t|
    ensures CountOf(t, t[i].id) == t[i].count
  {
  }

  /** `counts[id] = (counts[id] || 0) + 1`: a known id is counted once more in place, a new
      one is appended with a count of one. */
  function Bump(t: seq<Tally>, id: string): (r: seq<Tally>)
    requires DistinctIds(t)
    ensures |r| == if HasId(t, id) then |t| else |t| + 1
    ensures forall i | 0 <= i < |t| :: r[i].id == t[i].id
    ensures forall i | 0 <= i < |t| :: r[i].count == if t[i].id == id then t[i].count + 1 else t[i].count
    ensures !HasId(t, id) ==> r[|t|] == Tally(id, 1)
  {
    if HasId(t, id) then
      var p := IndexOf(t, id);
      t[p := Tally(id, t[p].count + 1)]
    else t + [Tally(id, 1)]
  }

  lemma {:induction false} SumOfCountsAppend(t: seq<Tally>, x: Tally)
    ensures SumOfCounts(t + [x]) == SumOfCounts(t) + x.count
    decreases |t|
  {
    if |t| > 0 {
      assert (t + [x])[1..] == t[1..] + [x];
      SumOfCountsAppend(t[1..], x);
    }
  }

  lemma {:induction false} SumOfCountsUpdate(t: seq<Tally>, p: nat, x: Tally)
    requires p < |t|
    ensures SumOfCounts(t[p := x]) == SumOfCounts(t) - t[p].count + x.count
    decreases |t|
  {
    if p > 0 {
      assert t[p := x][1..] == t[1..][p - 1 := x];
      SumOfCountsUpdate(t[1..], p - 1, x);
    }
  }

  /** Counting one more `id` keeps the ids distinct, adds one to the count of `id` and to the
      total, and leaves every other count alone. */
  lemma BumpCounts(t: seq<Tally>, id: string)
    requires DistinctIds(t)
    ensures DistinctIds(Bump(t, id))
    ensures CountOf(Bump(t, id), id) == CountOf(t, id) + 1
    ensures forall x | x != id :: CountOf(Bump(t, id), x) == CountOf(t, x)
    ensures forall x :: HasId(Bump(t, id), x) <==> HasId(t, x) || x == id
    ensures SumOfCounts(Bump(t, id)) == SumOfCounts(t) + 1
  {
    var r := Bump(t, id);
    if HasId(t, id) {
      var p := IndexOf(t, id);
      SumOfCountsUpdate(t, p, Tally(id, t[p].count + 1));
      CountOfEntry(t, p);
      CountOfEntry(r, p);
    } else {
      SumOfCountsAppend(t, Tally(id, 1));
      CountOfEntry(r, |t|);
    }
    forall x | x != id
      ensures CountOf(r, x) == CountOf(t, x)
    {
      if HasId(t, x) {
        var q := IndexOf(t, x);
        CountOfEntry(t, q);
        CountOfEntry(r, q);
      } else {
        assert !HasId(r, x);
      }
    }
  }

  /** The position where `x` is first selected. */
  function FirstIndex(s: seq<string>, x: string): (r: nat)
    requires x in s
    ensures r < |s| && s[r] == x && forall j | 0 <= j < r :: s[j] != x
    decreases |s|
  {
    if s[0] == x then 0 else 1 + FirstIndex(s[1..], x)
  }

  /** Each id's count is its number of occurrences among the first `i` selections. */
  ghost predicate CountsMatch(selected: seq<string>, i: nat, counts: seq<Tally>)
    requires i <= |selected|
  {
    forall x :: CountOf(counts, x) == multiset(selected[..i])[x]
  }

  /** The ids are those of the first `i` selections. */
  ghost predicate IdsMatch(selected: seq<string>, i: nat, counts: seq<Tally>)
    requires i <= |selected|
  {
    forall x :: HasId(counts, x) <==> x in selected[..i]
  }

  /** The ids come in the order of their first selection, all of them before `i`. */
  predicate FirstSelectionOrder(selected: seq<string>, i: nat, counts: seq<Tally>)
  {
    && (forall a | 0 <= a < |counts| :: counts[a].id in selected && FirstIndex(selected, counts[a].id) < i)
    && (forall a, b | 0 <= a < b < |counts| ::
          counts[a].id in selected && counts[b].id in selected &&
          FirstIndex(selected, counts[a].id) < FirstIndex(selected, counts[b].id))
  }

  /** `counts` is the tally of the first `i` selections: distinct ids in the order of first
      selection, each with its number of occurrences, adding up to `i`. */
  ghost predicate TallyOfPrefix(selected: seq<string>, i: nat, counts: seq<Tally>)
    requires i <= |selected|
  {
    && DistinctIds(counts)
    && CountsMatch(selected, i, counts)
    && IdsMatch(selected, i, counts)
    && FirstSelectionOrder(selected, i, counts)
    && SumOfCounts(counts) == i
  }

  /** Counting the next selection extends the tally by one. */
  lemma TallyStep(selected: seq<string>, i: nat, counts: seq<Tally>)
    requires i < |selected| && TallyOfPrefix(selected, i, counts)
    ensures TallyOfPrefix(selected, i + 1, Bump(counts, selected[i]))
  {
    var id := selected[i];
    assert selected[..i + 1] == selected[..i] + [id];
    BumpCounts(counts, id);
    CountsStep(selected, i, counts);
    IdsStep(selected, i, counts);
    TallyStepOrder(selected, i, counts);
  }

  lemma CountsStep(selected: seq<string>, i: nat, counts: seq<Tally>)
    requires i < |selected| && DistinctIds(counts) && CountsMatch(selected, i, counts)
    ensures CountsMatch(selected, i + 1, Bump(counts, selected[i]))
  {
    var id := selected[i];
    assert selected[..i + 1] == selected[..i] + [id];
    BumpCounts(counts, id);
  }

  lemma IdsStep(selected: seq<string>, i: nat, counts: seq<Tally>)
    requires i < |selected| && DistinctIds(counts) && IdsMatch(selected, i, counts)
    ensures IdsMatch(selected, i + 1, Bump(counts, selected[i]))
  {
    var id := selected[i];
    assert selected[..i + 1] == selected[..i] + [id];
    BumpCounts(counts, id);
  }

  /** The next selection's id, when new, goes last and was first selected last. */
  lemma TallyStepOrder(selected: seq<string>, i: nat, counts: seq<Tally>)
    requires i < |selected| && DistinctIds(counts)
    requires IdsMatch(selected, i, counts)
    requires FirstSelectionOrder(selected, i, counts)
    ensures FirstSelectionOrder(selected, i + 1, Bump(counts, selected[i]))
  {
    var id := selected[i];
    var next := Bump(counts, id);
    if !HasId(counts, id) {
      assert id !in selected[..i];
      assert FirstIndex(selected, id) == i;
      assert next[|counts|].id == id;
    }
  }

  /** The tally of the whole selection. */
  lemma TallyComplete(selected: seq<string>, counts: seq<Tally>)
    requires TallyOfPrefix(selected, |selected|, counts)
    ensures forall x :: CountOf(counts, x) == multiset(selected)[x]
    ensures forall x :: HasId(counts, x) <==> x in selected
  {
    assert selected[..|selected|] == selected;
  }

  /** `getServiceCounts()`: one entry per distinct selected id, in the order of first
      selection, holding how many times it is selected; the counts add up to the size of
      the selection. */
  method GetServiceCounts(selected: seq<string>) returns (counts: seq<Tally>)
    ensures DistinctIds(counts)
    ensures forall x :: CountOf(counts, x) == multiset(selected)[x]
    ensures forall x :: HasId(counts, x) <==> x in selected
    ensures FirstSelectionOrder(selected, |selected|, counts)
    ensures SumOfCounts(counts) == |selected|
  {
    counts := [];
    var i := 0;
    while i < |selected|
      invariant 0 <= i <= |selected|
      invariant TallyOfPrefix(selected, i, counts)
    {
      TallyStep(selected, i, counts);
      counts := Bump(counts, selected[i]);
      i := i + 1;
    }
    TallyComplete(selected, counts);
  }

  /** `serviceCounts[service.id] || 0 > 0`: a catalog card shows as selected exactly when
      its id is in the selection. */
  lemma SelectedIffCounted(selected: seq<string>, counts: seq<Tally>, id: string)
    requires forall x :: CountOf(counts, x) == multiset(selected)[x]
    ensures CountOf(counts, id) > 0 <==> id in selected
  {
  }

  /** `getServiceName(serviceId)`: the catalog name of the id, or the id itself when the
      catalog has no entry for it (or its name is empty). */
  function GetServiceName(serviceId: string): (name: string)
    ensures ServiceConfig.GetServiceConfig(serviceId).None? ==> name == serviceId
    ensures ServiceConfig.GetServiceConfig(serviceId).Some? && ServiceConfig.GetServiceConfig(serviceId).value.name != "" ==>
      name == ServiceConfig.GetServiceConfig(serviceId).value.name
  {
    match ServiceConfig.GetServiceConfig(serviceId)
    case Some(c) => if c.name != "" then c.name else serviceId
    case None => serviceId
  }

  /** Every bookable service is listed under its catalog name; the add-on, which has no
      catalog entry, under its bare id. */
  lemma ServiceNames(t: ServiceType)
    ensures t == Addon ==> GetServiceName(t.Id()) == "addon"
    ensures t != Addon ==>
      ServiceConfig.GetServiceConfig(t.Id()).Some? && GetServiceName(t.Id()) == ServiceConfig.GetServiceConfig(t.Id()).value.name
  {
    ServiceConfig.LookupByTag(t);
    if t != Addon {
      ServiceConfig.CatalogIds();
      var c := ServiceConfig.GetServiceConfig(t.Id()).value;
      assert c in ServiceConfig.ServiceConfigs;
      assert forall c' | c' in ServiceConfig.ServiceConfigs :: c'.name != "";
    }
  }
}
