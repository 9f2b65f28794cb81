/**
 * `generateContract` of `src/App.tsx`: turns the selection, the saved per-instance form
 * data, the shared event data and the customer data into the contract the template and the
 * summary render.
 */
module GenerateContract {
  import opened Wrappers
  import opened JsValues
  import opened Types
  import opened Selection
  import opened BundleSort
  import ServiceConfig

  /** `selectedServices.some(serviceId => serviceId === "bundle")`: some position of the
      selection holds the bundle. */
  function HasBundleService(selected: seq<string>): (b: bool)
    ensures b <==> exists i | 0 <= i < |selected| :: selected[i] == "bundle"
  {
    "bundle" in selected
  }

  /** `serviceConfig?.basePrice ?? 0`. */
  function CatalogPrice(serviceId: string): (p: int)
    ensures ServiceConfig.GetServiceConfig(serviceId).Some? ==> p == ServiceConfig.GetServiceConfig(serviceId).value.basePrice
    ensures ServiceConfig.GetServiceConfig(serviceId).None? ==> p == 0
  {
    match ServiceConfig.GetServiceConfig(serviceId)
    case Some(c) => c.basePrice
    case None => 0
  }

  /** `finalPrice`: 0 for a non-bundle line when a bundle is selected; otherwise the saved
      price unless it is `undefined` (`??`), then the catalog price, then 0. */
  function FinalPrice(serviceId: string, serviceData: Record, hasBundle: bool): (p: int)
    requires Typed(serviceData)
    ensures hasBundle && serviceId != "bundle" ==> p == 0
    ensures !(hasBundle && serviceId != "bundle") && Get(serviceData, "price").Num? ==> p == Get(serviceData, "price").n
    ensures !(hasBundle && serviceId != "bundle") && !Get(serviceData, "price").Num? ==> p == CatalogPrice(serviceId)
  {
    if hasBundle && serviceId != "bundle" then 0
    else
      match Get(serviceData, "price")
      case Num(n) => n
      case _ => CatalogPrice(serviceId)
  }

  /** `(serviceData.notes as string) || undefined`: empty notes become `undefined`. */
  function LineNotes(serviceData: Record): (v: Value)
    ensures Truthy(Get(serviceData, "notes")) ==> v == Get(serviceData, "notes")
    ensures !Truthy(Get(serviceData, "notes")) ==> v == Undefined
  {
    if Truthy(Get(serviceData, "notes")) then Get(serviceData, "notes") else Undefined
  }

  /** The keys of the shared event fields a non-bundle line carries. */
  const SharedKeys: set<string> := {"eventDate", "guestCount", "location"}

  /** The event fields a non-bundle line takes from the shared data:
      `serviceId !== "bundle" && { eventDate, guestCount, location }`; spreading `false`
      adds nothing. */
  function SharedFields(serviceId: string, commonData: Record): (r: Record)
    ensures serviceId == "bundle" ==> r == map[]
    ensures serviceId != "bundle" ==> r.Keys == SharedKeys
    ensures forall k | k in r :: r[k] == Get(commonData, k)
  {
    if serviceId == "bundle" then map[]
    else map["eventDate" := Get(commonData, "eventDate"),
             "guestCount" := Get(commonData, "guestCount"),
             "location" := Get(commonData, "location")]
  }

  /** The tag, price and notes keys are not shared event fields. */
  lemma LineOwnKeysNotShared(serviceId: string, commonData: Record)
    ensures "serviceType" !in SharedFields(serviceId, commonData)
    ensures "price" !in SharedFields(serviceId, commonData)
    ensures "notes" !in SharedFields(serviceId, commonData)
  {
  }

  /** A shared event key is none of the tag, price and notes keys. */
  lemma SharedKeyNotOwn(k: string)
    requires k in SharedKeys
    ensures k != "serviceType" && k != "price" && k != "notes"
  {
  }

  /** The line before its price and notes are set: `{ serviceType, ...serviceData, ...shared }`. */
  function MergedLine(serviceId: string, serviceData: Record, commonData: Record): Record
  {
    Spread(Spread(map["serviceType" := Str(serviceId)], serviceData), SharedFields(serviceId, commonData))
  }

  /** One contract line, before sorting: `{ serviceType, ...serviceData, ...shared, price,
      notes }`. */
  function BuildLine(serviceId: string, serviceData: Record, commonData: Record, hasBundle: bool): (line: Record)
    requires Typed(serviceData)
    ensures "price" in line && line["price"] == Num(FinalPrice(serviceId, serviceData, hasBundle))
    ensures "notes" in line && line["notes"] == LineNotes(serviceData)
  {
    MergedLine(serviceId, serviceData, commonData)["price" := Num(FinalPrice(serviceId, serviceData, hasBundle))]["notes" := LineNotes(serviceData)]
  }

  /** A line has the tag, price and notes keys, the instance's own keys and the shared ones. */
  lemma LineKeys(serviceId: string, serviceData: Record, commonData: Record, hasBundle: bool)
    requires Typed(serviceData)
    ensures BuildLine(serviceId, serviceData, commonData, hasBundle).Keys ==
      {"serviceType", "price", "notes"} + serviceData.Keys + SharedFields(serviceId, commonData).Keys
  {
  }

  /** A shared event field takes the shared value, whatever the instance saved. */
  lemma LineSharedField(serviceId: string, serviceData: Record, commonData: Record, hasBundle: bool, k: string)
    requires Typed(serviceData) && k in SharedFields(serviceId, commonData)
    ensures BuildLine(serviceId, serviceData, commonData, hasBundle)[k] == Get(commonData, k)
  {
    LineOwnKeysNotShared(serviceId, commonData);
    assert MergedLine(serviceId, serviceData, commonData)[k] == Get(commonData, k);
  }

  /** Any other key the instance saved keeps its saved value. */
  lemma LineOwnField(serviceId: string, serviceData: Record, commonData: Record, hasBundle: bool, k: string)
    requires Typed(serviceData) && k in serviceData && k !in SharedFields(serviceId, commonData)
    requires k != "price" && k != "notes"
    ensures BuildLine(serviceId, serviceData, commonData, hasBundle)[k] == serviceData[k]
  {
    assert MergedLine(serviceId, serviceData, commonData)[k] == serviceData[k];
  }

  /** Without a saved tag the line is tagged with its own service id. */
  lemma LineTag(serviceId: string, serviceData: Record, commonData: Record, hasBundle: bool)
    requires Typed(serviceData) && "serviceType" !in serviceData
    ensures BuildLine(serviceId, serviceData, commonData, hasBundle)["serviceType"] == Str(serviceId)
  {
    LineOwnKeysNotShared(serviceId, commonData);
    assert MergedLine(serviceId, serviceData, commonData)["serviceType"] == Str(serviceId);
  }

  /** Every saved form record holds values of its declared types. */
  predicate TypedData(s: AppState)
  {
    forall k | k in s.servicesData :: Typed(s.servicesData[k])
  }

  /** The line of the instance at `index`. */
  function LineAt(s: AppState, commonData: Record, index: nat): Record
    requires TypedData(s) && index < |s.selected|
  {
    BuildLine(s.selected[index], InstanceData(s, index), commonData, HasBundleService(s.selected))
  }

  /** `selectedServices.map(...)`: one line per instance, in selection order. */
  function Lines(s: AppState, commonData: Record): (lines: seq<Record>)
    requires TypedData(s)
    ensures |lines| == |s.selected|
    ensures forall i | 0 <= i < |lines| :: lines[i] == LineAt(s, commonData, i)
  {
    seq(|s.selected|, i requires 0 <= i < |s.selected| => LineAt(s, commonData, i))
  }

  /** `depositAmount || 3000`. */
  function DepositOrDefault(v: Value): (d: int)
    ensures Truthy(v) && v.Num? ==> d == v.n
    ensures !Truthy(v) ==> d == 3000
  {
    if Truthy(v) && v.Num? then v.n else 3000
  }

  /** `generateContract()`. */
  function GenerateContract(s: AppState, commonData: Record, customerData: Record): (c: ContractData)
    requires TypedData(s) && Typed(commonData) && Typed(customerData)
    ensures |c.services| == |s.selected|
    ensures multiset(c.services) == multiset(Lines(s, commonData))
    ensures c.services == BundleLines(Lines(s, commonData)) + OtherLines(Lines(s, commonData))
    ensures c.totalAmount == SumOfPositivePrices(Lines(s, commonData)) + NumOrZero(Get(commonData, "travelFee"))
    ensures c.depositAmount == Some(DepositOrDefault(Get(commonData, "depositAmount")))
    ensures c.travelFee.Some? <==> NumOrZero(Get(commonData, "travelFee")) > 0
    ensures c.travelFee.Some? ==> c.travelFee.value == NumOrZero(Get(commonData, "travelFee"))
    ensures c.notes == Some(OrEmpty(Get(commonData, "notes")))
    ensures c.customerName == OrEmpty(Get(customerData, "customerName"))
    ensures c.customerPhone == OrEmpty(Get(customerData, "customerPhone"))
    ensures c.customerEmail == OrEmpty(Get(customerData, "customerEmail"))
    ensures c.groomName == Some(OrEmpty(Get(customerData, "groomName")))
    ensures c.brideName == Some(OrEmpty(Get(customerData, "brideName")))
  {
    var lines := Lines(s, commonData);
    var services := SortLines(lines);
    SortFacts(lines);
    SortIsStablePartition(lines);
    SortKeepsSum(lines);
    var travelFee := NumOrZero(Get(commonData, "travelFee"));
    ContractData(
      services,
      SumOfPositivePrices(services) + NumOrZero(Get(commonData, "travelFee")),
      OrEmpty(Get(customerData, "customerName")),
      OrEmpty(Get(customerData, "customerPhone")),
      OrEmpty(Get(customerData, "customerEmail")),
      Some(OrEmpty(Get(customerData, "groomName"))),
      Some(OrEmpty(Get(customerData, "brideName"))),
      Some(OrEmpty(Get(commonData, "notes"))),
      Some(DepositOrDefault(Get(commonData, "depositAmount"))),
      if travelFee > 0 then Some(travelFee) else None)
  }

  /** With a bundle selected, every non-bundle line is priced 0 and a bundle line keeps its
      saved or catalog price. */
  lemma BundleZeroesOtherPrices(s: AppState, commonData: Record, i: nat)
    requires TypedData(s) && i < |s.selected| && HasBundleService(s.selected)
    ensures s.selected[i] != "bundle" ==> LineAt(s, commonData, i)["price"] == Num(0)
    ensures s.selected[i] == "bundle" ==>
      LineAt(s, commonData, i)["price"] == Num(if Get(InstanceData(s, i), "price").Num? then Get(InstanceData(s, i), "price").n else 0)
  {
    if s.selected[i] == "bundle" {
      ServiceConfig.LookupByTag(Bundle);
      ServiceConfig.BasePrices();
    }
  }

  /** Without a bundle, a line's price is its saved price (a saved 0 stays 0), else the
      catalog price, else 0. */
  lemma PriceWithoutBundle(s: AppState, commonData: Record, i: nat)
    requires TypedData(s) && i < |s.selected| && !HasBundleService(s.selected)
    ensures Get(InstanceData(s, i), "price").Num? ==>
      LineAt(s, commonData, i)["price"] == Get(InstanceData(s, i), "price")
    ensures !Get(InstanceData(s, i), "price").Num? ==>
      LineAt(s, commonData, i)["price"] == Num(CatalogPrice(s.selected[i]))
  {
  }

  /** Non-bundle lines carry the shared event date, guest count and location, overriding their
      own. */
  lemma SharedFieldsOverride(s: AppState, commonData: Record, i: nat, k: string)
    requires TypedData(s) && i < |s.selected| && s.selected[i] != "bundle"
    requires k in SharedKeys
    ensures LineAt(s, commonData, i)[k] == Get(commonData, k)
  {
    LineSharedField(s.selected[i], InstanceData(s, i), commonData, HasBundleService(s.selected), k);
  }

  /** A bundle line has a shared event key only when its own data has it, and then keeps its
      own value. */
  lemma BundleKeepsOwnEventFields(serviceData: Record, commonData: Record, hasBundle: bool, k: string)
    requires Typed(serviceData) && k in SharedKeys
    ensures k in BuildLine("bundle", serviceData, commonData, hasBundle) <==> k in serviceData
    ensures k in serviceData ==> BuildLine("bundle", serviceData, commonData, hasBundle)[k] == serviceData[k]
  {
    SharedKeyNotOwn(k);
    LineKeys("bundle", serviceData, commonData, hasBundle);
    if k in serviceData {
      LineOwnField("bundle", serviceData, commonData, hasBundle, k);
    }
  }

  /** A line's notes are its own, empty ones dropped to `undefined`. */
  lemma LineNotesOwn(s: AppState, commonData: Record, i: nat)
    requires TypedData(s) && i < |s.selected|
    ensures LineAt(s, commonData, i)["notes"] ==
      (if Truthy(Get(InstanceData(s, i), "notes")) then Get(InstanceData(s, i), "notes") else Undefined)
  {
  }

  /** The saved data of each instance names its own service, if it names one at all. */
  predicate DataMatchesIds(s: AppState)
  {
    forall i | 0 <= i < |s.selected| ::
      "serviceType" in InstanceData(s, i) ==> InstanceData(s, i)["serviceType"] == Str(s.selected[i])
  }

  /** When the saved data agrees with the selection, each line is tagged with its instance's
      service id, so exactly the bundle instances give bundle lines. */
  lemma LinesFollowSelection(s: AppState, commonData: Record, i: nat)
    requires TypedData(s) && DataMatchesIds(s) && i < |s.selected|
    ensures LineAt(s, commonData, i)["serviceType"] == Str(s.selected[i])
    ensures IsBundleLine(LineAt(s, commonData, i)) <==> s.selected[i] == "bundle"
  {
    var id, data, hasBundle := s.selected[i], InstanceData(s, i), HasBundleService(s.selected);
    LineOwnKeysNotShared(id, commonData);
    if "serviceType" in data {
      LineOwnField(id, data, commonData, hasBundle, "serviceType");
    } else {
      LineTag(id, data, commonData, hasBundle);
    }
    LineKeys(id, data, commonData, hasBundle);
  }

  /** The tag and the notes are text keys, the price a number key. */
  lemma LineOwnKeyKinds()
    ensures !IsNumericKey("serviceType") && !IsNumericKey("notes") && IsNumericKey("price")
  {
  }

  /** The shared event fields are typed when the shared data is. */
  lemma SharedFieldsTyped(serviceId: string, commonData: Record)
    requires Typed(commonData)
    ensures Typed(SharedFields(serviceId, commonData))
  {
    assert IsNumericKey("guestCount") && !IsNumericKey("eventDate") && !IsNumericKey("location");
  }

  /** A line built from typed data is typed: the tag and the notes are text, the price a
      number, and every other value comes from a typed record under the same key. */
  lemma BuildLineTyped(serviceId: string, serviceData: Record, commonData: Record, hasBundle: bool)
    requires Typed(serviceData) && Typed(commonData)
    ensures Typed(BuildLine(serviceId, serviceData, commonData, hasBundle))
  {
    LineOwnKeyKinds();
    var tag: Record := map["serviceType" := Str(serviceId)];
    SpreadTyped(tag, serviceData);
    SharedFieldsTyped(serviceId, commonData);
    SpreadTyped(Spread(tag, serviceData), SharedFields(serviceId, commonData));
    var merged := MergedLine(serviceId, serviceData, commonData);
    var priced := merged["price" := Num(FinalPrice(serviceId, serviceData, hasBundle))];
    UpdateTyped(merged, "price", Num(FinalPrice(serviceId, serviceData, hasBundle)));
    UpdateTyped(priced, "notes", LineNotes(serviceData));
  }

  /** The contract lines hold values of their declared types when the inputs do. */
  lemma LinesTyped(s: AppState, commonData: Record)
    requires TypedData(s) && Typed(commonData)
    ensures forall i | 0 <= i < |Lines(s, commonData)| :: Typed(Lines(s, commonData)[i])
  {
    forall i | 0 <= i < |s.selected|
      ensures Typed(LineAt(s, commonData, i))
    {
      BuildLineTyped(s.selected[i], InstanceData(s, i), commonData, HasBundleService(s.selected));
    }
  }

  /** The total is never below the travel fee: line prices only add. */
  lemma TotalCoversTravelFee(s: AppState, commonData: Record, customerData: Record)
    requires TypedData(s) && Typed(commonData) && Typed(customerData)
    ensures GenerateContract(s, commonData, customerData).totalAmount >= NumOrZero(Get(commonData, "travelFee"))
  {
    SumOfPositivePricesNonNegative(Lines(s, commonData));
  }

  /** A catalog entry's id looks up that entry's base price. */
  lemma CatalogPriceOfEntry(k: nat)
    requires k < |ServiceConfig.ServiceConfigs|
    ensures CatalogPrice(ServiceConfig.ServiceConfigs[k].id.Id()) == ServiceConfig.ServiceConfigs[k].basePrice
  {
    ServiceConfig.CatalogIds();
    ServiceConfig.FindConfigUnique(ServiceConfig.ServiceConfigs, k);
  }

  /** What one line adds to the total: its price when positive, else nothing. */
  function PricePaid(line: Record): (p: nat)
    ensures p > 0 <==> NumOrZero(Get(line, "price")) > 0
  {
    var price := NumOrZero(Get(line, "price"));
    if price > 0 then price else 0
  }

  lemma SumOfOneLine(lines: seq<Record>)
    requires |lines| == 1
    ensures SumOfPositivePrices(lines) == PricePaid(lines[0])
  {
    assert lines[1..] == [];
  }

  /** Two lines, the second a bundle: sorting swaps them, and both prices are summed. */
  lemma SortTwoLinesBundleLast(lines: seq<Record>)
    requires |lines| == 2 && !IsBundleLine(lines[0]) && IsBundleLine(lines[1])
    ensures BundleLines(lines) + OtherLines(lines) == [lines[1], lines[0]]
    ensures SumOfPositivePrices(lines) == PricePaid(lines[0]) + PricePaid(lines[1])
  {
    var rest := lines[1..];
    assert rest[0] == lines[1] && rest[1..] == [];
    assert BundleLines(rest) == [lines[1]] && OtherLines(rest) == [];
    SumOfOneLine(rest);
  }

  /** A photobooth at its catalog price with a 500 baht travel fee totals 9400, the fee is
      echoed and the deposit falls back to 3000. */
  lemma PhotoboothWithTravelFee(s: AppState, commonData: Record, customerData: Record, fee: int)
    requires s.selected == ["photobooth"] && s.servicesData == map[]
    requires fee == 500 && commonData == map["travelFee" := Num(fee)] && customerData == map[]
    ensures GenerateContract(s, commonData, customerData).totalAmount == 9400
    ensures GenerateContract(s, commonData, customerData).travelFee == Some(500)
    ensures GenerateContract(s, commonData, customerData).depositAmount == Some(3000)
  {
    PhotoboothLine(s, commonData);
    SumOfOneLine(Lines(s, commonData));
  }

  /** A photobooth with nothing saved is one line at its catalog price of 8900. */
  lemma PhotoboothLine(s: AppState, commonData: Record)
    requires s.selected == ["photobooth"] && s.servicesData == map[]
    ensures TypedData(s) && |Lines(s, commonData)| == 1 && PricePaid(Lines(s, commonData)[0]) == 8900
  {
    assert TypedData(s);
    CatalogPriceOfEntry(1);
    assert ServiceConfig.ServiceConfigs[1] == ServiceConfig.PhotoboothConfig;
    ServiceConfig.BasePrices();
    var lines := Lines(s, commonData);
    assert InstanceData(s, 0) == map[];
    assert lines[0]["price"] == Num(8900);
  }

  /** The two lines of a photobooth followed by a 15000 baht bundle, before sorting. */
  lemma BundleScenarioLines(s: AppState, bundleData: Record, commonData: Record)
    requires s.selected == ["photobooth", "bundle"]
    requires bundleData == map["price" := Num(15000)]
    requires s.servicesData == map[ServiceKey(s.selected[1], 1) := bundleData]
    requires commonData == map[]
    ensures TypedData(s)
    ensures |Lines(s, commonData)| == 2
    ensures !IsBundleLine(Lines(s, commonData)[0]) && PricePaid(Lines(s, commonData)[0]) == 0
    ensures IsBundleLine(Lines(s, commonData)[1]) && PricePaid(Lines(s, commonData)[1]) == 15000
  {
    assert TypedData(s);
    if ServiceKey(s.selected[0], 0) == ServiceKey(s.selected[1], 1) {
      ServiceKeyInjective(s.selected[0], 0, s.selected[1], 1);
    }
    assert InstanceData(s, 0) == map[];
    assert InstanceData(s, 1) == bundleData;
    LineTag(s.selected[0], map[], commonData, true);
    LineTag(s.selected[1], bundleData, commonData, true);
  }

  /** A 15000 baht bundle selected after a photobooth: the bundle line comes first, the
      photobooth line is priced 0, and the total is the bundle price. */
  lemma BundleWithPhotobooth(s: AppState, bundleData: Record, commonData: Record, customerData: Record)
    requires s.selected == ["photobooth", "bundle"]
    requires bundleData == map["price" := Num(15000)]
    requires s.servicesData == map[ServiceKey(s.selected[1], 1) := bundleData]
    requires commonData == map[] && customerData == map[]
    ensures TypedData(s)
    ensures GenerateContract(s, commonData, customerData).totalAmount == 15000
    ensures IsBundleLine(GenerateContract(s, commonData, customerData).services[0])
    ensures PricePaid(GenerateContract(s, commonData, customerData).services[1]) == 0
  {
    BundleScenarioLines(s, bundleData, commonData);
    SortTwoLinesBundleLast(Lines(s, commonData));
  }

  /** An add-on adds only its own `price` to the total (it has no catalog price to fall back
      on): its sub-prices `addonPrice1`..`addonPrice4` are not added, even though the summary
      prints their sum. */
  lemma AddonSubPricesNotTotalled(s: AppState, commonData: Record, customerData: Record)
    requires s.selected == ["addon"]
    requires TypedData(s) && Typed(commonData) && Typed(customerData)
    ensures GenerateContract(s, commonData, customerData).totalAmount ==
      PricePaid(map["price" := Num(NumOrZero(Get(InstanceData(s, 0), "price")))]) + NumOrZero(Get(commonData, "travelFee"))
  {
    ServiceConfig.LookupByTag(Addon);
    SumOfOneLine(Lines(s, commonData));
  }

  /** A negative travel fee lowers the total although the contract does not echo it. */
  lemma NegativeTravelFeeLowersTotal(s: AppState, commonData: Record, customerData: Record, fee: int)
    requires TypedData(s) && Typed(customerData)
    requires fee < 0 && commonData == map["travelFee" := Num(fee)]
    ensures GenerateContract(s, commonData, customerData).totalAmount == SumOfPositivePrices(Lines(s, commonData)) + fee
    ensures GenerateContract(s, commonData, customerData).travelFee == None
  {
  }
}
