/**
 * The data side of `src/components/ContractTemplate/ContractTemplate.tsx`, the printable
 * contract: the row of each service (number, label, detail lines, quantity and amount), the
 * travel-fee row, and the deposit and final instalment. Markup is left out; the two
 * locale-dependent formatters, `formatCurrency` and `formatDateDDMMYYYY`, are parameters.
 */
module ContractTemplate {
  import opened Wrappers
  import opened JsValues
  import opened Types
  import opened BundleSort
  import opened Selection
  import BookingSummary
  import GenerateContract

  /** `formatCurrency` and the date part of `formatDateDDMMYYYY`. */
  datatype Formatting = Formatting(currency: int -> string, date: string -> string)

  /** One table row. `amount` is the number shown in the unit-price and amount cells, when
      they are filled. */
  datatype Row = Row(number: nat, title: string, details: seq<string>, quantity: nat, amount: Option<int>)

  /** The bold label of a service row: the six catalog services by name, anything else,
      the add-on included, as "Unknown Service". */
  function TemplateLabel(line: Record): (title: string)
    ensures forall t: ServiceType | t != Addon :: TagOf(line) == Some(t) ==> title == BookingSummary.SummaryLabel(t)
    ensures title == "Unknown Service" <==> TagOf(line).None? || TagOf(line) == Some(Addon)
  {
    match TagOf(line)
    case Some(Bundle) => "Bundle Service"
    case Some(Photobooth) => "Photobooth"
    case Some(Video360) => "360 Video"
    case Some(Blessing) => "Blessing Video"
    case Some(Horoscope) => "Horoscope Booth"
    case Some(Stickerline) => "Stickerline"
    case _ => "Unknown Service"
  }

  /** The contract and the summary name every catalog service alike; they disagree only on
      the add-on, which the contract calls "Unknown Service" and the summary "Add-on". */
  lemma LabelsAgreeExceptAddon(line: Record, t: ServiceType)
    requires TagOf(line) == Some(t)
    ensures t != Addon ==> TemplateLabel(line) == BookingSummary.SummaryName(line)
    ensures t == Addon ==> TemplateLabel(line) == "Unknown Service" && BookingSummary.SummaryName(line) == "Add-on"
  {
  }

  /** A line without a recognised tag is labelled "Unknown Service", which no catalog service
      is called. */
  lemma UnknownLabel(line: Record)
    requires TagOf(line).None?
    ensures TemplateLabel(line) == "Unknown Service"
    ensures forall t: ServiceType | t != Addon :: BookingSummary.SummaryLabel(t) != TemplateLabel(line)
  {
  }

  /** `getPhotoSizeDisplay(photoSize, customPhotoSize)`: the custom size when "custom" is
      chosen and a custom size is given, the chosen size otherwise. */
  function PhotoSizeDisplay(photoSize: Value, customPhotoSize: Value): (v: Value)
    ensures photoSize == Str("custom") && Truthy(customPhotoSize) ==> v == customPhotoSize
    ensures !(photoSize == Str("custom") && Truthy(customPhotoSize)) ==> v == photoSize
  {
    if photoSize == Str("custom") && Truthy(customPhotoSize) then customPhotoSize else photoSize
  }

  /** The contract shows the same photo size as the summary. */
  lemma PhotoSizeAgreesWithSummary(line: Record)
    ensures PhotoSizeDisplay(Get(line, "photoSize"), Get(line, "customPhotoSize")) == BookingSummary.ShownPhotoSize(line)
  {
  }

  /** `formatDateDDMMYYYY(eventDate) || ""`: nothing for an empty date. */
  function DateCell(v: Value, fmt: Formatting): (text: string)
    ensures !Truthy(v) ==> text == ""
  {
    if Truthy(v) then fmt.date(Show(v)) else ""
  }

  /** The schedule lines are shown for every line that is not a stickerline or a bundle. */
  predicate ShowsSchedule(line: Record)
  {
    Get(line, "serviceType") != Str("stickerline") && Get(line, "serviceType") != Str("bundle")
  }

  /** The guest count is shown for every line that is not a bundle. */
  predicate ShowsGuests(line: Record)
  {
    Get(line, "serviceType") != Str("bundle")
  }

  /** The detail lines under a service's label. A bundle row shows nothing but its note; a
      row with a schedule opens with the hours, location, setup point, date and time; the
      note, when there is one, comes last. */
  function Details(line: Record, fmt: Formatting): (details: seq<string>)
    ensures Get(line, "serviceType") == Str("bundle") ==>
      details == if Truthy(Get(line, "notes")) then ["Note : " + Show(Get(line, "notes"))] else []
    ensures ShowsSchedule(line) ==> |details| >= 5 && details[3] == "วันที่ : " + DateCell(Get(line, "eventDate"), fmt)
    ensures Truthy(Get(line, "notes")) ==> |details| > 0 && details[|details| - 1] == "Note : " + Show(Get(line, "notes"))
  {
    (if ShowsSchedule(line) then
       [ "จำนวนชั่วโมง : " + OrEmpty(Get(line, "hours")),
         "สถานที่ : " + OrEmpty(Get(line, "location")),
         "จุดตั้ง: " + OrEmpty(Get(line, "setupLocation")),
         "วันที่ : " + DateCell(Get(line, "eventDate"), fmt),
         "เวลา : " + OrEmpty(Get(line, "startTime")) + " - " + OrEmpty(Get(line, "endTime")) ]
     else [])
    + (if Get(line, "serviceType") == Str("photobooth") then
         ["ขนาดรูป : " + OrEmpty(PhotoSizeDisplay(Get(line, "photoSize"), Get(line, "customPhotoSize")))] else [])
    + (if Get(line, "serviceType") == Str("360video") then ["Package type : " + OrEmpty(Get(line, "packageType"))] else [])
    + (if Get(line, "serviceType") == Str("stickerline") then ["จำนวนสติ๊กเกอร์ : " + OrEmpty(Get(line, "stickerCount"))] else [])
    + (if ShowsGuests(line) then ["จำนวนแขก : " + OrEmpty(Get(line, "guestCount"))] else [])
    + (if Truthy(Get(line, "notes")) then ["Note : " + Show(Get(line, "notes"))] else [])
  }

  /** Which tags get the schedule lines and the guest count: the schedule for every tag but
      stickerline and bundle, so the add-on gets one on the contract although the summary
      prints none for it; the guest count for every tag but bundle. */
  lemma VisibilityByTag(line: Record, t: ServiceType)
    requires TagOf(line) == Some(t)
    ensures ShowsSchedule(line) <==> t != Stickerline && t != Bundle
    ensures ShowsGuests(line) <==> t != Bundle
    ensures t == Addon ==> ShowsSchedule(line) && !BookingSummary.Scheduled(line)
  {
    TagOfIs(line, t);
    TagOfIs(line, Stickerline);
    TagOfIs(line, Bundle);
  }

  /** `service.price > 0 ? formatCurrency(service.price) : ""`: the amount is shown exactly
      when the price is positive. */
  function PriceAmount(line: Record): (a: Option<int>)
    ensures a.Some? <==> Get(line, "price").Num? && Get(line, "price").n > 0
    ensures a.Some? ==> a.value > 0
  {
    if Get(line, "price").Num? && Get(line, "price").n > 0 then Some(Get(line, "price").n) else None
  }

  /** The text of a filled or empty price cell. */
  function AmountCell(row: Row, fmt: Formatting): string
  {
    match row.amount
    case Some(n) => fmt.currency(n)
    case None => ""
  }

  /** The row of the service at `index`: numbered `index + 1`, quantity one, labelled by
      its tag, and the amount filled exactly when the price is positive. */
  function ServiceRow(line: Record, index: nat, fmt: Formatting): (row: Row)
    ensures row.number == index + 1 && row.quantity == 1
    ensures row.amount.Some? <==> Get(line, "price").Num? && Get(line, "price").n > 0
    ensures row.amount.Some? ==> row.amount.value == Get(line, "price").n
    ensures row.title == TemplateLabel(line)
  {
    Row(index + 1, TemplateLabel(line), Details(line, fmt), 1, PriceAmount(line))
  }

  /** The rows of `lines`, the first numbered `start + 1`. */
  function ServiceRows(lines: seq<Record>, start: nat, fmt: Formatting): (rows: seq<Row>)
    ensures |rows| == |lines|
    ensures forall i | 0 <= i < |rows| :: rows[i] == ServiceRow(lines[i], start + i, fmt)
    ensures forall i | 0 <= i < |rows| :: rows[i].number == start + i + 1
    decreases |lines|
  {
    if |lines| == 0 then []
    else [ServiceRow(lines[0], start, fmt)] + ServiceRows(lines[1..], start + 1, fmt)
  }

  /** `contractData.travelFee && contractData.travelFee > 0`. */
  function TravelRow(c: ContractData): (row: Option<Row>)
    ensures row.Some? <==> c.travelFee.Some? && c.travelFee.value > 0
    ensures row.Some? ==> row.value.number == |c.services| + 1 && row.value.amount == c.travelFee
  {
    if c.travelFee.Some? && c.travelFee.value > 0 then
      Some(Row(|c.services| + 1, "ค่าเดินทาง", [], 1, c.travelFee))
    else None
  }

  /** All rows of the table: one per service, then the travel-fee row when it is shown. */
  function Rows(c: ContractData, fmt: Formatting): (rows: seq<Row>)
    ensures |rows| == |c.services| + (if TravelRow(c).Some? then 1 else 0)
    ensures forall i | 0 <= i < |rows| :: rows[i].number == i + 1
    ensures forall i | 0 <= i < |c.services| :: rows[i] == ServiceRow(c.services[i], i, fmt)
  {
    ServiceRows(c.services, 0, fmt) + (if TravelRow(c).Some? then [TravelRow(c).value] else [])
  }

  /** `contractData.depositAmount || 3000`. */
  function DepositShown(c: ContractData): (d: int)
    ensures c.depositAmount.Some? && c.depositAmount.value != 0 ==> d == c.depositAmount.value
    ensures c.depositAmount.None? || c.depositAmount.value == 0 ==> d == 3000
  {
    if c.depositAmount.Some? && c.depositAmount.value != 0 then c.depositAmount.value else 3000
  }

  /** The final instalment: what the total leaves after the deposit, not clamped at 0. */
  function FinalInstalment(c: ContractData): (f: int)
    ensures f + DepositShown(c) == c.totalAmount
  {
    c.totalAmount - DepositShown(c)
  }

  /** A contract with nothing to pay still shows the 3000 baht deposit, so its final
      instalment is negative. */
  lemma FinalInstalmentCanBeNegative(s: AppState, commonData: Record, customerData: Record)
    requires s.selected == [] && s.servicesData == map[] && commonData == map[] && customerData == map[]
    ensures GenerateContract.TypedData(s)
    ensures FinalInstalment(GenerateContract.GenerateContract(s, commonData, customerData)) == -3000
  {
    var lines := GenerateContract.Lines(s, commonData);
    assert lines == [];
  }

  /** The sum of the filled amounts of the rows. */
  function SumOfAmounts(rows: seq<Row>): int
    decreases |rows|
  {
    if |rows| == 0 then 0
    else (if rows[0].amount.Some? then rows[0].amount.value else 0) + SumOfAmounts(rows[1..])
  }

  lemma {:induction false} SumOfAmountsAppend(a: seq<Row>, b: seq<Row>)
    ensures SumOfAmounts(a + b) == SumOfAmounts(a) + SumOfAmounts(b)
    decreases |a|
  {
    if |a| > 0 {
      assert (a + b)[1..] == a[1..] + b;
      SumOfAmountsAppend(a[1..], b);
    } else {
      assert a + b == b;
    }
  }

  /** The service rows show exactly the positive prices the total adds up. */
  lemma {:induction false} ServiceRowsSum(lines: seq<Record>, start: nat, fmt: Formatting)
    ensures SumOfAmounts(ServiceRows(lines, start, fmt)) == SumOfPositivePrices(lines)
    decreases |lines|
  {
    if |lines| > 0 {
      var rows := ServiceRows(lines, start, fmt);
      assert rows[1..] == ServiceRows(lines[1..], start + 1, fmt);
      ServiceRowsSum(lines[1..], start + 1, fmt);
    }
  }

  /** On a generated contract the filled amounts add up to the total when the travel fee is
      not negative; a negative fee is taken off the total but shown nowhere, so the amounts
      then add up to more than the total. */
  lemma ShownAmountsAddUpToTotal(s: AppState, commonData: Record, customerData: Record, fmt: Formatting)
    requires GenerateContract.TypedData(s) && Typed(commonData) && Typed(customerData)
    ensures var c := GenerateContract.GenerateContract(s, commonData, customerData);
      NumOrZero(Get(commonData, "travelFee")) >= 0 ==> SumOfAmounts(Rows(c, fmt)) == c.totalAmount
    ensures var c := GenerateContract.GenerateContract(s, commonData, customerData);
      NumOrZero(Get(commonData, "travelFee")) < 0 ==> SumOfAmounts(Rows(c, fmt)) > c.totalAmount
  {
    var c := GenerateContract.GenerateContract(s, commonData, customerData);
    var lines := GenerateContract.Lines(s, commonData);
    ServiceRowsSum(c.services, 0, fmt);
    SortIsStablePartition(lines);
    SortKeepsSum(lines);
    var travel := if TravelRow(c).Some? then [TravelRow(c).value] else [];
    SumOfAmountsAppend(ServiceRows(c.services, 0, fmt), travel);
    if TravelRow(c).Some? {
      assert travel[1..] == [];
    }
  }

  /** On a generated contract the deposit shown is the one the contract carries, and the
      travel-fee row appears exactly when the shared travel fee is positive. */
  lemma GeneratedContractRows(s: AppState, commonData: Record, customerData: Record, fmt: Formatting)
    requires GenerateContract.TypedData(s) && Typed(commonData) && Typed(customerData)
    ensures var c := GenerateContract.GenerateContract(s, commonData, customerData);
      DepositShown(c) == GenerateContract.DepositOrDefault(Get(commonData, "depositAmount"))
    ensures var c := GenerateContract.GenerateContract(s, commonData, customerData);
      TravelRow(c).Some? <==> NumOrZero(Get(commonData, "travelFee")) > 0
    ensures var c := GenerateContract.GenerateContract(s, commonData, customerData);
      |Rows(c, fmt)| == |s.selected| + (if NumOrZero(Get(commonData, "travelFee")) > 0 then 1 else 0)
  {
  }
}
