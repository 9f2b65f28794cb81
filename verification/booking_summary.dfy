/**
 * `formatBookingSummary` of `src/utils/bookingSummary.ts`: the plain-text booking summary
 * copied to the clipboard. Every `summary +=` appends text ending in a line break, so the
 * summary is modelled as its list of lines, each followed by "\n". The two locale
 * formatters it calls, `Number.prototype.toLocaleString()` and
 * `new Date(s).toLocaleDateString('th-TH')`, are parameters.
 */
module BookingSummary {
  import opened Wrappers
  import opened JsValues
  import opened Types

  /** The locale-dependent formatting the summary calls into. */
  datatype Locale = Locale(number: int -> string, date: string -> string)

  /** The lines joined, each followed by a line break. */
  function Unlines(lines: seq<string>): (t: string)
    ensures |lines| > 0 ==> |t| > 0 && t[|t| - 1] == '\n'
    ensures |lines| == 0 ==> t == ""
    decreases |lines|
  {
    if |lines| == 0 then "" else lines[0] + "\n" + Unlines(lines[1..])
  }

  /** The position of the first line break of `t`, or `|t|` when it has none. */
  function LineEnd(t: string): (i: nat)
    ensures i <= |t|
    ensures forall j | 0 <= j < i :: t[j] != '\n'
    ensures i < |t| ==> t[i] == '\n'
    decreases |t|
  {
    if |t| == 0 || t[0] == '\n' then 0
    else
      assert forall j | 1 <= j < |t| :: t[j] == t[1..][j - 1];
      1 + LineEnd(t[1..])
  }

  /** `t.split("\n")` without the empty piece after a final line break. */
  function SplitLines(t: string): seq<string>
    decreases |t|
  {
    if |t| == 0 then []
    else
      var i := LineEnd(t);
      [t[..i]] + (if i < |t| then SplitLines(t[i + 1..]) else [])
  }

  /** Whether the text holds no line break. */
  predicate BreakFree(l: string)
    decreases |l|
  {
    |l| == 0 || (l[0] != '\n' && BreakFree(l[1..]))
  }

  lemma {:induction false} BreakFreeHasNoBreak(l: string)
    requires BreakFree(l)
    ensures '\n' !in l
    decreases |l|
  {
    if |l| > 0 {
      BreakFreeHasNoBreak(l[1..]);
      assert l == [l[0]] + l[1..];
    }
  }

  /** Whether no line holds a line break of its own. */
  predicate NoBreaks(lines: seq<string>)
  {
    forall i | 0 <= i < |lines| :: BreakFree(lines[i])
  }

  /** The first line of a text is the text up to its first break. */
  lemma SplitFirst(l: string, rest: string)
    requires '\n' !in l
    ensures SplitLines(l + "\n" + rest) == [l] + SplitLines(rest)
  {
    var t := l + "\n" + rest;
    assert forall j | 0 <= j < |l| :: t[j] == l[j];
    assert t[|l|] == '\n';
    var i := LineEnd(t);
    assert i == |l|;
    assert t[..i] == l;
    assert t[i + 1..] == rest;
  }

  /** Splitting the text at its line breaks gives the lines back when none of them holds a
      break of its own. */
  lemma {:induction false} SplitUnlines(lines: seq<string>)
    requires NoBreaks(lines)
    ensures SplitLines(Unlines(lines)) == lines
    decreases |lines|
  {
    if |lines| > 0 {
      assert NoBreaks(lines[1..]);
      BreakFreeHasNoBreak(lines[0]);
      SplitUnlines(lines[1..]);
      SplitFirst(lines[0], Unlines(lines[1..]));
    }
  }

  /** The display name the summary gives a tag. */
  function SummaryLabel(t: ServiceType): string
  {
    match t
    case Bundle => "Bundle Service"
    case Photobooth => "Photobooth"
    case Video360 => "360 Video"
    case Blessing => "Blessing Video"
    case Horoscope => "Horoscope Booth"
    case Stickerline => "Stickerline"
    case Addon => "Add-on"
  }

  /** The switch over `service.serviceType`: a known tag's label, and for anything else the
      `undefined` that `join` prints as nothing. */
  function SummaryName(line: Record): (name: string)
    ensures forall t: ServiceType :: TagOf(line) == Some(t) ==> name == SummaryLabel(t)
    ensures TagOf(line).None? ==> name == ""
  {
    match TagOf(line)
    case Some(t) => SummaryLabel(t)
    case None => ""
  }

  /** The seven labels are pairwise distinct and none is empty, so the list of names tells
      the booked services apart. */
  lemma SummaryLabelsDistinct(a: ServiceType, b: ServiceType)
    ensures SummaryLabel(a) != ""
    ensures SummaryLabel(a) == SummaryLabel(b) ==> a == b
  {
    if SummaryLabel(a) == SummaryLabel(b) {
      var la, lb := SummaryLabel(a), SummaryLabel(b);
      assert |la| == |lb| && la[0] == lb[0] && la[|la| - 1] == lb[|lb| - 1];
    }
  }

  function SummaryNames(services: seq<Record>): (names: seq<string>)
    ensures |names| == |services|
    ensures forall i | 0 <= i < |services| :: names[i] == SummaryName(services[i])
  {
    seq(|services|, i requires 0 <= i < |services| => SummaryName(services[i]))
  }

  function OptionOrEmpty(v: Option<string>): string
  {
    match v
    case Some(s) => s
    case None => ""
  }

  /** The heading, the customer and couple lines, the list of services and a blank line. A
      groom or bride name that was never given prints as nothing. */
  function Header(c: ContractData): (lines: seq<string>)
    ensures |lines| == 5 && lines[4] == ""
    ensures lines[0] == "สรุปการจอง"
    ensures lines[1] == "ชื่อลูกค้า: " + c.customerName + " เบอร์โทรศัพท์: " + c.customerPhone
    ensures lines[2] == "เจ้าบ่าวคุณ: " + (if c.groomName.Some? then c.groomName.value else "")
      + " เจ้าสาวคุณ: " + (if c.brideName.Some? then c.brideName.value else "")
    ensures lines[3] == "การจอง: " + Join(SummaryNames(c.services), ", ")
  {
    [ "สรุปการจอง",
      "ชื่อลูกค้า: " + c.customerName + " เบอร์โทรศัพท์: " + c.customerPhone,
      "เจ้าบ่าวคุณ: " + OptionOrEmpty(c.groomName) + " เจ้าสาวคุณ: " + OptionOrEmpty(c.brideName),
      "การจอง: " + Join(SummaryNames(c.services), ", "),
      "" ]
  }

  /** No line of a block's content is blank: only the separator between blocks is. */
  predicate NoBlankLines(lines: seq<string>)
  {
    forall i | 0 <= i < |lines| :: lines[i] != ""
  }

  const SingleHeading: string := "รายละเอียดบริการ:"
  const NumberedHeading: string := "รายละเอียดบริการที่ "

  /** The heading of the `index`-th of `count` blocks. */
  function BlockHeading(index: nat, count: nat): string
  {
    if count > 1 then NumberedHeading + NatToString(index + 1) + ":" else SingleHeading
  }

  /** A lone block has the plain heading; with several services the headings are numbered
      from 1, so the number between the prefix and the colon reads back as `index + 1`. */
  lemma BlockHeadingNumber(index: nat, count: nat)
    ensures var h := BlockHeading(index, count);
      && (count <= 1 ==> h == SingleHeading)
      && (count > 1 ==>
        && |h| > |NumberedHeading| + 1
        && h[..|NumberedHeading|] == NumberedHeading
        && h[|h| - 1] == ':'
        && AllDigits(h[|NumberedHeading|..|h| - 1])
        && DecimalValue(h[|NumberedHeading|..|h| - 1]) == index + 1)
  {
    var h := BlockHeading(index, count);
    if count > 1 {
      assert h[|NumberedHeading|..|h| - 1] == NatToString(index + 1);
    }
  }

  /** With several services, no two blocks share a heading. */
  lemma BlockHeadingsDistinct(i: nat, j: nat, count: nat)
    requires count > 1 && i != j
    ensures BlockHeading(i, count) != BlockHeading(j, count)
  {
    BlockHeadingNumber(i, count);
    BlockHeadingNumber(j, count);
    var hi, hj := BlockHeading(i, count), BlockHeading(j, count);
    assert DecimalValue(hi[|NumberedHeading|..|hi| - 1]) != DecimalValue(hj[|NumberedHeading|..|hj| - 1]);
  }

  /** `"key" in service ? service.key : ""`: a present key prints its value, `undefined`
      included. */
  function IfPresent(line: Record, key: string): (text: string)
    ensures key !in line ==> text == ""
    ensures key in line && line[key] == Undefined ==> text == "undefined"
  {
    if key in line then Show(line[key]) else ""
  }

  /** The schedule block is printed for every line whose tag is not stickerline, bundle or
      add-on, a line with an unknown tag included. */
  predicate Scheduled(line: Record)
  {
    && Get(line, "serviceType") != Str("stickerline")
    && Get(line, "serviceType") != Str("bundle")
    && Get(line, "serviceType") != Str("addon")
  }

  /** The photo size shown: the custom size when "custom" is chosen and one is given. */
  function ShownPhotoSize(line: Record): (v: Value)
    ensures Get(line, "photoSize") == Str("custom") && Truthy(Get(line, "customPhotoSize")) ==> v == Get(line, "customPhotoSize")
    ensures !(Get(line, "photoSize") == Str("custom") && Truthy(Get(line, "customPhotoSize"))) ==> v == Get(line, "photoSize")
  {
    if Get(line, "photoSize") == Str("custom") && Truthy(Get(line, "customPhotoSize")) then Get(line, "customPhotoSize")
    else Get(line, "photoSize")
  }

  /** Hours, location, setup point, date, time span, the photobooth's photo size or the 360
      video's package, and the guest count. */
  function ScheduleLines(line: Record, loc: Locale): (lines: seq<string>)
    ensures NoBlankLines(lines)
  {
    [ "จำนวนชั่วโมง: " + IfPresent(line, "hours"),
      "สถานที่: " + IfPresent(line, "location"),
      "จุดตั้ง: " + IfPresent(line, "setupLocation"),
      "วันที่: " + (if "eventDate" in line && Truthy(line["eventDate"]) then loc.date(Show(line["eventDate"])) else ""),
      "เวลา: " + IfPresent(line, "startTime") + " - " + IfPresent(line, "endTime") ]
    + (if Get(line, "serviceType") == Str("photobooth") then ["ขนาดรูป: " + OrEmpty(ShownPhotoSize(line))] else [])
    + (if Get(line, "serviceType") == Str("360video") then ["Package type: " + OrEmpty(Get(line, "packageType"))] else [])
    + [ "จำนวนแขก: " + IfPresent(line, "guestCount") ]
  }

  function StickerLines(line: Record, loc: Locale): (lines: seq<string>)
    ensures NoBlankLines(lines)
  {
    [ "จำนวนสติ๊กเกอร์: " + OrEmpty(Get(line, "stickerCount")),
      "วันที่: " + (if Truthy(Get(line, "eventDate")) then loc.date(Show(Get(line, "eventDate"))) else ""),
      "จำนวนแขก: " + OrEmpty(Get(line, "guestCount")) ]
  }

  /** `service.price?.toLocaleString() || ""`. */
  function PriceText(v: Value, loc: Locale): string
  {
    match v
    case Num(n) => loc.number(n)
    case Str(s) => s
    case Undefined => ""
  }

  /** The keys of the `n`-th add-on item, 1 to 4. */
  function AddonKey(n: nat): string
    requires 1 <= n <= 4
  {
    "addon" + [DigitChar(n)]
  }

  function AddonPriceKey(n: nat): string
    requires 1 <= n <= 4
  {
    "addonPrice" + [DigitChar(n)]
  }

  /** An item's price is printed when it is a positive number. */
  predicate PricedItem(line: Record, n: nat)
    requires 1 <= n <= 4
  {
    Get(line, AddonPriceKey(n)).Num? && Get(line, AddonPriceKey(n)).n > 0
  }

  /** "Add-on (n): " and the name of the `n`-th item. */
  function AddonItemText(line: Record, n: nat): string
    requires 1 <= n <= 4
  {
    "Add-on (" + [DigitChar(n)] + "): " + Show(Get(line, AddonKey(n)))
  }

  /** `" - " + price + " บาท"` when the item's price is positive, else nothing. */
  function PriceSuffix(line: Record, n: nat, loc: Locale): (suffix: string)
    requires 1 <= n <= 4
    ensures PricedItem(line, n) ==> suffix == " - " + loc.number(Get(line, AddonPriceKey(n)).n) + " บาท"
    ensures !PricedItem(line, n) ==> suffix == ""
  {
    if PricedItem(line, n) then " - " + loc.number(Get(line, AddonPriceKey(n)).n) + " บาท" else ""
  }

  /** The line of the `n`-th add-on item when it is named: its name, then its price when
      positive. */
  function AddonItemLines(line: Record, n: nat, loc: Locale): (lines: seq<string>)
    requires 1 <= n <= 4
    ensures |lines| <= 1
    ensures |lines| == 1 <==> Truthy(Get(line, AddonKey(n)))
    ensures |lines| == 1 && PricedItem(line, n) ==>
      lines[0] == AddonItemText(line, n) + (" - " + loc.number(Get(line, AddonPriceKey(n)).n) + " บาท")
    ensures |lines| == 1 && !PricedItem(line, n) ==> lines[0] == AddonItemText(line, n)
    ensures NoBlankLines(lines)
  {
    if Truthy(Get(line, AddonKey(n))) then [AddonItemText(line, n) + PriceSuffix(line, n, loc)] else []
  }

  /** `(addonPrice1 || 0) + ... + (addonPrice4 || 0)`: nothing when no sub-price is a
      number, and at least each sub-price when none is negative. */
  function AddonTotal(line: Record): (total: int)
    ensures (forall n | 1 <= n <= 4 :: !Get(line, AddonPriceKey(n)).Num?) ==> total == 0
    ensures (forall n | 1 <= n <= 4 :: NumOrZero(Get(line, AddonPriceKey(n))) >= 0) ==>
      forall n | 1 <= n <= 4 :: total >= NumOrZero(Get(line, AddonPriceKey(n)))
  {
    NumOrZero(Get(line, AddonPriceKey(1))) + NumOrZero(Get(line, AddonPriceKey(2)))
    + NumOrZero(Get(line, AddonPriceKey(3))) + NumOrZero(Get(line, AddonPriceKey(4)))
  }

  /** The named items, then the add-on total when it is positive. */
  function AddonLines(line: Record, loc: Locale): (lines: seq<string>)
    ensures NoBlankLines(lines)
  {
    AddonItemLines(line, 1, loc) + AddonItemLines(line, 2, loc) + AddonItemLines(line, 3, loc) + AddonItemLines(line, 4, loc)
    + (if AddonTotal(line) > 0 then ["รวม Add-on: " + loc.number(AddonTotal(line)) + " บาท"] else [])
  }

  /** The block of the `index`-th of `count` services, before its separator: the heading,
      then what the service's tag calls for, none of it blank. */
  function BlockContent(line: Record, index: nat, count: nat, loc: Locale): (lines: seq<string>)
    ensures |lines| > 0 && lines[0] == BlockHeading(index, count)
    ensures NoBlankLines(lines)
  {
    NoBlankAppend([BlockHeading(index, count)], TagLines(line, loc));
    NoBlankAppend([BlockHeading(index, count)] + TagLines(line, loc), NoteLines(line));
    [BlockHeading(index, count)] + TagLines(line, loc) + NoteLines(line)
  }

  /** What the service's tag calls for: the schedule, the sticker details, the bundle price
      or the add-on items. */
  function TagLines(line: Record, loc: Locale): (lines: seq<string>)
    ensures NoBlankLines(lines)
  {
    var schedule := if Scheduled(line) then ScheduleLines(line, loc) else [];
    var sticker := if Get(line, "serviceType") == Str("stickerline") then StickerLines(line, loc) else [];
    var bundle := if Get(line, "serviceType") == Str("bundle") then ["ราคารวม: " + PriceText(Get(line, "price"), loc) + " บาท"] else [];
    var addon := if Get(line, "serviceType") == Str("addon") then AddonLines(line, loc) else [];
    NoBlankAppend(schedule, sticker);
    NoBlankAppend(schedule + sticker, bundle);
    NoBlankAppend(schedule + sticker + bundle, addon);
    schedule + sticker + bundle + addon
  }

  /** The line's own notes, when truthy. */
  function NoteLines(line: Record): (lines: seq<string>)
    ensures NoBlankLines(lines)
  {
    if Truthy(Get(line, "notes")) then ["หมายเหตุ: " + Show(Get(line, "notes"))] else []
  }

  lemma NoBlankAppend(a: seq<string>, b: seq<string>)
    requires NoBlankLines(a) && NoBlankLines(b)
    ensures NoBlankLines(a + b)
  {
  }

  /** The block of the `index`-th of `count` services: its content, then a blank separator
      unless it is the last. */
  function ServiceBlock(line: Record, index: nat, count: nat, loc: Locale): (lines: seq<string>)
    ensures |lines| > 0 && lines[0] == BlockHeading(index, count)
  {
    BlockContent(line, index, count, loc) + (if index + 1 < count then [""] else [])
  }

  /** The parts laid end to end. */
  function Flatten(parts: seq<seq<string>>): (lines: seq<string>)
    ensures |parts| == 0 ==> lines == []
    decreases |parts|
  {
    if |parts| == 0 then [] else Flatten(parts[..|parts| - 1]) + parts[|parts| - 1]
  }

  /** Where part `i` starts: the total length of the parts before it. */
  function Offset(parts: seq<seq<string>>, i: nat): nat
    requires i <= |parts|
    decreases i
  {
    if i == 0 then 0 else Offset(parts, i - 1) + |parts[i - 1]|
  }

  /** Every part sits whole in the flattened lines, at its offset. */
  lemma {:induction false} PartAt(parts: seq<seq<string>>, i: nat)
    requires i < |parts|
    ensures Offset(parts, i) + |parts[i]| <= |Flatten(parts)|
    ensures Flatten(parts)[Offset(parts, i)..Offset(parts, i) + |parts[i]|] == parts[i]
    decreases |parts|
  {
    var init := parts[..|parts| - 1];
    FlattenLength(init);
    FlattenLength(parts);
    if i == |parts| - 1 {
      OffsetOfPrefix(parts, init, i);
      assert Flatten(parts) == Flatten(init) + parts[i];
      assert (Flatten(init) + parts[i])[|Flatten(init)|..|Flatten(init)| + |parts[i]|] == parts[i];
    } else {
      PartAt(init, i);
      OffsetOfPrefix(parts, init, i);
      assert Flatten(parts) == Flatten(init) + parts[|parts| - 1];
    }
  }

  /** The flattened length is the offset past the last part. */
  lemma {:induction false} FlattenLength(parts: seq<seq<string>>)
    ensures |Flatten(parts)| == Offset(parts, |parts|)
    decreases |parts|
  {
    if |parts| > 0 {
      var init := parts[..|parts| - 1];
      FlattenLength(init);
      OffsetOfPrefix(parts, init, |parts| - 1);
    }
  }

  /** Offsets only look at the parts before them. */
  lemma {:induction false} OffsetOfPrefix(parts: seq<seq<string>>, init: seq<seq<string>>, i: nat)
    requires i <= |init| <= |parts| && init == parts[..|init|]
    ensures Offset(parts, i) == Offset(init, i)
    decreases i
  {
    if i > 0 {
      OffsetOfPrefix(parts, init, i - 1);
    }
  }

  /** With every part non-empty, a later part starts later. */
  lemma {:induction false} OffsetsIncrease(parts: seq<seq<string>>, i: nat, j: nat)
    requires i < j <= |parts|
    requires forall k | 0 <= k < |parts| :: |parts[k]| > 0
    ensures Offset(parts, i) < Offset(parts, j)
    decreases j
  {
    if i < j - 1 {
      OffsetsIncrease(parts, i, j - 1);
    }
  }

  /** The block of every service, in service order. */
  function BlockList(services: seq<Record>, loc: Locale): (blocks: seq<seq<string>>)
    ensures |blocks| == |services|
    ensures forall i | 0 <= i < |services| :: blocks[i] == ServiceBlock(services[i], i, |services|, loc)
  {
    seq(|services|, i requires 0 <= i < |services| => ServiceBlock(services[i], i, |services|, loc))
  }

  /** The blocks of all services, laid end to end. */
  function Blocks(services: seq<Record>, loc: Locale): seq<string>
  {
    Flatten(BlockList(services, loc))
  }

  /** With no services there are no block lines; otherwise they open with the first block's
      heading and end on a line that is not blank, since only the blocks before the last are
      followed by a separator. */
  lemma BlocksEnds(services: seq<Record>, loc: Locale)
    ensures |services| == 0 ==> Blocks(services, loc) == []
    ensures |services| > 0 ==> var lines := Blocks(services, loc);
      |lines| > 0 && lines[0] == BlockHeading(0, |services|) && lines[|lines| - 1] != ""
  {
    var parts := BlockList(services, loc);
    if |services| > 0 {
      BlockSeparator(services[|services| - 1], |services| - 1, |services|, loc);
      FlattenEnds(parts);
    } else {
      FlattenLength(parts);
    }
  }

  /** The flattened lines open with the first part's first line and close with the last
      part's last line. */
  lemma FlattenEnds(parts: seq<seq<string>>)
    requires |parts| > 0 && |parts[0]| > 0 && |parts[|parts| - 1]| > 0
    ensures var lines, last := Flatten(parts), parts[|parts| - 1];
      |lines| > 0 && lines[0] == parts[0][0] && lines[|lines| - 1] == last[|last| - 1]
  {
    var n := |parts|;
    PartAt(parts, 0);
    PartAt(parts, n - 1);
    FlattenLength(parts);
    assert Offset(parts, n) == Offset(parts, n - 1) + |parts[n - 1]|;
  }

  /** The lines of the summary: the header, then one block per service. */
  function SummaryLines(c: ContractData, loc: Locale): (lines: seq<string>)
    ensures |lines| >= 5
  {
    AfterHeader(Header(c), BlockList(c.services, loc))
  }

  /** A header, then the parts laid end to end. */
  function AfterHeader(h: seq<string>, parts: seq<seq<string>>): seq<string>
  {
    h + Flatten(parts)
  }

  /** The summary opens with the header; with no services that is all of it, and otherwise
      the first block's heading follows the header and the summary ends on a line that is
      not blank. */
  lemma SummaryShape(c: ContractData, loc: Locale)
    ensures var lines := SummaryLines(c, loc);
      && |lines| >= 5 && lines[..5] == Header(c)
      && (|c.services| == 0 ==> lines == Header(c))
      && (|c.services| > 0 ==> |lines| > 5 && lines[5] == BlockHeading(0, |c.services|) && lines[|lines| - 1] != "")
  {
    var h, b := Header(c), Blocks(c.services, loc);
    BlocksEnds(c.services, loc);
    assert (h + b)[..5] == h;
    assert |b| > 0 ==> (h + b)[5] == b[0] && (h + b)[|h + b| - 1] == b[|b| - 1];
  }

  /** The `k`-th line of the `i`-th part sits at the part's offset plus `k`. */
  lemma FlatAt(parts: seq<seq<string>>, i: nat, k: nat)
    requires i < |parts| && k < |parts[i]|
    ensures Offset(parts, i) + k < |Flatten(parts)| && Flatten(parts)[Offset(parts, i) + k] == parts[i][k]
  {
    var f, p := Flatten(parts), Offset(parts, i);
    PartAt(parts, i);
    assert f[p..p + |parts[i]|][k] == f[p + k];
  }

  /** Each block opens with its heading. */
  lemma BlockListHeading(services: seq<Record>, loc: Locale, i: nat)
    requires i < |services|
    ensures |BlockList(services, loc)[i]| > 0 && BlockList(services, loc)[i][0] == BlockHeading(i, |services|)
  {
  }

  /** After a header, the `k`-th line of the `i`-th part sits at the header's length plus
      the part's offset plus `k`. */
  lemma LineAfter(h: seq<string>, parts: seq<seq<string>>, i: nat, k: nat)
    requires i < |parts| && k < |parts[i]|
    ensures var lines := AfterHeader(h, parts);
      |h| + Offset(parts, i) + k < |lines| && lines[|h| + Offset(parts, i) + k] == parts[i][k]
  {
    FlatAt(parts, i, k);
  }

  /** The summary line where the `i`-th service's block starts is its heading, numbered
      `i + 1` when there are several services. */
  lemma SummaryHeading(c: ContractData, loc: Locale, i: nat)
    requires i < |c.services|
    ensures var p := 5 + Offset(BlockList(c.services, loc), i);
      p < |SummaryLines(c, loc)| && SummaryLines(c, loc)[p] == BlockHeading(i, |c.services|)
  {
    BlockListHeading(c.services, loc, i);
    LineAfter(Header(c), BlockList(c.services, loc), i, 0);
  }

  /** The blocks come in service order: a later service's block starts later. */
  lemma BlocksInOrder(services: seq<Record>, loc: Locale, i: nat, j: nat)
    requires i < j < |services|
    ensures Offset(BlockList(services, loc), i) < Offset(BlockList(services, loc), j)
  {
    BlocksNonEmpty(services, loc);
    OffsetsIncrease(BlockList(services, loc), i, j);
  }

  /** Every block has at least its heading. */
  lemma BlocksNonEmpty(services: seq<Record>, loc: Locale)
    ensures forall k | 0 <= k < |BlockList(services, loc)| :: |BlockList(services, loc)[k]| > 0
  {
  }

  /** The lines as text, each followed by a line break: splitting the text at its breaks
      gives the lines back when none of them holds a break of its own. */
  function Text(lines: seq<string>): (text: string)
    ensures |lines| > 0 ==> |text| > 0 && text[|text| - 1] == '\n'
    ensures NoBreaks(lines) ==> SplitLines(text) == lines
  {
    if NoBreaks(lines) then SplitUnlines(lines); Unlines(lines) else Unlines(lines)
  }

  /** `formatBookingSummary(contractData)`. */
  function FormatBookingSummary(c: ContractData, loc: Locale): (text: string)
    ensures |text| > 0 && text[|text| - 1] == '\n'
    ensures NoBreaks(SummaryLines(c, loc)) ==> SplitLines(text) == SummaryLines(c, loc)
  {
    Text(SummaryLines(c, loc))
  }

  /** The summary opens with its title, the customer, the couple and the service list. */
  lemma SummaryOpening(c: ContractData, loc: Locale)
    ensures |SummaryLines(c, loc)| >= 5 && SummaryLines(c, loc)[..5] == Header(c)
    ensures SummaryLines(c, loc)[0] == "สรุปการจอง"
    ensures SummaryLines(c, loc)[3] == "การจอง: " + Join(SummaryNames(c.services), ", ")
  {
    SummaryShape(c, loc);
  }

  /** Among the blocks, the one that ends without a blank separator is the last. */
  lemma BlockSeparator(line: Record, index: nat, count: nat, loc: Locale)
    ensures var b := ServiceBlock(line, index, count, loc);
      b[|b| - 1] == "" <==> index + 1 < count
  {
    var content := BlockContent(line, index, count, loc);
    assert content[|content| - 1] != "";
  }

  /** The schedule lines are printed exactly for the timed services and for lines whose tag
      is not one of the seven. */
  lemma ScheduledTags(line: Record)
    ensures Scheduled(line) <==> TagOf(line) !in {Some(Stickerline), Some(Bundle), Some(Addon)}
    ensures TagOf(line).None? ==> Scheduled(line)
  {
    TagOfIs(line, Stickerline);
    TagOfIs(line, Bundle);
    TagOfIs(line, Addon);
  }

  /** The add-on total line appears exactly when the sub-prices add up to more than zero; when
      none is negative, that is exactly when some sub-price is positive. */
  lemma AddonTotalShown(line: Record, loc: Locale)
    requires forall n | 1 <= n <= 4 :: NumOrZero(Get(line, AddonPriceKey(n))) >= 0
    ensures AddonTotal(line) > 0 <==> exists n | 1 <= n <= 4 :: PricedItem(line, n)
  {
    var p1 := NumOrZero(Get(line, AddonPriceKey(1)));
    var p2 := NumOrZero(Get(line, AddonPriceKey(2)));
    var p3 := NumOrZero(Get(line, AddonPriceKey(3)));
    var p4 := NumOrZero(Get(line, AddonPriceKey(4)));
    assert p1 >= 0 && p2 >= 0 && p3 >= 0 && p4 >= 0;
    if AddonTotal(line) > 0 {
      if p1 > 0 { assert PricedItem(line, 1); }
      else if p2 > 0 { assert PricedItem(line, 2); }
      else if p3 > 0 { assert PricedItem(line, 3); }
      else { assert PricedItem(line, 4); }
    }
  }
}
