/**
 * The static service catalog of `src/services/serviceConfig.ts`: one entry per bookable
 * service (there is no entry for the add-on), the shared booking fields, and the first-match
 * lookup by id.
 */
module ServiceConfig {
  import opened Wrappers
  import opened JsValues
  import opened Types
  import Formatters

  // Field schemas that several entries repeat word for word.

  const NotesField := FieldConfig("notes", "Note เพิ่มเติม", TextInput, false, None, Some("Note เพิ่มเติม (ถ้ามี)"), None, None)

  const PriceField := FieldConfig("price", "ราคา (บาท)", NumberInput, false, None, None, Some(0), None)

  const HoursField := FieldConfig("hours", "จำนวนชั่วโมง", NumberInput, true, None, None, Some(1), Some(24))

  const StartTimeField := FieldConfig("startTime", "เวลาเริ่ม", TimeInput, true, None, None, None, None)

  const EndTimeField := FieldConfig("endTime", "ถึงเวลา", TimeInput, true, None, None, None, None)

  function SetupLocationField(serviceName: string): FieldConfig
  {
    FieldConfig("setupLocation", "จุดตั้ง", TextInput, true, None, Some("ระบุจุดตั้งของ " + serviceName), None, None)
  }

  const BundleConfig := ServiceConfig(
    Bundle, "Bundle Service", "Complete service package", 0,
    Some(map["price" := Num(0)]),
    [FieldConfig("price", "ราคารวม (บาท)", NumberInput, false, None, None, Some(0), None),
     NotesField])

  const PhotoboothConfig := ServiceConfig(
    Photobooth, "Photobooth", "Professional photo booth service", 8900,
    Some(map["hours" := Num(3), "photoSize" := Str("4x6 อวยพร"), "setupLocation" := Str("indoor"),
             "startTime" := Str("18:00"), "endTime" := Str("21:00"), "price" := Num(8900)]),
    [HoursField,
     FieldConfig("photoSize", "ขนาดรูป", SelectInput, true,
                 Some(["2x6", "4x6", "4x6 อวยพร", "2x6 อวยพร", "custom"]), None, None, None),
     FieldConfig("customPhotoSize", "ขนาดรูปกำหนดเอง", TextInput, false, None, Some("ระบุขนาดรูป"), None, None),
     SetupLocationField("Photobooth"),
     StartTimeField,
     EndTimeField,
     PriceField,
     NotesField])

  const Video360Config := ServiceConfig(
    Video360, "360 Video", "360 degree video recording service", 10900,
    Some(map["hours" := Num(3), "packageType" := Str("standard"), "setupLocation" := Str("indoor"),
             "startTime" := Str("18:00"), "endTime" := Str("21:00"), "price" := Num(10900)]),
    [HoursField,
     FieldConfig("packageType", "Package Type", TextInput, true, None, Some("ระบุ package type"), None, None),
     SetupLocationField("360 Video"),
     StartTimeField,
     EndTimeField,
     PriceField,
     NotesField])

  const BlessingConfig := ServiceConfig(
    Blessing, "Blessing Video", "Blessing video recording service", 4900,
    Some(map["hours" := Num(2), "setupLocation" := Str("indoor"),
             "startTime" := Str("18:00"), "endTime" := Str("20:00"), "price" := Num(4900)]),
    [HoursField, SetupLocationField("Blessing Video"), StartTimeField, EndTimeField, PriceField, NotesField])

  const HoroscopeConfig := ServiceConfig(
    Horoscope, "Horoscope Booth", "Interactive horoscope booth service", 4900,
    Some(map["hours" := Num(2), "setupLocation" := Str("indoor"),
             "startTime" := Str("18:00"), "endTime" := Str("20:00"), "price" := Num(4900)]),
    [HoursField, SetupLocationField("Horoscope Booth"), StartTimeField, EndTimeField, PriceField, NotesField])

  const StickerlineConfig := ServiceConfig(
    Stickerline, "Stickerline", "Custom sticker line service", 1200,
    Some(map["stickerCount" := Num(12), "price" := Num(1200)]),
    [FieldConfig("stickerCount", "จำนวนสติ๊กเกอร์", NumberInput, true, None, Some("จำนวนสติ๊กเกอร์ที่ต้องการ"), Some(1), None),
     PriceField,
     NotesField])

  /** `serviceConfigs`, in declaration order. */
  const ServiceConfigs: seq<ServiceConfig> :=
    [BundleConfig, PhotoboothConfig, Video360Config, BlessingConfig, HoroscopeConfig, StickerlineConfig]

  /** `commonFields`: the shared booking fields, in form order. */
  const CommonFields: seq<FieldConfig> := [
    FieldConfig("eventDate", "วันที่จัดงาน", DateInput, true, None, None, None, None),
    FieldConfig("guestCount", "จำนวนแขก", NumberInput, true, None, Some("จำนวนแขกโดยประมาณ"), Some(1), None),
    FieldConfig("location", "สถานที่", TextInput, true, None, Some("สถานที่จัดงาน"), None, None),
    FieldConfig("depositAmount", "เงินมัดจำ (บาท)", NumberInput, true, None, Some("จำนวนเงินมัดจำ"), Some(0), None),
    FieldConfig("travelFee", "ค่าเดินทาง (บาท)", NumberInput, false, None, Some("ค่าเดินทาง"), Some(0), None),
    FieldConfig("notes", "หมายเหตุ", TextInput, false, None, Some("หมายเหตุเพิ่มเติม (ถ้ามี)"), None, None)
  ]

  /** `configs.find(config => config.id === id)`: the first entry with that id, if any. */
  function FindConfig(configs: seq<ServiceConfig>, id: string): (r: Option<ServiceConfig>)
    ensures r.None? <==> forall i | 0 <= i < |configs| :: configs[i].id.Id() != id
    ensures r.Some? ==>
      exists i | 0 <= i < |configs| ::
        && configs[i] == r.value
        && configs[i].id.Id() == id
        && forall j | 0 <= j < i :: configs[j].id.Id() != id
    decreases |configs|
  {
    if |configs| == 0 then None
    else if configs[0].id.Id() == id then Some(configs[0])
    else
      var r := FindConfig(configs[1..], id);
      if r.Some? then
        var i :| 0 <= i < |configs[1..]| && configs[1..][i] == r.value && configs[1..][i].id.Id() == id
                 && forall j | 0 <= j < i :: configs[1..][j].id.Id() != id;
        assert configs[i + 1] == r.value;
        assert forall j | 1 <= j < i + 1 :: configs[j] == configs[1..][j - 1];
        r
      else
        assert forall i | 1 <= i < |configs| :: configs[i] == configs[1..][i - 1];
        r
  }

  /** `getServiceConfig(serviceType)`. */
  function GetServiceConfig(serviceType: string): (r: Option<ServiceConfig>)
    ensures r.Some? ==> r.value.id.Id() == serviceType
  {
    FindConfig(ServiceConfigs, serviceType)
  }

  /** With pairwise distinct ids, the first match is the only match. */
  lemma FindConfigUnique(configs: seq<ServiceConfig>, k: nat)
    requires forall i, j | 0 <= i < j < |configs| :: configs[i].id != configs[j].id
    requires k < |configs|
    ensures FindConfig(configs, configs[k].id.Id()) == Some(configs[k])
  {
    var r := FindConfig(configs, configs[k].id.Id());
    var i :| 0 <= i < |configs| && configs[i] == r.value && configs[i].id.Id() == configs[k].id.Id()
             && forall j | 0 <= j < i :: configs[j].id.Id() != configs[k].id.Id();
    IdInjective(configs[i].id, configs[k].id);
    assert i == k;
  }

  /** The catalog holds six entries with pairwise distinct ids, in this order. */
  lemma CatalogIds()
    ensures |ServiceConfigs| == 6
    ensures forall i, j | 0 <= i < j < |ServiceConfigs| :: ServiceConfigs[i].id != ServiceConfigs[j].id
    ensures ServiceConfigs[0].id == Bundle && ServiceConfigs[1].id == Photobooth
    ensures ServiceConfigs[2].id == Video360 && ServiceConfigs[3].id == Blessing
    ensures ServiceConfigs[4].id == Horoscope && ServiceConfigs[5].id == Stickerline
  {
  }

  /** Every tag except the add-on finds its own entry; the add-on has none. */
  lemma LookupByTag(t: ServiceType)
    ensures t == Addon <==> GetServiceConfig(t.Id()).None?
    ensures t != Addon ==> GetServiceConfig(t.Id()).Some? && GetServiceConfig(t.Id()).value.id == t
  {
    CatalogIds();
    ServiceTypeTags();
    if t == Addon {
      assert forall i | 0 <= i < |ServiceConfigs| :: ServiceConfigs[i].id != Addon;
    } else {
      var k :| 0 <= k < 6 && ServiceConfigs[k].id == t;
      FindConfigUnique(ServiceConfigs, k);
    }
  }

  /** A string that is not a tag finds nothing. */
  lemma LookupOfUnknownId(id: string)
    requires ParseServiceType(id).None?
    ensures GetServiceConfig(id).None?
  {
  }

  /** Each entry's default price is its base price, and no base price is negative. */
  lemma DefaultPriceIsBasePrice()
    ensures forall c | c in ServiceConfigs ::
      && c.basePrice >= 0
      && c.defaultValues.Some?
      && "price" in c.defaultValues.value
      && c.defaultValues.value["price"] == Num(c.basePrice)
  {
  }

  /** No entry's defaults set `serviceType`, so a fresh form keeps the entry's own tag. */
  lemma DefaultsCarryNoTag()
    ensures forall c | c in ServiceConfigs :: c.defaultValues.Some? && "serviceType" !in c.defaultValues.value
  {
    BundleDefaultsNoTag();
    PhotoboothDefaultsNoTag();
    Video360DefaultsNoTag();
    BlessingDefaultsNoTag();
    HoroscopeDefaultsNoTag();
    StickerlineDefaultsNoTag();
  }

  lemma BundleDefaultsNoTag()
    ensures BundleConfig.defaultValues.Some? && "serviceType" !in BundleConfig.defaultValues.value
  {
    NoTagInDefaults(BundleConfig.defaultValues.value);
  }

  lemma PhotoboothDefaultsNoTag()
    ensures PhotoboothConfig.defaultValues.Some? && "serviceType" !in PhotoboothConfig.defaultValues.value
  {
    NoTagInDefaults(PhotoboothConfig.defaultValues.value);
  }

  lemma Video360DefaultsNoTag()
    ensures Video360Config.defaultValues.Some? && "serviceType" !in Video360Config.defaultValues.value
  {
    NoTagInDefaults(Video360Config.defaultValues.value);
  }

  lemma BlessingDefaultsNoTag()
    ensures BlessingConfig.defaultValues.Some? && "serviceType" !in BlessingConfig.defaultValues.value
  {
    NoTagInDefaults(BlessingConfig.defaultValues.value);
  }

  lemma HoroscopeDefaultsNoTag()
    ensures HoroscopeConfig.defaultValues.Some? && "serviceType" !in HoroscopeConfig.defaultValues.value
  {
    NoTagInDefaults(HoroscopeConfig.defaultValues.value);
  }

  lemma StickerlineDefaultsNoTag()
    ensures StickerlineConfig.defaultValues.Some? && "serviceType" !in StickerlineConfig.defaultValues.value
  {
    NoTagInDefaults(StickerlineConfig.defaultValues.value);
  }

  /** Defaults none of whose keys is eleven letters long starting with 's' lack the tag. */
  lemma NoTagInDefaults(d: Record)
    requires NoKeyLike(d, 11, 's')
    ensures "serviceType" !in d
  {
    var tag := "serviceType";
    assert |tag| == 11 && tag[0] == 's';
  }

  /** No key of `d` has length `n` and first letter `c`. */
  predicate NoKeyLike(d: Record, n: nat, c: char)
  {
    forall k | k in d :: |k| != n || (|k| > 0 && k[0] != c)
  }

  /** The base prices of the catalog. */
  lemma BasePrices()
    ensures BundleConfig.basePrice == 0 && PhotoboothConfig.basePrice == 8900
    ensures Video360Config.basePrice == 10900 && BlessingConfig.basePrice == 4900
    ensures HoroscopeConfig.basePrice == 4900 && StickerlineConfig.basePrice == 1200
  {
  }

  /** A timed entry's defaults: start, hours and an end time that agrees with them. */
  predicate EndTimeAgrees(defaults: Record)
  {
    && "startTime" in defaults && defaults["startTime"].Str?
    && (defaults["startTime"].s == "" || Formatters.IsClockText(defaults["startTime"].s))
    && "hours" in defaults && defaults["hours"].Num?
    && "endTime" in defaults
    && defaults["endTime"] == Str(Formatters.CalculateEndTime(defaults["startTime"].s, defaults["hours"].n))
  }

  /** Every entry whose defaults carry hours (the four timed services) has the default end
      time `calculateEndTime` computes from the default start time and hours. */
  lemma DefaultEndTimesAgree(c: ServiceConfig)
    requires c in ServiceConfigs
    ensures c.defaultValues.Some?
    ensures "hours" in c.defaultValues.value ==> EndTimeAgrees(c.defaultValues.value)
  {
    if c == PhotoboothConfig {
      EveningDefaults(c.defaultValues.value, "18:00", 3, "21:00");
    } else if c == Video360Config {
      EveningDefaults(c.defaultValues.value, "18:00", 3, "21:00");
    } else if c == BlessingConfig {
      EveningDefaults(c.defaultValues.value, "18:00", 2, "20:00");
    } else if c == HoroscopeConfig {
      EveningDefaults(c.defaultValues.value, "18:00", 2, "20:00");
    } else {
      assert "hours" !in c.defaultValues.value;
    }
  }

  /** Defaults starting at 18:00 for three hours ending at 21:00, or for two ending at 20:00. */
  lemma EveningDefaults(d: Record, start: string, hours: int, end: string)
    requires start == "18:00"
    requires (hours == 3 && end == "21:00") || (hours == 2 && end == "20:00")
    requires "startTime" in d && d["startTime"] == Str(start)
    requires "hours" in d && d["hours"] == Num(hours)
    requires "endTime" in d && d["endTime"] == Str(end)
    ensures EndTimeAgrees(d)
  {
    if hours == 3 {
      Formatters.CalculateEndTimeEvening(start, hours, end);
    } else {
      Formatters.CalculateEndTimeTwoHours(start, hours, end);
    }
  }

  /** The shared booking fields, in order. */
  lemma CommonFieldNames()
    ensures |CommonFields| == 6
    ensures CommonFields[0].name == "eventDate" && CommonFields[1].name == "guestCount"
    ensures CommonFields[2].name == "location" && CommonFields[3].name == "depositAmount"
    ensures CommonFields[4].name == "travelFee" && CommonFields[5].name == "notes"
  {
  }
}
