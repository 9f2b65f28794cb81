/**
 * The record merges of `src/components/ContractForm/ServiceForm.tsx`, the form of one
 * selected service instance. React's state and effects become pure functions from the
 * record before to the record after.
 */
module ServiceForm {
  import opened Wrappers
  import opened JsValues
  import opened Types
  import Formatters
  import ServiceConfig

  /** The initial `formData`: `{ serviceType: service.id, price: service.basePrice,
      ...service.defaultValues, ...data }`. Spreading an absent `defaultValues` adds nothing. */
  function InitialFormData(service: Types.ServiceConfig, data: Record): (r: Record)
    ensures r.Keys == {"serviceType", "price"} + service.defaultValues.GetOr(map[]).Keys + data.Keys
    ensures forall k | k in data :: r[k] == data[k]
    ensures forall k | k !in data && k in service.defaultValues.GetOr(map[]) :: r[k] == service.defaultValues.GetOr(map[])[k]
    ensures "serviceType" !in data && "serviceType" !in service.defaultValues.GetOr(map[]) ==>
      r["serviceType"] == Str(service.id.Id())
    ensures "price" !in data && "price" !in service.defaultValues.GetOr(map[]) ==>
      r["price"] == Num(service.basePrice)
  {
    Spread(Spread(map["serviceType" := Str(service.id.Id()), "price" := Num(service.basePrice)],
                  service.defaultValues.GetOr(map[])),
           data)
  }

  /** The start time the time input can hold: empty or `HH:MM`. */
  predicate ClockInputs(r: Record)
  {
    Get(r, "startTime").Str? ==> Get(r, "startTime").s == "" || Formatters.IsClockText(Get(r, "startTime").s)
  }

  /** The end-time effect: when `hours` and `startTime` are both truthy, `endTime` becomes
      `calculateEndTime(startTime, hours)`; otherwise the record is left as it is. */
  function WithComputedEndTime(formData: Record): (r: Record)
    requires Typed(formData) && ClockInputs(formData)
    ensures Truthy(Get(formData, "hours")) && Truthy(Get(formData, "startTime")) ==>
      && r.Keys == formData.Keys + {"endTime"}
      && r["endTime"] == Str(Formatters.CalculateEndTime(Get(formData, "startTime").s, Get(formData, "hours").n))
    ensures !(Truthy(Get(formData, "hours")) && Truthy(Get(formData, "startTime"))) ==> r == formData
    ensures forall k | k in formData && k != "endTime" :: r[k] == formData[k]
  {
    var hours := Get(formData, "hours");
    var startTime := Get(formData, "startTime");
    if Truthy(hours) && Truthy(startTime) then
      assert "hours" in formData && "startTime" in formData;
      formData["endTime" := Str(Formatters.CalculateEndTime(startTime.s, hours.n))]
    else formData
  }

  /** Running the end-time effect again changes nothing. */
  lemma EndTimeIdempotent(formData: Record)
    requires Typed(formData) && ClockInputs(formData)
    ensures Typed(WithComputedEndTime(formData)) && ClockInputs(WithComputedEndTime(formData))
    ensures WithComputedEndTime(WithComputedEndTime(formData)) == WithComputedEndTime(formData)
  {
  }

  /** With a start time and a whole number of hours, the computed end time is a clock time
      `hours` later, past midnight wrapping to the next day. */
  lemma ComputedEndTimeIsLater(formData: Record)
    requires Typed(formData) && ClockInputs(formData)
    requires Get(formData, "startTime").Str? && Get(formData, "startTime").s != ""
    requires Get(formData, "hours").Num? && Get(formData, "hours").n > 0
    ensures "endTime" in WithComputedEndTime(formData)
    ensures WithComputedEndTime(formData)["endTime"].Str?
    ensures Formatters.IsClockText(WithComputedEndTime(formData)["endTime"].s)
    ensures
      var start := Get(formData, "startTime").s;
      var end := WithComputedEndTime(formData)["endTime"].s;
      && Formatters.ClockMinute(end) == Formatters.ClockMinute(start) % 60
      && Formatters.ClockHour(end) ==
           (Formatters.ClockHour(start) + Get(formData, "hours").n + Formatters.ClockMinute(start) / 60) % 24
  {
  }

  /** The record handed to the parent: `{ ...formData, ...commonDataWithoutNotes }`. */
  function EmittedData(formData: Record, commonData: Record): (r: Record)
    ensures r.Keys == formData.Keys + (commonData.Keys - {"notes"})
    ensures forall k | k in commonData && k != "notes" :: r[k] == commonData[k]
    ensures forall k | k in formData && k !in commonData :: r[k] == formData[k]
  {
    Spread(formData, commonData - {"notes"})
  }

  /** The instance's own notes always survive the overlay, and the shared notes never reach
      it. */
  lemma EmittedKeepsOwnNotes(formData: Record, commonData: Record)
    ensures Get(EmittedData(formData, commonData), "notes") == Get(formData, "notes")
    ensures "notes" in EmittedData(formData, commonData) <==> "notes" in formData
  {
  }

  /** Overlaying typed records gives a typed record. */
  lemma EmittedTyped(formData: Record, commonData: Record)
    requires Typed(formData) && Typed(commonData)
    ensures Typed(EmittedData(formData, commonData))
  {
  }

  /** `handleFieldChange(name, value)`: `{ ...prev, [name]: value }`. */
  function HandleFieldChange(formData: Record, name: string, value: Value): (r: Record)
    ensures r.Keys == formData.Keys + {name} && r[name] == value
    ensures forall k | k in formData && k != name :: r[k] == formData[k]
  {
    formData[name := value]
  }

  /** The value a form field stores for the text typed into it: number inputs store
      `parseNumber(text)`, every other input the text itself. */
  function FieldValue(field: FieldConfig, text: string): (v: Value)
    ensures field.input == NumberInput ==> v == Num(Formatters.ParseNumber(text))
    ensures field.input != NumberInput ==> v == Str(text)
  {
    if field.input == NumberInput then Num(Formatters.ParseNumber(text)) else Str(text)
  }

  /** A field whose input kind matches the numeric keys. */
  predicate InputAgrees(field: FieldConfig)
  {
    field.input == NumberInput <==> IsNumericKey(field.name)
  }

  /** Editing a field whose input kind matches its key keeps the record typed. */
  lemma FieldChangeKeepsTyped(formData: Record, field: FieldConfig, text: string)
    requires Typed(formData) && InputAgrees(field)
    ensures Typed(HandleFieldChange(formData, field.name, FieldValue(field, text)))
  {
  }

  /** Every field of the catalog and of the shared form has an input kind that matches the
      numeric keys, so the forms only ever build typed records. */
  lemma CatalogInputsAgree()
    ensures forall c, f | c in ServiceConfig.ServiceConfigs && f in c.fields :: InputAgrees(f)
    ensures forall f | f in ServiceConfig.CommonFields :: InputAgrees(f)
  {
    ReusedFieldsAgree();
    BundleInputsAgree();
    PhotoboothInputsAgree();
    Video360InputsAgree();
    TimedInputsAgree();
    StickerlineInputsAgree();
    CommonInputsAgree();
  }

  lemma ReusedFieldsAgree()
    ensures InputAgrees(ServiceConfig.NotesField) && InputAgrees(ServiceConfig.PriceField)
    ensures InputAgrees(ServiceConfig.HoursField) && InputAgrees(ServiceConfig.StartTimeField)
    ensures InputAgrees(ServiceConfig.EndTimeField)
    ensures forall n :: InputAgrees(ServiceConfig.SetupLocationField(n))
  {
  }

  lemma BundleInputsAgree()
    ensures AllInputsAgree(ServiceConfig.BundleConfig.fields)
  {
    ReusedFieldsAgree();
  }

  lemma PhotoboothInputsAgree()
    ensures AllInputsAgree(ServiceConfig.PhotoboothConfig.fields)
  {
    ReusedFieldsAgree();
  }

  lemma Video360InputsAgree()
    ensures AllInputsAgree(ServiceConfig.Video360Config.fields)
  {
    ReusedFieldsAgree();
  }

  lemma TimedInputsAgree()
    ensures AllInputsAgree(ServiceConfig.BlessingConfig.fields)
    ensures AllInputsAgree(ServiceConfig.HoroscopeConfig.fields)
  {
    ReusedFieldsAgree();
  }

  lemma StickerlineInputsAgree()
    ensures AllInputsAgree(ServiceConfig.StickerlineConfig.fields)
  {
    ReusedFieldsAgree();
  }

  lemma CommonInputsAgree()
    ensures AllInputsAgree(ServiceConfig.CommonFields)
  {
  }

  predicate AllInputsAgree(fields: seq<FieldConfig>)
  {
    forall f | f in fields :: InputAgrees(f)
  }

  /** `shouldShowField(field)`: the custom photo size only when the photo size is "custom". */
  function ShouldShowField(formData: Record, field: FieldConfig): (shown: bool)
    ensures field.name == "customPhotoSize" ==> (shown <==> Get(formData, "photoSize") == Str("custom"))
    ensures field.name != "customPhotoSize" ==> shown
  {
    if field.name == "customPhotoSize" then Get(formData, "photoSize") == Str("custom") else true
  }

  /** A fresh photobooth form starts with the "4x6 อวยพร" size, so it hides the custom-size
      field and shows every other one. */
  lemma FreshPhotoboothHidesCustomSize(data: Record, field: FieldConfig)
    requires data == map[]
    requires field in ServiceConfig.PhotoboothConfig.fields
    ensures ShouldShowField(InitialFormData(ServiceConfig.PhotoboothConfig, data), field) <==> field.name != "customPhotoSize"
  {
  }

  /** A fresh form of a catalog service starts with the service's own tag and its base price,
      and its default end time is already the one the effect computes. */
  lemma FreshFormConsistent(c: Types.ServiceConfig, data: Record)
    requires c in ServiceConfig.ServiceConfigs && data == map[]
    ensures InitialFormData(c, data)["serviceType"] == Str(c.id.Id())
    ensures InitialFormData(c, data)["price"] == Num(c.basePrice)
    ensures Typed(InitialFormData(c, data)) && ClockInputs(InitialFormData(c, data))
    ensures WithComputedEndTime(InitialFormData(c, data)) == InitialFormData(c, data)
  {
    ServiceConfig.DefaultsCarryNoTag();
    ServiceConfig.DefaultPriceIsBasePrice();
    ServiceConfig.DefaultEndTimesAgree(c);
    if c == ServiceConfig.BundleConfig || c == ServiceConfig.StickerlineConfig {
      assert Typed(c.defaultValues.value);
    } else {
      DefaultsPremises(c);
    }
    FreshFormFromDefaults(c, data);
  }

  /** The timed entries' defaults are typed and start at a clock time. */
  lemma DefaultsPremises(c: Types.ServiceConfig)
    requires c in [ServiceConfig.PhotoboothConfig, ServiceConfig.Video360Config, ServiceConfig.BlessingConfig, ServiceConfig.HoroscopeConfig]
    ensures c.defaultValues.Some? && Typed(c.defaultValues.value) && ClockInputs(c.defaultValues.value)
  {
    assert Formatters.IsClockText("18:00");
  }

  /** A fresh form whose defaults carry the base price, no tag, typed values and, when they
      carry hours, an agreeing end time. */
  lemma FreshFormFromDefaults(c: Types.ServiceConfig, data: Record)
    requires data == map[] && c.defaultValues.Some?
    requires "serviceType" !in c.defaultValues.value
    requires "price" in c.defaultValues.value && c.defaultValues.value["price"] == Num(c.basePrice)
    requires Typed(c.defaultValues.value) && ClockInputs(c.defaultValues.value)
    requires "hours" in c.defaultValues.value ==> ServiceConfig.EndTimeAgrees(c.defaultValues.value)
    ensures InitialFormData(c, data)["serviceType"] == Str(c.id.Id())
    ensures InitialFormData(c, data)["price"] == Num(c.basePrice)
    ensures Typed(InitialFormData(c, data)) && ClockInputs(InitialFormData(c, data))
    ensures WithComputedEndTime(InitialFormData(c, data)) == InitialFormData(c, data)
  {
    var d := c.defaultValues.value;
    var r := InitialFormData(c, data);
    assert forall k | k in r && k != "serviceType" :: k in d && r[k] == d[k];
    if Truthy(Get(r, "hours")) && Truthy(Get(r, "startTime")) {
      assert r["endTime"] == d["endTime"];
      assert r["endTime"] == Str(Formatters.CalculateEndTime(Get(r, "startTime").s, Get(r, "hours").n));
      assert r["endTime" := r["endTime"]] == r;
    }
  }
}
