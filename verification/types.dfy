/**
 * The shared types of the booking tool: the service tags, the declared fields of each
 * service variant, the contract handed to the renderers, and the catalog's field schema.
 */
module Types {
  import opened Wrappers
  import opened JsValues

  /** The seven service tags. */
  datatype ServiceType = Bundle | Photobooth | Video360 | Blessing | Horoscope | Stickerline | Addon
  {
    /** The tag's string form, as stored in `serviceType` and in the selection list. */
    function Id(): string
    {
      match this
      case Bundle => "bundle"
      case Photobooth => "photobooth"
      case Video360 => "360video"
      case Blessing => "blessing"
      case Horoscope => "horoscope"
      case Stickerline => "stickerline"
      case Addon => "addon"
    }
  }

  const AllServiceTypes: seq<ServiceType> :=
    [Bundle, Photobooth, Video360, Blessing, Horoscope, Stickerline, Addon]

  /** Reads a tag back from its string form; any other string is not a tag. */
  function ParseServiceType(s: string): (r: Option<ServiceType>)
    ensures r.Some? ==> r.value.Id() == s
    ensures r.None? ==> forall t: ServiceType :: t.Id() != s
  {
    if s == "bundle" then Some(Bundle)
    else if s == "photobooth" then Some(Photobooth)
    else if s == "360video" then Some(Video360)
    else if s == "blessing" then Some(Blessing)
    else if s == "horoscope" then Some(Horoscope)
    else if s == "stickerline" then Some(Stickerline)
    else if s == "addon" then Some(Addon)
    else None
  }

  /** There are exactly seven tags, with pairwise distinct string forms. */
  lemma ServiceTypeTags()
    ensures |AllServiceTypes| == 7
    ensures forall t: ServiceType :: t in AllServiceTypes
    ensures forall i, j | 0 <= i < j < |AllServiceTypes| :: AllServiceTypes[i].Id() != AllServiceTypes[j].Id()
    ensures forall t: ServiceType :: ParseServiceType(t.Id()) == Some(t)
  {
    forall t: ServiceType
      ensures t in AllServiceTypes
    {
      match t
      case Bundle => assert AllServiceTypes[0] == t;
      case Photobooth => assert AllServiceTypes[1] == t;
      case Video360 => assert AllServiceTypes[2] == t;
      case Blessing => assert AllServiceTypes[3] == t;
      case Horoscope => assert AllServiceTypes[4] == t;
      case Stickerline => assert AllServiceTypes[5] == t;
      case Addon => assert AllServiceTypes[6] == t;
    }
  }

  /** Distinct tags have distinct string forms. */
  lemma IdInjective(a: ServiceType, b: ServiceType)
    requires a.Id() == b.Id()
    ensures a == b
  {
    assert ParseServiceType(a.Id()) == Some(a);
    assert ParseServiceType(b.Id()) == Some(b);
  }

  /** The tag a record carries in `serviceType`, if it carries one. */
  function TagOf(r: Record): Option<ServiceType>
  {
    if Get(r, "serviceType").Str? then ParseServiceType(Get(r, "serviceType").s) else None
  }

  /** A record carries a tag exactly when its `serviceType` is that tag's string form. */
  lemma TagOfIs(r: Record, t: ServiceType)
    ensures TagOf(r) == Some(t) <==> Get(r, "serviceType") == Str(t.Id())
  {
    if TagOf(r) == Some(t) {
      assert ParseServiceType(Get(r, "serviceType").s) == Some(t);
    }
    if Get(r, "serviceType") == Str(t.Id()) {
      ServiceTypeTags();
    }
  }

  /** The declared type of a property. */
  datatype FieldKind = NumberKind | TextKind

  /** One property of a service variant: name, type, and whether it is optional (`?:`). */
  datatype Field = Field(name: string, kind: FieldKind, optional: bool)

  /** The properties every variant inherits from the base record. */
  const BaseFields: seq<Field> := [
    Field("serviceType", TextKind, false),
    Field("serviceName", TextKind, true),
    Field("price", NumberKind, false),
    Field("notes", TextKind, true)
  ]

  /** The event properties shared by the four timed services. */
  const TimedFields: seq<Field> := [
    Field("hours", NumberKind, false),
    Field("location", TextKind, false),
    Field("setupLocation", TextKind, false),
    Field("guestCount", NumberKind, false),
    Field("eventDate", TextKind, false),
    Field("startTime", TextKind, false),
    Field("endTime", TextKind, false)
  ]

  const AddonFields: seq<Field> := [
    Field("addon1", TextKind, true), Field("addonPrice1", NumberKind, true),
    Field("addon2", TextKind, true), Field("addonPrice2", NumberKind, true),
    Field("addon3", TextKind, true), Field("addonPrice3", NumberKind, true),
    Field("addon4", TextKind, true), Field("addonPrice4", NumberKind, true)
  ]

  /** The declared properties of each service variant. */
  function VariantFields(t: ServiceType): seq<Field>
  {
    match t
    case Bundle => BaseFields
    case Photobooth =>
      BaseFields + [Field("hours", NumberKind, false),
                    Field("photoSize", TextKind, false),
                    Field("customPhotoSize", TextKind, true)]
      + TimedFields[1..]
    case Video360 =>
      BaseFields + [Field("hours", NumberKind, false), Field("packageType", TextKind, false)]
      + TimedFields[1..]
    case Blessing => BaseFields + TimedFields
    case Horoscope => BaseFields + TimedFields
    case Stickerline =>
      BaseFields + [Field("stickerCount", NumberKind, false),
                    Field("eventDate", TextKind, false),
                    Field("guestCount", NumberKind, false),
                    Field("location", TextKind, false)]
    case Addon => BaseFields + AddonFields
  }

  predicate DeclaresName(fields: seq<Field>, name: string)
  {
    exists i | 0 <= i < |fields| :: fields[i].name == name
  }

  /** Every variant carries a required numeric price and an optional text note; the bundle
      adds nothing to the base record; the add-on adds four optional (name, price) pairs
      and no schedule, location or guest properties. */
  lemma VariantShapes()
    ensures forall t: ServiceType ::
      Field("price", NumberKind, false) in VariantFields(t) && Field("notes", TextKind, true) in VariantFields(t)
    ensures VariantFields(Bundle) == BaseFields
    ensures VariantFields(Addon)[|BaseFields|..] == AddonFields
    ensures forall i | 0 <= i < |AddonFields| :: AddonFields[i].optional
    ensures forall name | name in ["hours", "startTime", "endTime", "location", "setupLocation", "eventDate", "guestCount"] ::
      !DeclaresName(VariantFields(Addon), name)
  {
    forall t: ServiceType
      ensures Field("price", NumberKind, false) in VariantFields(t) && Field("notes", TextKind, true) in VariantFields(t)
    {
      assert VariantFields(t)[2] == Field("price", NumberKind, false);
      assert VariantFields(t)[3] == Field("notes", TextKind, true);
    }
  }

  /** The properties that hold numbers: the numeric fields of the variants, plus the
      deposit and travel fee that the shared form copies into each service record. */
  predicate IsNumericKey(k: string)
  {
    k in {"price", "hours", "guestCount", "stickerCount", "depositAmount", "travelFee",
          "addonPrice1", "addonPrice2", "addonPrice3", "addonPrice4"}
  }

  /** A field list whose numeric fields are exactly those under numeric keys. */
  predicate KindsAgree(fields: seq<Field>)
  {
    forall i | 0 <= i < |fields| :: fields[i].kind == NumberKind <==> IsNumericKey(fields[i].name)
  }

  lemma KindsAgreeAppend(a: seq<Field>, b: seq<Field>)
    requires KindsAgree(a) && KindsAgree(b)
    ensures KindsAgree(a + b)
  {
    forall i | 0 <= i < |a + b|
      ensures (a + b)[i].kind == NumberKind <==> IsNumericKey((a + b)[i].name)
    {
      if i >= |a| {
        assert (a + b)[i] == b[i - |a|];
      }
    }
  }

  /** The numeric-key set agrees with the variant declarations. */
  lemma NumericKeysMatchDeclarations(t: ServiceType)
    ensures KindsAgree(VariantFields(t))
  {
    assert KindsAgree(BaseFields);
    assert KindsAgree(TimedFields);
    assert KindsAgree(TimedFields[1..]);
    match t
    case Bundle =>
    case Photobooth =>
      var extra := [Field("hours", NumberKind, false), Field("photoSize", TextKind, false), Field("customPhotoSize", TextKind, true)];
      assert KindsAgree(extra);
      KindsAgreeAppend(BaseFields, extra);
      KindsAgreeAppend(BaseFields + extra, TimedFields[1..]);
    case Video360 =>
      var extra := [Field("hours", NumberKind, false), Field("packageType", TextKind, false)];
      assert KindsAgree(extra);
      KindsAgreeAppend(BaseFields, extra);
      KindsAgreeAppend(BaseFields + extra, TimedFields[1..]);
    case Blessing => KindsAgreeAppend(BaseFields, TimedFields);
    case Horoscope => KindsAgreeAppend(BaseFields, TimedFields);
    case Stickerline =>
      var extra := [Field("stickerCount", NumberKind, false), Field("eventDate", TextKind, false),
                    Field("guestCount", NumberKind, false), Field("location", TextKind, false)];
      assert KindsAgree(extra);
      KindsAgreeAppend(BaseFields, extra);
    case Addon =>
      assert KindsAgree(AddonFields);
      KindsAgreeAppend(BaseFields, AddonFields);
  }

  /** A record whose values have their declared types: numbers under numeric keys, text
      under every other key, `undefined` anywhere. Number inputs store the result of
      `parseNumber` and every other input stores text, so the forms only build such records. */
  predicate Typed(r: Record)
  {
    forall k | k in r ::
      if IsNumericKey(k) then r[k].Num? || r[k].Undefined? else r[k].Str? || r[k].Undefined?
  }

  /** Setting a key to a value of its declared type keeps a record typed. */
  lemma UpdateTyped(r: Record, k: string, v: Value)
    requires Typed(r)
    requires if IsNumericKey(k) then v.Num? || v.Undefined? else v.Str? || v.Undefined?
    ensures Typed(r[k := v])
  {
  }

  /** Spreading typed records gives a typed record. */
  lemma SpreadTyped(a: Record, b: Record)
    requires Typed(a) && Typed(b)
    ensures Typed(Spread(a, b))
  {
  }

  /** The generated contract, as consumed by the printable template and the summary. */
  datatype ContractData = ContractData(
    services: seq<Record>,
    totalAmount: int,
    customerName: string,
    customerPhone: string,
    customerEmail: string,
    groomName: Option<string>,
    brideName: Option<string>,
    notes: Option<string>,
    depositAmount: Option<int>,
    travelFee: Option<int>)

  /** The input widget of a form field. */
  datatype InputKind = TextInput | NumberInput | SelectInput | DateInput | TimeInput | EmailInput | TelInput

  /** One field of a service's form schema. */
  datatype FieldConfig = FieldConfig(
    name: string,
    labelText: string,
    input: InputKind,
    required: bool,
    options: Option<seq<string>>,
    placeholder: Option<string>,
    min: Option<int>,
    max: Option<int>)

  /** One catalog entry. */
  datatype ServiceConfig = ServiceConfig(
    id: ServiceType,
    name: string,
    description: string,
    basePrice: int,
    defaultValues: Option<Record>,
    fields: seq<FieldConfig>)
}
