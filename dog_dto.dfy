/** The dog record exchanged between the router, the database and the vector store. */
module DogDto {

  import opened Wrappers
  import opened Json
  import Decimal

  /** Whether a record reports a found or a lost dog. */
  datatype DogType = Found | Lost {

    /** The enum's string value, which is what the record stores (`use_enum_values`). */
    function Value(): (s: string)
      ensures s == "found" || s == "lost"
    {
      match this
      case Found => "found"
      case Lost => "lost"
    }
  }

  /** `DogType(s)`: the member whose value is `s`, if there is one. */
  function DogTypeFromValue(s: string): (t: Option<DogType>)
    ensures t.Some? <==> s == "found" || s == "lost"
    ensures t.Some? ==> t.value.Value() == s
  {
    if s == "found" then Some(Found)
    else if s == "lost" then Some(Lost)
    else None
  }

  datatype DogSex = Male | Female {

    function Value(): (s: string)
      ensures s == "male" || s == "female"
    {
      match this
      case Male => "male"
      case Female => "female"
    }
  }

  /** `DogSex(s)`: the member whose value is `s`, if there is one. */
  function DogSexFromValue(s: string): (x: Option<DogSex>)
    ensures x.Some? <==> s == "male" || s == "female"
    ensures x.Some? ==> x.value.Value() == s
  {
    if s == "male" then Some(Male)
    else if s == "female" then Some(Female)
    else None
  }

  /** Each enum member is recovered from its value, so the two values of an enum are distinct. */
  lemma EnumValuesRoundTrip(t: DogType, x: DogSex)
    ensures DogTypeFromValue(t.Value()) == Some(t)
    ensures DogSexFromValue(x.Value()) == Some(x)
  {
  }

  /** An optional type as its value (`use_enum_values`). */
  function TypeText(t: Option<DogType>): (r: Option<string>)
    ensures r.Some? <==> t.Some?
    ensures t.Some? ==> r.value == t.value.Value()
    ensures r.Some? ==> DogTypeFromValue(r.value) == t
  {
    if t.Some? then Some(t.value.Value()) else None
  }

  /** An optional sex as its value (`use_enum_values`). */
  function SexText(x: Option<DogSex>): (r: Option<string>)
    ensures r.Some? <==> x.Some?
    ensures x.Some? ==> r.value == x.value.Value()
    ensures r.Some? ==> DogSexFromValue(r.value) == x
  {
    if x.Some? then Some(x.value.Value()) else None
  }

  // ---------------------------------------------------------------- dates

  /** A proleptic Gregorian calendar date, as Python's `datetime.date`. */
  datatype Date = Date(year: int, month: int, day: int)

  predicate IsLeapYear(y: int) {
    y % 4 == 0 && (y % 100 != 0 || y % 400 == 0)
  }

  function DaysInMonth(y: int, m: int): (n: int)
    requires 1 <= m <= 12
    ensures 28 <= n <= 31
  {
    if m == 2 then (if IsLeapYear(y) then 29 else 28)
    else if m == 4 || m == 6 || m == 9 || m == 11 then 30
    else 31
  }

  /** The dates `datetime.date` can represent: years 1 to 9999. */
  predicate ValidDate(d: Date) {
    && 1 <= d.year <= 9999
    && 1 <= d.month <= 12
    && 1 <= d.day <= DaysInMonth(d.year, d.month)
  }

  type CalendarDate = d: Date | ValidDate(d) witness Date(1, 1, 1)

  /** `date.isoformat()`: the ISO 8601 calendar date `YYYY-MM-DD`. */
  function IsoFormat(d: CalendarDate): (s: string)
    ensures |s| == 10 && s[4] == '-' && s[7] == '-'
    ensures Decimal.AllDigits(s[..4]) && Decimal.AllDigits(s[5..7]) && Decimal.AllDigits(s[8..])
  {
    var s := Decimal.Padded(d.year, 4) + "-" + Decimal.Padded(d.month, 2) + "-" + Decimal.Padded(d.day, 2);
    assert s[..4] == Decimal.Padded(d.year, 4);
    assert s[5..7] == Decimal.Padded(d.month, 2);
    assert s[8..] == Decimal.Padded(d.day, 2);
    s
  }

  /** Reads a `YYYY-MM-DD` string back into a date; anything else, or an impossible date, gives `None`. */
  function ParseIsoDate(s: string): (r: Option<CalendarDate>)
    ensures r.Some? ==> IsoFormat(r.value) == s
  {
    if |s| == 10 && s[4] == '-' && s[7] == '-'
       && Decimal.AllDigits(s[..4]) && Decimal.AllDigits(s[5..7]) && Decimal.AllDigits(s[8..])
    then
      var d := Date(Decimal.Parse(s[..4]), Decimal.Parse(s[5..7]), Decimal.Parse(s[8..]));
      if ValidDate(d) then
        Decimal.PaddedParse(s[..4]);
        Decimal.PaddedParse(s[5..7]);
        Decimal.PaddedParse(s[8..]);
        assert s == s[..4] + "-" + s[5..7] + "-" + s[8..];
        Some(d)
      else None
    else None
  }

  /** Every date survives `isoformat` and back. */
  lemma IsoFormatRoundTrip(d: CalendarDate)
    ensures ParseIsoDate(IsoFormat(d)) == Some(d)
  {
    var s := IsoFormat(d);
    assert s[..4] == Decimal.Padded(d.year, 4);
    assert s[5..7] == Decimal.Padded(d.month, 2);
    assert s[8..] == Decimal.Padded(d.day, 2);
    Decimal.ParsePadded(d.year, 4);
    Decimal.ParsePadded(d.month, 2);
    Decimal.ParsePadded(d.day, 2);
  }

  /** The field serializer of `dogFoundOn`: `v.isoformat() if v else None`. */
  function SerializeDogFoundOn(v: Option<CalendarDate>): (r: Option<string>)
    ensures r.None? <==> v.None?
    ensures r.Some? ==> |r.value| == 10 && r.value[4] == '-' && r.value[7] == '-'
    ensures r.Some? ==> ParseIsoDate(r.value) == v
  {
    match v
    case None => None
    case Some(d) =>
      IsoFormatRoundTrip(d);
      Some(IsoFormat(d))
  }

  // ---------------------------------------------------------------- records

  datatype DogImageDto = DogImageDto(id: Option<int>, base64Image: string, imageContentType: Option<string>)

  /** An image built from its payload alone: no id yet, content type `webp`. */
  function NewDogImageDto(base64Image: string): (i: DogImageDto)
    ensures i.id.None? && i.base64Image == base64Image && i.imageContentType == Some("webp")
  {
    DogImageDto(None, base64Image, Some("webp"))
  }

  /** A dog record. `dogType` is the source's `type` field. */
  datatype DogDto = DogDto(
    id: Option<int>,
    images: seq<DogImageDto>,
    dogType: DogType,
    isMatched: bool,
    isVerified: bool,
    contactName: Option<string>,
    contactPhone: Option<string>,
    contactEmail: Option<string>,
    contactAddress: Option<string>,
    name: Option<string>,
    breed: Option<string>,
    color: Option<string>,
    size: Option<string>,
    sex: Option<DogSex>,
    chipNumber: Option<string>,
    location: Option<string>,
    extraDetails: Option<string>,
    dogFoundOn: Option<CalendarDate>)

  /** A record built from its two required fields, every other field at its declared default. */
  function NewDogDto(images: seq<DogImageDto>, dogType: DogType): (d: DogDto)
    ensures d.images == images && d.dogType == dogType
    ensures !d.isMatched && !d.isVerified
    ensures d.id.None? && d.dogFoundOn.None?
    ensures d.contactName.None? && d.contactPhone.None? && d.contactEmail.None? && d.contactAddress.None?
    ensures d.name.None? && d.breed.None? && d.color.None? && d.size.None?
    ensures d.sex.None? && d.chipNumber.None? && d.location.None? && d.extraDetails.None?
  {
    DogDto(None, images, dogType, false, false, None, None, None, None,
           None, None, None, None, None, None, None, None, None)
  }

  /** The properties a record stores in the vector store. */
  const VectorDbKeys: set<string> :=
    {"type", "isMatched", "isVerified", "name", "chipNumber", "breed", "color", "size", "sex", "location"}

  /** `to_vectordb_json`: the ten indexed fields under their own names. */
  function ToVectorDbJson(d: DogDto): (m: map<string, JsonValue>)
    ensures m.Keys == VectorDbKeys
    ensures m["type"] == JString(d.dogType.Value())
    ensures m["isMatched"] == JBool(d.isMatched) && m["isVerified"] == JBool(d.isVerified)
    ensures m["name"] == OptionalText(d.name) && m["chipNumber"] == OptionalText(d.chipNumber)
    ensures m["breed"] == OptionalText(d.breed) && m["color"] == OptionalText(d.color)
    ensures m["size"] == OptionalText(d.size) && m["location"] == OptionalText(d.location)
    ensures m["sex"] == OptionalText(SexText(d.sex))
  {
    map[
      "type" := JString(d.dogType.Value()),
      "isMatched" := JBool(d.isMatched),
      "isVerified" := JBool(d.isVerified),
      "name" := OptionalText(d.name),
      "chipNumber" := OptionalText(d.chipNumber),
      "breed" := OptionalText(d.breed),
      "color" := OptionalText(d.color),
      "size" := OptionalText(d.size),
      "sex" := OptionalText(SexText(d.sex)),
      "location" := OptionalText(d.location)
    ]
  }

  /** Two records agree on the ten fields the vector store indexes. */
  predicate SameIndexedFields(a: DogDto, b: DogDto) {
    && a.dogType == b.dogType && a.isMatched == b.isMatched && a.isVerified == b.isVerified
    && a.name == b.name && a.chipNumber == b.chipNumber && a.breed == b.breed
    && a.color == b.color && a.size == b.size && a.sex == b.sex && a.location == b.location
  }

  /**
   * The projection is exactly the ten indexed fields: it depends on nothing else (id, images,
   * contact details, extra details and the date never show), and it loses nothing of them
   * (a missing value stays a `null` and is not dropped).
   */
  lemma ProjectionDeterminedByIndexedFields(a: DogDto, b: DogDto)
    ensures ToVectorDbJson(a) == ToVectorDbJson(b) <==> SameIndexedFields(a, b)
  {
    var ma, mb := ToVectorDbJson(a), ToVectorDbJson(b);
    if ma == mb {
      assert ma["type"] == mb["type"];
      EnumValuesRoundTrip(a.dogType, Male);
      EnumValuesRoundTrip(b.dogType, Male);
      assert ma["sex"] == mb["sex"];
      if a.sex.Some? && b.sex.Some? {
        EnumValuesRoundTrip(a.dogType, a.sex.value);
        EnumValuesRoundTrip(a.dogType, b.sex.value);
      }
      assert ma["name"] == mb["name"] && ma["chipNumber"] == mb["chipNumber"];
      assert ma["breed"] == mb["breed"] && ma["color"] == mb["color"];
      assert ma["size"] == mb["size"] && ma["location"] == mb["location"];
      assert ma["isMatched"] == mb["isMatched"] && ma["isVerified"] == mb["isVerified"];
    }
  }
}
