/**
 * The country catalogue's record shape and its JSON decoding (configure.rs),
 * the persisted configuration record, and the "read or parse the empty
 * string" file loader.
 *
 * JSON text is kept abstract: a parsed document is a `Json` tree, and the
 * text-to-tree step is a function parameter. Only the one text-level rule
 * the loader relies on is modelled: a blank document is an end-of-input error.
 */
module Configure {
  import opened Common

  datatype Continent = Africa | Asia | Europe | NorthAmerica | SouthAmerica | Oceania | Other

  /** The six strings that name a continent; every other string is `Other`. */
  const CONTINENT_NAMES: set<string> :=
    {"Africa", "Asia", "Europe", "North America", "South America", "Oceania"}

  /** The string a continent is written as (the two renamed variants carry a space). */
  function ContinentName(c: Continent): string
  {
    match c
    case Africa => "Africa"
    case Asia => "Asia"
    case Europe => "Europe"
    case NorthAmerica => "North America"
    case SouthAmerica => "South America"
    case Oceania => "Oceania"
    case Other => "Other"
  }

  /**
   * Decoding a continent string: the six names map to their variants and,
   * through the catch-all variant, any other string maps to `Other` instead
   * of failing.
   */
  function DecodeContinent(s: string): (c: Continent)
    ensures c == Other <==> s !in CONTINENT_NAMES
    ensures c != Other ==> ContinentName(c) == s
  {
    if s == "Africa" then Africa
    else if s == "Asia" then Asia
    else if s == "Europe" then Europe
    else if s == "North America" then NorthAmerica
    else if s == "South America" then SouthAmerica
    else if s == "Oceania" then Oceania
    else Other
  }

  /** Every continent survives being written by name and decoded again. */
  lemma DecodeContinentName(c: Continent)
    ensures DecodeContinent(ContinentName(c)) == c
  {
  }

  /** A parsed JSON document. */
  datatype Json =
    | JNull
    | JBool(b: bool)
    | JNumber(n: int)
    | JString(s: string)
    | JArray(items: seq<Json>)
    | JObject(fields: map<string, Json>)

  datatype DecodeError = EndOfInput | MissingField(field: string) | InvalidType(field: string) | InvalidLength | Syntax

  /** One catalogue record. */
  datatype Country = Country(
    capital: Option<string>,
    code: string,
    continent: Option<Continent>,
    flag1x1: string,
    flag4x3: string,
    iso: bool,
    name: string)

  /** The fields a country object must carry. */
  const REQUIRED_FIELDS: set<string> := {"code", "flag_1x1", "flag_4x3", "iso", "name"}

  /** A record written as an array lists its seven fields in declaration order. */
  const RECORD_ARITY: nat := 7

  /** A `String` value. */
  function StringValue(j: Json, field: string): (r: Result<string, DecodeError>)
    ensures r.Ok? <==> j.JString?
    ensures r.Ok? ==> j == JString(r.value)
  {
    match j
    case JString(s) => Ok(s)
    case _ => Err(InvalidType(field))
  }

  /** A `bool` value. */
  function BoolValue(j: Json, field: string): (r: Result<bool, DecodeError>)
    ensures r.Ok? <==> j.JBool?
    ensures r.Ok? ==> j == JBool(r.value)
  {
    match j
    case JBool(b) => Ok(b)
    case _ => Err(InvalidType(field))
  }

  /** An `Option<String>` value: null is `None`, a string is `Some`. */
  function OptionalStringValue(j: Json, field: string): (r: Result<Option<string>, DecodeError>)
    ensures r.Ok? <==> j.JNull? || j.JString?
    ensures r == Ok(None) <==> j.JNull?
    ensures j.JString? ==> r == Ok(Some(j.s))
  {
    match j
    case JNull => Ok(None)
    case JString(s) => Ok(Some(s))
    case _ => Err(InvalidType(field))
  }

  /** The object form of a unit variant: one key, whose value is null. */
  predicate UnitVariantObject(j: Json)
  {
    j.JObject? && |j.fields| == 1 && forall k :: k in j.fields ==> j.fields[k] == JNull
  }

  /** A map with one entry has one key. */
  lemma SingleKey(f: map<string, Json>)
    requires |f| == 1
    ensures forall a, b :: a in f && b in f ==> a == b
  {
    forall a, b | a in f && b in f
      ensures a == b
    {
      assert |f.Keys - {a}| == 0;
    }
  }

  /**
   * A `Continent` value: the variant's name as a string, or an object whose
   * one key names the variant and whose value is null. Either way an
   * unknown name is `Other`.
   */
  function ContinentValue(j: Json, field: string): (r: Result<Continent, DecodeError>)
    ensures r.Ok? <==> j.JString? || UnitVariantObject(j)
    ensures j.JString? ==> r == Ok(DecodeContinent(j.s))
    ensures UnitVariantObject(j) ==> forall k :: k in j.fields ==> r == Ok(DecodeContinent(k))
  {
    match j
    case JString(s) => Ok(DecodeContinent(s))
    case JObject(f) =>
      if |f| == 1 then
        SingleKey(f);
        var k :| k in f;
        if f[k] == JNull then Ok(DecodeContinent(k)) else Err(InvalidType(field))
      else Err(InvalidType(field))
    case _ => Err(InvalidType(field))
  }

  /** An `Option<Continent>` value: null is `None`, anything else is decoded as a continent. */
  function OptionalContinentValue(j: Json, field: string): (r: Result<Option<Continent>, DecodeError>)
    ensures r.Ok? <==> j.JNull? || ContinentValue(j, field).Ok?
    ensures r == Ok(None) <==> j.JNull?
    ensures !j.JNull? && r.Ok? ==> r.value == Some(ContinentValue(j, field).value)
  {
    if j.JNull? then Ok(None)
    else
      match ContinentValue(j, field)
      case Ok(c) => Ok(Some(c))
      case Err(e) => Err(e)
  }

  function RequiredString(fields: map<string, Json>, key: string): (r: Result<string, DecodeError>)
    ensures r.Ok? <==> key in fields && fields[key].JString?
    ensures r.Ok? ==> fields[key] == JString(r.value)
  {
    if key !in fields then Err(MissingField(key)) else StringValue(fields[key], key)
  }

  function RequiredBool(fields: map<string, Json>, key: string): (r: Result<bool, DecodeError>)
    ensures r.Ok? <==> key in fields && fields[key].JBool?
    ensures r.Ok? ==> fields[key] == JBool(r.value)
  {
    if key !in fields then Err(MissingField(key)) else BoolValue(fields[key], key)
  }

  /** An optional text field is absent, null or a string. */
  predicate OptionalFieldOk(fields: map<string, Json>, key: string)
  {
    key !in fields || fields[key].JNull? || fields[key].JString?
  }

  /** A slot holding an `Option<Continent>`: null, a string, or a one-key object with a null value. */
  predicate ContinentSlotOk(j: Json)
  {
    j.JNull? || j.JString? || UnitVariantObject(j)
  }

  /** An `Option<String>` field: absent or null is `None`. */
  function OptionalString(fields: map<string, Json>, key: string): (r: Result<Option<string>, DecodeError>)
    ensures r.Ok? <==> OptionalFieldOk(fields, key)
    ensures r == Ok(None) <==> key !in fields || fields[key].JNull?
    ensures r.Ok? && r.value.Some? ==> key in fields && fields[key] == JString(r.value.value)
  {
    if key !in fields then Ok(None) else OptionalStringValue(fields[key], key)
  }

  /** An `Option<Continent>` field: absent or null is `None`; a name, in either form, decodes. */
  function OptionalContinent(fields: map<string, Json>, key: string): (r: Result<Option<Continent>, DecodeError>)
    ensures r.Ok? <==> key !in fields || ContinentSlotOk(fields[key])
    ensures r == Ok(None) <==> key !in fields || fields[key].JNull?
    ensures key in fields && fields[key].JString? ==> r == Ok(Some(DecodeContinent(fields[key].s)))
    ensures key in fields && UnitVariantObject(fields[key]) ==>
              forall k :: k in fields[key].fields ==> r == Ok(Some(DecodeContinent(k)))
  {
    if key !in fields then Ok(None) else OptionalContinentValue(fields[key], key)
  }

  /** The required fields are present with the right types, and the optional ones absent, null or well formed. */
  predicate RecordShapeOk(f: map<string, Json>)
  {
    && (forall k :: k in REQUIRED_FIELDS ==> k in f)
    && f["code"].JString? && f["flag_1x1"].JString? && f["flag_4x3"].JString? && f["name"].JString?
    && f["iso"].JBool?
    && OptionalFieldOk(f, "capital") && ("continent" in f ==> ContinentSlotOk(f["continent"]))
  }

  /** Exactly seven elements, each of its field's type, in declaration order. */
  predicate ArrayShapeOk(items: seq<Json>)
  {
    && |items| == RECORD_ARITY
    && (items[0].JNull? || items[0].JString?)
    && items[1].JString?
    && ContinentSlotOk(items[2])
    && items[3].JString? && items[4].JString?
    && items[5].JBool?
    && items[6].JString?
  }

  /** The text of an optional field, `None` when it is absent or null. */
  function OptionalText(f: map<string, Json>, key: string): Option<string>
  {
    if key in f && f[key].JString? then Some(f[key].s) else None
  }

  /** A record written as an object, by field name. */
  function DecodeRecordObject(f: map<string, Json>): Result<Country, DecodeError>
  {
    var capital := OptionalString(f, "capital");
    var code := RequiredString(f, "code");
    var continent := OptionalContinent(f, "continent");
    var flag1x1 := RequiredString(f, "flag_1x1");
    var flag4x3 := RequiredString(f, "flag_4x3");
    var iso := RequiredBool(f, "iso");
    var name := RequiredString(f, "name");
    if capital.Err? then Err(capital.error)
    else if code.Err? then Err(code.error)
    else if continent.Err? then Err(continent.error)
    else if flag1x1.Err? then Err(flag1x1.error)
    else if flag4x3.Err? then Err(flag4x3.error)
    else if iso.Err? then Err(iso.error)
    else if name.Err? then Err(name.error)
    else Ok(Country(capital.value, code.value, continent.value, flag1x1.value, flag4x3.value, iso.value, name.value))
  }

  /** A record written as an array, by position; a wrong element count is an error. */
  function DecodeRecordArray(items: seq<Json>): Result<Country, DecodeError>
  {
    if |items| != RECORD_ARITY then Err(InvalidLength)
    else
      var capital := OptionalStringValue(items[0], "capital");
      var code := StringValue(items[1], "code");
      var continent := OptionalContinentValue(items[2], "continent");
      var flag1x1 := StringValue(items[3], "flag_1x1");
      var flag4x3 := StringValue(items[4], "flag_4x3");
      var iso := BoolValue(items[5], "iso");
      var name := StringValue(items[6], "name");
      if capital.Err? then Err(capital.error)
      else if code.Err? then Err(code.error)
      else if continent.Err? then Err(continent.error)
      else if flag1x1.Err? then Err(flag1x1.error)
      else if flag4x3.Err? then Err(flag4x3.error)
      else if iso.Err? then Err(iso.error)
      else if name.Err? then Err(name.error)
      else Ok(Country(capital.value, code.value, continent.value, flag1x1.value, flag4x3.value, iso.value, name.value))
  }

  /**
   * Decoding one catalogue record, as a derived `Deserialize` does it. As
   * an object, it must carry `code`, `flag_1x1`, `flag_4x3`, `iso` and
   * `name`; `capital` and `continent` may be absent, and unknown fields are
   * ignored. As an array, it holds the seven fields in declaration order.
   */
  function DecodeCountry(j: Json): (r: Result<Country, DecodeError>)
    ensures r.Ok? <==> (j.JObject? && RecordShapeOk(j.fields)) || (j.JArray? && ArrayShapeOk(j.items))
    ensures r.Ok? && j.JObject? ==>
              && j.fields["name"] == JString(r.value.name)
              && j.fields["code"] == JString(r.value.code)
              && j.fields["flag_1x1"] == JString(r.value.flag1x1)
              && j.fields["flag_4x3"] == JString(r.value.flag4x3)
              && j.fields["iso"] == JBool(r.value.iso)
              && r.value.capital == OptionalText(j.fields, "capital")
              && OptionalContinent(j.fields, "continent") == Ok(r.value.continent)
    ensures r.Ok? && j.JArray? ==>
              && OptionalStringValue(j.items[0], "capital") == Ok(r.value.capital)
              && j.items[1] == JString(r.value.code)
              && OptionalContinentValue(j.items[2], "continent") == Ok(r.value.continent)
              && j.items[3] == JString(r.value.flag1x1)
              && j.items[4] == JString(r.value.flag4x3)
              && j.items[5] == JBool(r.value.iso)
              && j.items[6] == JString(r.value.name)
  {
    match j
    case JObject(f) => DecodeRecordObject(f)
    case JArray(items) => DecodeRecordArray(items)
    case _ => Err(InvalidType(""))
  }

  /** Writing a record back as an object; absent options are left out. */
  function EncodeCountry(c: Country): Json
  {
    var base := map[
      "code" := JString(c.code),
      "flag_1x1" := JString(c.flag1x1),
      "flag_4x3" := JString(c.flag4x3),
      "iso" := JBool(c.iso),
      "name" := JString(c.name)];
    var withCapital := if c.capital.Some? then base["capital" := JString(c.capital.value)] else base;
    var withContinent :=
      if c.continent.Some? then withCapital["continent" := JString(ContinentName(c.continent.value))] else withCapital;
    JObject(withContinent)
  }

  /** Every record decodes back from its encoding, `Other` and absent fields included. */
  lemma DecodeEncodeCountry(c: Country)
    ensures DecodeCountry(EncodeCountry(c)) == Ok(c)
  {
    var f := EncodeCountry(c).fields;
    assert f["code"] == JString(c.code);
    assert f["flag_1x1"] == JString(c.flag1x1);
    assert f["flag_4x3"] == JString(c.flag4x3);
    assert f["iso"] == JBool(c.iso);
    assert f["name"] == JString(c.name);
    if c.continent.Some? {
      DecodeContinentName(c.continent.value);
    }
  }

  /** Writing a record as an array in field order; an absent option is null, a continent its name as an object key. */
  function EncodeCountryArray(c: Country): Json
  {
    var capital := match c.capital case Some(s) => JString(s) case None => JNull;
    var continent := match c.continent case Some(k) => JObject(map[ContinentName(k) := JNull]) case None => JNull;
    JArray([capital, JString(c.code), continent, JString(c.flag1x1), JString(c.flag4x3), JBool(c.iso), JString(c.name)])
  }

  /** The array form round-trips too, with each continent in the one-key object form. */
  lemma DecodeEncodeCountryArray(c: Country)
    ensures DecodeCountry(EncodeCountryArray(c)) == Ok(c)
  {
    if c.continent.Some? {
      var name := ContinentName(c.continent.value);
      var slot := JObject(map[name := JNull]);
      assert name in slot.fields;
      assert UnitVariantObject(slot);
      DecodeContinentName(c.continent.value);
    }
  }

  /**
   * Both alternative spellings decode: a record as a positional array, and
   * a continent as a one-key object with a null value.
   */
  lemma AlternativeFormsDecode()
    ensures DecodeCountry(JArray([JNull, JString("AF"), JString("Asia"), JString("af.svg"), JString("af.svg"),
                                  JBool(true), JString("Afghanistan")]))
            == Ok(Country(None, "AF", Some(Asia), "af.svg", "af.svg", true, "Afghanistan"))
    ensures OptionalContinent(map["continent" := JObject(map["Asia" := JNull])], "continent") == Ok(Some(Asia))
    ensures OptionalContinent(map["continent" := JObject(map["Atlantis" := JNull])], "continent") == Ok(Some(Other))
    ensures OptionalContinent(map["continent" := JObject(map["Asia" := JBool(true)])], "continent").Err?
  {
    var asia := JObject(map["Asia" := JNull]);
    assert "Asia" in asia.fields;
    var atlantis := JObject(map["Atlantis" := JNull]);
    assert "Atlantis" in atlantis.fields;
  }

  /** Decoding the catalogue: an array whose every element decodes, or an error. */
  function DecodeCatalogue(j: Json): (r: Result<seq<Country>, DecodeError>)
    ensures r.Ok? <==> j.JArray? && forall i :: 0 <= i < |j.items| ==> DecodeCountry(j.items[i]).Ok?
    ensures r.Ok? ==> |r.value| == |j.items| && forall i :: 0 <= i < |r.value| ==> DecodeCountry(j.items[i]) == Ok(r.value[i])
  {
    match j
    case JArray(items) => DecodeItems(items)
    case _ => Err(InvalidType(""))
  }

  function DecodeItems(items: seq<Json>): (r: Result<seq<Country>, DecodeError>)
    ensures r.Ok? <==> forall i :: 0 <= i < |items| ==> DecodeCountry(items[i]).Ok?
    ensures r.Ok? ==> |r.value| == |items| && forall i :: 0 <= i < |r.value| ==> DecodeCountry(items[i]) == Ok(r.value[i])
  {
    if items == [] then Ok([])
    else
      var head := DecodeCountry(items[0]);
      var tail := DecodeItems(items[1..]);
      assert forall i :: 1 <= i < |items| ==> items[i] == items[1..][i - 1];
      if head.Err? then Err(head.error)
      else if tail.Err? then Err(tail.error)
      else Ok([head.value] + tail.value)
  }

  /** A document holding only whitespace. */
  predicate IsBlank(text: string)
  {
    forall i :: 0 <= i < |text| ==> text[i] in {' ', '\t', '\n', '\r'}
  }

  /**
   * Reading a JSON file into a value: a file that cannot be read is treated
   * as the empty document, and an empty document is an end-of-input error.
   * `read` is the file's contents (or `None` when reading failed) and
   * `parse` the parser for non-blank text.
   */
  function ReadFromFile<T>(read: Option<string>, parse: string -> Result<T, DecodeError>): (r: Result<T, DecodeError>)
    ensures read.None? ==> r == Err(EndOfInput)
    ensures read.Some? && IsBlank(read.value) ==> r == Err(EndOfInput)
    ensures read.Some? && !IsBlank(read.value) ==> r == parse(read.value)
  {
    var data := match read case Some(text) => text case None => "";
    if IsBlank(data) then Err(EndOfInput) else parse(data)
  }

  /** The persisted configuration, with the six fields the application reads and writes. */
  datatype InputConfig = InputConfig(
    size: (int, int),
    position: (int, int),
    continents: seq<bool>,
    mode: seq<bool>,
    language: string,
    color: string)

  /**
   * The configuration used when none can be loaded: a 500 by 500 window at
   * the origin, every continent on, only the first mode on, English, gray.
   */
  const DEFAULT_CONFIG: InputConfig :=
    InputConfig((500, 500), (0, 0), [true, true, true, true, true, true], [true, false, false], "en", "gray")
}
