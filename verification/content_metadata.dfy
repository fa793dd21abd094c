/**
 * Content metadata (`ContentMetadata`): a record of optional fields, its
 * builder setters, its JSON projection and reader, and its Parcel form.
 *
 * `BranchContentSchema`, `CurrencyType` and `ProductCategory` are known only
 * by their names; their `getValue` lookups are passed in as `Lookups`.
 */
module Metadata {
  import opened Wrappers
  import opened Json

  // ---------------------------------------------------------------------------
  // CONDITION
  // ---------------------------------------------------------------------------

  /** The `CONDITION` enum, in declaration order. */
  datatype Condition = Other | New | Good | Fair | Poor | Used | Refurbished | Excellent

  const Conditions: seq<Condition> := [Other, New, Good, Fair, Poor, Used, Refurbished, Excellent]

  /** `CONDITION.values()` lists every constant. */
  lemma ConditionsComplete()
    ensures forall k: Condition :: k in Conditions
  {
    forall k: Condition
      ensures k in Conditions
    {
      match k
      case Other => assert Conditions[0] == k;
      case New => assert Conditions[1] == k;
      case Good => assert Conditions[2] == k;
      case Fair => assert Conditions[3] == k;
      case Poor => assert Conditions[4] == k;
      case Used => assert Conditions[5] == k;
      case Refurbished => assert Conditions[6] == k;
      case Excellent => assert Conditions[7] == k;
    }
  }

  /** `name()` of a `CONDITION` constant. */
  function ConditionName(c: Condition): string {
    match c
    case Other => "OTHER"
    case New => "NEW"
    case Good => "GOOD"
    case Fair => "FAIR"
    case Poor => "POOR"
    case Used => "USED"
    case Refurbished => "REFURBISHED"
    case Excellent => "EXCELLENT"
  }

  function UpperAscii(ch: char): char {
    if 'a' <= ch <= 'z' then (ch as int - 32) as char else ch
  }

  function LowerAscii(ch: char): char {
    if 'A' <= ch <= 'Z' then (ch as int + 32) as char else ch
  }

  /** One character of `String.equalsIgnoreCase` (ASCII case mapping). */
  predicate SameCharIgnoringCase(a: char, b: char) {
    a == b || UpperAscii(a) == UpperAscii(b) || LowerAscii(UpperAscii(a)) == LowerAscii(UpperAscii(b))
  }

  /** `String.equalsIgnoreCase`. */
  predicate EqualsIgnoreCase(a: string, b: string) {
    |a| == |b| && forall i :: 0 <= i < |a| ==> SameCharIgnoringCase(a[i], b[i])
  }

  /** The first constant of `cs` whose name matches `name` ignoring case. */
  function FirstNamed(cs: seq<Condition>, name: string): (c: Option<Condition>)
    ensures c.Some? ==> c.value in cs && EqualsIgnoreCase(ConditionName(c.value), name)
    ensures c.None? ==> forall k :: k in cs ==> !EqualsIgnoreCase(ConditionName(k), name)
    decreases |cs|
  {
    if |cs| == 0 then None
    else if EqualsIgnoreCase(ConditionName(cs[0]), name) then Some(cs[0])
    else FirstNamed(cs[1..], name)
  }

  /**
   * `CONDITION.getValue(name)`: absent for a null or empty name, otherwise
   * the constant whose name matches ignoring case, if any.
   */
  function ConditionOf(name: Option<string>): (c: Option<Condition>)
    ensures name.None? || name == Some("") ==> c.None?
    ensures c.Some? ==> name.Some? && EqualsIgnoreCase(ConditionName(c.value), name.value)
    ensures name.Some? && c.None? ==> forall k: Condition :: !EqualsIgnoreCase(ConditionName(k), name.value)
  {
    match name
    case None => None
    case Some(s) =>
      if s == "" then None
      else
        ConditionsComplete();
        FirstNamed(Conditions, s)
  }

  predicate AllUpper(s: string) {
    forall i :: 0 <= i < |s| ==> 'A' <= s[i] <= 'Z'
  }

  /** Two upper-case names that both match one string ignoring case are the same name. */
  lemma UpperNamesMatchUniquely(a: string, b: string, s: string)
    requires AllUpper(a) && AllUpper(b)
    requires EqualsIgnoreCase(a, s) && EqualsIgnoreCase(b, s)
    ensures a == b
  {
    forall i | 0 <= i < |a|
      ensures a[i] == b[i]
    {
      assert SameCharIgnoringCase(a[i], s[i]) && SameCharIgnoringCase(b[i], s[i]);
      assert UpperAscii(s[i]) == a[i] by {
        assert a[i] == UpperAscii(a[i]);
      }
      assert UpperAscii(s[i]) == b[i] by {
        assert b[i] == UpperAscii(b[i]);
      }
    }
  }

  lemma ConditionNamesUpper(c: Condition)
    ensures AllUpper(ConditionName(c))
  {
  }

  lemma ConditionNameInjective(c: Condition, d: Condition)
    requires ConditionName(c) == ConditionName(d)
    ensures c == d
  {
    match c
    case Other => assert ConditionName(c)[0] == 'O';
    case New => assert ConditionName(c)[0] == 'N';
    case Good => assert ConditionName(c)[0] == 'G';
    case Fair => assert ConditionName(c)[0] == 'F';
    case Poor => assert ConditionName(c)[0] == 'P';
    case Used => assert ConditionName(c)[0] == 'U';
    case Refurbished => assert ConditionName(c)[0] == 'R';
    case Excellent => assert ConditionName(c)[0] == 'E';
  }

  /** `getValue(s)` is `c` exactly when `c`'s name equals `s` ignoring case. */
  lemma ConditionOfIff(c: Condition, s: string)
    ensures ConditionOf(Some(s)) == Some(c) <==> EqualsIgnoreCase(ConditionName(c), s)
  {
    if EqualsIgnoreCase(ConditionName(c), s) {
      assert s != "" by {
        assert |ConditionName(c)| > 0;
      }
      var d := ConditionOf(Some(s)).value;
      ConditionNamesUpper(c);
      ConditionNamesUpper(d);
      UpperNamesMatchUniquely(ConditionName(c), ConditionName(d), s);
      ConditionNameInjective(c, d);
    }
  }

  /** Every constant is found by its own name: `getValue(c.name()) == c`. */
  lemma ConditionOfName(c: Condition)
    ensures ConditionOf(Some(ConditionName(c))) == Some(c)
  {
    ConditionOfIff(c, ConditionName(c));
  }

  // ---------------------------------------------------------------------------
  // The record
  // ---------------------------------------------------------------------------

  /** A `BranchContentSchema` constant, known by `name()`. */
  datatype Schema = Schema(name: string)

  /** A `ProductCategory` constant, known by `getName()`. */
  datatype Category = Category(name: string)

  /** The `getValue` lookups of the enums whose code is not part of this model. */
  datatype Lookups = Lookups(
    schema: Option<string> -> Option<Schema>,
    currency: Option<string> -> Option<Currency>,
    category: Option<string> -> Option<Category>)

  datatype ContentMetadata = ContentMetadata(
    contentSchema: Option<Schema>,
    quantity: Option<Double>,
    price: Option<Double>,
    currencyType: Option<Currency>,
    sku: Option<string>,
    productName: Option<string>,
    productBrand: Option<string>,
    productCategory: Option<Category>,
    condition: Option<Condition>,
    productVariant: Option<string>,
    rating: Option<Double>,
    ratingAverage: Option<Double>,
    ratingCount: Option<int>,
    ratingMax: Option<Double>,
    addressStreet: Option<string>,
    addressCity: Option<string>,
    addressRegion: Option<string>,
    addressCountry: Option<string>,
    addressPostalCode: Option<string>,
    latitude: Option<Double>,
    longitude: Option<Double>,
    imageCaptions: seq<string>,
    customMetadata: map<string, string>)

  /** `new ContentMetadata()`: every field null, no captions, no custom data. */
  function Empty(): (m: ContentMetadata)
    ensures m.imageCaptions == [] && m.customMetadata == map[]
    ensures m.contentSchema.None? && m.quantity.None? && m.price.None? && m.currencyType.None?
    ensures m.sku.None? && m.productName.None? && m.productBrand.None? && m.productCategory.None?
    ensures m.condition.None? && m.productVariant.None?
    ensures m.rating.None? && m.ratingAverage.None? && m.ratingCount.None? && m.ratingMax.None?
    ensures m.addressStreet.None? && m.addressCity.None? && m.addressRegion.None?
    ensures m.addressCountry.None? && m.addressPostalCode.None?
    ensures m.latitude.None? && m.longitude.None?
  {
    ContentMetadata(None, None, None, None, None, None, None, None, None, None, None,
                    None, None, None, None, None, None, None, None, None, None, [], map[])
  }

  // ---------------------------------------------------------------------------
  // Builder
  // ---------------------------------------------------------------------------

  /** `addImageCaptions(captions...)`: appends, in argument order. */
  function AddImageCaptions(m: ContentMetadata, captions: seq<string>): (r: ContentMetadata)
    ensures |r.imageCaptions| == |m.imageCaptions| + |captions|
    ensures r.imageCaptions[..|m.imageCaptions|] == m.imageCaptions
    ensures r.imageCaptions[|m.imageCaptions|..] == captions
    ensures r.(imageCaptions := m.imageCaptions) == m
  {
    m.(imageCaptions := m.imageCaptions + captions)
  }

  /** `addCustomMetadata(key, value)`: sets one key, keeps every other. */
  function AddCustomMetadata(m: ContentMetadata, key: string, value: string): (r: ContentMetadata)
    ensures key in r.customMetadata && r.customMetadata[key] == value
    ensures r.customMetadata.Keys == m.customMetadata.Keys + {key}
    ensures forall k :: k in m.customMetadata && k != key ==> r.customMetadata[k] == m.customMetadata[k]
    ensures r.(customMetadata := m.customMetadata) == m
  {
    m.(customMetadata := m.customMetadata[key := value])
  }

  function SetContentSchema(m: ContentMetadata, schema: Option<Schema>): (r: ContentMetadata)
    ensures r.contentSchema == schema && r.(contentSchema := m.contentSchema) == m
  {
    m.(contentSchema := schema)
  }

  function SetQuantity(m: ContentMetadata, quantity: Option<Double>): (r: ContentMetadata)
    ensures r.quantity == quantity && r.(quantity := m.quantity) == m
  {
    m.(quantity := quantity)
  }

  /** `setAddress`: the five address fields, nothing else. */
  function SetAddress(m: ContentMetadata, street: Option<string>, city: Option<string>,
                      region: Option<string>, country: Option<string>,
                      postalCode: Option<string>): (r: ContentMetadata)
    ensures r.addressStreet == street && r.addressCity == city && r.addressRegion == region
    ensures r.addressCountry == country && r.addressPostalCode == postalCode
    ensures r.(addressStreet := m.addressStreet, addressCity := m.addressCity,
               addressRegion := m.addressRegion, addressCountry := m.addressCountry,
               addressPostalCode := m.addressPostalCode) == m
  {
    m.(addressStreet := street, addressCity := city, addressRegion := region,
       addressCountry := country, addressPostalCode := postalCode)
  }

  function SetLocation(m: ContentMetadata, latitude: Option<Double>, longitude: Option<Double>): (r: ContentMetadata)
    ensures r.latitude == latitude && r.longitude == longitude
    ensures r.(latitude := m.latitude, longitude := m.longitude) == m
  {
    m.(latitude := latitude, longitude := longitude)
  }

  /** `setRating(rating, average, max, count)`: the four rating fields. */
  function SetRating(m: ContentMetadata, rating: Option<Double>, average: Option<Double>,
                     maximum: Option<Double>, count: Option<int>): (r: ContentMetadata)
    ensures r.rating == rating && r.ratingAverage == average && r.ratingMax == maximum && r.ratingCount == count
    ensures r.(rating := m.rating, ratingAverage := m.ratingAverage, ratingMax := m.ratingMax,
               ratingCount := m.ratingCount) == m
  {
    m.(rating := rating, ratingAverage := average, ratingMax := maximum, ratingCount := count)
  }

  /** The deprecated `setRating(average, max, count)`: leaves `rating` as it was. */
  function SetRatingLegacy(m: ContentMetadata, average: Option<Double>, maximum: Option<Double>,
                           count: Option<int>): (r: ContentMetadata)
    ensures r.rating == m.rating
    ensures r.ratingAverage == average && r.ratingMax == maximum && r.ratingCount == count
    ensures r.(ratingAverage := m.ratingAverage, ratingMax := m.ratingMax, ratingCount := m.ratingCount) == m
  {
    m.(ratingAverage := average, ratingMax := maximum, ratingCount := count)
  }

  function SetPrice(m: ContentMetadata, price: Option<Double>, currency: Option<Currency>): (r: ContentMetadata)
    ensures r.price == price && r.currencyType == currency
    ensures r.(price := m.price, currencyType := m.currencyType) == m
  {
    m.(price := price, currencyType := currency)
  }

  function SetProductBrand(m: ContentMetadata, brand: Option<string>): (r: ContentMetadata)
    ensures r.productBrand == brand && r.(productBrand := m.productBrand) == m
  {
    m.(productBrand := brand)
  }

  function SetProductCategory(m: ContentMetadata, category: Option<Category>): (r: ContentMetadata)
    ensures r.productCategory == category && r.(productCategory := m.productCategory) == m
  {
    m.(productCategory := category)
  }

  function SetProductCondition(m: ContentMetadata, condition: Option<Condition>): (r: ContentMetadata)
    ensures r.condition == condition && r.(condition := m.condition) == m
  {
    m.(condition := condition)
  }

  function SetProductName(m: ContentMetadata, name: Option<string>): (r: ContentMetadata)
    ensures r.productName == name && r.(productName := m.productName) == m
  {
    m.(productName := name)
  }

  function SetProductVariant(m: ContentMetadata, variant: Option<string>): (r: ContentMetadata)
    ensures r.productVariant == variant && r.(productVariant := m.productVariant) == m
  {
    m.(productVariant := variant)
  }

  function SetSku(m: ContentMetadata, sku: Option<string>): (r: ContentMetadata)
    ensures r.sku == sku && r.(sku := m.sku) == m
  {
    m.(sku := sku)
  }

  /** Adding captions in two calls is adding them in one. */
  lemma AddImageCaptionsTwice(m: ContentMetadata, a: seq<string>, b: seq<string>)
    ensures AddImageCaptions(AddImageCaptions(m, a), b) == AddImageCaptions(m, a + b)
  {
    assert m.imageCaptions + a + b == m.imageCaptions + (a + b);
  }

  /** The deprecated rating setter is the four-argument one with the current rating passed back in. */
  lemma SetRatingLegacyKeepsRating(m: ContentMetadata, average: Option<Double>, maximum: Option<Double>,
                                   count: Option<int>)
    ensures SetRatingLegacy(m, average, maximum, count) == SetRating(m, m.rating, average, maximum, count)
  {
  }
}
