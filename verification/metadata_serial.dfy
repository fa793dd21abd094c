/**
 * The serialised forms of `ContentMetadata`: `convertToJson`,
 * `createFromJson`, and the Parcel writer and reader.
 */
module MetadataSerial {
  import opened Wrappers
  import opened Json
  import opened Metadata

  // ---------------------------------------------------------------------------
  // Keys
  // ---------------------------------------------------------------------------

  /** The `Defines.Jsonkey` constants of the standard fields, in the order `convertToJson` writes them. */
  datatype Key =
    | ContentSchemaKey | QuantityKey | PriceKey | PriceCurrencyKey | SkuKey
    | ProductNameKey | ProductBrandKey | ProductCategoryKey | ConditionKey | ProductVariantKey
    | RatingKey | RatingAverageKey | RatingCountKey | RatingMaxKey
    | AddressStreetKey | AddressCityKey | AddressRegionKey | AddressCountryKey | AddressPostalCodeKey
    | LatitudeKey | LongitudeKey | ImageCaptionsKey

  /** The key `convertToJson` writes `i`-th. */
  function KeyAt(i: nat): Key
    requires i < 22
  {
    if i == 0 then ContentSchemaKey
    else if i == 1 then QuantityKey
    else if i == 2 then PriceKey
    else if i == 3 then PriceCurrencyKey
    else if i == 4 then SkuKey
    else if i == 5 then ProductNameKey
    else if i == 6 then ProductBrandKey
    else if i == 7 then ProductCategoryKey
    else if i == 8 then ConditionKey
    else if i == 9 then ProductVariantKey
    else if i == 10 then RatingKey
    else if i == 11 then RatingAverageKey
    else if i == 12 then RatingCountKey
    else if i == 13 then RatingMaxKey
    else if i == 14 then AddressStreetKey
    else if i == 15 then AddressCityKey
    else if i == 16 then AddressRegionKey
    else if i == 17 then AddressCountryKey
    else if i == 18 then AddressPostalCodeKey
    else if i == 19 then LatitudeKey
    else if i == 20 then LongitudeKey
    else ImageCaptionsKey
  }

  /** The position of each key in the order `convertToJson` writes them. */
  function KeyIndex(k: Key): (i: nat)
    ensures i < 22 && KeyAt(i) == k
  {
    match k
    case ContentSchemaKey => 0
    case QuantityKey => 1
    case PriceKey => 2
    case PriceCurrencyKey => 3
    case SkuKey => 4
    case ProductNameKey => 5
    case ProductBrandKey => 6
    case ProductCategoryKey => 7
    case ConditionKey => 8
    case ProductVariantKey => 9
    case RatingKey => 10
    case RatingAverageKey => 11
    case RatingCountKey => 12
    case RatingMaxKey => 13
    case AddressStreetKey => 14
    case AddressCityKey => 15
    case AddressRegionKey => 16
    case AddressCountryKey => 17
    case AddressPostalCodeKey => 18
    case LatitudeKey => 19
    case LongitudeKey => 20
    case ImageCaptionsKey => 21
  }

  /** The standard keys in the order `convertToJson` writes them. */
  function AllKeys(): (keys: seq<Key>)
    ensures |keys| == 22 && forall i :: 0 <= i < 22 ==> keys[i] == KeyAt(i)
  {
    seq(22, i requires 0 <= i < 22 => KeyAt(i))
  }

  /** `convertToJson` writes every standard key. */
  lemma AllKeysComplete()
    ensures forall k: Key :: k in AllKeys()
  {
    forall k: Key
      ensures k in AllKeys()
    {
      assert AllKeys()[KeyIndex(k)] == k;
    }
  }

  /** `getKey()` of each standard key. */
  function KeyName(k: Key): string {
    match k
    case ContentSchemaKey => "$content_schema"
    case QuantityKey => "$quantity"
    case PriceKey => "$price"
    case PriceCurrencyKey => "$currency"
    case SkuKey => "$sku"
    case ProductNameKey => "$product_name"
    case ProductBrandKey => "$product_brand"
    case ProductCategoryKey => "$product_category"
    case ConditionKey => "$condition"
    case ProductVariantKey => "$product_variant"
    case RatingKey => "$rating"
    case RatingAverageKey => "$rating_average"
    case RatingCountKey => "$rating_count"
    case RatingMaxKey => "$rating_max"
    case AddressStreetKey => "$address_street"
    case AddressCityKey => "$address_city"
    case AddressRegionKey => "$address_region"
    case AddressCountryKey => "$address_country"
    case AddressPostalCodeKey => "$address_postal_code"
    case LatitudeKey => "$latitude"
    case LongitudeKey => "$longitude"
    case ImageCaptionsKey => "$image_captions"
  }

  /** The standard key a JSON key names, if any. */
  function KeyOf(s: string): (k: Option<Key>)
    ensures k.Some? ==> KeyName(k.value) == s
  {
    if s == "$content_schema" then Some(ContentSchemaKey)
    else if s == "$quantity" then Some(QuantityKey)
    else if s == "$price" then Some(PriceKey)
    else if s == "$currency" then Some(PriceCurrencyKey)
    else if s == "$sku" then Some(SkuKey)
    else if s == "$product_name" then Some(ProductNameKey)
    else if s == "$product_brand" then Some(ProductBrandKey)
    else if s == "$product_category" then Some(ProductCategoryKey)
    else if s == "$condition" then Some(ConditionKey)
    else if s == "$product_variant" then Some(ProductVariantKey)
    else if s == "$rating" then Some(RatingKey)
    else if s == "$rating_average" then Some(RatingAverageKey)
    else if s == "$rating_count" then Some(RatingCountKey)
    else if s == "$rating_max" then Some(RatingMaxKey)
    else if s == "$address_street" then Some(AddressStreetKey)
    else if s == "$address_city" then Some(AddressCityKey)
    else if s == "$address_region" then Some(AddressRegionKey)
    else if s == "$address_country" then Some(AddressCountryKey)
    else if s == "$address_postal_code" then Some(AddressPostalCodeKey)
    else if s == "$latitude" then Some(LatitudeKey)
    else if s == "$longitude" then Some(LongitudeKey)
    else if s == "$image_captions" then Some(ImageCaptionsKey)
    else None
  }

  /** Every standard key is recognised by its own name, so no two keys share a name. */
  lemma KeyOfKeyName(k: Key)
    ensures KeyOf(KeyName(k)) == Some(k)
  {
  }

  lemma KeyNameInjective()
    ensures forall a: Key, b: Key :: KeyName(a) == KeyName(b) ==> a == b
  {
    forall a: Key, b: Key | KeyName(a) == KeyName(b)
      ensures a == b
    {
      KeyOfKeyName(a);
      KeyOfKeyName(b);
    }
  }

  // ---------------------------------------------------------------------------
  // convertToJson
  // ---------------------------------------------------------------------------

  /** `!TextUtils.isEmpty(s)`. */
  predicate NonEmpty(s: Option<string>) {
    s.Some? && s.value != ""
  }

  /** Whether `convertToJson` writes key `k`: strings when non-empty, captions when any, the rest when non-null. */
  predicate Emits(m: ContentMetadata, k: Key) {
    match k
    case ContentSchemaKey => m.contentSchema.Some?
    case QuantityKey => m.quantity.Some?
    case PriceKey => m.price.Some?
    case PriceCurrencyKey => m.currencyType.Some?
    case SkuKey => NonEmpty(m.sku)
    case ProductNameKey => NonEmpty(m.productName)
    case ProductBrandKey => NonEmpty(m.productBrand)
    case ProductCategoryKey => m.productCategory.Some?
    case ConditionKey => m.condition.Some?
    case ProductVariantKey => NonEmpty(m.productVariant)
    case RatingKey => m.rating.Some?
    case RatingAverageKey => m.ratingAverage.Some?
    case RatingCountKey => m.ratingCount.Some?
    case RatingMaxKey => m.ratingMax.Some?
    case AddressStreetKey => NonEmpty(m.addressStreet)
    case AddressCityKey => NonEmpty(m.addressCity)
    case AddressRegionKey => NonEmpty(m.addressRegion)
    case AddressCountryKey => NonEmpty(m.addressCountry)
    case AddressPostalCodeKey => NonEmpty(m.addressPostalCode)
    case LatitudeKey => m.latitude.Some?
    case LongitudeKey => m.longitude.Some?
    case ImageCaptionsKey => |m.imageCaptions| > 0
  }

  /** The value `convertToJson` writes under key `k`, when it writes one. */
  function Field(m: ContentMetadata, k: Key): (v: Option<JsonValue>)
    ensures v.Some? <==> Emits(m, k)
  {
    match k
    case ContentSchemaKey => if m.contentSchema.Some? then Some(JString(m.contentSchema.value.name)) else None
    case QuantityKey => if m.quantity.Some? then Some(JNumber(m.quantity.value)) else None
    case PriceKey => if m.price.Some? then Some(JNumber(m.price.value)) else None
    case PriceCurrencyKey => if m.currencyType.Some? then Some(JString(m.currencyType.value.name)) else None
    case SkuKey => if NonEmpty(m.sku) then Some(JString(m.sku.value)) else None
    case ProductNameKey => if NonEmpty(m.productName) then Some(JString(m.productName.value)) else None
    case ProductBrandKey => if NonEmpty(m.productBrand) then Some(JString(m.productBrand.value)) else None
    case ProductCategoryKey =>
      if m.productCategory.Some? then Some(JString(m.productCategory.value.name)) else None
    case ConditionKey => if m.condition.Some? then Some(JString(ConditionName(m.condition.value))) else None
    case ProductVariantKey => if NonEmpty(m.productVariant) then Some(JString(m.productVariant.value)) else None
    case RatingKey => if m.rating.Some? then Some(JNumber(m.rating.value)) else None
    case RatingAverageKey => if m.ratingAverage.Some? then Some(JNumber(m.ratingAverage.value)) else None
    case RatingCountKey => if m.ratingCount.Some? then Some(JInt(m.ratingCount.value)) else None
    case RatingMaxKey => if m.ratingMax.Some? then Some(JNumber(m.ratingMax.value)) else None
    case AddressStreetKey => if NonEmpty(m.addressStreet) then Some(JString(m.addressStreet.value)) else None
    case AddressCityKey => if NonEmpty(m.addressCity) then Some(JString(m.addressCity.value)) else None
    case AddressRegionKey => if NonEmpty(m.addressRegion) then Some(JString(m.addressRegion.value)) else None
    case AddressCountryKey => if NonEmpty(m.addressCountry) then Some(JString(m.addressCountry.value)) else None
    case AddressPostalCodeKey =>
      if NonEmpty(m.addressPostalCode) then Some(JString(m.addressPostalCode.value)) else None
    case LatitudeKey => if m.latitude.Some? then Some(JNumber(m.latitude.value)) else None
    case LongitudeKey => if m.longitude.Some? then Some(JNumber(m.longitude.value)) else None
    case ImageCaptionsKey =>
      if |m.imageCaptions| > 0 then Some(JArray(Strings(m.imageCaptions))) else None
  }

  /** The standard part of `convertToJson`: the guarded `put` of each of `keys`, in order. */
  function Standard(m: ContentMetadata, keys: seq<Key>): Object
    decreases |keys|
  {
    if |keys| == 0 then map[]
    else
      var before := Standard(m, keys[..|keys| - 1]);
      var k := keys[|keys| - 1];
      match Field(m, k)
      case Some(v) => before[KeyName(k) := v]
      case None => before
  }

  /** The standard part holds exactly the emitted keys among `keys`, each with its own value. */
  lemma {:induction false} StandardLookup(m: ContentMetadata, keys: seq<Key>)
    ensures forall k :: KeyName(k) in Standard(m, keys) <==> k in keys && Emits(m, k)
    ensures forall k :: KeyName(k) in Standard(m, keys) ==> Standard(m, keys)[KeyName(k)] == Field(m, k).value
    ensures forall s :: s in Standard(m, keys) ==> KeyOf(s).Some?
    decreases |keys|
  {
    if |keys| > 0 {
      var init := keys[..|keys| - 1];
      StandardLookup(m, init);
      KeyNameInjective();
      assert forall k :: k in keys <==> k in init || k == keys[|keys| - 1];
      KeyOfKeyName(keys[|keys| - 1]);
    }
  }

  /** The custom entries, as JSON strings. */
  function CustomJson(m: ContentMetadata): Object {
    map s | s in m.customMetadata :: JString(m.customMetadata[s])
  }

  /**
   * `convertToJson()`: each standard key under its presence rule, then the
   * custom entries, which override a standard key of the same name.
   */
  function ToJson(m: ContentMetadata): (o: Object)
    ensures forall k :: KeyName(k) !in m.customMetadata ==> (KeyName(k) in o <==> Emits(m, k))
    ensures forall k :: KeyName(k) !in m.customMetadata && Emits(m, k) ==> o[KeyName(k)] == Field(m, k).value
    ensures forall s :: s in m.customMetadata ==> s in o && o[s] == JString(m.customMetadata[s])
    ensures forall s :: s in o ==> s in m.customMetadata || KeyOf(s).Some?
    ensures KeyName(ImageCaptionsKey) !in m.customMetadata ==>
      (KeyName(ImageCaptionsKey) in o <==> |m.imageCaptions| > 0) &&
      (|m.imageCaptions| > 0 ==> o[KeyName(ImageCaptionsKey)] == JArray(Strings(m.imageCaptions)))
  {
    StandardLookup(m, AllKeys());
    AllKeysComplete();
    Standard(m, AllKeys()) + CustomJson(m)
  }

  /** A new metadata record converts to an empty JSON object. */
  lemma EmptyToJson()
    ensures ToJson(Empty()) == map[]
  {
    var m := Empty();
    var o := ToJson(m);
    forall s | s in o
      ensures false
    {
      var k := KeyOf(s).value;
      EmptyEmitsNothing(k);
    }
  }

  lemma EmptyEmitsNothing(k: Key)
    ensures !Emits(Empty(), k)
  {
  }

  /** A custom entry named like a standard key replaces that key's value. */
  lemma CustomOverridesStandard(m: ContentMetadata, k: Key)
    requires KeyName(k) in m.customMetadata
    ensures ToJson(m)[KeyName(k)] == JString(m.customMetadata[KeyName(k)])
  {
  }

  /** Two objects agree on every key outside `names`. */
  ghost predicate SameOutside(o1: Object, o2: Object, names: set<string>) {
    forall s :: s !in names ==> (s in o1 <==> s in o2) && (s in o1 && s in o2 ==> o1[s] == o2[s])
  }

  /**
   * `convertToJson` is local: two records with the same custom data whose
   * standard fields are written alike outside `names` convert to objects that
   * agree outside `names`.
   */
  lemma ToJsonLocal(m1: ContentMetadata, m2: ContentMetadata, names: set<string>)
    requires m1.customMetadata == m2.customMetadata
    requires forall k :: KeyName(k) !in names ==> Field(m1, k) == Field(m2, k)
    ensures SameOutside(ToJson(m1), ToJson(m2), names)
  {
    var o1, o2 := ToJson(m1), ToJson(m2);
    forall s | s !in names
      ensures (s in o1 <==> s in o2) && (s in o1 && s in o2 ==> o1[s] == o2[s])
    {
      if s !in m1.customMetadata && KeyOf(s).Some? {
        var k := KeyOf(s).value;
        assert Field(m1, k) == Field(m2, k);
      }
    }
  }

  // Each setter changes the converted object at its own keys only.

  lemma SetContentSchemaJson(m: ContentMetadata, schema: Option<Schema>)
    ensures SameOutside(ToJson(m), ToJson(SetContentSchema(m, schema)), {KeyName(ContentSchemaKey)})
  {
    ToJsonLocal(m, SetContentSchema(m, schema), {KeyName(ContentSchemaKey)});
  }

  lemma SetQuantityJson(m: ContentMetadata, quantity: Option<Double>)
    ensures SameOutside(ToJson(m), ToJson(SetQuantity(m, quantity)), {KeyName(QuantityKey)})
  {
    ToJsonLocal(m, SetQuantity(m, quantity), {KeyName(QuantityKey)});
  }

  lemma SetAddressJson(m: ContentMetadata, street: Option<string>, city: Option<string>,
                       region: Option<string>, country: Option<string>, postalCode: Option<string>)
    ensures var names := {KeyName(AddressStreetKey), KeyName(AddressCityKey), KeyName(AddressRegionKey),
                          KeyName(AddressCountryKey), KeyName(AddressPostalCodeKey)};
            SameOutside(ToJson(m), ToJson(SetAddress(m, street, city, region, country, postalCode)), names)
  {
    var names := {KeyName(AddressStreetKey), KeyName(AddressCityKey), KeyName(AddressRegionKey),
                  KeyName(AddressCountryKey), KeyName(AddressPostalCodeKey)};
    var m2 := SetAddress(m, street, city, region, country, postalCode);
    forall k | KeyName(k) !in names
      ensures Field(m, k) == Field(m2, k)
    {
      assert !(k.AddressStreetKey? || k.AddressCityKey? || k.AddressRegionKey? ||
               k.AddressCountryKey? || k.AddressPostalCodeKey?);
    }
    ToJsonLocal(m, m2, names);
  }

  lemma SetLocationJson(m: ContentMetadata, latitude: Option<Double>, longitude: Option<Double>)
    ensures SameOutside(ToJson(m), ToJson(SetLocation(m, latitude, longitude)),
                        {KeyName(LatitudeKey), KeyName(LongitudeKey)})
  {
    ToJsonLocal(m, SetLocation(m, latitude, longitude), {KeyName(LatitudeKey), KeyName(LongitudeKey)});
  }

  lemma SetRatingJson(m: ContentMetadata, rating: Option<Double>, average: Option<Double>,
                      maximum: Option<Double>, count: Option<int>)
    ensures var names := {KeyName(RatingKey), KeyName(RatingAverageKey), KeyName(RatingMaxKey), KeyName(RatingCountKey)};
            SameOutside(ToJson(m), ToJson(SetRating(m, rating, average, maximum, count)), names)
  {
    var names := {KeyName(RatingKey), KeyName(RatingAverageKey), KeyName(RatingMaxKey), KeyName(RatingCountKey)};
    ToJsonLocal(m, SetRating(m, rating, average, maximum, count), names);
  }

  lemma SetPriceJson(m: ContentMetadata, price: Option<Double>, currency: Option<Currency>)
    ensures SameOutside(ToJson(m), ToJson(SetPrice(m, price, currency)),
                        {KeyName(PriceKey), KeyName(PriceCurrencyKey)})
  {
    ToJsonLocal(m, SetPrice(m, price, currency), {KeyName(PriceKey), KeyName(PriceCurrencyKey)});
  }

  lemma SetProductBrandJson(m: ContentMetadata, brand: Option<string>)
    ensures SameOutside(ToJson(m), ToJson(SetProductBrand(m, brand)), {KeyName(ProductBrandKey)})
  {
    ToJsonLocal(m, SetProductBrand(m, brand), {KeyName(ProductBrandKey)});
  }

  lemma SetProductCategoryJson(m: ContentMetadata, category: Option<Category>)
    ensures SameOutside(ToJson(m), ToJson(SetProductCategory(m, category)), {KeyName(ProductCategoryKey)})
  {
    ToJsonLocal(m, SetProductCategory(m, category), {KeyName(ProductCategoryKey)});
  }

  lemma SetProductConditionJson(m: ContentMetadata, condition: Option<Condition>)
    ensures SameOutside(ToJson(m), ToJson(SetProductCondition(m, condition)), {KeyName(ConditionKey)})
  {
    ToJsonLocal(m, SetProductCondition(m, condition), {KeyName(ConditionKey)});
  }

  lemma SetProductNameJson(m: ContentMetadata, name: Option<string>)
    ensures SameOutside(ToJson(m), ToJson(SetProductName(m, name)), {KeyName(ProductNameKey)})
  {
    ToJsonLocal(m, SetProductName(m, name), {KeyName(ProductNameKey)});
  }

  lemma SetProductVariantJson(m: ContentMetadata, variant: Option<string>)
    ensures SameOutside(ToJson(m), ToJson(SetProductVariant(m, variant)), {KeyName(ProductVariantKey)})
  {
    ToJsonLocal(m, SetProductVariant(m, variant), {KeyName(ProductVariantKey)});
  }

  lemma SetSkuJson(m: ContentMetadata, sku: Option<string>)
    ensures SameOutside(ToJson(m), ToJson(SetSku(m, sku)), {KeyName(SkuKey)})
  {
    ToJsonLocal(m, SetSku(m, sku), {KeyName(SkuKey)});
  }

  lemma AddImageCaptionsJson(m: ContentMetadata, captions: seq<string>)
    ensures SameOutside(ToJson(m), ToJson(AddImageCaptions(m, captions)), {KeyName(ImageCaptionsKey)})
  {
    ToJsonLocal(m, AddImageCaptions(m, captions), {KeyName(ImageCaptionsKey)});
  }

  // ---------------------------------------------------------------------------
  // createFromJson
  // ---------------------------------------------------------------------------

  /** `optString` of a JSON value: the string itself, `""` for anything else. */
  function OptString(v: JsonValue): string {
    if v.JString? then v.str else ""
  }

  /** Reading out a string field: its value when it holds a string, null otherwise. */
  function ReadString(o: Object, key: string): (s: Option<string>)
    ensures s.Some? <==> key in o && o[key].JString?
    ensures s.Some? ==> o[key] == JString(s.value)
  {
    if key in o && o[key].JString? then Some(o[key].str) else None
  }

  /** Reading out a `Double` field with a null fallback. */
  function ReadDouble(o: Object, key: string): (d: Option<Double>)
    ensures d.Some? <==> key in o && o[key].JNumber?
    ensures d.Some? ==> o[key] == JNumber(d.value)
  {
    if key in o && o[key].JNumber? then Some(o[key].num) else None
  }

  /** Reading out an `Integer` field with a null fallback. */
  function ReadInt(o: Object, key: string): (n: Option<int>)
    ensures n.Some? <==> key in o && o[key].JInt?
    ensures n.Some? ==> o[key] == JInt(n.value)
  {
    if key in o && o[key].JInt? then Some(o[key].n) else None
  }

  /** The captions array, each element through `optString`, in array order; none when absent. */
  function ReadCaptions(o: Object): (captions: seq<string>)
    ensures KeyName(ImageCaptionsKey) in o && o[KeyName(ImageCaptionsKey)].JArray? ==>
      var items := o[KeyName(ImageCaptionsKey)].items;
      |captions| == |items| && forall i :: 0 <= i < |items| ==> captions[i] == OptString(items[i])
    ensures !(KeyName(ImageCaptionsKey) in o && o[KeyName(ImageCaptionsKey)].JArray?) ==> captions == []
  {
    var key := KeyName(ImageCaptionsKey);
    if key in o && o[key].JArray? then seq(|o[key].items|, i requires 0 <= i < |o[key].items| => OptString(o[key].items[i]))
    else []
  }

  /** The keys a reader still holds once every standard key has been read out, each through `optString`. */
  function Leftover(o: Object): (custom: map<string, string>)
    ensures custom.Keys == set s | s in o && KeyOf(s).None?
    ensures forall s :: s in custom ==> custom[s] == OptString(o[s])
  {
    map s | s in o && KeyOf(s).None? :: OptString(o[s])
  }

  /**
   * `createFromJson(reader)`: each standard field read out of the object,
   * the enums through their `getValue`, the captions in array order, and
   * whatever keys are left over as custom metadata.
   */
  function FromJson(o: Object, lk: Lookups): (m: ContentMetadata)
    ensures m.condition == ConditionOf(ReadString(o, KeyName(ConditionKey)))
    ensures KeyName(ImageCaptionsKey) in o && o[KeyName(ImageCaptionsKey)].JArray? ==>
      var items := o[KeyName(ImageCaptionsKey)].items;
      |m.imageCaptions| == |items| && forall i :: 0 <= i < |items| ==> m.imageCaptions[i] == OptString(items[i])
    ensures m.customMetadata.Keys == set s | s in o && KeyOf(s).None?
    ensures forall s :: s in m.customMetadata ==> m.customMetadata[s] == OptString(o[s])
  {
    ContentMetadata(
      lk.schema(ReadString(o, KeyName(ContentSchemaKey))),
      ReadDouble(o, KeyName(QuantityKey)),
      ReadDouble(o, KeyName(PriceKey)),
      lk.currency(ReadString(o, KeyName(PriceCurrencyKey))),
      ReadString(o, KeyName(SkuKey)),
      ReadString(o, KeyName(ProductNameKey)),
      ReadString(o, KeyName(ProductBrandKey)),
      lk.category(ReadString(o, KeyName(ProductCategoryKey))),
      ConditionOf(ReadString(o, KeyName(ConditionKey))),
      ReadString(o, KeyName(ProductVariantKey)),
      ReadDouble(o, KeyName(RatingKey)),
      ReadDouble(o, KeyName(RatingAverageKey)),
      ReadInt(o, KeyName(RatingCountKey)),
      ReadDouble(o, KeyName(RatingMaxKey)),
      ReadString(o, KeyName(AddressStreetKey)),
      ReadString(o, KeyName(AddressCityKey)),
      ReadString(o, KeyName(AddressRegionKey)),
      ReadString(o, KeyName(AddressCountryKey)),
      ReadString(o, KeyName(AddressPostalCodeKey)),
      ReadDouble(o, KeyName(LatitudeKey)),
      ReadDouble(o, KeyName(LongitudeKey)),
      ReadCaptions(o),
      Leftover(o))
  }

  // ---------------------------------------------------------------------------
  // JSON round trip
  // ---------------------------------------------------------------------------

  /** An empty string is not written, so it reads back as null. */
  function Norm(s: Option<string>): (t: Option<string>)
    ensures t.Some? <==> NonEmpty(s)
    ensures t.Some? ==> t == s
  {
    if NonEmpty(s) then s else None
  }

  /** What a JSON round trip can preserve: every free-text field with `""` turned into null. */
  function Normalized(m: ContentMetadata): (n: ContentMetadata)
    ensures n.(sku := m.sku, productName := m.productName, productBrand := m.productBrand,
               productVariant := m.productVariant, addressStreet := m.addressStreet,
               addressCity := m.addressCity, addressRegion := m.addressRegion,
               addressCountry := m.addressCountry, addressPostalCode := m.addressPostalCode) == m
  {
    m.(sku := Norm(m.sku), productName := Norm(m.productName), productBrand := Norm(m.productBrand),
       productVariant := Norm(m.productVariant), addressStreet := Norm(m.addressStreet),
       addressCity := Norm(m.addressCity), addressRegion := Norm(m.addressRegion),
       addressCountry := Norm(m.addressCountry), addressPostalCode := Norm(m.addressPostalCode))
  }

  /**
   * The enum lookups find `m`'s schema, currency and category by name, and
   * find nothing for a null or empty name.
   */
  predicate InvertsNames(lk: Lookups, m: ContentMetadata) {
    && lk.schema(None) == None && lk.schema(Some("")) == None
    && lk.currency(None) == None && lk.currency(Some("")) == None
    && lk.category(None) == None && lk.category(Some("")) == None
    && (m.contentSchema.Some? ==> lk.schema(Some(m.contentSchema.value.name)) == m.contentSchema)
    && (m.currencyType.Some? ==> lk.currency(Some(m.currencyType.value.name)) == m.currencyType)
    && (m.productCategory.Some? ==> lk.category(Some(m.productCategory.value.name)) == m.productCategory)
  }

  /** The string a JSON value holds, if it is one. */
  function AsString(v: Option<JsonValue>): Option<string> {
    if v.Some? && v.value.JString? then Some(v.value.str) else None
  }

  function AsDouble(v: Option<JsonValue>): Option<Double> {
    if v.Some? && v.value.JNumber? then Some(v.value.num) else None
  }

  function AsInt(v: Option<JsonValue>): Option<int> {
    if v.Some? && v.value.JInt? then Some(v.value.n) else None
  }

  /** No custom key is named like a standard key. */
  predicate NoShadow(m: ContentMetadata) {
    forall k :: KeyName(k) !in m.customMetadata
  }

  lemma CustomKeyIsNotStandard(m: ContentMetadata, s: string)
    requires NoShadow(m) && s in m.customMetadata
    ensures KeyOf(s).None?
  {
  }

  /** The keys a reader of `convertToJson`'s output has left over are exactly the custom entries. */
  lemma LeftoverOfToJson(m: ContentMetadata)
    requires NoShadow(m)
    ensures Leftover(ToJson(m)) == m.customMetadata
  {
    var o := ToJson(m);
    var left := Leftover(o);
    forall s | s in m.customMetadata
      ensures s in left
    {
      CustomKeyIsNotStandard(m, s);
    }
    forall s | s in left
      ensures s in m.customMetadata && left[s] == m.customMetadata[s]
    {
    }
  }

  /** `o` holds, under each standard key, exactly what `convertToJson` writes there for `m`. */
  predicate Carries(o: Object, m: ContentMetadata) {
    forall k :: (KeyName(k) in o <==> Emits(m, k)) && (KeyName(k) in o ==> o[KeyName(k)] == Field(m, k).value)
  }

  /** Without shadowing custom keys, `convertToJson`'s output carries every standard field. */
  lemma ToJsonCarries(m: ContentMetadata)
    requires NoShadow(m)
    ensures Carries(ToJson(m), m)
  {
  }

  /** The product's free-text fields read out of a carrier of `m`: empty strings come back null. */
  lemma ProductTextOfCarrier(o: Object, m: ContentMetadata)
    requires Carries(o, m)
    ensures ReadString(o, KeyName(SkuKey)) == Norm(m.sku)
    ensures ReadString(o, KeyName(ProductNameKey)) == Norm(m.productName)
    ensures ReadString(o, KeyName(ProductBrandKey)) == Norm(m.productBrand)
    ensures ReadString(o, KeyName(ProductVariantKey)) == Norm(m.productVariant)
  {
    ReadField(o, m, SkuKey);
    ReadField(o, m, ProductNameKey);
    ReadField(o, m, ProductBrandKey);
    ReadField(o, m, ProductVariantKey);
  }

  /** The address fields read out of a carrier of `m`: empty strings come back null. */
  lemma AddressOfCarrier(o: Object, m: ContentMetadata)
    requires Carries(o, m)
    ensures ReadString(o, KeyName(AddressStreetKey)) == Norm(m.addressStreet)
    ensures ReadString(o, KeyName(AddressCityKey)) == Norm(m.addressCity)
    ensures ReadString(o, KeyName(AddressRegionKey)) == Norm(m.addressRegion)
    ensures ReadString(o, KeyName(AddressCountryKey)) == Norm(m.addressCountry)
    ensures ReadString(o, KeyName(AddressPostalCodeKey)) == Norm(m.addressPostalCode)
  {
    ReadField(o, m, AddressStreetKey);
    ReadField(o, m, AddressCityKey);
    ReadField(o, m, AddressRegionKey);
    ReadField(o, m, AddressCountryKey);
    ReadField(o, m, AddressPostalCodeKey);
  }

  /** The number fields read out of a carrier of `m`, nulls included. */
  lemma NumbersOfCarrier(o: Object, m: ContentMetadata)
    requires Carries(o, m)
    ensures ReadDouble(o, KeyName(QuantityKey)) == m.quantity
    ensures ReadDouble(o, KeyName(PriceKey)) == m.price
    ensures ReadDouble(o, KeyName(RatingKey)) == m.rating
    ensures ReadDouble(o, KeyName(RatingAverageKey)) == m.ratingAverage
    ensures ReadInt(o, KeyName(RatingCountKey)) == m.ratingCount
    ensures ReadDouble(o, KeyName(RatingMaxKey)) == m.ratingMax
    ensures ReadDouble(o, KeyName(LatitudeKey)) == m.latitude
    ensures ReadDouble(o, KeyName(LongitudeKey)) == m.longitude
  {
    ReadField(o, m, QuantityKey);
    ReadField(o, m, PriceKey);
    ReadField(o, m, RatingKey);
    ReadField(o, m, RatingAverageKey);
    ReadField(o, m, RatingCountKey);
    ReadField(o, m, RatingMaxKey);
    ReadField(o, m, LatitudeKey);
    ReadField(o, m, LongitudeKey);
  }

  /** The enum fields read out of a carrier of `m` as their names, the captions as written. */
  lemma NamesOfCarrier(o: Object, m: ContentMetadata)
    requires Carries(o, m)
    ensures ReadString(o, KeyName(ContentSchemaKey)) == (if m.contentSchema.Some? then Some(m.contentSchema.value.name) else None)
    ensures ReadString(o, KeyName(PriceCurrencyKey)) == (if m.currencyType.Some? then Some(m.currencyType.value.name) else None)
    ensures ReadString(o, KeyName(ProductCategoryKey)) == (if m.productCategory.Some? then Some(m.productCategory.value.name) else None)
    ensures ReadString(o, KeyName(ConditionKey)) == (if m.condition.Some? then Some(ConditionName(m.condition.value)) else None)
    ensures ReadCaptions(o) == m.imageCaptions
  {
    ReadField(o, m, ContentSchemaKey);
    ReadField(o, m, PriceCurrencyKey);
    ReadField(o, m, ProductCategoryKey);
    ReadField(o, m, ConditionKey);
    ReadCaptionsOfCarrier(o, m);
  }

  /** Any object carrying `m`'s standard fields reads back as `m` up to empty strings; the rest is custom. */
  lemma FromCarrier(o: Object, m: ContentMetadata, lk: Lookups)
    requires Carries(o, m)
    requires InvertsNames(lk, m)
    ensures FromJson(o, lk) == Normalized(m).(customMetadata := Leftover(o))
  {
    ProductTextOfCarrier(o, m);
    AddressOfCarrier(o, m);
    NumbersOfCarrier(o, m);
    NamesOfCarrier(o, m);
    if m.condition.Some? {
      ConditionOfName(m.condition.value);
    }
  }

  /** Reading a standard key out of a carrier finds the value written for it. */
  lemma ReadField(o: Object, m: ContentMetadata, k: Key)
    requires Carries(o, m)
    ensures ReadString(o, KeyName(k)) == AsString(Field(m, k))
    ensures ReadDouble(o, KeyName(k)) == AsDouble(Field(m, k))
    ensures ReadInt(o, KeyName(k)) == AsInt(Field(m, k))
  {
  }

  /** The caption strings come back from their JSON array unchanged. */
  lemma ReadCaptionsOfCarrier(o: Object, m: ContentMetadata)
    requires Carries(o, m)
    ensures ReadCaptions(o) == m.imageCaptions
  {
    assert Emits(m, ImageCaptionsKey) <==> KeyName(ImageCaptionsKey) in o;
    if |m.imageCaptions| > 0 {
      var items := Strings(m.imageCaptions);
      assert forall i :: 0 <= i < |items| ==> OptString(items[i]) == m.imageCaptions[i];
    }
  }

  /**
   * `createFromJson` inverts `convertToJson` up to empty strings, provided no
   * custom key shadows a standard key and the enum lookups invert the names.
   */
  lemma JsonRoundTrip(m: ContentMetadata, lk: Lookups)
    requires NoShadow(m)
    requires InvertsNames(lk, m)
    ensures FromJson(ToJson(m), lk) == Normalized(m)
  {
    ToJsonCarries(m);
    FromCarrier(ToJson(m), m, lk);
    LeftoverOfToJson(m);
  }

  // ---------------------------------------------------------------------------
  // Parcel
  // ---------------------------------------------------------------------------

  /**
   * One value written to a `Parcel`: a string, a serialised `Double`,
   * `Integer`, list or map, or null. `writeString(null)` and
   * `writeSerializable(null)` put the same null on the wire, which both
   * `readString` and `readSerializable` read back as null, so a null carries
   * no type.
   */
  datatype Token =
    | PNull
    | PString(str: string)
    | PDouble(dbl: Double)
    | PInt(count: int)
    | PStringList(strings: seq<string>)
    | PStringMap(entries: map<string, string>)

  /** `writeString` of a nullable string. */
  function StringToken(s: Option<string>): (t: Token)
    ensures s.None? <==> t.PNull?
    ensures s.Some? ==> t == PString(s.value)
  {
    if s.Some? then PString(s.value) else PNull
  }

  /** `writeSerializable` of a nullable `Double`. */
  function DoubleToken(d: Option<Double>): (t: Token)
    ensures d.None? <==> t.PNull?
    ensures d.Some? ==> t == PDouble(d.value)
  {
    if d.Some? then PDouble(d.value) else PNull
  }

  /** `writeSerializable` of a nullable `Integer`. */
  function IntToken(c: Option<int>): (t: Token)
    ensures c.None? <==> t.PNull?
    ensures c.Some? ==> t == PInt(c.value)
  {
    if c.Some? then PInt(c.value) else PNull
  }

  /** `readString` on a string or a null token. */
  function StringOf(t: Token): (s: Option<string>)
    requires t.PNull? || t.PString?
    ensures s.None? <==> t.PNull?
    ensures t.PString? ==> s == Some(t.str)
  {
    if t.PString? then Some(t.str) else None
  }

  /** `(Double) readSerializable()` on a `Double` or a null token. */
  function DoubleOf(t: Token): (d: Option<Double>)
    requires t.PNull? || t.PDouble?
    ensures d.None? <==> t.PNull?
    ensures t.PDouble? ==> d == Some(t.dbl)
  {
    if t.PDouble? then Some(t.dbl) else None
  }

  /** `(Integer) readSerializable()` on an `Integer` or a null token. */
  function IntOf(t: Token): (c: Option<int>)
    requires t.PNull? || t.PInt?
    ensures c.None? <==> t.PNull?
    ensures t.PInt? ==> c == Some(t.count)
  {
    if t.PInt? then Some(t.count) else None
  }

  /** An enum field goes into the parcel as its name, or `""` when null. */
  function NameOrEmpty(name: Option<string>): (s: string)
    ensures name.Some? ==> s == name.value
    ensures name.None? ==> s == ""
  {
    if name.Some? then name.value else ""
  }

  /** `writeToParcel`: the twenty-three values in their fixed order. */
  function ToParcel(m: ContentMetadata): (p: seq<Token>)
    ensures |p| == 23
    ensures p[8] == PString(if m.condition.Some? then ConditionName(m.condition.value) else "")
    ensures p[21] == PStringList(m.imageCaptions) && p[22] == PStringMap(m.customMetadata)
  {
    [ PString(NameOrEmpty(if m.contentSchema.Some? then Some(m.contentSchema.value.name) else None)),
      DoubleToken(m.quantity),
      DoubleToken(m.price),
      PString(NameOrEmpty(if m.currencyType.Some? then Some(m.currencyType.value.name) else None)),
      StringToken(m.sku),
      StringToken(m.productName),
      StringToken(m.productBrand),
      PString(NameOrEmpty(if m.productCategory.Some? then Some(m.productCategory.value.name) else None)),
      PString(NameOrEmpty(if m.condition.Some? then Some(ConditionName(m.condition.value)) else None)),
      StringToken(m.productVariant),
      DoubleToken(m.rating),
      DoubleToken(m.ratingAverage),
      IntToken(m.ratingCount),
      DoubleToken(m.ratingMax),
      StringToken(m.addressStreet),
      StringToken(m.addressCity),
      StringToken(m.addressRegion),
      StringToken(m.addressCountry),
      StringToken(m.addressPostalCode),
      DoubleToken(m.latitude),
      DoubleToken(m.longitude),
      PStringList(m.imageCaptions),
      PStringMap(m.customMetadata) ]
  }

  /**
   * The tokens the Parcel constructor accepts at each position: null or the
   * expected kind at the twenty-one scalar positions, and a non-null list and
   * map at positions 21 and 22 (a null there fails in `addAll`/`putAll`).
   */
  predicate FitsAt(t: Token, i: nat) {
    if i in {0, 3, 4, 5, 6, 7, 8, 9, 14, 15, 16, 17, 18} then t.PNull? || t.PString?
    else if i == 12 then t.PNull? || t.PInt?
    else if i == 21 then t.PStringList?
    else if i == 22 then t.PStringMap?
    else t.PNull? || t.PDouble?
  }

  /**
   * A parcel the constructor reads without a `ClassCastException` or a
   * `NullPointerException`: at least twenty-three tokens, each one the
   * constructor accepts at its position. (Past the end a parcel reads as
   * null, which the list and map at positions 21 and 22 cannot be.)
   */
  predicate WellFormed(p: seq<Token>) {
    |p| >= 23 && forall i :: 0 <= i < 23 ==> FitsAt(p[i], i)
  }

  /**
   * The Parcel constructor: reads the values back in the order written, the
   * enums through their `getValue`; fails when the parcel is not well formed.
   * Tokens after the twenty-third are not read.
   */
  function FromParcel(p: seq<Token>, lk: Lookups): (m: Option<ContentMetadata>)
    ensures m.Some? <==> WellFormed(p)
    ensures m.Some? ==> m.value.condition == ConditionOf(StringOf(p[8]))
    ensures m.Some? ==> m.value.ratingCount == IntOf(p[12])
    ensures m.Some? ==> m.value.imageCaptions == p[21].strings && m.value.customMetadata == p[22].entries
  {
    if !WellFormed(p) then None
    else
      assert FitsAt(p[0], 0) && FitsAt(p[1], 1) && FitsAt(p[2], 2) && FitsAt(p[3], 3);
      assert FitsAt(p[4], 4) && FitsAt(p[5], 5) && FitsAt(p[6], 6) && FitsAt(p[7], 7);
      assert FitsAt(p[8], 8) && FitsAt(p[9], 9) && FitsAt(p[10], 10) && FitsAt(p[11], 11);
      assert FitsAt(p[12], 12) && FitsAt(p[13], 13) && FitsAt(p[14], 14) && FitsAt(p[15], 15);
      assert FitsAt(p[16], 16) && FitsAt(p[17], 17) && FitsAt(p[18], 18) && FitsAt(p[19], 19);
      assert FitsAt(p[20], 20) && FitsAt(p[21], 21) && FitsAt(p[22], 22);
      Some(ContentMetadata(
        lk.schema(StringOf(p[0])),
        DoubleOf(p[1]),
        DoubleOf(p[2]),
        lk.currency(StringOf(p[3])),
        StringOf(p[4]),
        StringOf(p[5]),
        StringOf(p[6]),
        lk.category(StringOf(p[7])),
        ConditionOf(StringOf(p[8])),
        StringOf(p[9]),
        DoubleOf(p[10]),
        DoubleOf(p[11]),
        IntOf(p[12]),
        DoubleOf(p[13]),
        StringOf(p[14]),
        StringOf(p[15]),
        StringOf(p[16]),
        StringOf(p[17]),
        StringOf(p[18]),
        DoubleOf(p[19]),
        DoubleOf(p[20]),
        p[21].strings,
        p[22].entries))
  }

  /**
   * A null is readable at every scalar position: replacing any of the first
   * twenty-one tokens of a readable parcel with null leaves it readable.
   */
  lemma NullReadableAtScalars(p: seq<Token>, i: nat, lk: Lookups)
    requires WellFormed(p) && i < 21
    ensures FromParcel(p[i := PNull], lk).Some?
  {
    var q := p[i := PNull];
    forall j | 0 <= j < 23
      ensures FitsAt(q[j], j)
    {
      if j != i {
        assert q[j] == p[j] && FitsAt(p[j], j);
      }
    }
  }

  /**
   * Writing then reading a parcel gives the same metadata back, null enums
   * included, provided the enum lookups invert the names.
   */
  lemma ParcelRoundTrip(m: ContentMetadata, lk: Lookups)
    requires InvertsNames(lk, m)
    ensures FromParcel(ToParcel(m), lk) == Some(m)
  {
    var p := ToParcel(m);
    ToParcelWellFormed(m);
    var r := FromParcel(p, lk).value;
    assert r.contentSchema == m.contentSchema && r.currencyType == m.currencyType && r.productCategory == m.productCategory;
    assert r.condition == m.condition by {
      if m.condition.Some? {
        ConditionOfName(m.condition.value);
      }
    }
    assert r.sku == m.sku && r.productName == m.productName && r.productBrand == m.productBrand;
    assert r.productVariant == m.productVariant;
    assert r.addressStreet == m.addressStreet && r.addressCity == m.addressCity && r.addressRegion == m.addressRegion;
    assert r.addressCountry == m.addressCountry && r.addressPostalCode == m.addressPostalCode;
    assert r.quantity == m.quantity && r.price == m.price && r.rating == m.rating && r.ratingAverage == m.ratingAverage;
    assert r.ratingCount == m.ratingCount && r.ratingMax == m.ratingMax && r.latitude == m.latitude && r.longitude == m.longitude;
  }

  /** A parcel written after any writer call is always readable. */
  lemma ToParcelWellFormed(m: ContentMetadata)
    ensures WellFormed(ToParcel(m))
  {
    var p := ToParcel(m);
    forall i | 0 <= i < 23
      ensures FitsAt(p[i], i)
    {
    }
  }
}
