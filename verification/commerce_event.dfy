/**
 * A commerce event (`CommerceEvent`): revenue, currency, transaction details
 * and a nullable list of products, with its JSON projection.
 */
module Commerce {
  import opened Wrappers
  import opened Json

  /** A `Product`, known by the JSON object `getProductJSONObject` builds for it. */
  datatype Product = Product(json: Object)

  /** The event's fields; a null product list is `None`, an empty one `Some([])`. */
  datatype CommerceEvent = CommerceEvent(
    revenue: Option<Double>,
    currencyType: Option<Currency>,
    transactionId: Option<string>,
    shipping: Option<Double>,
    tax: Option<Double>,
    coupon: Option<string>,
    affiliation: Option<string>,
    products: Option<seq<Product>>)

  // ---------------------------------------------------------------------------
  // Constructors
  // ---------------------------------------------------------------------------

  /** `new CommerceEvent()`: every field null, no product list. */
  function Empty(): (e: CommerceEvent)
    ensures e.revenue.None? && e.currencyType.None? && e.transactionId.None? && e.shipping.None?
    ensures e.tax.None? && e.coupon.None? && e.affiliation.None? && e.products.None?
  {
    CommerceEvent(None, None, None, None, None, None, None, None)
  }

  /** The constructor taking a product list, which it keeps as given (null included). */
  function WithProducts(revenue: Option<Double>, currency: Option<Currency>, transactionId: Option<string>,
                        shipping: Option<Double>, tax: Option<Double>, coupon: Option<string>,
                        affiliation: Option<string>, products: Option<seq<Product>>): (e: CommerceEvent)
    ensures e.products == products
    ensures e.revenue == revenue && e.currencyType == currency && e.transactionId == transactionId
    ensures e.shipping == shipping && e.tax == tax && e.coupon == coupon && e.affiliation == affiliation
  {
    CommerceEvent(revenue, currency, transactionId, shipping, tax, coupon, affiliation, products)
  }

  /** The constructor taking one product: a fresh list holding just that product. */
  function WithProduct(revenue: Option<Double>, currency: Option<Currency>, transactionId: Option<string>,
                       shipping: Option<Double>, tax: Option<Double>, coupon: Option<string>,
                       affiliation: Option<string>, product: Product): (e: CommerceEvent)
    ensures e.products == Some([product])
    ensures e.revenue == revenue && e.currencyType == currency && e.transactionId == transactionId
    ensures e.shipping == shipping && e.tax == tax && e.coupon == coupon && e.affiliation == affiliation
  {
    CommerceEvent(revenue, currency, transactionId, shipping, tax, coupon, affiliation, Some([product]))
  }

  // ---------------------------------------------------------------------------
  // Setters
  // ---------------------------------------------------------------------------

  function SetRevenue(e: CommerceEvent, revenue: Option<Double>): (r: CommerceEvent)
    ensures r.revenue == revenue && r.(revenue := e.revenue) == e
  {
    e.(revenue := revenue)
  }

  function SetCurrencyType(e: CommerceEvent, currency: Option<Currency>): (r: CommerceEvent)
    ensures r.currencyType == currency && r.(currencyType := e.currencyType) == e
  {
    e.(currencyType := currency)
  }

  function SetTransactionId(e: CommerceEvent, transactionId: Option<string>): (r: CommerceEvent)
    ensures r.transactionId == transactionId && r.(transactionId := e.transactionId) == e
  {
    e.(transactionId := transactionId)
  }

  function SetShipping(e: CommerceEvent, shipping: Option<Double>): (r: CommerceEvent)
    ensures r.shipping == shipping && r.(shipping := e.shipping) == e
  {
    e.(shipping := shipping)
  }

  function SetTax(e: CommerceEvent, tax: Option<Double>): (r: CommerceEvent)
    ensures r.tax == tax && r.(tax := e.tax) == e
  {
    e.(tax := tax)
  }

  function SetCoupon(e: CommerceEvent, coupon: Option<string>): (r: CommerceEvent)
    ensures r.coupon == coupon && r.(coupon := e.coupon) == e
  {
    e.(coupon := coupon)
  }

  function SetAffiliation(e: CommerceEvent, affiliation: Option<string>): (r: CommerceEvent)
    ensures r.affiliation == affiliation && r.(affiliation := e.affiliation) == e
  {
    e.(affiliation := affiliation)
  }

  function SetProducts(e: CommerceEvent, products: Option<seq<Product>>): (r: CommerceEvent)
    ensures r.products == products && r.(products := e.products) == e
  {
    e.(products := products)
  }

  // ---------------------------------------------------------------------------
  // Products
  // ---------------------------------------------------------------------------

  /**
   * `addProduct(product)`: creates the list when it is null, then appends,
   * keeping the products already there in their order.
   */
  function AddProduct(e: CommerceEvent, product: Product): (r: CommerceEvent)
    ensures r.products.Some?
    ensures e.products.None? ==> r.products.value == [product]
    ensures e.products.Some? ==> |r.products.value| == |e.products.value| + 1
    ensures e.products.Some? ==> r.products.value[..|e.products.value|] == e.products.value
    ensures r.products.value[|r.products.value| - 1] == product
    ensures r.(products := e.products) == e
  {
    var existing := if e.products.None? then [] else e.products.value;
    e.(products := Some(existing + [product]))
  }

  /** `getProducts()`: null without a list, otherwise one JSON object per product, in order. */
  function GetProducts(e: CommerceEvent): (js: Option<seq<JsonValue>>)
    ensures js.None? <==> e.products.None?
    ensures js.Some? ==> |js.value| == |e.products.value|
    ensures js.Some? ==> forall i :: 0 <= i < |js.value| ==> js.value[i] == JObject(e.products.value[i].json)
  {
    match e.products
    case None => None
    case Some(ps) => Some(seq(|ps|, i requires 0 <= i < |ps| => JObject(ps[i].json)))
  }

  /** Adding a product adds its JSON object at the end of `getProducts()`. */
  lemma GetProductsOfAddProduct(e: CommerceEvent, product: Product)
    ensures GetProducts(AddProduct(e, product)).value ==
            (if e.products.None? then [] else GetProducts(e).value) + [JObject(product.json)]
  {
    var before := if e.products.None? then [] else GetProducts(e).value;
    var after := GetProducts(AddProduct(e, product)).value;
    assert |after| == |before| + 1;
    forall i | 0 <= i < |after|
      ensures after[i] == (before + [JObject(product.json)])[i]
    {
      if i < |before| {
        assert AddProduct(e, product).products.value[i] == e.products.value[i];
      }
    }
  }

  /** The products of the one-product constructor are those of `addProduct` on an event without a list. */
  lemma WithProductIsAddProduct(revenue: Option<Double>, currency: Option<Currency>, transactionId: Option<string>,
                                shipping: Option<Double>, tax: Option<Double>, coupon: Option<string>,
                                affiliation: Option<string>, product: Product)
    ensures WithProduct(revenue, currency, transactionId, shipping, tax, coupon, affiliation, product) ==
            AddProduct(WithProducts(revenue, currency, transactionId, shipping, tax, coupon, affiliation, None), product)
  {
  }

  // ---------------------------------------------------------------------------
  // getCommerceJSONObject
  // ---------------------------------------------------------------------------

  const RevenueKey := "revenue"
  const CurrencyKey := "currency"
  const TransactionIdKey := "transaction_id"
  const ShippingKey := "shipping"
  const TaxKey := "tax"
  const CouponKey := "coupon"
  const AffiliationKey := "affiliation"
  const ProductsKey := "products"

  function NumberOrNull(d: Option<Double>): Option<JsonValue> {
    if d.Some? then Some(JNumber(d.value)) else None
  }

  function StringOrNull(s: Option<string>): Option<JsonValue> {
    if s.Some? then Some(JString(s.value)) else None
  }

  /** The `put` calls of `getCommerceJSONObject`, in order; "products" only when there is a list. */
  function Entries(e: CommerceEvent): (entries: seq<(string, Option<JsonValue>)>)
    ensures |entries| == if e.products.Some? then 8 else 7
  {
    [ (RevenueKey, NumberOrNull(e.revenue)),
      (CurrencyKey, if e.currencyType.Some? then Some(JCurrency(e.currencyType.value)) else None),
      (TransactionIdKey, StringOrNull(e.transactionId)),
      (ShippingKey, NumberOrNull(e.shipping)),
      (TaxKey, NumberOrNull(e.tax)),
      (CouponKey, StringOrNull(e.coupon)),
      (AffiliationKey, StringOrNull(e.affiliation)) ]
    + (if e.products.Some? then [(ProductsKey, Some(JArray(GetProducts(e).value)))] else [])
  }

  /** The keys are distinct: by length, and by first letter among those of length eight. */
  lemma EntriesDistinct(e: CommerceEvent)
    ensures DistinctKeys(Entries(e))
  {
    var es := Entries(e);
    assert |es[0].0| == 7 && |es[2].0| == 14 && |es[4].0| == 3 && |es[5].0| == 6 && |es[6].0| == 11;
    assert |es[1].0| == 8 && es[1].0[0] == 'c';
    assert |es[3].0| == 8 && es[3].0[0] == 's';
    if e.products.Some? {
      assert |es[7].0| == 8 && es[7].0[0] == 'p';
    }
  }

  /**
   * `getCommerceJSONObject()`: each scalar field under its key, a null field
   * leaving its key out (a `put` of null removes), the currency as the enum
   * object itself, and the products array only when there is a list.
   */
  function ToJson(e: CommerceEvent): (o: Object)
    ensures RevenueKey in o <==> e.revenue.Some?
    ensures e.revenue.Some? ==> o[RevenueKey] == JNumber(e.revenue.value)
    ensures CurrencyKey in o <==> e.currencyType.Some?
    ensures e.currencyType.Some? ==> o[CurrencyKey] == JCurrency(e.currencyType.value)
    ensures TransactionIdKey in o <==> e.transactionId.Some?
    ensures e.transactionId.Some? ==> o[TransactionIdKey] == JString(e.transactionId.value)
    ensures ShippingKey in o <==> e.shipping.Some?
    ensures e.shipping.Some? ==> o[ShippingKey] == JNumber(e.shipping.value)
    ensures TaxKey in o <==> e.tax.Some?
    ensures e.tax.Some? ==> o[TaxKey] == JNumber(e.tax.value)
    ensures CouponKey in o <==> e.coupon.Some?
    ensures e.coupon.Some? ==> o[CouponKey] == JString(e.coupon.value)
    ensures AffiliationKey in o <==> e.affiliation.Some?
    ensures e.affiliation.Some? ==> o[AffiliationKey] == JString(e.affiliation.value)
    ensures ProductsKey in o <==> e.products.Some?
    ensures e.products.Some? ==> o[ProductsKey] == JArray(GetProducts(e).value)
  {
    PutEntries(e);
    PutAll(map[], Entries(e))
  }

  /** The run of `put` calls places each entry under its own key; "products" appears only with a list. */
  lemma PutEntries(e: CommerceEvent)
    ensures var es := Entries(e);
      && es[0].0 == RevenueKey && es[1].0 == CurrencyKey && es[2].0 == TransactionIdKey
      && es[3].0 == ShippingKey && es[4].0 == TaxKey && es[5].0 == CouponKey && es[6].0 == AffiliationKey
      && (forall i :: 0 <= i < |es| ==> (es[i].0 in PutAll(map[], es) <==> es[i].1.Some?))
      && (forall i :: 0 <= i < |es| && es[i].1.Some? ==> PutAll(map[], es)[es[i].0] == es[i].1.value)
      && (e.products.Some? ==> es[7].0 == ProductsKey)
      && (e.products.None? ==> ProductsKey !in PutAll(map[], es))
  {
    var es := Entries(e);
    EntriesDistinct(e);
    PutAllDistinct(map[], es);
    if e.products.None? {
      EntriesProductsLast(e);
    }
  }

  /** Only a product list puts "products". */
  lemma EntriesProductsLast(e: CommerceEvent)
    requires e.products.None?
    ensures forall i :: 0 <= i < |Entries(e)| ==> Entries(e)[i].0 != ProductsKey
  {
    var es := Entries(e);
    assert |es[0].0| == 7 && |es[2].0| == 14 && |es[4].0| == 3 && |es[5].0| == 6 && |es[6].0| == 11;
    assert es[1].0[0] == 'c' && es[3].0[0] == 's' && ProductsKey[0] == 'p';
  }

  /** Every key `getCommerceJSONObject` writes is one of its eight. */
  lemma ToJsonKeys(e: CommerceEvent)
    ensures ToJson(e).Keys <= {RevenueKey, CurrencyKey, TransactionIdKey, ShippingKey, TaxKey,
                               CouponKey, AffiliationKey, ProductsKey}
  {
    var es := Entries(e);
    PutAllKeys(map[], es);
    assert EntryKeys(es) <= {RevenueKey, CurrencyKey, TransactionIdKey, ShippingKey, TaxKey,
                             CouponKey, AffiliationKey, ProductsKey};
  }

  /** Setting the revenue is a `put` of the new revenue on the event's JSON projection. */
  lemma SetRevenueIsPut(e: CommerceEvent, revenue: Option<Double>)
    ensures ToJson(SetRevenue(e, revenue)) == Put(ToJson(e), RevenueKey, NumberOrNull(revenue))
  {
    EntriesDistinct(e);
    assert Entries(SetRevenue(e, revenue)) == Entries(e)[0 := (RevenueKey, NumberOrNull(revenue))];
    PutAllUpdate(map[], Entries(e), 0, NumberOrNull(revenue));
  }

  /** Setting the coupon is a `put` of the new coupon on the event's JSON projection. */
  lemma SetCouponIsPut(e: CommerceEvent, coupon: Option<string>)
    ensures ToJson(SetCoupon(e, coupon)) == Put(ToJson(e), CouponKey, StringOrNull(coupon))
  {
    EntriesDistinct(e);
    assert Entries(SetCoupon(e, coupon)) == Entries(e)[5 := (CouponKey, StringOrNull(coupon))];
    PutAllUpdate(map[], Entries(e), 5, StringOrNull(coupon));
  }

  lemma SetCurrencyTypeIsPut(e: CommerceEvent, currency: Option<Currency>)
    ensures ToJson(SetCurrencyType(e, currency)) == Put(ToJson(e), CurrencyKey, if currency.Some? then Some(JCurrency(currency.value)) else None)
  {
    EntriesDistinct(e);
    assert Entries(SetCurrencyType(e, currency)) == Entries(e)[1 := (CurrencyKey, if currency.Some? then Some(JCurrency(currency.value)) else None)];
    PutAllUpdate(map[], Entries(e), 1, if currency.Some? then Some(JCurrency(currency.value)) else None);
  }

  lemma SetTransactionIdIsPut(e: CommerceEvent, transactionId: Option<string>)
    ensures ToJson(SetTransactionId(e, transactionId)) == Put(ToJson(e), TransactionIdKey, StringOrNull(transactionId))
  {
    EntriesDistinct(e);
    assert Entries(SetTransactionId(e, transactionId)) == Entries(e)[2 := (TransactionIdKey, StringOrNull(transactionId))];
    PutAllUpdate(map[], Entries(e), 2, StringOrNull(transactionId));
  }

  lemma SetShippingIsPut(e: CommerceEvent, shipping: Option<Double>)
    ensures ToJson(SetShipping(e, shipping)) == Put(ToJson(e), ShippingKey, NumberOrNull(shipping))
  {
    EntriesDistinct(e);
    assert Entries(SetShipping(e, shipping)) == Entries(e)[3 := (ShippingKey, NumberOrNull(shipping))];
    PutAllUpdate(map[], Entries(e), 3, NumberOrNull(shipping));
  }

  lemma SetTaxIsPut(e: CommerceEvent, tax: Option<Double>)
    ensures ToJson(SetTax(e, tax)) == Put(ToJson(e), TaxKey, NumberOrNull(tax))
  {
    EntriesDistinct(e);
    assert Entries(SetTax(e, tax)) == Entries(e)[4 := (TaxKey, NumberOrNull(tax))];
    PutAllUpdate(map[], Entries(e), 4, NumberOrNull(tax));
  }

  lemma SetAffiliationIsPut(e: CommerceEvent, affiliation: Option<string>)
    ensures ToJson(SetAffiliation(e, affiliation)) == Put(ToJson(e), AffiliationKey, StringOrNull(affiliation))
  {
    EntriesDistinct(e);
    assert Entries(SetAffiliation(e, affiliation)) == Entries(e)[6 := (AffiliationKey, StringOrNull(affiliation))];
    PutAllUpdate(map[], Entries(e), 6, StringOrNull(affiliation));
  }

  /** Adding a product to an event puts the array under "products", whatever was there before. */
  lemma AddProductShowsProducts(e: CommerceEvent, product: Product)
    ensures ProductsKey in ToJson(AddProduct(e, product))
    ensures ToJson(AddProduct(e, product))[ProductsKey].items[|ToJson(AddProduct(e, product))[ProductsKey].items| - 1]
            == JObject(product.json)
  {
  }

  /** A new event projects to an empty JSON object. */
  lemma EmptyToJson()
    ensures ToJson(Empty()) == map[]
  {
    ToJsonKeys(Empty());
  }
}
