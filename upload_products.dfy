// The product upload script (scripts/upload-products.ts): cleanProduct
// reshapes a catalogue record into the document stored in the products
// collection. A JavaScript object is a map from key to value, where a key
// may be present with the value `undefined`; the writes to the database
// and the console output are not modelled.
module UploadProducts {
  import opened Products

  /** The values a catalogue record holds. A price is kept in cents. */
  datatype JsValue = Undefined | Str(s: string) | Cents(cents: nat) | Bool(b: bool)

  /** A property name: the ones the catalogue and the store use, and any other. */
  datatype Key = Id | Sku | Title | Variant | PriceCad | Image | Url | Category
               | Price | Name | Description | InStock | Other(name: string)

  type JsObject = map<Key, JsValue>

  /** The property names that have a constructor of their own. */
  const NamedKeys: set<string> :=
    {"id", "sku", "title", "variant", "price_cad", "image", "url", "category", "price", "name", "description", "inStock"}

  /** Each property has one representation: `Other` never carries a name that has its own constructor. */
  predicate WellFormed(o: JsObject)
  {
    forall k :: k in o && k.Other? ==> k.name !in NamedKeys
  }

  /** `product[key]`: a missing key reads as undefined. */
  function Get(o: JsObject, key: Key): JsValue
  {
    if key in o then o[key] else Undefined
  }

  /** The keys the catalogue names and the store names differently. */
  const RenamedKeys: set<Key> := {PriceCad, Title, Variant}

  /** The document cleanProduct builds, described key by key. */
  predicate IsCleaned(product: JsObject, cleaned: JsObject)
  {
    cleaned.Keys == (set k | k in product && product[k] != Undefined) - RenamedKeys + {Price, Name, Description, InStock} &&
    Get(cleaned, Price) == Get(product, PriceCad) &&
    Get(cleaned, Name) == Get(product, Title) &&
    Get(cleaned, Description) == Get(product, Variant) &&
    Get(cleaned, InStock) == Bool(true) &&
    forall k :: k in cleaned && k !in {Price, Name, Description, InStock} ==> cleaned[k] == product[k]
  }

  /** The fields with a defined value, copied. */
  function Defined(product: JsObject): (r: JsObject)
    ensures forall k :: k in r <==> k in product && product[k] != Undefined
    ensures forall k :: k in r ==> r[k] == product[k]
  {
    map k | k in product && product[k] != Undefined :: product[k]
  }

  /** IsCleaned pins the document down: two documents it accepts for one record are equal. */
  lemma CleanedIsUnique(product: JsObject, d1: JsObject, d2: JsObject)
    requires IsCleaned(product, d1) && IsCleaned(product, d2)
    ensures d1 == d2
  {
    forall k | k in d1
      ensures d1[k] == d2[k]
    {
      if k == Price || k == Name || k == Description || k == InStock {
        assert Get(d1, k) == Get(d2, k);
      }
    }
  }

  /** Cleaning adds only named keys, so a well-formed record gives a well-formed document. */
  lemma CleanedKeepsWellFormed(product: JsObject, cleaned: JsObject)
    requires IsCleaned(product, cleaned) && WellFormed(product)
    ensures WellFormed(cleaned)
  {
    forall k | k in cleaned && k.Other?
      ensures k.name !in NamedKeys
    {
      assert k !in {Price, Name, Description, InStock};
      assert k in product;
    }
  }

  /** cleanProduct: copy every defined field, then rename price, name and description and mark it in stock. */
  method CleanProduct(product: JsObject) returns (cleaned: JsObject)
    ensures IsCleaned(product, cleaned)
  {
    cleaned := map[];
    var keys := product.Keys;
    while keys != {}
      invariant keys <= product.Keys
      invariant forall k :: k in cleaned <==> k in product && k !in keys && product[k] != Undefined
      invariant forall k :: k in cleaned ==> cleaned[k] == product[k]
      decreases |keys|
    {
      var key :| key in keys;
      if product[key] != Undefined {
        cleaned := cleaned[key := product[key]];
      }
      keys := keys - {key};
    }
    assert cleaned == Defined(product);
    cleaned := cleaned[Price := Get(product, PriceCad)];
    cleaned := cleaned[Name := Get(product, Title)];
    cleaned := cleaned[Description := Get(product, Variant)];
    cleaned := cleaned[InStock := Bool(true)];
    cleaned := cleaned - RenamedKeys;
  }

  /** A catalogue entry as a JavaScript object; an entry without a category has no such key. */
  function ProductObject(p: Product): (o: JsObject)
    ensures forall k :: k in o ==> o[k] != Undefined
    ensures Get(o, PriceCad) == Cents(p.priceCents) && Get(o, Title) == Str(p.title) && Get(o, Variant) == Str(p.variant)
    ensures Get(o, Id) == Str(p.id) && Get(o, Sku) == Str(p.sku)
    ensures Category in o <==> p.category.Some?
    ensures WellFormed(o)
  {
    var base := map[Id := Str(p.id), Sku := Str(p.sku), Title := Str(p.title), Variant := Str(p.variant),
                    PriceCad := Cents(p.priceCents), Image := Str(p.image), Url := Str(p.url)];
    if p.category.Some? then base[Category := Str(p.category.value)] else base
  }

  /** The stored document of a catalogue entry: its price, name and description under the store's names, in stock. */
  lemma UploadedProduct(p: Product, d: JsObject)
    requires IsCleaned(ProductObject(p), d)
    ensures Get(d, Price) == Cents(p.priceCents) && Get(d, Name) == Str(p.title) && Get(d, Description) == Str(p.variant) &&
      Get(d, InStock) == Bool(true) && Get(d, Id) == Str(p.id) && Get(d, Sku) == Str(p.sku) &&
      PriceCad !in d && Title !in d && Variant !in d &&
      (Category in d <==> p.category.Some?)
  {
    var o := ProductObject(p);
    assert Id in o && Sku in o;
    assert Category in o ==> o[Category] != Undefined;
    assert Category in d <==> Category in o;
  }
}
