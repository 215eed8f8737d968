/**
 * The older stand-alone Lazada pipeline (lazada_pipeline.py): its own field mapper
 * (no `item_id` kept for reference) and a page loop with no error gate, so any page that
 * does not carry `data.products` is itself mapped as if it were a product.
 */
module LazadaPipeline {
  import opened Json
  import opened Transformers
  import PyDict
  import Sources

  /** `extract_lazada_fields` of this script. */
  function ExtractLazadaFields(product: Json): (r: Product)
    ensures r.storeId == "lazada" && r.reference == NoReference
    ensures r.platformId == Str(Get(product, "item_id"))
    ensures r.productName == Get(GetOr(product, "attributes", EmptyObject), "name")
  {
    var sku := FirstSku(product);
    Product(Str(Get(product, "item_id")), Get(GetOr(product, "attributes", EmptyObject), "name"),
            Get(sku, "SellerSku"), FirstTruthy(Elements(GetOr(sku, "Images", EmptyList))), Get(sku, "quantity"),
            "lazada", NoReference)
  }

  /**
   * The script's mapper text is the shared mapper's apart from the `item_id` key. That
   * reading is taken as given here: the script's mapper is built from the shared field
   * helpers, so this lemma records the sharing rather than comparing two independent
   * definitions.
   */
  lemma SameFieldsAsTransformers(product: Json)
    ensures ExtractLazadaFields(product) == Transformers.ExtractLazadaFields(product).(reference := NoReference)
  {
  }

  /** The first request's parameters: 100 products from offset 0. */
  function InitialParams(): (p: PyDict.Dict<Json>)
    ensures PyDict.Keys(p) == ["limit", "offset"]
    ensures p[0].1 == JInt(100) && p[1].1 == JInt(0)
  {
    [("limit", JInt(100)), ("offset", JInt(0))]
  }

  /** True when the page is an object holding `data.products`. */
  predicate HoldsProducts(page: Json) {
    page.JObject? && Has(page, "data") && Has(Get(page, "data"), "products")
  }

  /**
   * The records one page yields: one per entry of a `data.products` list, or one for a
   * non-list `data.products`; a page without it is mapped as a product itself.
   */
  function PageRecords(page: Json): (records: seq<Product>)
    ensures !HoldsProducts(page) ==> records == [ExtractLazadaFields(page)]
    ensures HoldsProducts(page) ==> records == Sources.ListOrOne(Get(Get(page, "data"), "products"), ExtractLazadaFields)
  {
    if HoldsProducts(page) then Sources.ListOrOne(Get(Get(page, "data"), "products"), ExtractLazadaFields)
    else [ExtractLazadaFields(page)]
  }

  /** `get_products`: the records of every page, in page order. */
  function Products(pages: seq<Json>): (records: seq<Product>)
    ensures forall r :: r in records ==> r.storeId == "lazada" && r.reference == NoReference
  {
    if pages == [] then [] else PageRecords(pages[0]) + Products(pages[1..])
  }

  /** Records are yielded page by page, in page order. */
  lemma {:induction false} ProductsAppend(p: seq<Json>, q: seq<Json>)
    ensures Products(p + q) == Products(p) + Products(q)
    ensures |p| == 1 ==> Products(p) == PageRecords(p[0])
  {
    if p == [] {
      assert p + q == q;
    } else {
      assert (p + q)[0] == p[0] && (p + q)[1..] == p[1..] + q;
      ProductsAppend(p[1..], q);
      if |p| == 1 {
        assert p[1..] == [];
      }
    }
  }

  /**
   * An object page without `data.products` (an error reply, say) yields one record, the
   * page itself mapped, where sellpipelines/sources.py yields none.
   */
  lemma PageWithoutProductsBecomesRecord(page: Json)
    requires page.JObject? && !Has(Get(page, "data"), "products")
    ensures |PageRecords(page)| == 1 && PageRecords(page)[0].platformId == Str(Get(page, "item_id"))
    ensures Sources.LazadaPageRecords(page) == []
  {
  }

  /** On a page that passes the gate and holds `data.products`, both pipelines map the same products. */
  lemma ProductsPageAgreesWithSources(page: Json)
    requires HoldsProducts(page) && !Sources.ErrorCoded(page)
    ensures |PageRecords(page)| == |Sources.LazadaPageRecords(page)|
    ensures forall i :: 0 <= i < |PageRecords(page)| ==>
      PageRecords(page)[i] == Sources.LazadaPageRecords(page)[i].(reference := NoReference)
  {
    var products := Get(Get(page, "data"), "products");
    if products.JList? {
      forall i | 0 <= i < |products.items| ensures ExtractLazadaFields(products.items[i]) == Transformers.ExtractLazadaFields(products.items[i]).(reference := NoReference) {
        SameFieldsAsTransformers(products.items[i]);
      }
    } else {
      SameFieldsAsTransformers(products);
    }
  }
}
