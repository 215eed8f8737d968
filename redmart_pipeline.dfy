/**
 * The older stand-alone Redmart pipeline (redmart_pipeline.py): its own field mapper
 * (no `rpc` kept for reference) and a page loop with no error gate, so any page that does
 * not carry `result.data` is itself mapped as if it were a product.
 */
module RedmartPipeline {
  import opened Json
  import opened Transformers
  import PyDict
  import Sources

  /** `extract_redmart_fields` of this script. */
  function ExtractRedmartFields(product: Json): (r: Product)
    ensures r.storeId == "redmart" && r.reference == NoReference
    ensures r.platformId == Str(Get(product, "rpc")) && r.productName == Get(product, "title")
    ensures r.imageUrl == JNull && r.stock == JNull
  {
    var barcodes := GetOr(product, "barcodes", EmptyList);
    Product(Str(Get(product, "rpc")), Get(product, "title"), if Truthy(barcodes) then FirstOrNone(barcodes) else JNull,
            JNull, JNull, "redmart", NoReference)
  }

  /**
   * The script's mapper text is the shared mapper's apart from the `rpc` key, so the two
   * share their field helpers here and agree on every other field.
   */
  lemma SameFieldsAsTransformers(product: Json)
    ensures ExtractRedmartFields(product) == Transformers.ExtractRedmartFields(product).(reference := NoReference)
  {
  }

  /** The first request's parameters: the store, 100 products a page, page 1. */
  function InitialParams(storeId: string): (p: PyDict.Dict<Json>)
    ensures PyDict.Keys(p) == ["storeId", "pageSize", "page"]
    ensures p[0].1 == JStr(storeId) && p[1].1 == JInt(100) && p[2].1 == JInt(1)
  {
    [("storeId", JStr(storeId)), ("pageSize", JInt(100)), ("page", JInt(1))]
  }

  /** True when the page is an object holding `result.data`. */
  predicate HoldsData(page: Json) {
    page.JObject? && Has(page, "result") && Has(Get(page, "result"), "data")
  }

  /**
   * The records one page yields: one per entry of a `result.data` list, or one for a
   * non-list `result.data`; a page without it is mapped as a product itself.
   */
  function PageRecords(page: Json): (records: seq<Product>)
    ensures !HoldsData(page) ==> records == [ExtractRedmartFields(page)]
    ensures HoldsData(page) ==> records == Sources.ListOrOne(Get(Get(page, "result"), "data"), ExtractRedmartFields)
  {
    if HoldsData(page) then Sources.ListOrOne(Get(Get(page, "result"), "data"), ExtractRedmartFields)
    else [ExtractRedmartFields(page)]
  }

  /** `get_products`: the records of every page, in page order. */
  function Products(pages: seq<Json>): (records: seq<Product>)
    ensures forall r :: r in records ==> r.storeId == "redmart" && r.reference == NoReference
  {
    if pages == [] then [] else PageRecords(pages[0]) + Products(pages[1..])
  }

  /** Records are yielded page by page, in page order. */
  lemma {:induction false} ProductsAppend(p: seq<Json>, q: seq<Json>)
    ensures Products(p + q) == Products(p) + Products(q)
    ensures |p| == 1 ==> Products(p) == PageRecords(p[0])
  {
    if p == [] {
      assert p + q == q;
    } else {
      assert (p + q)[0] == p[0] && (p + q)[1..] == p[1..] + q;
      ProductsAppend(p[1..], q);
      if |p| == 1 {
        assert p[1..] == [];
      }
    }
  }

  /**
   * An object page without `result.data` (an error reply, say) yields one record, the page
   * itself mapped, where sellpipelines/sources.py yields none.
   */
  lemma PageWithoutDataBecomesRecord(page: Json)
    requires page.JObject? && !Has(Get(page, "result"), "data")
    ensures |PageRecords(page)| == 1 && PageRecords(page)[0].platformId == Str(Get(page, "rpc"))
    ensures Sources.RedmartPageRecords(page) == []
  {
  }

  /** On a page that passes the gate and holds `result.data`, both pipelines map the same products. */
  lemma DataPageAgreesWithSources(page: Json)
    requires HoldsData(page) && !Sources.ErrorCoded(page)
    ensures |PageRecords(page)| == |Sources.RedmartPageRecords(page)|
    ensures forall i :: 0 <= i < |PageRecords(page)| ==>
      PageRecords(page)[i] == Sources.RedmartPageRecords(page)[i].(reference := NoReference)
  {
    var data := Get(Get(page, "result"), "data");
    if data.JList? {
      forall i | 0 <= i < |data.items| ensures ExtractRedmartFields(data.items[i]) == Transformers.ExtractRedmartFields(data.items[i]).(reference := NoReference) {
        SameFieldsAsTransformers(data.items[i]);
      }
    } else {
      SameFieldsAsTransformers(data);
    }
  }
}
