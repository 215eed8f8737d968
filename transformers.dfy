/**
 * The field mappers of sellpipelines/transformers.py: each turns one raw product object
 * from a marketplace API into the unified product record, with explicit fallbacks.
 *
 * A key read from a value that is not an object reads as absent (the source would raise
 * there); every other read follows Python's `.get`, `[0]`, truthiness and `str()`.
 */
module Transformers {
  import opened Wrappers
  import Text
  import opened Json

  /** The original identifier the record keeps for reference, if the mapper keeps one. */
  datatype Reference = NoReference | ItemId(itemId: Json) | Rpc(rpc: Json)

  /** The unified record: `platform_id`, `product_name`, `barcode`, `image_url`, `stock`, `store_id`. */
  datatype Product = Product(platformId: string, productName: Json, barcode: Json, imageUrl: Json,
                             stock: Json, storeId: string, reference: Reference)

  const EmptyObject: Json := JObject(map[])
  const EmptyList: Json := JList([])

  /** `next((x for x in xs if x), None)`: the first truthy element, `None` when there is none. */
  function FirstTruthy(xs: seq<Json>): (r: Json)
    ensures r == JNull <==> forall i :: 0 <= i < |xs| ==> !Truthy(xs[i])
    ensures r != JNull ==> exists i :: 0 <= i < |xs| && xs[i] == r && Truthy(r)
                                     && forall j :: 0 <= j < i ==> !Truthy(xs[j])
  {
    if xs == [] then JNull
    else if Truthy(xs[0]) then xs[0]
    else
      var r := FirstTruthy(xs[1..]);
      assert forall i :: 1 <= i < |xs| ==> xs[i] == xs[1..][i - 1];
      r
  }

  /** `gtin_code`, unless it is missing, empty or the placeholder `"00"`; then `item_sku`. */
  function ShopeeBarcode(product: Json): (b: Json)
    ensures b == Get(product, "gtin_code") || b == Get(product, "item_sku")
    ensures b == Get(product, "item_sku") || (Truthy(b) && b != JStr("00"))
  {
    var gtin := Get(product, "gtin_code");
    if !Truthy(gtin) || gtin == JStr("00") then Get(product, "item_sku") else gtin
  }

  /** `seller_stock[0].stock` when the seller stock list is non-empty, else `total_available_stock`. */
  function ShopeeStock(product: Json): Json {
    var stockInfo := GetOr(product, "stock_info_v2", EmptyObject);
    var sellerStock := GetOr(stockInfo, "seller_stock", EmptyList);
    if Truthy(sellerStock) then Get(FirstOrNone(sellerStock), "stock")
    else Get(stockInfo, "total_available_stock")
  }

  /** The first entry of `image.image_url_list`, or `None` for an empty list. */
  function ShopeeImage(product: Json): Json {
    var imageUrls := GetOr(GetOr(product, "image", EmptyObject), "image_url_list", EmptyList);
    if Truthy(imageUrls) then FirstOrNone(imageUrls) else JNull
  }

  /** `extract_shopee_fields`. */
  function ExtractShopeeFields(product: Json): (r: Product)
    ensures r.storeId == "shopee" && r.reference == ItemId(Get(product, "item_id"))
    ensures r.platformId == Str(Get(product, "item_id")) && r.productName == Get(product, "item_name")
    ensures var gtin := Get(product, "gtin_code");
      (Truthy(gtin) && gtin != JStr("00") ==> r.barcode == gtin)
      && (!Truthy(gtin) || gtin == JStr("00") ==> r.barcode == Get(product, "item_sku"))
    ensures var info := GetOr(product, "stock_info_v2", EmptyObject);
      var seller := Elements(GetOr(info, "seller_stock", EmptyList));
      (seller != [] ==> r.stock == Get(seller[0], "stock"))
      && (!Truthy(GetOr(info, "seller_stock", EmptyList)) ==> r.stock == Get(info, "total_available_stock"))
    ensures var urls := Elements(GetOr(GetOr(product, "image", EmptyObject), "image_url_list", EmptyList));
      (urls != [] ==> r.imageUrl == urls[0]) && (urls == [] ==> r.imageUrl == JNull)
  {
    Product(Str(Get(product, "item_id")), Get(product, "item_name"), ShopeeBarcode(product), ShopeeImage(product),
            ShopeeStock(product), "shopee", ItemId(Get(product, "item_id")))
  }

  /** `extract_redmart_fields`: no image or stock in the Redmart API. */
  function ExtractRedmartFields(product: Json): (r: Product)
    ensures r.storeId == "redmart" && r.reference == Rpc(Get(product, "rpc"))
    ensures r.platformId == Str(Get(product, "rpc")) && r.productName == Get(product, "title")
    ensures var barcodes := Elements(GetOr(product, "barcodes", EmptyList));
      (barcodes != [] ==> r.barcode == barcodes[0]) && (barcodes == [] ==> r.barcode == JNull)
    ensures r.imageUrl == JNull && r.stock == JNull
  {
    var barcodes := GetOr(product, "barcodes", EmptyList);
    var firstBarcode := if Truthy(barcodes) then FirstOrNone(barcodes) else JNull;
    Product(Str(Get(product, "rpc")), Get(product, "title"), firstBarcode, JNull, JNull, "redmart", Rpc(Get(product, "rpc")))
  }

  /** `skus[0]`, or an empty object when there are no SKUs. */
  function FirstSku(product: Json): Json {
    var skus := GetOr(product, "skus", EmptyList);
    if Truthy(skus) then FirstOrNone(skus) else EmptyObject
  }

  /** `extract_lazada_fields`: barcode, stock and image all come from the first SKU. */
  function ExtractLazadaFields(product: Json): (r: Product)
    ensures r.storeId == "lazada" && r.reference == ItemId(Get(product, "item_id"))
    ensures r.platformId == Str(Get(product, "item_id"))
    ensures r.productName == Get(GetOr(product, "attributes", EmptyObject), "name")
    ensures var skus := Elements(GetOr(product, "skus", EmptyList));
      var sku := if skus != [] then skus[0] else EmptyObject;
      r.barcode == Get(sku, "SellerSku") && r.stock == Get(sku, "quantity")
      && r.imageUrl == FirstTruthy(Elements(GetOr(sku, "Images", EmptyList)))
  {
    var sku := FirstSku(product);
    Product(Str(Get(product, "item_id")), Get(GetOr(product, "attributes", EmptyObject), "name"),
            Get(sku, "SellerSku"), FirstTruthy(Elements(GetOr(sku, "Images", EmptyList))), Get(sku, "quantity"),
            "lazada", ItemId(Get(product, "item_id")))
  }

  /** An integer product id is recovered exactly from the record's `platform_id`. */
  lemma PlatformIdRecoversIntegerId(product: Json, n: int)
    requires Get(product, "item_id") == JInt(n)
    ensures Text.ParseInt(ExtractShopeeFields(product).platformId) == Some(n)
    ensures Text.ParseInt(ExtractLazadaFields(product).platformId) == Some(n)
  {
    Text.ParseIntToString(n);
  }

  /** Products with different integer ids get different `platform_id`s. */
  lemma PlatformIdsDistinct(p: Json, q: Json, m: int, n: int)
    requires Get(p, "item_id") == JInt(m) && Get(q, "item_id") == JInt(n) && m != n
    ensures ExtractShopeeFields(p).platformId != ExtractShopeeFields(q).platformId
  {
    Text.IntToStringInjective(m, n);
  }

  /**
   * The three mappers tag their records with three different store ids, so records from
   * different marketplaces never share the `(platform_id, store_id)` primary key.
   */
  lemma StoreIdsSeparateMarketplaces(a: Json, b: Json, c: Json)
    ensures var s := ExtractShopeeFields(a).storeId;
      var r := ExtractRedmartFields(b).storeId;
      var l := ExtractLazadaFields(c).storeId;
      s != r && r != l && s != l
  {
    assert "shopee"[0] != "redmart"[0] && "redmart"[0] != "lazada"[0] && "shopee"[0] != "lazada"[0];
  }
}
