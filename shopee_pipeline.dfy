/**
 * The older stand-alone Shopee pipeline (shopee_pipeline.py): its own field mapper
 * (no `item_id` kept for reference), a cursor paginator without any error handling, id
 * collection that drops `None`, and a detail fetch in batches of 50 with no exception
 * handling, so a failing batch ends the whole run.
 */
module ShopeePipeline {
  import opened Wrappers
  import Text
  import PyDict
  import opened Json
  import Http
  import opened Transformers
  import Sources
  import DetailRun

  /** `extract_shopee_fields` of this script. */
  function ExtractShopeeFields(product: Json): (r: Product)
    ensures r.storeId == "shopee" && r.reference == NoReference
    ensures r.platformId == Str(Get(product, "item_id")) && r.productName == Get(product, "item_name")
  {
    Product(Str(Get(product, "item_id")), Get(product, "item_name"), ShopeeBarcode(product), ShopeeImage(product),
            ShopeeStock(product), "shopee", NoReference)
  }

  /**
   * The script's mapper text is the shared mapper's apart from the `item_id` key. That
   * reading is taken as given here: the script's mapper is built from the shared field
   * helpers, so this lemma records the sharing rather than comparing two independent
   * definitions.
   */
  lemma SameFieldsAsTransformers(product: Json)
    ensures ExtractShopeeFields(product) == Transformers.ExtractShopeeFields(product).(reference := NoReference)
  {
  }

  /** This script's `ShopeePaginator`: the cursor logic alone, with no error checks. */
  class ShopeePaginator {
    var offset: Json
    var hasNextPage: bool

    constructor()
      ensures offset == JInt(0) && hasNextPage
    {
      offset := JInt(0);
      hasNextPage := true;
    }

    /**
     * `update_state`: a truthy `response.has_next_page` moves the cursor to
     * `response.next_offset` (default: offset + 50); anything else stops paging with the
     * offset unchanged. `raised` is an exception escaping the method: an unparseable body
     * (nothing catches it here), a `response` that is not an object, or an offset that `+ 50`
     * cannot add to (a `true`/`false` offset adds as 1/0). An error response without
     * `response` simply stops paging.
     */
    method UpdateState(body: Sources.Body) returns (raised: bool)
      modifies this
      ensures body.Unparseable? ==> raised && hasNextPage == old(hasNextPage) && offset == old(offset)
      ensures body.Parsed? && !Has(body.data, "response") ==> !raised && !hasNextPage && offset == old(offset)
      ensures body.Parsed? && Has(body.data, "response") ==>
        var resp := Get(body.data, "response");
        (!resp.JObject? ==> raised && hasNextPage == old(hasNextPage) && offset == old(offset))
        && (resp.JObject? && !Truthy(GetOr(resp, "has_next_page", JBool(false))) ==>
              !raised && !hasNextPage && offset == old(offset))
        && (resp.JObject? && Truthy(GetOr(resp, "has_next_page", JBool(false))) ==>
              if IntValue(old(offset)).Some?
              then !raised && hasNextPage && offset == GetOr(resp, "next_offset", JInt(IntValue(old(offset)).value + 50))
              else raised && hasNextPage == old(hasNextPage) && offset == old(offset))
    {
      if body.Unparseable? {
        return true;
      }
      var data := body.data;
      if !Has(data, "response") {
        hasNextPage := false;
        return false;
      }
      var resp := Get(data, "response");
      if !resp.JObject? {
        return true;
      }
      if Truthy(GetOr(resp, "has_next_page", JBool(false))) {
        var current := IntValue(offset);
        if current.None? {
          return true;
        }
        offset := GetOr(resp, "next_offset", JInt(current.value + 50));
        hasNextPage := true;
      } else {
        hasNextPage := false;
      }
      raised := false;
    }

    /** `update_request`: sets only `params["offset"]`, creating the params when there are none. */
    method UpdateRequest(request: Http.Request)
      modifies request
      ensures request.params.Some?
      ensures PyDict.Get(request.params.value, "offset") == Some(offset)
      ensures forall k :: k != "offset" ==> PyDict.Get(request.params.value, k) == PyDict.Get(old(request.params).GetOr([]), k)
    {
      var params := request.params.GetOr([]);
      forall k ensures PyDict.Get(PyDict.Put(params, "offset", offset), k) == if k == "offset" then Some(offset) else PyDict.Get(params, k) {
        PyDict.PutGet(params, "offset", offset, k);
      }
      request.params := Some(PyDict.Put(params, "offset", offset));
    }
  }

  /**
   * What `get_item_ids` yields: `paginate` selects `response.item` of each page, and
   * every object item gives its `item_id`, `None` included, pages in order.
   */
  function YieldedItemIds(pages: seq<seq<Json>>): (ids: seq<Json>)
    ensures forall x :: x in ids <==> exists p :: p in pages && x in ObjectItemIds(p)
  {
    if pages == [] then []
    else
      var rest := YieldedItemIds(pages[1..]);
      assert forall p :: p in pages <==> p == pages[0] || p in pages[1..];
      ObjectItemIds(pages[0]) + rest
  }

  /** The `item_id` of every object in one page's items, in order; other items are skipped. */
  function ObjectItemIds(items: seq<Json>): (ids: seq<Json>)
    ensures |ids| <= |items|
    ensures forall x :: x in ids <==> exists i :: 0 <= i < |items| && items[i].JObject? && Get(items[i], "item_id") == x
  {
    if items == [] then []
    else
      var rest := ObjectItemIds(items[1..]);
      assert forall i :: 1 <= i < |items| ==> items[i] == items[1..][i - 1];
      (if items[0].JObject? then [Get(items[0], "item_id")] else []) + rest
  }

  /**
   * Ids come out item by item, in item order and with repeats kept: an object gives its
   * `item_id`, anything else gives nothing, and a list split in two gives the ids of the
   * first part followed by those of the second.
   */
  lemma {:induction false} ObjectItemIdsAppend(a: seq<Json>, b: seq<Json>)
    ensures ObjectItemIds(a + b) == ObjectItemIds(a) + ObjectItemIds(b)
    ensures |a| == 1 ==> ObjectItemIds(a) == (if a[0].JObject? then [Get(a[0], "item_id")] else [])
  {
    if a != [] {
      assert (a + b)[0] == a[0] && (a + b)[1..] == a[1..] + b;
      ObjectItemIdsAppend(a[1..], b);
    } else {
      assert a + b == b;
    }
  }

  /** Pages are read in order: one page gives its object ids, and split pages concatenate. */
  lemma {:induction false} YieldedItemIdsAppend(p: seq<seq<Json>>, q: seq<seq<Json>>)
    ensures YieldedItemIds(p + q) == YieldedItemIds(p) + YieldedItemIds(q)
    ensures |p| == 1 ==> YieldedItemIds(p) == ObjectItemIds(p[0])
  {
    if p != [] {
      assert (p + q)[0] == p[0] && (p + q)[1..] == p[1..] + q;
      YieldedItemIdsAppend(p[1..], q);
    } else {
      assert p + q == q;
    }
  }

  /** The values that are not `None`, in order. */
  function NonNull(xs: seq<Json>): (r: seq<Json>)
    ensures |r| <= |xs|
    ensures forall x :: x in r <==> x in xs && x != JNull
  {
    if xs == [] then []
    else
      var init := xs[..|xs| - 1];
      var last := xs[|xs| - 1];
      assert xs == init + [last];
      NonNull(init) + (if last != JNull then [last] else [])
  }

  /** Filtering distributes over concatenation. */
  lemma {:induction false} NonNullAppend(a: seq<Json>, b: seq<Json>)
    ensures NonNull(a + b) == NonNull(a) + NonNull(b)
    decreases |b|
  {
    if b == [] {
      assert a + b == a;
    } else {
      var init := b[..|b| - 1];
      assert (a + b)[..|a + b| - 1] == a + init;
      NonNullAppend(a, init);
    }
  }

  /**
   * On a page of objects, dropping `None` from what this script yields gives exactly the
   * ids sellpipelines/sources.py collects from the same items.
   */
  lemma {:induction false} CollectedIdsMatchSources(items: seq<Json>)
    requires forall i :: 0 <= i < |items| ==> items[i].JObject?
    ensures NonNull(ObjectItemIds(items)) == Sources.NonNullItemIds(items)
  {
    if items != [] {
      CollectedIdsMatchSources(items[1..]);
      var id := Get(items[0], "item_id");
      assert ObjectItemIds(items) == [id] + ObjectItemIds(items[1..]);
      NonNullAppend([id], ObjectItemIds(items[1..]));
      assert NonNull([id]) == (if id != JNull then [id] else []) by {
        assert [id][..0] == [];
      }
    }
  }

  /** The loop at the top of `get_products`: appends every yielded id that is not `None`. */
  method CollectItemIds(yielded: seq<Json>) returns (itemIds: seq<Json>)
    ensures itemIds == NonNull(yielded)
  {
    itemIds := [];
    var i := 0;
    while i < |yielded|
      invariant 0 <= i <= |yielded|
      invariant itemIds == NonNull(yielded[..i])
    {
      assert yielded[..i + 1][..i] == yielded[..i];
      if yielded[i] != JNull {
        itemIds := itemIds + [yielded[i]];
      }
      i := i + 1;
    }
    assert yielded[..i] == yielded;
  }

  /**
   * The records one detail response yields: one per `response.item_list` entry, which is
   * checked before the `error` field; nothing otherwise.
   */
  function DetailRecords(data: Json): (records: seq<Product>)
    ensures !Has(Get(data, "response"), "item_list") ==> records == []
    ensures Has(Get(data, "response"), "item_list") ==>
      var items := Elements(Get(Get(data, "response"), "item_list"));
      |records| == |items| && forall i :: 0 <= i < |items| ==> records[i] == ExtractShopeeFields(items[i])
  {
    if Has(data, "response") && Has(Get(data, "response"), "item_list") then
      var items := Elements(Get(Get(data, "response"), "item_list"));
      seq(|items|, i requires 0 <= i < |items| => ExtractShopeeFields(items[i]))
    else []
  }

  /** A response with both `item_list` and a truthy `error` still yields its items. */
  lemma ItemListBeforeError(data: Json)
    requires Has(Get(data, "response"), "item_list") && Truthy(Get(data, "error"))
    ensures |DetailRecords(data)| == |Elements(Get(Get(data, "response"), "item_list"))|
    ensures Sources.DetailRecords(Some(data)) == []
  {
  }

  /**
   * One detail request of `get_products` as a step of the loop: it raises when the
   * request or the decoding of its reply raises (`fetch` gives `Unparseable`), and
   * yields the records of the reply otherwise.
   */
  function DetailStep(fetch: PyDict.Dict<string> -> Sources.Body): (step: PyDict.Dict<string> -> Option<seq<Product>>)
    ensures forall q :: step(q).None? <==> fetch(q).Unparseable?
    ensures forall q :: fetch(q).Parsed? && !Has(Get(fetch(q).data, "response"), "item_list") ==> step(q) == Some([])
    ensures forall q :: fetch(q).Parsed? ==> step(q) == Some(DetailRecords(fetch(q).data))
  {
    q => if fetch(q).Unparseable? then None else Some(DetailRecords(fetch(q).data))
  }

  /**
   * The detail phase of `get_products`: the loop over the batches of 50 ids, as
   * `DetailRun.RunRequests` describes it for the batch requests `Sources.BatchRequests`.
   * With no ids nothing is requested.
   */
  method GetProducts(ids: seq<Json>, fetch: PyDict.Dict<string> -> Sources.Body)
    returns (requests: seq<PyDict.Dict<string>>, records: seq<Product>, raised: bool)
    ensures var count := Sources.NumBatches(|ids|);
      DetailRun.Run(requests, records, raised)
      == DetailRun.RunRequests(Sources.BatchRequests(ids, count), DetailStep(fetch), count)
    ensures |ids| == 0 ==> requests == [] && records == [] && !raised
  {
    requests := [];
    records := [];
    raised := false;
    var count := Sources.NumBatches(|ids|);
    ghost var all := Sources.BatchRequests(ids, count);
    ghost var step := DetailStep(fetch);
    if |ids| == 0 {
      return;
    }
    var b := 0;
    while b < count
      invariant b <= count && DetailRun.Run(requests, records, false) == DetailRun.RunRequests(all, step, b)
    {
      var params := Sources.BatchParams(Sources.Batch(ids, b));
      Sources.BatchRequestsAt(ids, count, b);
      requests := requests + [params];
      var body := fetch(params);
      assert all[b] == params;
      if body.Unparseable? {
        assert step(params).None?;
        raised := true;
        DetailRun.RaisedRunStops(all, step, b + 1, count);
        return;
      }
      assert step(params) == Some(DetailRecords(body.data));
      records := records + DetailRecords(body.data);
      b := b + 1;
    }
  }
}
