/**
 * The dlt sources of sellpipelines/sources.py: the paginators' state updates (Shopee's
 * server-side cursor and the error-code gate of the Redmart and Lazada paginators), the
 * extraction of item ids and product records from pages, and Shopee's detail fetch in
 * batches of 50 ids.
 *
 * `paginate` and the dlt parent paginators are library code outside this model: a page
 * is the JSON value `paginate` yields, and a paginator that hands over to its parent
 * says so.
 */
module Sources {
  import opened Wrappers
  import Text
  import PyDict
  import opened Json
  import Http
  import opened Transformers

  /** A response body: JSON, or the message of the exception `response.json()` raised. */
  datatype Body = Unparseable(reason: string) | Parsed(data: Json)

  const ShopeePageSize: int := 50
  const BatchSize: nat := 50

  /** The `_error` a Shopee response sets: a parse failure, or a truthy `error` field. */
  function ShopeeError(body: Body): (e: Option<Json>)
    ensures body.Unparseable? ==> e == Some(JStr(body.reason))
    ensures body.Parsed? ==> (e.Some? <==> Truthy(Get(body.data, "error")))
    ensures body.Parsed? && e.Some? ==> e == Some(GetOr(body.data, "message", JStr("Unknown error")))
  {
    match body
    case Unparseable(reason) => Some(JStr(reason))
    case Parsed(data) =>
      if Has(data, "error") && Truthy(Get(data, "error")) then Some(GetOr(data, "message", JStr("Unknown error")))
      else None
  }

  /** `ShopeePaginator`: the cursor is the `next_offset` the server returns. */
  class ShopeePaginator {
    var offset: Json
    var hasNextPage: bool
    var error: Option<Json>

    constructor()
      ensures offset == JInt(0) && hasNextPage && error.None?
    {
      offset := JInt(0);
      hasNextPage := true;
      error := None;
    }

    /**
     * `update_state`. An unparseable body or a truthy `error` stops paging and records the
     * error; otherwise a truthy `response.has_next_page` moves the cursor to
     * `response.next_offset` (default: offset + 50) and anything else stops paging. The
     * offset changes only in that one case. `raised` is an exception escaping the method:
     * a `response` that is not an object, or an offset that `+ 50` cannot add to (a
     * `true`/`false` offset adds as 1/0).
     */
    method UpdateState(body: Body) returns (raised: bool)
      modifies this
      ensures ShopeeError(body).Some? ==>
        !raised && !hasNextPage && error == ShopeeError(body) && offset == old(offset)
      ensures ShopeeError(body).None? && !Has(body.data, "response") ==>
        !raised && !hasNextPage && error == old(error) && offset == old(offset)
      ensures ShopeeError(body).None? && Has(body.data, "response") ==>
        var resp := Get(body.data, "response");
        error == old(error)
        && (!resp.JObject? ==> raised && hasNextPage == old(hasNextPage) && offset == old(offset))
        && (resp.JObject? && !Truthy(GetOr(resp, "has_next_page", JBool(false))) ==>
              !raised && !hasNextPage && offset == old(offset))
        && (resp.JObject? && Truthy(GetOr(resp, "has_next_page", JBool(false))) ==>
              if IntValue(old(offset)).Some?
              then !raised && hasNextPage && offset == GetOr(resp, "next_offset", JInt(IntValue(old(offset)).value + ShopeePageSize))
              else raised && hasNextPage == old(hasNextPage) && offset == old(offset))
    {
      var e := ShopeeError(body);
      if e.Some? {
        hasNextPage := false;
        error := e;
        return false;
      }
      var data := body.data;
      if !Has(data, "response") {
        hasNextPage := false;
        return false;
      }
      var resp := Get(data, "response");
      if !resp.JObject? {
        return true;
      }
      if Truthy(GetOr(resp, "has_next_page", JBool(false))) {
        var current := IntValue(offset);
        if current.None? {
          return true;
        }
        offset := GetOr(resp, "next_offset", JInt(current.value + ShopeePageSize));
        hasNextPage := true;
      } else {
        hasNextPage := false;
      }
      raised := false;
    }

    /** `update_request`: sets `params["offset"]`, creating the params when there are none. */
    method UpdateRequest(request: Http.Request)
      modifies request
      ensures request.params.Some?
      ensures PyDict.Get(request.params.value, "offset") == Some(offset)
      ensures forall k :: k != "offset" ==> PyDict.Get(request.params.value, k) == PyDict.Get(old(request.params).GetOr([]), k)
      ensures PyDict.Keys(old(request.params).GetOr([])) <= PyDict.Keys(request.params.value)
    {
      var params := request.params.GetOr([]);
      forall k ensures PyDict.Get(PyDict.Put(params, "offset", offset), k) == if k == "offset" then Some(offset) else PyDict.Get(params, k) {
        PyDict.PutGet(params, "offset", offset, k);
      }
      request.params := Some(PyDict.Put(params, "offset", offset));
    }
  }

  /** The `_error` of the Redmart and Lazada paginators: a parse failure, or a `code` other than `"0"`. */
  function CodeGateError(body: Body): (e: Option<Json>)
    ensures body.Unparseable? ==> e == Some(JStr(body.reason))
    ensures body.Parsed? ==> (e.Some? <==> Has(body.data, "code") && Get(body.data, "code") != JStr("0"))
    ensures body.Parsed? && e.Some? ==> e == Some(GetOr(body.data, "message", JStr("Unknown error")))
  {
    match body
    case Unparseable(reason) => Some(JStr(reason))
    case Parsed(data) =>
      if Has(data, "code") && Get(data, "code") != JStr("0") then Some(GetOr(data, "message", JStr("Unknown error")))
      else None
  }

  /** `RedmartPaginator`: page numbers from 1, gated on the response `code`. */
  class RedmartPaginator {
    const basePage: int
    const pageParam: string
    const totalPath: string
    var page: int
    var hasNextPage: bool
    var error: Option<Json>

    constructor()
      ensures basePage == 1 && page == 1 && pageParam == "page" && totalPath == "result.total"
      ensures hasNextPage && error.None?
    {
      basePage := 1;
      page := 1;
      pageParam := "page";
      totalPath := "result.total";
      hasNextPage := true;
      error := None;
    }

    /**
     * `update_state`: an error stops paging and is recorded; otherwise nothing changes here
     * and the page-number logic of the parent class runs (`deferred`).
     */
    method UpdateState(body: Body) returns (deferred: bool)
      modifies this
      ensures deferred <==> CodeGateError(body).None?
      ensures deferred ==> hasNextPage == old(hasNextPage) && error == old(error) && page == old(page)
      ensures !deferred ==> !hasNextPage && error == CodeGateError(body) && page == old(page)
    {
      var e := CodeGateError(body);
      if e.Some? {
        hasNextPage := false;
        error := e;
        return false;
      }
      return true;
    }
  }

  /** `LazadaPaginator`: offset and limit of 100, gated on the response `code`. */
  class LazadaPaginator {
    const limit: int
    const offsetParam: string
    const limitParam: string
    const totalPath: string
    var offset: int
    var hasNextPage: bool
    var error: Option<Json>

    constructor()
      ensures limit == 100 && offset == 0 && offsetParam == "offset" && limitParam == "limit"
      ensures totalPath == "data.total_products" && hasNextPage && error.None?
    {
      limit := 100;
      offset := 0;
      offsetParam := "offset";
      limitParam := "limit";
      totalPath := "data.total_products";
      hasNextPage := true;
      error := None;
    }

    /**
     * `update_state`: an error stops paging and is recorded; otherwise nothing changes here
     * and the offset logic of the parent class runs (`deferred`).
     */
    method UpdateState(body: Body) returns (deferred: bool)
      modifies this
      ensures deferred <==> CodeGateError(body).None?
      ensures deferred ==> hasNextPage == old(hasNextPage) && error == old(error) && offset == old(offset)
      ensures !deferred ==> !hasNextPage && error == CodeGateError(body) && offset == old(offset)
    {
      var e := CodeGateError(body);
      if e.Some? {
        hasNextPage := false;
        error := e;
        return false;
      }
      return true;
    }
  }

  // ---------------------------------------------------------------------------
  // Shopee item ids and details
  // ---------------------------------------------------------------------------

  /** The `item_id` of each item, `None` ids dropped, in order. */
  function NonNullItemIds(items: seq<Json>): (ids: seq<Json>)
    ensures |ids| <= |items|
    ensures forall x :: x in ids <==> x != JNull && exists i :: 0 <= i < |items| && Get(items[i], "item_id") == x
  {
    if items == [] then []
    else
      var rest := NonNullItemIds(items[1..]);
      assert forall i :: 1 <= i < |items| ==> items[i] == items[1..][i - 1];
      var id := Get(items[0], "item_id");
      if id != JNull then [id] + rest else rest
  }

  /**
   * Ids come out item by item, in item order and with repeats kept: one item gives its
   * id unless that is `None`, and a list split in two gives the ids of the first part
   * followed by those of the second.
   */
  lemma {:induction false} NonNullItemIdsAppend(a: seq<Json>, b: seq<Json>)
    ensures NonNullItemIds(a + b) == NonNullItemIds(a) + NonNullItemIds(b)
    ensures |a| == 1 ==> NonNullItemIds(a) == (if Get(a[0], "item_id") != JNull then [Get(a[0], "item_id")] else [])
  {
    if a != [] {
      assert (a + b)[0] == a[0] && (a + b)[1..] == a[1..] + b;
      NonNullItemIdsAppend(a[1..], b);
    } else {
      assert a + b == b;
    }
  }

  /** The ids one page of `get_item_list` contributes: none for an error page or a non-object. */
  function PageItemIds(page: Json): (ids: seq<Json>)
    ensures !page.JObject? || Truthy(Get(page, "error")) || !Has(page, "response") ==> ids == []
    ensures !Truthy(Get(page, "error")) ==> ids == NonNullItemIds(Elements(GetOr(Get(page, "response"), "item", JList([]))))
  {
    if !page.JObject? then []
    else if Has(page, "error") && Truthy(Get(page, "error")) then []
    else if Has(page, "response") then NonNullItemIds(Elements(GetOr(Get(page, "response"), "item", JList([]))))
    else []
  }

  /** `get_shopee_item_ids` over the pages `paginate` yields. */
  function ShopeeItemIds(pages: seq<Json>): (ids: seq<Json>)
    ensures forall x :: x in ids ==> x != JNull
  {
    if pages == [] then [] else PageItemIds(pages[0]) + ShopeeItemIds(pages[1..])
  }

  /** Ids are collected page by page, in page order. */
  lemma {:induction false} ShopeeItemIdsAppend(p: seq<Json>, q: seq<Json>)
    ensures ShopeeItemIds(p + q) == ShopeeItemIds(p) + ShopeeItemIds(q)
    ensures |p| == 1 ==> ShopeeItemIds(p) == PageItemIds(p[0])
  {
    if p == [] {
      assert p + q == q;
    } else {
      ShopeeItemIdsUnfold(p, q);
      ShopeeItemIdsAppend(p[1..], q);
      ConcatAssoc(PageItemIds(p[0]), ShopeeItemIds(p[1..]), ShopeeItemIds(q));
      if |p| == 1 {
        assert p[1..] == [];
      }
    }
  }

  lemma ShopeeItemIdsUnfold(p: seq<Json>, q: seq<Json>)
    requires p != []
    ensures ShopeeItemIds(p + q) == PageItemIds(p[0]) + ShopeeItemIds(p[1..] + q)
    ensures ShopeeItemIds(p) == PageItemIds(p[0]) + ShopeeItemIds(p[1..])
  {
    assert (p + q)[0] == p[0] && (p + q)[1..] == p[1..] + q;
  }

  lemma ConcatAssoc<T>(a: seq<T>, b: seq<T>, c: seq<T>)
    ensures a + (b + c) == (a + b) + c
  {
  }

  /** The number of batches of at most 50 ids. */
  function NumBatches(n: nat): (k: nat)
    ensures k * 50 >= n && (k == 0 || (k - 1) * 50 < n)
  {
    (n + 49) / 50
  }

  /** A batch starting before the end of the list exists, and the last one ends the count. */
  lemma NumBatchesStep(n: nat, b: nat)
    requires b * 50 < n
    ensures b < NumBatches(n)
    ensures (b + 1) * 50 >= n ==> b + 1 == NumBatches(n)
  {
  }

  /** `item_ids[i : i + 50]` for the `b`-th batch. */
  function Batch(ids: seq<Json>, b: nat): (batch: seq<Json>)
    requires b < NumBatches(|ids|)
    ensures 1 <= |batch| <= BatchSize
  {
    var start := b * 50;
    var end := if start + 50 <= |ids| then start + 50 else |ids|;
    ids[start..end]
  }

  /** The batches, in order. */
  function Batches(ids: seq<Json>, count: nat): seq<seq<Json>>
    requires count <= NumBatches(|ids|)
  {
    if count == 0 then [] else Batches(ids, count - 1) + [Batch(ids, count - 1)]
  }

  function Concat(parts: seq<seq<Json>>): seq<Json> {
    if parts == [] then [] else Concat(parts[..|parts| - 1]) + parts[|parts| - 1]
  }

  /** The first `count` batches laid end to end are the first ids, up to `50 * count`. */
  lemma {:induction false} BatchesPrefix(ids: seq<Json>, count: nat)
    requires count <= NumBatches(|ids|)
    ensures var end := if count * 50 <= |ids| then count * 50 else |ids|;
      Concat(Batches(ids, count)) == ids[..end]
  {
    if count > 0 {
      BatchesPrefix(ids, count - 1);
      var parts := Batches(ids, count);
      assert parts[..|parts| - 1] == Batches(ids, count - 1);
    }
  }

  /** All batches together are exactly the id list, in order. */
  lemma BatchesCoverIds(ids: seq<Json>)
    ensures Concat(Batches(ids, NumBatches(|ids|))) == ids
  {
    BatchesPrefix(ids, NumBatches(|ids|));
  }

  /** The query parameters of one `get_item_base_info` request. */
  function BatchParams(batch: seq<Json>): (p: PyDict.Dict<string>)
    ensures PyDict.Keys(p) == ["item_id_list", "need_tax_info", "need_complaint_policy"]
    ensures p[1].1 == "false" && p[2].1 == "false"
  {
    [("item_id_list", Text.Join(",", seq(|batch|, i requires 0 <= i < |batch| => Str(batch[i])))),
     ("need_tax_info", "false"), ("need_complaint_policy", "false")]
  }

  /**
   * `item_id_list` of a batch of integer ids splits on `,` back into the ids, one part
   * per id and in batch order.
   */
  lemma ItemIdListRoundTrip(batch: seq<Json>)
    requires batch != []
    requires forall i :: 0 <= i < |batch| ==> batch[i].JInt?
    ensures var parts := Text.Split(BatchParams(batch)[0].1, ',');
      |parts| == |batch| && forall i :: 0 <= i < |batch| ==> Text.ParseInt(parts[i]) == Some(batch[i].i)
  {
    var texts := seq(|batch|, i requires 0 <= i < |batch| => Str(batch[i]));
    forall i | 0 <= i < |batch| ensures ',' !in texts[i] && Text.ParseInt(texts[i]) == Some(batch[i].i) {
      Text.IntToStringChars(batch[i].i);
      Text.ParseIntToString(batch[i].i);
    }
    assert "," == [','];
    Text.SplitJoin(texts, ',');
  }

  /**
   * The records one detail response yields: none when the request or decoding raised
   * (`None`) or the response carries a truthy `error`; one per entry of
   * `response.item_list` otherwise.
   */
  function DetailRecords(response: Option<Json>): (records: seq<Product>)
    ensures response.None? ==> records == []
    ensures response.Some? && Truthy(Get(response.value, "error")) ==> records == []
    ensures response.Some? && !Has(Get(response.value, "response"), "item_list") ==> records == []
    ensures response.Some? && !Truthy(Get(response.value, "error")) && Has(Get(response.value, "response"), "item_list") ==>
      var items := Elements(Get(Get(response.value, "response"), "item_list"));
      |records| == |items| && forall i :: 0 <= i < |items| ==> records[i] == ExtractShopeeFields(items[i])
  {
    match response
    case None => []
    case Some(data) =>
      if Has(data, "error") && Truthy(Get(data, "error")) then []
      else if Has(data, "response") && Has(Get(data, "response"), "item_list") then
        var items := Elements(Get(Get(data, "response"), "item_list"));
        seq(|items|, i requires 0 <= i < |items| => ExtractShopeeFields(items[i]))
      else []
  }

  /** The parameters of the first `count` batch requests. */
  function BatchRequests(ids: seq<Json>, count: nat): (requests: seq<PyDict.Dict<string>>)
    requires count <= NumBatches(|ids|)
    ensures |requests| == count
  {
    if count == 0 then [] else BatchRequests(ids, count - 1) + [BatchParams(Batch(ids, count - 1))]
  }

  /** The `b`-th request carries the parameters of the `b`-th batch. */
  lemma {:induction false} BatchRequestsAt(ids: seq<Json>, count: nat, b: nat)
    requires count <= NumBatches(|ids|) && b < count
    ensures BatchRequests(ids, count)[b] == BatchParams(Batch(ids, b))
  {
    if b < count - 1 {
      BatchRequestsAt(ids, count - 1, b);
    }
  }

  /** The records of the first `count` batches, each answered by `fetch`. */
  function BatchRecords(ids: seq<Json>, fetch: PyDict.Dict<string> -> Option<Json>, count: nat): seq<Product>
    requires count <= NumBatches(|ids|)
  {
    if count == 0 then []
    else BatchRecords(ids, fetch, count - 1) + DetailRecords(fetch(BatchParams(Batch(ids, count - 1))))
  }

  /**
   * The detail phase of `get_shopee_products`: one request per batch of at most 50 ids
   * (none for no ids), whatever the earlier batches answered. `fetch` stands for sending
   * the signed request and decoding the reply (`None` when that raised); `requests` are
   * the parameters sent, in order.
   */
  method GetShopeeProducts(ids: seq<Json>, fetch: PyDict.Dict<string> -> Option<Json>)
    returns (requests: seq<PyDict.Dict<string>>, records: seq<Product>)
    ensures requests == BatchRequests(ids, NumBatches(|ids|))
    ensures records == BatchRecords(ids, fetch, NumBatches(|ids|))
  {
    requests := [];
    records := [];
    if |ids| == 0 {
      return;
    }
    // `for i in range(0, len(item_ids), 50)`, counted by batch: `i` is `b * 50`, and
    // `Batch(ids, b)` is the slice `item_ids[i : i + 50]`.
    var count := NumBatches(|ids|);
    var b := 0;
    while b < count
      invariant b <= count && requests == BatchRequests(ids, b)
      invariant records == BatchRecords(ids, fetch, b)
    {
      var params := BatchParams(Batch(ids, b));
      var data := fetch(params);
      assert BatchRequests(ids, b + 1) == requests + [params];
      assert BatchRecords(ids, fetch, b + 1) == records + DetailRecords(data);
      requests := requests + [params];
      records := records + DetailRecords(data);
      b := b + 1;
    }
  }

  // ---------------------------------------------------------------------------
  // Redmart and Lazada pages
  // ---------------------------------------------------------------------------

  /** A list of products yields one record each; any other value is one product. */
  function ListOrOne(products: Json, extract: Json -> Product): (records: seq<Product>)
    ensures products.JList? ==>
      |records| == |products.items| && forall i :: 0 <= i < |records| ==> records[i] == extract(products.items[i])
    ensures !products.JList? ==> records == [extract(products)]
  {
    if products.JList? then seq(|products.items|, i requires 0 <= i < |products.items| => extract(products.items[i]))
    else [extract(products)]
  }

  /** True when a page carries a `code` other than `"0"`. */
  predicate ErrorCoded(page: Json) {
    Has(page, "code") && Get(page, "code") != JStr("0")
  }

  /** The records one Redmart page yields: those under `result.data`; none for an error-coded page. */
  function RedmartPageRecords(page: Json): (records: seq<Product>)
    ensures !page.JObject? || ErrorCoded(page) ==> records == []
    ensures page.JObject? && !ErrorCoded(page) && Has(Get(page, "result"), "data") ==>
      records == ListOrOne(Get(Get(page, "result"), "data"), ExtractRedmartFields)
    ensures !Has(Get(page, "result"), "data") ==> records == []
  {
    if !page.JObject? || ErrorCoded(page) then []
    else if Has(page, "result") && Has(Get(page, "result"), "data") then
      ListOrOne(Get(Get(page, "result"), "data"), ExtractRedmartFields)
    else []
  }

  /** The records one Lazada page yields: those under `data.products`; none for an error-coded page. */
  function LazadaPageRecords(page: Json): (records: seq<Product>)
    ensures !page.JObject? || ErrorCoded(page) ==> records == []
    ensures page.JObject? && !ErrorCoded(page) && Has(Get(page, "data"), "products") ==>
      records == ListOrOne(Get(Get(page, "data"), "products"), ExtractLazadaFields)
    ensures !Has(Get(page, "data"), "products") ==> records == []
  {
    if !page.JObject? || ErrorCoded(page) then []
    else if Has(page, "data") && Has(Get(page, "data"), "products") then
      ListOrOne(Get(Get(page, "data"), "products"), ExtractLazadaFields)
    else []
  }

  /** Every record a Redmart page yields is tagged `redmart`; every Lazada record `lazada`. */
  lemma PageRecordsStoreIds(page: Json)
    ensures forall r :: r in RedmartPageRecords(page) ==> r.storeId == "redmart"
    ensures forall r :: r in LazadaPageRecords(page) ==> r.storeId == "lazada"
  {
  }

  /** The parameters of the first Redmart request. */
  function RedmartInitialParams(storeId: string): (p: PyDict.Dict<Json>)
    ensures PyDict.Keys(p) == ["storeId", "pageSize", "page"]
    ensures p[0].1 == JStr(storeId) && p[1].1 == JInt(100) && p[2].1 == JInt(1)
  {
    [("storeId", JStr(storeId)), ("pageSize", JInt(100)), ("page", JInt(1))]
  }

  /** The parameters of the first Lazada request. */
  function LazadaInitialParams(): (p: PyDict.Dict<Json>)
    ensures PyDict.Keys(p) == ["limit", "offset"]
    ensures p[0].1 == JInt(100) && p[1].1 == JInt(0)
  {
    [("limit", JInt(100)), ("offset", JInt(0))]
  }

  /** The parameters of the first Shopee `get_item_list` request. */
  function ShopeeItemListParams(): (p: PyDict.Dict<Json>)
    ensures PyDict.Keys(p) == ["offset", "page_size", "item_status"]
    ensures p[0].1 == JInt(0) && p[1].1 == JInt(ShopeePageSize) && p[2].1 == JStr("NORMAL")
  {
    [("offset", JInt(0)), ("page_size", JInt(50)), ("item_status", JStr("NORMAL"))]
  }
}
