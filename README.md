# sell-pipelines core, modelled in Dafny

sell-pipelines loads product catalogues from three Southeast Asian marketplaces into one table. The sources are Shopee, Lazada, and Redmart, which is served through Lazada's gateway. Every record in the table has the same fields: `platform_id`, `product_name`, `barcode`, `image_url`, `stock` and `store_id`. Three parts of the system decide what is requested and what is written:

- **Request signing.** Shopee requests carry partner id, shop id, access token and timestamp, plus an HMAC-SHA256 signature in lower-case hex over a fixed base string. Lazada and Redmart requests carry system parameters. Their signature is upper-case hex over the API path, followed by every parameter as key-and-value, with the keys sorted.
- **The OAuth token lifecycle.** Each auth object adopts tokens kept in the pipeline state, once, on its first call. It refreshes an access token that expires within five minutes. A successful refresh is written back to the state under `<platform>_oauth_tokens`.
- **Pagination and extraction.** Shopee pages through item ids with a `next_offset` cursor, then fetches details in batches of at most 50 ids. Redmart pages by page number and Lazada by offset; both stop at a reply whose `code` is not `"0"`. Three field mappers turn raw products into unified records.

The model has one module per source file of that core:

| file | module | form |
|---|---|---|
| `signature.dfy` | `Signature` | pure functions, plus UTF-8 and hex with their inverses |
| `token_manager.dfy` | `TokenManager` | pure functions, plus the `TokenStore` class standing for the pipeline state |
| `token_lifecycle.dfy` | `TokenLifecycle` | the adoption and refresh rules that both auth classes share, as functions |
| `shopee_auth.dfy` | `ShopeeClient` | the `ShopeeAuth` class; its methods update its token fields |
| `lazada_auth.dfy` | `LazadaClient` | the `LazadaAuth` class, the same way |
| `sources.dfy` | `Sources` | the three paginator classes, plus the id, batch and page functions |
| `transformers.dfy` | `Transformers` | the three field mappers |
| `detail_run.dfy` | `DetailRun` | the older Shopee script's detail loop, which stops at the first request that raises, as functions over any request and record types |
| `shopee_pipeline.dfy`, `redmart_pipeline.dfy`, `lazada_pipeline.dfy` | `ShopeePipeline`, `RedmartPipeline`, `LazadaPipeline` | the older stand-alone scripts, each compared with the packaged code |

Four supporting modules model the Python and library semantics the core relies on:

- `Wrappers`: `None` as an option.
- `Text`: `str(int)`, `sorted` on strings, `str.find`, `str.join` and `str.upper`.
- `PyDict`: insertion-ordered dictionaries with `d[k] = v` and `{**a, **b}`.
- `Json`: truthiness, `in`, `.get` and `str()`.

A further module, `Http`, models the URL, query and request objects of `requests` and `urllib.parse`.

The external services are parameters of the model:

- HMAC-SHA256 is a function parameter `mac`.
- The clock is an integer parameter: `now` in seconds, and for Lazada's `timestamp` also `millis` in milliseconds.
- Each server reply is a parameter holding the already-parsed response. `None` means the request or the decoding raised.
- For the batched Shopee detail fetch, the replies are a function from request parameters to response.

## Model

| member | source | states |
|---|---|---|
| Text.SortAscending | lazadaclient/signature.py:16 | `sorted` on distinct keys yields them in strictly ascending order |
| Text.AscendingUnique | lazadaclient/signature.py:16-18 | two ascending listings of the same keys are identical, so the sorted order depends only on the key set |
| Text.ParseIntToString | sellpipelines/transformers.py:39 | `str(n)` of an integer reads back as `n` |
| Text.IntToStringInjective | sellpipelines/transformers.py:39 | distinct integers have distinct `str()` renderings |
| Signature.Utf8RoundTrip | lazadaclient/signature.py:22-23 | UTF-8 encoding of the secret and the message decodes back to the same text |
| Signature.Utf8Injective | lazadaclient/signature.py:22-23 | distinct texts encode to distinct byte strings, so no two strings to sign share an HMAC input |
| Signature.Hex | lazadaclient/signature.py:27 | a hex rendering has two digits per byte and only hex digits of the chosen case |
| Signature.HexRoundTrip | lazadaclient/signature.py:27 | a hex digest decodes back to the digest bytes, in either case |
| Signature.UpperOfLowerHex | lazadaclient/signature.py:27 | `hexdigest().upper()` equals the upper-case hex rendering of the digest |
| Signature.StringToSign | lazadaclient/signature.py:16-19 | with no parameters the string to sign is the API path; the API path always begins it |
| Signature.StringToSignAscending | lazadaclient/signature.py:16-19 | for any ascending listing of the distinct keys, the string to sign is the API path, then each key followed by its value in that order |
| Signature.GenerateSignature | lazadaclient/signature.py:6-27 | the signature has 64 upper-case hex digits and no lower-case letter, and hex-decodes to HMAC(UTF-8 secret, UTF-8 string to sign) |
| Signature.KeyValueTextSameValues | lazadaclient/signature.py:18 | two dicts agreeing on every listed key render the same key/value text |
| Signature.SignatureIgnoresInsertionOrder | lazadaclient/signature.py:16-27 | two dicts with the same entries, inserted in any order, get the same signature |
| TokenManager.TokenStateKey | sellpipelines/token_manager.py:23-25 | the state key is the platform name followed by `_oauth_tokens` |
| TokenManager.TokenStateKeyInjective | sellpipelines/token_manager.py:23-25 | different platforms never share a state key |
| TokenManager.IsoFormat | sellpipelines/token_manager.py:72 | a rendered expiry is never empty |
| TokenManager.ParseTokenExpiry | sellpipelines/token_manager.py:98-114 | a missing or empty expiry text parses to `None` |
| TokenManager.ParseIsoFormat | sellpipelines/token_manager.py:98-114 | an expiry saved to the state parses back to the same instant |
| TokenManager.IsTokenExpired | sellpipelines/token_manager.py:83-95 | expired exactly when at most `60 * buffer` seconds remain before the expiry, so a token past its expiry is expired for any non-negative buffer |
| TokenManager.ExpiredStaysExpired | sellpipelines/token_manager.py:83-95 | a token that is expired now is expired at every later time |
| TokenManager.LargerBufferStaysExpired | sellpipelines/token_manager.py:83-95 | a larger buffer never turns an expired token valid |
| TokenManager.DefaultBufferIsFiveMinutes | sellpipelines/token_manager.py:83-95 | with the default buffer, a token counts as expired exactly when 300 seconds or fewer remain |
| TokenManager.LoadTokens | sellpipelines/token_manager.py:28-48 | tokens are found exactly when the state is available and holds the platform's key, and they are the stored entry |
| TokenManager.SaveTokens | sellpipelines/token_manager.py:51-80 | an unavailable state stays unavailable; an available one gains the platform's key and keeps every other key |
| TokenManager.LoadAfterSave | sellpipelines/token_manager.py:28-80 | loading right after saving returns the saved tokens and the saved expiry text |
| TokenManager.SaveKeepsOtherPlatforms | sellpipelines/token_manager.py:51-80 | saving one platform's tokens leaves every other platform's load unchanged |
| TokenManager.TokenStore.constructor | sellpipelines/token_manager.py:37-38 | the store starts with the given entries and availability |
| TokenManager.TokenStore.Load | sellpipelines/token_manager.py:28-48 | reading the store is `LoadTokens` on its state |
| TokenManager.TokenStore.Save | sellpipelines/token_manager.py:51-80 | the new state is `SaveTokens` of the old state |
| TokenLifecycle.InitialExpiry | shopeeclient/auth.py:63-69 | a non-zero lifetime argument sets the expiry that many seconds from now; a missing or zero one gives the default lifetime |
| TokenLifecycle.Adopt | shopeeclient/auth.py:78-98 | with nothing stored nothing changes. A stored record whose expiry parses and is not about to expire replaces all three fields. Otherwise a non-empty stored refresh token replaces the refresh token alone, and anything else changes nothing. A set access token stays set |
| TokenLifecycle.TokenText | shopeeclient/auth.py:176-178 | a JSON string is kept as is, and `null` becomes `None` |
| Json.IntValue | shopeeclient/auth.py:179-184 | an integer is added as itself; `null`, strings, lists and objects cannot be added to the clock or to an offset (`true`/`false` add as 1/0) |
| TokenLifecycle.Refresh | shopeeclient/auth.py:126-209 | no refresh token or no response: nothing changes. It succeeds exactly when it saves, and it does succeed when a refresh token is held, the reply has a truthy `access_token` and its lifetime is absent or numeric. On success the access token is `str()` of the reply's, the refresh token is the reply's when it has one and the current one otherwise, the expiry is now plus the reply's lifetime or the default, and these are the saved values. Whenever a refresh token is held and the reply has a truthy `access_token`, the access and refresh tokens take those values even if the lifetime then cannot be added. A failure keeps the expiry, and a set access token stays set |
| TokenLifecycle.RejectedResponseChangesNothing | shopeeclient/auth.py:199-205 | a reply without a truthy `access_token` changes nothing and saves nothing |
| TokenLifecycle.AcceptedResponse | shopeeclient/auth.py:174-198 | a reply with a truthy `access_token` and an integer or absent lifetime succeeds. The new access token is `str()` of the reply's. The refresh token is the reply's `refresh_token` read as text when the reply has one, and the current one otherwise. The expiry is now plus the reply's lifetime or the default |
| TokenLifecycle.AdoptAfterRefresh | shopeeclient/auth.py:86-89 | tokens saved by a successful refresh are adopted in full by a later session, while they are still unexpired |
| Http.FlattenValue | shopeeclient/auth.py:248-251 | a one-element value list becomes the single value; any other list is kept as a list |
| Http.Values | shopeeclient/auth.py:257 | `doseq` expands a list into its elements and a single value into itself |
| Http.EncodeSeq | shopeeclient/auth.py:257 | `urlencode(..., doseq=True)` keeps every key, in order |
| Http.EncodeNoSeq | lazadaclient/auth.py:234 | `urlencode(...)` keeps every key, in order |
| Http.FlattenThenEncodeSeq | shopeeclient/auth.py:244-257 | flattening the parsed query and encoding it with `doseq` gives back the same query |
| Http.EncodeNoSeqSingle | lazadaclient/auth.py:234 | without `doseq`, each key carries the single value `str(value)`, so a list becomes its Python repr |
| Http.PreparedRequest.constructor | lazadaclient/auth.py:180 | a prepared request holds its verb and URL and has no body yet |
| Http.PreparedRequest.PrepareBody | lazadaclient/auth.py:247 | the body becomes the form-encoded parameters and the URL is kept |
| Http.Request.constructor | sellpipelines/sources.py:76-80 | a request holds the given parameters, possibly none |
| ShopeeClient.RefreshBaseIsRequestBasePrefix | shopeeclient/auth.py:145 | the refresh base string is the request base string of the refresh path, with the token and shop id cut off the end |
| ShopeeClient.LowerHexSignature | shopeeclient/auth.py:114-120 | 64 lower-case hex digits that decode to HMAC(UTF-8 partner key, UTF-8 base string) |
| ShopeeClient.AuthParams | shopeeclient/auth.py:235-241 | exactly the five auth keys, in the source's order, each once, holding the partner id and shop id as decimal text, the access token, the timestamp as decimal text and the given signature |
| ShopeeClient.AuthParamsOverride | shopeeclient/auth.py:243-257 | in the rewritten query every auth key carries its auth value, and every other key keeps exactly the values the URL had |
| ShopeeClient.ShopeeAuth.constructor | shopeeclient/auth.py:43-69 | it keeps its arguments, and the expiry is `InitialExpiry` with the one-hour default. The state is not yet checked |
| ShopeeClient.ShopeeAuth.CheckStateForTokens | shopeeclient/auth.py:71-98 | on the first call the tokens become `Adopt` of the stored Shopee tokens; later calls change nothing |
| ShopeeClient.ShopeeAuth.GenerateSignature | shopeeclient/auth.py:104-120 | 64 lower-case hex digits decoding to the HMAC of `{partner_id}{path}{timestamp}{access_token}{shop_id}` |
| ShopeeClient.ShopeeAuth.RefreshRequest | shopeeclient/auth.py:140-163 | the POST goes to the refresh path on the Shopee host. Its query carries `partner_id` and `timestamp` as decimal text, and `sign`, which signs the short base string. The JSON body is `shop_id`, `partner_id` and the refresh token, in that order |
| ShopeeClient.ShopeeAuth.RefreshAccessToken | shopeeclient/auth.py:126-209 | the outcome, the new tokens and the new state are `Refresh` and `SaveTokens` with Shopee's key and four-hour default. A POST is made exactly when a refresh token is set |
| ShopeeClient.ShopeeAuth.SignedParams | shopeeclient/auth.py:243-254 | the signed parameters hold exactly the URL's keys and the five auth keys |
| ShopeeClient.ShopeeAuth.RefreshIfDue | shopeeclient/auth.py:216-221 | with auto-refresh on and the token expired, the tokens and the state become those of `Refresh`, and a POST is made exactly when a refresh token is set; otherwise nothing changes. A failed refresh is only logged |
| ShopeeClient.ShopeeAuth.Call | shopeeclient/auth.py:211-269 | tokens are adopted once, then refreshed only when auto-refresh is on and the token is expired. The URL query becomes the URL's parameters overridden by the signed auth parameters; the body is untouched |
| LazadaClient.ApiPath | lazadaclient/auth.py:192-200 | the API path is the text after the first `/rest`, up to its first `?` if there is one. It contains no `?`, and is `/` when `/rest` is absent |
| LazadaClient.SystemParams | lazadaclient/auth.py:202-210 | app key, sign method `sha256` and timestamp, in that order and with the given values, plus the held access token only when it is non-empty |
| LazadaClient.ExistingParams | lazadaclient/auth.py:212-220 | no parameters unless the URL's text contains `?`; then the URL's query with one-element lists flattened, which encodes back to that query with the same keys in order |
| LazadaClient.SignedParamsContent | lazadaclient/auth.py:222-227 | `sign` carries the signature, every system key carries its system value, and every other key keeps the URL's value |
| LazadaClient.LazadaAuth.constructor | lazadaclient/auth.py:44-69 | it keeps its arguments, and the expiry is `InitialExpiry` with the six-hour default. The state is not yet checked |
| LazadaClient.LazadaAuth.CheckStateForTokens | lazadaclient/auth.py:71-100 | on the first call the tokens become `Adopt` of this platform's stored tokens; later calls change nothing |
| LazadaClient.LazadaAuth.RefreshRequest | lazadaclient/auth.py:124-136 | the POST goes to `/rest` plus the refresh API path on the auth host. The form holds the app key, sign method, the millisecond timestamp as decimal text and the given refresh token. Then comes `sign`: the signer's output over exactly those four entries and the refresh API path |
| LazadaClient.LazadaAuth.RefreshAccessToken | lazadaclient/auth.py:110-178 | the outcome, the new tokens and the new state are `Refresh` and `SaveTokens` under the platform's key, with the seven-day default. A POST is made exactly when a refresh token is set |
| LazadaClient.LazadaAuth.SignedParams | lazadaclient/auth.py:212-227 | `sign` is the signature over the API path and the merged URL and system parameters, as the signer renders them |
| LazadaClient.LazadaAuth.RefreshIfDue | lazadaclient/auth.py:185-190 | with auto-refresh on, an access token set and expired, the tokens and the state become those of `Refresh`, and a POST is made exactly when a refresh token is set; otherwise nothing changes. A failed refresh is only logged |
| LazadaClient.LazadaAuth.Call | lazadaclient/auth.py:180-249 | tokens are adopted once, then refreshed only when auto-refresh is on, an access token is set and it is expired. A GET gets the signed parameters as its query, encoded without `doseq`; any other method gets them as its form body |
| LazadaClient.ApplyParams | lazadaclient/auth.py:230-247 | a GET gets the parameters as its query, encoded without `doseq`, and keeps its body. Any other method keeps its URL and gets the parameters as its form body, encoded with `doseq` |
| Transformers.FirstTruthy | sellpipelines/transformers.py:93-94 | the result is `None` exactly when no element is truthy. Otherwise it is the first truthy element |
| Transformers.ShopeeBarcode | sellpipelines/transformers.py:33-36 | the barcode is `gtin_code` when that is truthy and not `"00"`, and `item_sku` otherwise |
| Transformers.ExtractShopeeFields | sellpipelines/transformers.py:10-47 | it keeps `item_id`, `str(item_id)` and the name. The barcode follows the `gtin_code`/`item_sku` rule, stock is the first seller stock or else the total available, and the image is the first URL or `None`. The store is `shopee` |
| Transformers.ExtractRedmartFields | sellpipelines/transformers.py:50-76 | it keeps `rpc`, `str(rpc)` and the title. The barcode is the first barcode or `None`, image and stock are `None`, and the store is `redmart` |
| Transformers.ExtractLazadaFields | sellpipelines/transformers.py:79-105 | it keeps `item_id`, `str(item_id)` and `attributes.name`. Barcode, stock and the first truthy image come from the first SKU, or are `None` without SKUs. The store is `lazada` |
| Transformers.PlatformIdRecoversIntegerId | sellpipelines/transformers.py:39 | an integer `item_id` reads back exactly from `platform_id` |
| Transformers.PlatformIdsDistinct | sellpipelines/transformers.py:39 | products with different integer ids get different `platform_id`s |
| Transformers.StoreIdsSeparateMarketplaces | sellpipelines/transformers.py:44 | the three mappers use three different store ids, so records from different marketplaces never share a primary key |
| Sources.ShopeeError | sellpipelines/sources.py:46-62 | an unparseable body is an error carrying its reason. A parsed body is an error exactly when its `error` field is truthy, and the error is its `message`, or `"Unknown error"` without one |
| Sources.ShopeePaginator.constructor | sellpipelines/sources.py:37-40 | offset 0, more pages expected, no error |
| Sources.ShopeePaginator.UpdateState | sellpipelines/sources.py:42-74 | an error stops paging and records the message. A truthy `has_next_page` moves the offset to `next_offset` (default offset + 50, a `true`/`false` offset counting as 1/0). An offset `+ 50` cannot add to raises, and so does a `response` that is not an object. Anything else stops paging with the offset unchanged |
| Sources.ShopeePaginator.UpdateRequest | sellpipelines/sources.py:76-80 | the request's `offset` becomes the cursor, and every other parameter is kept |
| Sources.CodeGateError | sellpipelines/sources.py:300-308 | a body is an error exactly when it is unparseable or has a `code` other than `"0"`. The error is its `message`, or `"Unknown error"` without one |
| Sources.RedmartPaginator.constructor | sellpipelines/sources.py:278-286 | base page 1, page parameter `page`, total at `result.total` |
| Sources.RedmartPaginator.UpdateState | sellpipelines/sources.py:288-311 | an error-coded or unparseable reply stops paging and records the error, with the page unchanged. Every other reply goes on to the page-number logic |
| Sources.LazadaPaginator.constructor | sellpipelines/sources.py:423-431 | limit 100, offset 0, total at `data.total_products` |
| Sources.LazadaPaginator.UpdateState | sellpipelines/sources.py:433-456 | an error-coded or unparseable reply stops paging and records the error, with the offset unchanged. Every other reply goes on to the offset logic |
| Sources.NonNullItemIds | sellpipelines/sources.py:138-142 | the ids yielded are exactly the non-`None` `item_id`s of the items, never more than there are items |
| Sources.NonNullItemIdsAppend | sellpipelines/sources.py:137-142 | the ids of two runs of items are the ids of the first run followed by those of the second; one item yields its `item_id` exactly when that is not `None`. So ids come out in item order, once per item |
| Sources.PageItemIds | sellpipelines/sources.py:129-142 | an error page, a non-object or a page without `response` yields no id. Otherwise the page yields the non-`None` ids of `response.item` |
| Sources.ShopeeItemIds | sellpipelines/sources.py:118-142 | no yielded id is `None` |
| Sources.ShopeeItemIdsAppend | sellpipelines/sources.py:118-142 | ids are collected page by page, in page order, and one page yields its own ids |
| Sources.NumBatches | sellpipelines/sources.py:197 | the number of batches is the least count of 50-id batches that covers all ids |
| Sources.NumBatchesStep | sellpipelines/sources.py:197 | a batch start below the id count is a real batch, and the last such start is the final batch |
| Sources.Batch | sellpipelines/sources.py:198 | every batch holds between 1 and 50 ids |
| Sources.BatchesPrefix | sellpipelines/sources.py:197-198 | the first batches, concatenated, are the matching prefix of the ids |
| Sources.BatchesCoverIds | sellpipelines/sources.py:197-198 | all batches, concatenated, are exactly the ids in order: none lost, none repeated |
| Sources.BatchParams | sellpipelines/sources.py:202-206 | each batch request carries `item_id_list` (the batch's ids, comma-joined), then `need_tax_info` and `need_complaint_policy`, both `"false"` |
| Sources.ItemIdListRoundTrip | sellpipelines/sources.py:202 | splitting a batch's `item_id_list` of integer ids at the commas gives back one decimal text per id, each reading back as that id |
| Text.SplitJoin | sellpipelines/sources.py:202 | joining texts that contain no separator and splitting the result at the separator gives the texts back |
| Sources.DetailRecords | sellpipelines/sources.py:215-238 | a failed request, an error reply or a reply without `response.item_list` yields no record. Any other reply yields one record per listed item, in order, each the shared mapper's record of that item |
| Sources.BatchRequests | sellpipelines/sources.py:197-206 | one request per batch |
| Sources.BatchRequestsAt | sellpipelines/sources.py:197-206 | the k-th request is the parameters of the k-th batch |
| Sources.GetShopeeProducts | sellpipelines/sources.py:176-238 | every batch is requested in order, whatever earlier batches returned. The records are those of the successful batches, in order |
| Sources.ListOrOne | sellpipelines/sources.py:370-376 | a list yields one record per element, in order; any other value yields one record |
| Sources.RedmartPageRecords | sellpipelines/sources.py:361-383 | an error-coded page or a non-object yields nothing, and so does a page without `result.data`. Otherwise the page yields the products under `result.data` |
| Sources.LazadaPageRecords | sellpipelines/sources.py:503-525 | an error-coded page or a non-object yields nothing, and so does a page without `data.products`. Otherwise the page yields the products under `data.products` |
| Sources.PageRecordsStoreIds | sellpipelines/sources.py:370-376 | every Redmart record is tagged `redmart` and every Lazada record `lazada` |
| Sources.RedmartInitialParams | sellpipelines/sources.py:355-359 | the keys `storeId`, `pageSize`, `page` in that order, with the given store id, 100 and 1 |
| Sources.LazadaInitialParams | sellpipelines/sources.py:498-501 | limit 100, offset 0 |
| Sources.ShopeeItemListParams | sellpipelines/sources.py:123-127 | the keys `offset`, `page_size`, `item_status` in that order, with 0, 50 and `"NORMAL"` |
| ShopeePipeline.ExtractShopeeFields | shopee_pipeline.py:52-80 | the script's mapper sets the same fields, tagged `shopee`, and keeps no `item_id` |
| ShopeePipeline.SameFieldsAsTransformers | shopee_pipeline.py:52-80 | the script's mapper equals the shared mapper without the `item_id` key |
| ShopeePipeline.ShopeePaginator.constructor | shopee_pipeline.py:86-88 | offset 0, more pages expected |
| ShopeePipeline.ShopeePaginator.UpdateState | shopee_pipeline.py:90-106 | the same cursor rule without error checks, including the 1/0 reading of a `true`/`false` offset: an unparseable body raises, and a reply without `response` stops paging |
| ShopeePipeline.ShopeePaginator.UpdateRequest | shopee_pipeline.py:108-112 | the request's `offset` becomes the cursor, and every other parameter is kept |
| ShopeePipeline.YieldedItemIds | shopee_pipeline.py:154-170 | the yielded ids are exactly those the object items of some page carry, `None` included |
| ShopeePipeline.ObjectItemIds | shopee_pipeline.py:168-170 | exactly the `item_id`s of the items that are objects |
| ShopeePipeline.ObjectItemIdsAppend | shopee_pipeline.py:168-170 | the ids of two runs of items are the first run's followed by the second's; one item yields its `item_id` exactly when it is an object. So ids come out in item order, once per object item |
| ShopeePipeline.YieldedItemIdsAppend | shopee_pipeline.py:154-170 | the ids of two runs of pages are the first run's followed by the second's, and one page yields the ids of its object items. So ids come out page by page, in item order |
| ShopeePipeline.NonNull | shopee_pipeline.py:206 | exactly the non-`None` values |
| ShopeePipeline.NonNullAppend | shopee_pipeline.py:204-207 | filtering out `None` distributes over concatenation, so ids can be filtered item by item |
| ShopeePipeline.CollectedIdsMatchSources | shopee_pipeline.py:202-207 | on a page of objects, the script collects the same ids, in order, as the packaged `get_shopee_item_ids` |
| ShopeePipeline.CollectItemIds | shopee_pipeline.py:202-207 | the loop keeps every non-`None` id, in order |
| ShopeePipeline.DetailRecords | shopee_pipeline.py:254-260 | a reply without `response.item_list` yields nothing. A reply with it yields one record per listed item, in order, each the script's record of that item |
| ShopeePipeline.ItemListBeforeError | shopee_pipeline.py:254-260 | a reply holding both `item_list` and a truthy `error` still yields its items, where the packaged code yields none |
| ShopeePipeline.DetailStep | shopee_pipeline.py:248-258 | a detail request raises exactly when sending it or decoding its reply raises. Otherwise it yields the records the decoded reply maps to, and nothing when the reply has no `response.item_list` |
| ShopeePipeline.GetProducts | shopee_pipeline.py:209-258 | the detail loop runs over the batch requests as `DetailRun.RunRequests` describes, one request per batch of 50 ids. With no ids nothing is requested and nothing is yielded |
| DetailRun.RaisedRunStops | shopee_pipeline.py:232-252 | once a detail request has raised, no later batch is requested and nothing more is yielded |
| DetailRun.RunOutcome | shopee_pipeline.py:232-258 | the requests sent are a prefix of the batch requests, in order. A run that did not raise sent every request and yielded the records of all replies. A run that raised stopped at the first request that raised and yielded only the records of the replies before it |
| RedmartPipeline.ExtractRedmartFields | redmart_pipeline.py:51-68 | the script's mapper sets the same fields, tagged `redmart`, and keeps no `rpc` |
| RedmartPipeline.SameFieldsAsTransformers | redmart_pipeline.py:51-68 | the script's mapper equals the shared mapper without the `rpc` key |
| RedmartPipeline.InitialParams | redmart_pipeline.py:125-129 | store id, page size 100, page 1 |
| RedmartPipeline.PageRecords | redmart_pipeline.py:133-146 | a page holding `result.data` yields its products. Any other page is itself mapped as one product |
| RedmartPipeline.Products | redmart_pipeline.py:122-146 | every record is tagged `redmart` and carries no reference key |
| RedmartPipeline.ProductsAppend | redmart_pipeline.py:122-146 | records are yielded page by page, in page order, and one page yields its own records |
| RedmartPipeline.PageWithoutDataBecomesRecord | redmart_pipeline.py:144-146 | an object page without `result.data` yields one record made from the page itself, where the packaged code yields none |
| RedmartPipeline.DataPageAgreesWithSources | redmart_pipeline.py:133-143 | on a page that passes the code gate and holds data, the script and the packaged code yield the same records, up to the reference key |
| LazadaPipeline.ExtractLazadaFields | lazada_pipeline.py:45-62 | the script's mapper sets the same fields, tagged `lazada`, and keeps no `item_id` |
| LazadaPipeline.SameFieldsAsTransformers | lazada_pipeline.py:45-62 | the script's mapper equals the shared mapper without the `item_id` key |
| LazadaPipeline.InitialParams | lazada_pipeline.py:115-118 | limit 100, offset 0 |
| LazadaPipeline.PageRecords | lazada_pipeline.py:121-134 | a page holding `data.products` yields its products. Any other page is itself mapped as one product |
| LazadaPipeline.Products | lazada_pipeline.py:112-134 | every record is tagged `lazada` and carries no reference key |
| LazadaPipeline.ProductsAppend | lazada_pipeline.py:112-134 | records are yielded page by page, in page order, and one page yields its own records |
| LazadaPipeline.PageWithoutProductsBecomesRecord | lazada_pipeline.py:132-134 | an object page without `data.products` yields one record made from the page itself, where the packaged code yields none |
| LazadaPipeline.ProductsPageAgreesWithSources | lazada_pipeline.py:121-131 | on a page that passes the code gate and holds products, the script and the packaged code yield the same records, up to the reference key |

## Left out

- HMAC-SHA256 and SHA-256 are not modelled. They are the parameter `mac`, whose only property is a 32-byte digest.
- The clock is not modelled. `time.time()` and `pendulum.now()` become the parameters `now` (seconds) and `millis` (milliseconds), and one call uses one `now` throughout. The source reads the clock several times per call.
- The network is not modelled. `requests.post` and `session.send` become parsed replies passed in, and `None` means an exception. Request headers and timeouts are not modelled either.
- ISO-8601 is not modelled. `isoformat()` and `pendulum.parse` become a decimal rendering of epoch seconds and its inverse. A stored expiry text that is not such a rendering reads as unparseable.
- Percent-encoding is not modelled. `urlencode` and `parse_qs` work on already-decoded keys and values, and they are taken as each other's inverse on those. Blank values that `parse_qs` drops are not modelled.
- The `;params` URL component is not modelled. The URL text is rebuilt from scheme, host, path, query and fragment only.
- Unsafe reads are lenient. `.get`, `in` and `[...]` on a JSON value that is not an object read as "absent", where Python would raise or test list membership. The same holds for a list index on a non-list. Iterating a string is not modelled.
- `Json.Str` is partial. `str()` of a list or an object is a fixed placeholder, not Python's repr, and quote escaping inside the repr of a string list is not modelled.
- Floats are not modelled. JSON numbers are integers, and a float `expire_in` or offset counts as a value `+` cannot add to.
- Non-token state is not modelled. The pipeline state holds only `TokenData` entries under string keys.
- dlt's `paginate`, `PageNumberPaginator` and `OffsetPaginator` are not part of this model. The packaged Redmart and Lazada paginators are modelled up to the call into their parent class (`deferred`). How pages reach the loops is also left out, which is why pages and selected item lists are inputs.
- Sources.GetShopeeProducts does not pass each batch request through `ShopeeAuth`. The auth object is modelled on its own (`ShopeeClient.ShopeeAuth.Call`), and the batch model works on the unsigned parameters.
- ShopeePipeline.GetProducts does not sign its requests either, for the same reason.
- Logging and printing are not modelled, nor are the orchestration, client, scheduling, checks and test scripts, or the environment-variable validation at import time of the old scripts.
- TokenLifecycle.Refresh models a partial update as written. A reply whose `expire_in` or `expires_in` is present but not a number still replaces the access and refresh tokens, because the assignment precedes the failing expiry arithmetic. The expiry and the state stay as they were, and the refresh reports failure.
- TokenLifecycle.InitialExpiry follows the code on a zero lifetime argument: it is falsy, so the default applies. A lifetime of 0 in a refresh reply is used as given, since the key is present.
- TokenLifecycle.TokenText turns a refresh reply's `refresh_token` that is neither a string nor `null` into its `str()`. Python keeps the raw value. A falsy one (`0`, `false`, `[]`, `{}`) then reads as unset in `if not self.refresh_token` and in the adoption test, but the model reads its non-empty `str()` as set. Token values are strings in the replies both APIs document.
- Json.Elements reads a value that is not a list as an empty loop. Python iterates a dict's keys, and a number raises. In `get_shopee_item_ids` an `item` that is a key string raises on `.get`, and that exception escapes the generator. For such a page the model yields no ids and goes on.
- The servers behind `GetShopeeProducts` and `GetProducts` are functions of the request parameters. Two batches with the same ids therefore get the same reply, while a real server may answer them differently.
- LazadaClient.ExistingParams keeps the source's test: the URL's own parameters are read only when its text contains `?`.
