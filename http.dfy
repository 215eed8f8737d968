/**
 * The parts of `requests` and `urllib.parse` the auth classes and paginators touch.
 *
 * A URL is kept as its components; its query is the key -> values view that `parse_qs`
 * reads out of it and that `urlencode` writes into it (the two are taken as inverse,
 * percent-encoding aside). A parameter dict built from a query holds either the single
 * value of a key or the whole list, as the auth classes' flattening step leaves it.
 */
module Http {
  import opened Wrappers
  import Text
  import opened PyDict
  import Json

  /** `parse_qs` output: every key with the list of its values, in order of first appearance. */
  type Query = Dict<seq<string>>

  /** A parameter value after flattening: one string, or a list of them. */
  datatype QValue = One(s: string) | Many(items: seq<string>)

  /** `v[0] if isinstance(v, list) and len(v) == 1 else v`. */
  function FlattenValue(vs: seq<string>): (v: QValue)
    ensures v.One? <==> |vs| == 1
    ensures v.One? ==> v.s == vs[0]
    ensures v.Many? ==> v.items == vs
  {
    if |vs| == 1 then One(vs[0]) else Many(vs)
  }

  /** The flattened dict comprehension over `parse_qs(query)`. */
  function Flatten(q: Query): Dict<QValue> {
    MapValues(q, FlattenValue)
  }

  /** The values `urlencode(..., doseq=True)` writes for one key: each list element, or the string. */
  function Values(v: QValue): (vs: seq<string>)
    ensures v.One? ==> vs == [v.s]
    ensures v.Many? ==> vs == v.items
  {
    match v
    case One(s) => [s]
    case Many(items) => items
  }

  /** `str(v)`: the string itself, or Python's rendering of a list of strings. */
  function ValueText(v: QValue): string {
    match v
    case One(s) => s
    case Many(items) => "[" + Text.Join(", ", seq(|items|, i requires 0 <= i < |items| => "'" + items[i] + "'")) + "]"
  }

  /** The query `urlencode(params, doseq=True)` writes: lists spread over repeated keys. */
  function EncodeSeq(p: Dict<QValue>): (q: Query)
    ensures Keys(q) == Keys(p)
  {
    MapValues(p, Values)
  }

  /** The query `urlencode(params)` writes: every value as its `str()`, lists included. */
  function EncodeNoSeq(p: Dict<QValue>): (q: Query)
    ensures Keys(q) == Keys(p)
  {
    MapValues(p, (v: QValue) => [ValueText(v)])
  }

  /** Flattening a parsed query and encoding it again with `doseq=True` gives the same query. */
  lemma {:induction false} FlattenThenEncodeSeq(q: Query)
    ensures EncodeSeq(Flatten(q)) == q
  {
    if q != [] {
      FlattenThenEncodeSeq(q[1..]);
      assert Values(FlattenValue(q[0].1)) == q[0].1;
    }
  }

  /** Without `doseq`, every key carries exactly one value, its `str()`. */
  lemma EncodeNoSeqSingle(p: Dict<QValue>, k: string)
    requires k in Keys(p)
    ensures Get(EncodeNoSeq(p), k) == Some([ValueText(Get(p, k).value)])
  {
  }

  /** A URL as `urlparse` splits it (the rarely used `;params` part is not modelled). */
  datatype Url = Url(scheme: string, netloc: string, path: string, query: Query, fragment: string)

  function QueryPairs(q: Query): seq<string> {
    if q == [] then []
    else seq(|q[0].1|, i requires 0 <= i < |q[0].1| => q[0].0 + "=" + q[0].1[i]) + QueryPairs(q[1..])
  }

  /** The query string: `key=value` pairs joined by `&` (no percent-encoding). */
  function QueryText(q: Query): string {
    Text.Join("&", QueryPairs(q))
  }

  /** `urlunparse`: the text of the URL. */
  function UrlText(u: Url): string {
    (if u.scheme != "" then u.scheme + ":" else "")
    + (if u.netloc != "" then "//" + u.netloc else "")
    + u.path
    + (if QueryText(u.query) != "" then "?" + QueryText(u.query) else "")
    + (if u.fragment != "" then "#" + u.fragment else "")
  }

  /** `requests.PreparedRequest`; `verb` is its HTTP method. The auth objects rewrite its URL or give it a form body. */
  class PreparedRequest {
    const verb: string
    var url: Url
    var body: Option<Query>

    constructor(verb: string, url: Url)
      ensures this.verb == verb && this.url == url && body.None?
    {
      this.verb := verb;
      this.url := url;
      body := None;
    }

    /** `prepare_body(data=params)`: the form body `urlencode(params, doseq=True)`. */
    method PrepareBody(params: Dict<QValue>)
      modifies this
      ensures url == old(url) && body == Some(EncodeSeq(params))
    {
      body := Some(EncodeSeq(params));
    }
  }

  /** `requests.Request`: the paginators write the paging parameter into its `params`. */
  class Request {
    var params: Option<Dict<Json.Json>>

    constructor(params: Option<Dict<Json.Json>>)
      ensures this.params == params
    {
      this.params := params;
    }
  }
}
