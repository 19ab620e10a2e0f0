/**
 * The NewsAPI client: the records the service returns, the untagged
 * success-or-failure response, its conversion to a Rust-style `Result`, the
 * error texts and the two requests the application sends.
 *
 * JSON is abstracted to an object whose interesting fields are present or
 * absent, or an array whose elements are read by position; the HTTP
 * exchange is an outcome handed in by the caller.
 */
module NewsApi {
  import opened Wrappers

  /** Rust's `i32`, the type of `totalResults`. */
  newtype i32 = x: int | -0x8000_0000 <= x < 0x8000_0000

  /** The `source` object of an article; both fields may be missing. */
  datatype ArticleSource = ArticleSource(id: Option<string>, name: Option<string>)

  /** One article; every field but `source` may be missing. */
  datatype Article = Article(
    source: ArticleSource,
    author: Option<string>,
    title: Option<string>,
    description: Option<string>,
    url: Option<string>,
    urlToImage: Option<string>,
    publishedAt: Option<string>,
    content: Option<string>)

  /** One publisher in the source catalogue. */
  datatype Source = Source(
    id: string, name: string, description: string, url: string,
    category: string, language: string, country: string)

  /** The body of a successful listing. */
  datatype NewsApiSuccess = NewsApiSuccess(status: string, totalResults: i32, articles: seq<Article>)

  /** The body of a failure reported by the service. */
  datatype NewsApiFail = NewsApiFail(status: string, code: string, message: string)

  /** The untagged response: `Success` is tried before `Fail`. */
  datatype NewsApiResponse = Success(success: NewsApiSuccess) | Fail(fail: NewsApiFail)

  /** Every error the client can report. The texts of the library errors are carried as they display. */
  datatype NewsApiError =
    | Api(code: string, message: string)
    | Reqwest(detail: string)
    | Serde(detail: string)
    | Io(debug: string)
    | HeaderValue

  /**
   * What `Display` prints for each error. Each kind has its own fixed
   * prefix, and the first two characters already tell the kinds apart.
   */
  function ErrorText(e: NewsApiError): (text: string)
    ensures |text| >= 2
    ensures e.Api? <==> text[0] == 'A'
    ensures e.Reqwest? <==> text[0] == 'H'
    ensures e.Serde? <==> text[0] == 'F'
    ensures e.Io? <==> text[0] == 'I' && text[1] == 'O'
    ensures e.HeaderValue? <==> text[0] == 'I' && text[1] == 'n'
  {
    match e
    case Api(code, message) => "API returned an error: " + message + " (code " + code + ")"
    case Reqwest(d) => "HTTP request failed: " + d
    case Serde(d) => "Failed to parse JSON response: " + d
    case Io(d) => "IO Error: " + d
    case HeaderValue => "Invalid Header Value"
  }

  /** The characters after the last space of `s` (all of `s` if it has none). */
  function TrailingWord(s: string): (w: string)
    ensures |w| <= |s| && w == s[|s| - |w|..]
    ensures ' ' !in w
  {
    if s == [] || s[|s| - 1] == ' ' then []
    else TrailingWord(s[..|s| - 1]) + [s[|s| - 1]]
  }

  lemma {:induction false} TrailingWordAfterSpace(x: string, w: string)
    requires ' ' !in w
    ensures TrailingWord(x + " " + w) == w
    decreases |w|
  {
    var s := x + " " + w;
    if w == [] {
      assert s[|s| - 1] == ' ';
    } else {
      var w' := w[..|w| - 1];
      assert s[..|s| - 1] == x + " " + w';
      TrailingWordAfterSpace(x, w');
      assert w' + [w[|w| - 1]] == w;
    }
  }

  lemma CancelSuffix(a: string, b: string, t: string)
    requires a + t == b + t
    ensures a == b
  {
    assert a == (a + t)[..|a|];
    assert b == (b + t)[..|b|];
  }

  lemma CancelPrefix(t: string, a: string, b: string)
    requires t + a == t + b
    ensures a == b
  {
    assert a == (t + a)[|t|..];
    assert b == (t + b)[|t|..];
  }

  lemma ApiTextShape(c: string, m: string)
    ensures ErrorText(Api(c, m)) == (("API returned an error: " + m + " (code") + (" " + c)) + ")"
  {
  }

  /**
   * The text of an `Api` error determines its code and message, as long as
   * the code has no space in it (the service's codes are single words such
   * as `apiKeyInvalid`).
   */
  lemma ApiTextDetermines(c1: string, m1: string, c2: string, m2: string)
    requires ' ' !in c1 && ' ' !in c2
    requires ErrorText(Api(c1, m1)) == ErrorText(Api(c2, m2))
    ensures c1 == c2 && m1 == m2
  {
    var p := "API returned an error: ";
    var x1, x2 := p + m1 + " (code", p + m2 + " (code";
    ApiTextShape(c1, m1);
    ApiTextShape(c2, m2);
    CancelSuffix(x1 + (" " + c1), x2 + (" " + c2), ")");
    assert x1 + (" " + c1) == x1 + " " + c1;
    assert x2 + (" " + c2) == x2 + " " + c2;
    TrailingWordAfterSpace(x1, c1);
    TrailingWordAfterSpace(x2, c2);
    CancelSuffix(x1, x2, " " + c1);
    CancelSuffix(p + m1, p + m2, " (code");
    CancelPrefix(p, m1, m2);
  }

  /**
   * The displayed text determines the whole error: its kind, and its
   * payload (for `Api`, as long as the code has no space in it).
   */
  lemma ErrorTextDetermines(e1: NewsApiError, e2: NewsApiError)
    requires e1.Api? ==> ' ' !in e1.code
    requires e2.Api? ==> ' ' !in e2.code
    requires ErrorText(e1) == ErrorText(e2)
    ensures e1 == e2
  {
    match e1
    case Api(c, m) => ApiTextDetermines(c, m, e2.code, e2.message);
    case Reqwest(d) => CancelPrefix("HTTP request failed: ", d, e2.detail);
    case Serde(d) => CancelPrefix("Failed to parse JSON response: ", d, e2.detail);
    case Io(d) => CancelPrefix("IO Error: ", d, e2.debug);
    case HeaderValue =>
  }

  // ---------------------------------------------------------------------
  // Decoding the response body

  /** A JSON object, reduced to the fields either response shape reads. */
  datatype JsonObject = JsonObject(
    status: Option<string>,
    totalResults: Option<int>,
    articles: Option<seq<Article>>,
    code: Option<string>,
    message: Option<string>)

  /** One element of a JSON array, reduced to what the response fields accept. */
  datatype JsonValue = JString(s: string) | JInteger(n: int) | JArticles(articles: seq<Article>) | JOther

  /**
   * A response body: a JSON object, a JSON array (serde's derived structs
   * also accept their fields as an array, in declaration order), or
   * anything else (a string, a number, `null`, or text that is not JSON).
   */
  datatype Body = Object(obj: JsonObject) | Array(items: seq<JsonValue>) | OtherBody

  /** The body has every field `NewsAPISuccess` needs (`articles` has no default). */
  predicate HasSuccessShape(o: JsonObject) {
    o.status.Some? && o.totalResults.Some? && -0x8000_0000 <= o.totalResults.value < 0x8000_0000
    && o.articles.Some?
  }

  /** The body has every field `NewsAPIFail` needs. */
  predicate HasFailShape(o: JsonObject) {
    o.status.Some? && o.code.Some? && o.message.Some?
  }

  /** Serde's untagged decoding: the first variant whose fields are all there wins; unknown fields are ignored. */
  function DecodeResponse(o: JsonObject): (r: Option<NewsApiResponse>)
    ensures r.Some? && r.value.Success? ==>
      o.status == Some(r.value.success.status) && o.totalResults == Some(r.value.success.totalResults as int)
      && o.articles == Some(r.value.success.articles)
    ensures r.Some? && r.value.Fail? ==>
      !HasSuccessShape(o)
      && o.status == Some(r.value.fail.status) && o.code == Some(r.value.fail.code)
      && o.message == Some(r.value.fail.message)
    ensures r.None? <==> !HasSuccessShape(o) && !HasFailShape(o)
  {
    if HasSuccessShape(o) then
      Some(Success(NewsApiSuccess(o.status.value, o.totalResults.value as i32, o.articles.value)))
    else if HasFailShape(o) then
      Some(Fail(NewsApiFail(o.status.value, o.code.value, o.message.value)))
    else
      None
  }

  /** A body carrying the fields of a success decodes as `Success`, whatever failure fields it also carries. */
  lemma SuccessTriedFirst(o: JsonObject)
    requires HasSuccessShape(o)
    ensures DecodeResponse(o).Some? && DecodeResponse(o).value.Success?
  {
  }

  /** A body with `status`, `code` and `message` but no `articles` decodes as `Fail`. */
  lemma FailWithoutArticles(o: JsonObject)
    requires HasFailShape(o) && o.articles.None?
    ensures DecodeResponse(o) == Some(Fail(NewsApiFail(o.status.value, o.code.value, o.message.value)))
  {
  }

  /** An array holding `NewsAPISuccess`'s three fields in order, with an `i32` count. */
  predicate HasPositionalSuccessShape(items: seq<JsonValue>) {
    |items| == 3 && items[0].JString? && items[1].JInteger?
    && -0x8000_0000 <= items[1].n < 0x8000_0000 && items[2].JArticles?
  }

  /** An array holding `NewsAPIFail`'s three string fields in order. */
  predicate HasPositionalFailShape(items: seq<JsonValue>) {
    |items| == 3 && items[0].JString? && items[1].JString? && items[2].JString?
  }

  /**
   * Untagged decoding of an array body: each variant reads its fields by
   * position and rejects an array of any other length; `Success` is tried first.
   */
  function DecodePositional(items: seq<JsonValue>): (r: Option<NewsApiResponse>)
    ensures r.Some? && r.value.Success? ==>
      items == [JString(r.value.success.status), JInteger(r.value.success.totalResults as int),
                JArticles(r.value.success.articles)]
    ensures r.Some? && r.value.Fail? ==>
      items == [JString(r.value.fail.status), JString(r.value.fail.code), JString(r.value.fail.message)]
    ensures r.None? <==> !HasPositionalSuccessShape(items) && !HasPositionalFailShape(items)
  {
    if HasPositionalSuccessShape(items) then
      Some(Success(NewsApiSuccess(items[0].s, items[1].n as i32, items[2].articles)))
    else if HasPositionalFailShape(items) then
      Some(Fail(NewsApiFail(items[0].s, items[1].s, items[2].s)))
    else
      None
  }

  /** How the service writes each response. */
  function EncodeResponse(r: NewsApiResponse): JsonObject {
    match r
    case Success(s) => JsonObject(Some(s.status), Some(s.totalResults as int), Some(s.articles), None, None)
    case Fail(f) => JsonObject(Some(f.status), None, None, Some(f.code), Some(f.message))
  }

  /** Decoding gives back every response the service can send. */
  lemma DecodeEncode(r: NewsApiResponse)
    ensures DecodeResponse(EncodeResponse(r)) == Some(r)
  {
  }

  /** The `Into<Result<..>>` conversion: a failure keeps its code and message and loses its status. */
  function IntoResult(resp: NewsApiResponse): (r: Result<NewsApiSuccess, NewsApiError>)
    ensures resp.Success? <==> r.Ok?
    ensures resp.Success? ==> r.value == resp.success
    ensures resp.Fail? ==> r.error.Api? && r.error.code == resp.fail.code && r.error.message == resp.fail.message
  {
    match resp
    case Success(v) => Ok(v)
    case Fail(e) => Err(Api(e.code, e.message))
  }

  /** Two failures convert to the same error exactly when they agree on code and message. */
  lemma IntoResultDropsOnlyStatus(f1: NewsApiFail, f2: NewsApiFail)
    ensures IntoResult(Fail(f1)) == IntoResult(Fail(f2)) <==> f1.code == f2.code && f1.message == f2.message
  {
  }

  // ---------------------------------------------------------------------
  // Requests

  /** A GET request: its URL and its query parameters in order. */
  datatype Request = Request(url: string, query: seq<(string, string)>)

  const TOP_HEADLINES_URL: string := "https://newsapi.org/v2/top-headlines"

  /** The first value given for `key` in a query string. */
  function QueryParam(params: seq<(string, string)>, key: string): Option<string> {
    if params == [] then None
    else if params[0].0 == key then Some(params[0].1)
    else QueryParam(params[1..], key)
  }

  /** `fetch_top`: the top headlines of the `general` category. */
  function FetchTopRequest(): (r: Request)
    ensures r.url == TOP_HEADLINES_URL && |r.query| == 1
    ensures QueryParam(r.query, "category") == Some("general") && QueryParam(r.query, "q") == None
  {
    Request(TOP_HEADLINES_URL, [("category", "general")])
  }

  /** `search`: the same endpoint, filtered by the query text alone (no category). */
  function SearchRequest(q: string): (r: Request)
    ensures r.url == TOP_HEADLINES_URL && |r.query| == 1
    ensures QueryParam(r.query, "q") == Some(q) && QueryParam(r.query, "category") == None
  {
    var params := [("q", q)];
    assert params[0].0 != "category" by { assert "q"[0] != "category"[0]; }
    assert QueryParam(params, "category") == QueryParam(params[1..], "category");
    assert params[1..] == [];
    Request(TOP_HEADLINES_URL, params)
  }

  /** The two requests differ, and a search request determines its query. */
  lemma RequestsDistinct(q1: string, q2: string)
    ensures SearchRequest(q1) != FetchTopRequest()
    ensures SearchRequest(q1) == SearchRequest(q2) <==> q1 == q2
  {
  }

  // ---------------------------------------------------------------------
  // Sending a request

  /** What the network did with a request. */
  datatype HttpOutcome = SendFailed(detail: string) | Received(body: Body)

  /** What reqwest's error displays when the body cannot be decoded into the expected type. */
  const DECODE_BODY_ERROR: string := "error decoding response body"

  /**
   * `send().await?.json::<NewsAPIResponse>().await?.into()`: a failure to send
   * and a body that does not decode are both reqwest errors; a decoded body is
   * converted with `IntoResult`. The HTTP status is not inspected.
   */
  function Interpret(outcome: HttpOutcome): (r: Result<NewsApiSuccess, NewsApiError>)
    ensures outcome.SendFailed? ==> r == Err(Reqwest(outcome.detail))
    ensures outcome.Received? && outcome.body.OtherBody? ==> r == Err(Reqwest(DECODE_BODY_ERROR))
    ensures outcome.Received? && outcome.body.Object? ==>
      var o := outcome.body.obj;
      && (r.Ok? <==> HasSuccessShape(o))
      && (r.Ok? ==>
            o.status == Some(r.value.status) && o.totalResults == Some(r.value.totalResults as int)
            && o.articles == Some(r.value.articles))
      && (r.Err? && r.error.Api? <==> !HasSuccessShape(o) && HasFailShape(o))
      && (r.Err? && r.error.Api? ==> o.code == Some(r.error.code) && o.message == Some(r.error.message))
      && (r.Err? && !r.error.Api? ==> r.error == Reqwest(DECODE_BODY_ERROR))
    ensures outcome.Received? && outcome.body.Array? ==>
      var items := outcome.body.items;
      && (r.Ok? <==> HasPositionalSuccessShape(items))
      && (r.Ok? ==>
            items == [JString(r.value.status), JInteger(r.value.totalResults as int), JArticles(r.value.articles)])
      && (r.Err? && r.error.Api? <==> HasPositionalFailShape(items))
      && (r.Err? && r.error.Api? ==> items[1] == JString(r.error.code) && items[2] == JString(r.error.message))
      && (r.Err? && !r.error.Api? ==> r.error == Reqwest(DECODE_BODY_ERROR))
  {
    match outcome
    case SendFailed(d) => Err(Reqwest(d))
    case Received(OtherBody) => Err(Reqwest(DECODE_BODY_ERROR))
    case Received(Object(o)) =>
      (match DecodeResponse(o)
       case None => Err(Reqwest(DECODE_BODY_ERROR))
       case Some(resp) => IntoResult(resp))
    case Received(Array(items)) =>
      match DecodePositional(items)
      case None => Err(Reqwest(DECODE_BODY_ERROR))
      case Some(resp) => IntoResult(resp)
  }

  /** An array body with a success's three fields is a success, e.g. `["ok", 3, []]`. */
  lemma PositionalSuccessAccepted()
    ensures Interpret(Received(Array([JString("ok"), JInteger(3), JArticles([])]))) == Ok(NewsApiSuccess("ok", 3, []))
  {
  }

  /** A response written by the service comes back from `Interpret` as its converted result. */
  lemma InterpretEncoded(resp: NewsApiResponse)
    ensures Interpret(Received(Object(EncodeResponse(resp)))) == IntoResult(resp)
  {
  }
}
