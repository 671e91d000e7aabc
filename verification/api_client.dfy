/**
 * The frontend's API client. Each call is modelled as a total function from
 * what `fetch` produced to either a value or the message of the error the
 * call rejects with. Reading the body as JSON is part of that input: a
 * response carries either the parsed envelope or the parse error.
 */
module ApiClient {
  import opened Wrappers
  import opened JsString
  import Decimal

  datatype ModelInfo = ModelInfo(
    name: string,
    logo: string,
    pros: seq<string>,
    cons: seq<string>,
    pricePerToken: real,
    price: string,
    description: string)

  datatype ToolCategory = ToolCategory(category: string, models: seq<ModelInfo>)

  /** The payload of `/tools/:category`; `models` may be missing from what the server sent. */
  datatype CategoryTools = CategoryTools(category: string, models: Option<seq<ModelInfo>>)

  datatype GenerateRequest = GenerateRequest(
    category: string,
    model: string,
    prompt: string,
    additionalParams: Option<map<string, string>>)

  /** The envelope `{success, data?, error?}` of the read endpoints. */
  datatype ApiResponse<T> = ApiResponse(success: bool, data: Option<T>, error: Option<string>)

  /** The envelope of `/generate`; `data` is whatever the provider produced. */
  datatype GenerateResponse<D> = GenerateResponse(
    success: bool,
    data: Option<D>,
    cost: Option<real>,
    requestId: Option<string>,
    model: Option<string>,
    category: Option<string>,
    error: Option<string>)

  /** `response.json()`: the parsed body, or the parse error's message. */
  datatype Body<B> = Parsed(value: B) | Unparsable(message: Option<string>)

  datatype HttpResponse<B> = HttpResponse(status: nat, body: Body<B>) {
    /** `response.ok`: the status is in the range 200 to 299. */
    predicate Ok() {
      200 <= status <= 299
    }
  }

  /** What awaiting `fetch` yields: a response, or a rejection (network failure) with its message. */
  datatype Fetched<B> = Responded(response: HttpResponse<B>) | NetworkError(message: Option<string>)

  /** A request as `fetch` is asked to send it. */
  datatype Method = GET | POST

  datatype Request = Request(verb: Method, url: string, contentType: Option<string>, body: Option<GenerateRequest>)

  const HttpErrorPrefix := "HTTP error! status: "

  function HttpErrorMessage(status: nat): string {
    HttpErrorPrefix + Decimal.Show(status)
  }

  function NotFoundMessage(category: string): string {
    "Category \"" + category + "\" not found"
  }

  /**
   * Reads the status code back out of an HTTP error message; `None` for any
   * message that is not one.
   */
  function StatusOf(message: string): (r: Option<nat>)
    ensures r.Some? ==> HttpErrorMessage(r.value) == message
  {
    var n := |HttpErrorPrefix|;
    if n < |message| && message[..n] == HttpErrorPrefix && Decimal.AllDigits(message[n..])
       && (message[n] == '0' ==> message[n..] == "0")
    then
      var status := Decimal.Parse(message[n..]);
      ShowParse(message[n..]);
      assert message == HttpErrorPrefix + message[n..];
      Some(status)
    else
      None
  }

  /** On canonical numerals `Show` undoes `Parse`. */
  lemma {:induction false} ShowParse(s: string)
    requires s != [] && Decimal.AllDigits(s)
    requires s[0] == '0' ==> s == "0"
    ensures Decimal.Show(Decimal.Parse(s)) == s
    decreases |s|
  {
    var init := s[..|s| - 1];
    var d := Decimal.DigitValue(s[|s| - 1]);
    if init == [] {
      assert Decimal.Parse(s) == d;
    } else {
      assert init[0] == s[0];
      ShowParse(init);
      var p := Decimal.Parse(init);
      Decimal.ParseShow(p);
      assert s[0] != '0' && init != "0";
      assert Decimal.Show(0) == "0";
      assert p != 0;
      assert Decimal.Parse(s) == 10 * p + d;
      assert (10 * p + d) / 10 == p && (10 * p + d) % 10 == d;
      assert s == init + [s[|s| - 1]];
    }
  }

  /** The status of a failed read can always be recovered from the message. */
  lemma HttpErrorMessageRoundTrip(status: nat)
    ensures StatusOf(HttpErrorMessage(status)) == Some(status)
  {
    var m := HttpErrorMessage(status);
    var n := |HttpErrorPrefix|;
    assert m[..n] == HttpErrorPrefix;
    assert m[n..] == Decimal.Show(status);
    Decimal.ParseShow(status);
  }

  /** The "not found" message names the category and can never be mistaken for an HTTP error message. */
  lemma NotFoundMessageIsDistinct(category: string, status: nat)
    ensures Includes(NotFoundMessage(category), category)
    ensures Includes(NotFoundMessage(category), "not found")
    ensures NotFoundMessage(category) != HttpErrorMessage(status)
    ensures StatusOf(NotFoundMessage(category)) == None
  {
    IncludesInfix("Category \"", category, "\" not found");
    assert NotFoundMessage(category) == ("Category \"" + category + "\"") + " not found" + "";
    IncludesInfix("Category \"" + category + "\"", " not found", "");
    assert " not found" == " " + "not found" + "";
    assert NotFoundMessage(category) == ("Category \"" + category + "\" ") + "not found" + "";
    IncludesInfix("Category \"" + category + "\" ", "not found", "");
    assert NotFoundMessage(category)[0] == 'C' && HttpErrorMessage(status)[0] == 'H';
  }

  /** The `catch` block every read shares: rethrow with the caught message, or `fallback` when it has none. */
  function Rethrow<T>(r: Result<T, Option<string>>, fallback: string): (s: Result<T, string>)
    requires fallback != ""
    ensures s.Success? <==> r.Success?
    ensures s.Success? ==> s.value == r.value
    ensures s.Failure? ==> s.error != "" && (Truthy(r.error) ==> s.error == r.error.value)
    ensures r.Failure? && !Truthy(r.error) ==> s == Failure(fallback)
  {
    match r
    case Success(v) => Success(v)
    case Failure(m) => Failure(Or(m, fallback))
  }

  function ToolsRequest(base: string): Request {
    Request(GET, base + "/tools", None, None)
  }

  function CategoryRequest(base: string, encode: string -> string, category: string): Request {
    Request(GET, base + "/tools/" + encode(category), None, None)
  }

  function GenerateRequestFor(base: string, request: GenerateRequest): Request {
    Request(POST, base + "/generate", Some("application/json"), Some(request))
  }

  /** The health probe asks `/health` relative to the page, not under the API base. */
  const HealthRequest := Request(GET, "/health", None, None)

  /** The category lands in the URL only through the encoder, so an injective encoder keeps categories apart. */
  lemma CategoryRequestsDistinct(base: string, encode: string -> string, c1: string, c2: string)
    requires forall x, y :: encode(x) == encode(y) ==> x == y
    requires c1 != c2
    ensures CategoryRequest(base, encode, c1).url != CategoryRequest(base, encode, c2).url
  {
    var prefix := base + "/tools/";
    assert (prefix + encode(c1))[|prefix|..] == encode(c1);
    assert (prefix + encode(c2))[|prefix|..] == encode(c2);
  }

  /** The body of `fetchTools`' `try` block; a failure carries the thrown message. */
  function ToolsAttempt(f: Fetched<ApiResponse<seq<ToolCategory>>>): Result<seq<ToolCategory>, Option<string>> {
    match f
    case NetworkError(m) => Failure(m)
    case Responded(response) =>
      if !response.Ok() then
        Failure(Some(HttpErrorMessage(response.status)))
      else
        match response.body
        case Unparsable(m) => Failure(m)
        case Parsed(result) =>
          if !result.success then Failure(Some(Or(result.error, "Failed to fetch tools")))
          else Success(result.data.GetOr([]))
  }

  /** `fetchTools`. */
  function FetchTools(f: Fetched<ApiResponse<seq<ToolCategory>>>): (r: Result<seq<ToolCategory>, string>)
    ensures r.Failure? ==> r.error != ""
    ensures f.Responded? && !f.response.Ok() ==> r == Failure(HttpErrorMessage(f.response.status))
    ensures f.Responded? && f.response.Ok() && f.response.body.Parsed? && !f.response.body.value.success ==>
              r == Failure(Or(f.response.body.value.error, "Failed to fetch tools"))
    ensures r.Success? <==> f.Responded? && f.response.Ok() && f.response.body.Parsed? && f.response.body.value.success
    ensures r.Success? ==> r.value == f.response.body.value.data.GetOr([])
    ensures f.NetworkError? ==> r == Failure(Or(f.message, "Failed to fetch tools from server"))
    ensures f.Responded? && f.response.Ok() && f.response.body.Unparsable? ==>
              r == Failure(Or(f.response.body.message, "Failed to fetch tools from server"))
  {
    Rethrow(ToolsAttempt(f), "Failed to fetch tools from server")
  }

  /** The body of `fetchToolsByCategory`'s `try` block. */
  function CategoryAttempt(category: string, f: Fetched<ApiResponse<CategoryTools>>): Result<seq<ModelInfo>, Option<string>> {
    match f
    case NetworkError(m) => Failure(m)
    case Responded(response) =>
      if !response.Ok() then
        if response.status == 404 then Failure(Some(NotFoundMessage(category)))
        else Failure(Some(HttpErrorMessage(response.status)))
      else
        match response.body
        case Unparsable(m) => Failure(m)
        case Parsed(result) =>
          if !result.success then Failure(Some(Or(result.error, "Failed to fetch category tools")))
          else
            match result.data
            case None => Success([])
            case Some(d) => Success(d.models.GetOr([]))
  }

  /** `fetchToolsByCategory`. */
  function FetchToolsByCategory(category: string, f: Fetched<ApiResponse<CategoryTools>>): (r: Result<seq<ModelInfo>, string>)
    ensures r.Failure? ==> r.error != ""
    ensures f.Responded? && f.response.status == 404 ==> r == Failure(NotFoundMessage(category))
    ensures f.Responded? && !f.response.Ok() && f.response.status != 404 ==> r == Failure(HttpErrorMessage(f.response.status))
    ensures f.Responded? && f.response.Ok() && f.response.body.Parsed? && !f.response.body.value.success ==>
              r == Failure(Or(f.response.body.value.error, "Failed to fetch category tools"))
    ensures r.Success? <==> f.Responded? && f.response.Ok() && f.response.body.Parsed? && f.response.body.value.success
    ensures r.Success? && f.response.body.value.data.Some? ==> r.value == f.response.body.value.data.value.models.GetOr([])
    ensures r.Success? && f.response.body.value.data.None? ==> r.value == []
    ensures f.NetworkError? ==> r == Failure(Or(f.message, "Failed to fetch tools for " + category))
    ensures f.Responded? && f.response.Ok() && f.response.body.Unparsable? ==>
              r == Failure(Or(f.response.body.message, "Failed to fetch tools for " + category))
  {
    Rethrow(CategoryAttempt(category, f), "Failed to fetch tools for " + category)
  }

  /** The `error` field of a failed response's body, read leniently: a body that does not parse counts as an empty object. */
  function ErrorField<D>(body: Body<GenerateResponse<D>>): Option<string> {
    match body
    case Parsed(errorData) => errorData.error
    case Unparsable(_) => None
  }

  /** The body of `generateContent`'s `try` block. */
  function GenerateAttempt<D>(f: Fetched<GenerateResponse<D>>): Result<GenerateResponse<D>, Option<string>> {
    match f
    case NetworkError(m) => Failure(m)
    case Responded(response) =>
      if !response.Ok() then
        Failure(Some(Or(ErrorField(response.body), HttpErrorMessage(response.status))))
      else
        match response.body
        case Unparsable(m) => Failure(m)
        case Parsed(result) =>
          if !result.success then Failure(Some(Or(result.error, "Generation failed")))
          else Success(result)
  }

  /** `generateContent`. */
  function GenerateContent<D>(f: Fetched<GenerateResponse<D>>): (r: Result<GenerateResponse<D>, string>)
    ensures r.Failure? ==> r.error != ""
    ensures f.Responded? && !f.response.Ok() && f.response.body.Parsed? && Truthy(f.response.body.value.error) ==>
              r == Failure(f.response.body.value.error.value)
    ensures f.Responded? && !f.response.Ok() && !(f.response.body.Parsed? && Truthy(f.response.body.value.error)) ==>
              r == Failure(HttpErrorMessage(f.response.status))
    ensures f.Responded? && f.response.Ok() && f.response.body.Parsed? && !f.response.body.value.success ==>
              r == Failure(Or(f.response.body.value.error, "Generation failed"))
    ensures r.Success? <==> f.Responded? && f.response.Ok() && f.response.body.Parsed? && f.response.body.value.success
    ensures r.Success? ==> r.value == f.response.body.value
    ensures f.NetworkError? ==> r == Failure(Or(f.message, "Failed to generate content"))
    ensures f.Responded? && f.response.Ok() && f.response.body.Unparsable? ==>
              r == Failure(Or(f.response.body.message, "Failed to generate content"))
  {
    Rethrow(GenerateAttempt(f), "Failed to generate content")
  }

  /** `checkServerHealth`: never rejects; true exactly when the probe got an ok response. */
  function CheckServerHealth<B>(f: Fetched<B>): (healthy: bool)
    ensures healthy <==> f.Responded? && 200 <= f.response.status <= 299
  {
    match f
    case NetworkError(_) => false
    case Responded(response) => response.Ok()
  }

  /** `fetchTools` never consults the body of a failed response: only the status decides the message. */
  lemma ToolsIgnoreErrorBody(status: nat, b1: Body<ApiResponse<seq<ToolCategory>>>, b2: Body<ApiResponse<seq<ToolCategory>>>)
    requires !(200 <= status <= 299)
    ensures FetchTools(Responded(HttpResponse(status, b1))) == FetchTools(Responded(HttpResponse(status, b2)))
    ensures StatusOf(FetchTools(Responded(HttpResponse(status, b1))).error) == Some(status)
  {
    HttpErrorMessageRoundTrip(status);
  }

  /**
   * A failed `/tools` response whose envelope says `error: "boom"` rejects with
   * the status message, not with "boom": the body is never read.
   */
  lemma ToolsServerErrorExample()
    ensures FetchTools(Responded(HttpResponse(500, Parsed(ApiResponse(false, None, Some("boom"))))))
      == Failure("HTTP error! status: 500")
  {
    assert Decimal.DigitChar(5) == '5' && Decimal.DigitChar(0) == '0';
    assert Decimal.Show(500) == Decimal.Show(50) + ['0'];
    assert Decimal.Show(50) == Decimal.Show(5) + ['0'];
    assert HttpErrorMessage(500) == "HTTP error! status: 500";
  }

  /**
   * On a failed response `generateContent` rejects with the body's `error`
   * when it is a non-empty string, and otherwise with a message that names
   * the status.
   */
  lemma GenerateFailureMessage<D>(response: HttpResponse<GenerateResponse<D>>)
    requires !response.Ok()
    ensures GenerateContent(Responded(response)).Failure?
    ensures var r := GenerateContent(Responded(response));
      if response.body.Parsed? && Truthy(response.body.value.error)
      then r.error == response.body.value.error.value
      else StatusOf(r.error) == Some(response.status)
  {
    HttpErrorMessageRoundTrip(response.status);
  }

  /** `generateContent` on the same failed response prefers the server's message over the status. */
  lemma GenerateServerErrorExample()
    ensures GenerateContent<int>(Responded(HttpResponse(500, Parsed(GenerateResponse(false, None, None, None, None, None, Some("boom"))))))
      == Failure("boom")
  {
  }

  /**
   * Both calls read `ok` the same way: a status the health probe would call
   * unhealthy is one on which a `/tools` read fails with that status's message.
   * (In the program the two calls fetch different URLs.)
   */
  lemma UnhealthyMeansToolsFail(response: HttpResponse<ApiResponse<seq<ToolCategory>>>)
    requires !CheckServerHealth(Responded(response))
    ensures FetchTools(Responded(response)) == Failure(HttpErrorMessage(response.status))
  {
  }
}
