/**
 * The HTTP boundary of the client: the request record handed to the transport, the response
 * it gives back, how `_request` assembles a request, and how it turns a response into a
 * result or a `Buzzdata.Error`.
 */
module Http {
  import opened Wrappers
  import opened Dicts
  import opened Values
  import Strings

  datatype Verb = GET | POST | DELETE

  /** A file object handed to the client; only its identity matters to the model. */
  datatype FileHandle = FileHandle(id: nat)

  /** One multipart file part, the pair `(file_name, file)`. */
  datatype FilePart = FilePart(fileName: string, file: FileHandle)

  /**
   * One call of `requests.get`, `requests.post` or `requests.delete`: the URL and the
   * `params`, `data` and `files` arguments, each of the last two present only when passed.
   */
  datatype HttpRequest = HttpRequest(
    verb: Verb,
    url: string,
    params: Dict<Option<string>>,
    data: Option<Dict<Json>>,
    files: Option<Dict<FilePart>>)

  /** What the transport returns: `status_code`, `json` (None when the body is not JSON) and `text`. */
  datatype Response = Response(status: int, json: Option<Json>, text: string)

  /** The server and the network: the response to a request, given every request issued before it. */
  type Transport = (seq<HttpRequest>, HttpRequest) -> Response

  const ApiKeyParam := "api_key"
  const ErrorPrefix := "Buzzdata API Error: "

  /**
   * `Buzzdata.Error(response)`: the code is the status; the message is `json['message']` when the
   * decoded body is truthy and the body's text otherwise. Reading `json['message']` from a truthy
   * body that is not a dict holding `message` raises, and that exception replaces the error.
   */
  function NewError(resp: Response): (e: Failure)
    ensures e.ApiError? ==> e.code == resp.status
    ensures e.ApiError? && e.message.TextMessage? <==> !Truthy(resp.json)
    ensures e.ApiError? && e.message.TextMessage? ==> e.message.text == resp.text
    ensures e.ApiError? && e.message.BodyMessage? ==>
      Subscript(resp.json, "message") == Success(e.message.value)
    ensures !e.ApiError? <==> Truthy(resp.json) && Subscript(resp.json, "message").Failure?
    ensures !e.ApiError? ==> Subscript(resp.json, "message") == Failure(e)
  {
    if Truthy(resp.json) then
      match Subscript(resp.json, "message")
      case Success(m) => ApiError(resp.status, BodyMessage(m))
      case Failure(e) => e
    else
      ApiError(resp.status, TextMessage(resp.text))
  }

  function MessageText(m: Message): string {
    match m
    case BodyMessage(v) => Display(v)
    case TextMessage(t) => t
  }

  /** `str(error)`: the fixed prefix, the message's text, then the code in parentheses. */
  function ErrorText(code: int, message: Message): (s: string)
    ensures var m := MessageText(message); var n := |ErrorPrefix| + |m|;
      |s| >= n + 3 &&
      s[..|ErrorPrefix|] == ErrorPrefix && s[|ErrorPrefix|..n] == m &&
      s[n..n + 2] == " (" && s[|s| - 1] == ')' &&
      s[n + 2..|s| - 1] == Strings.IntToString(code)
  {
    var m, c := MessageText(message), Strings.IntToString(code);
    var head := ErrorPrefix + m + " (";
    var s := head + c + ")";
    assert s[..|ErrorPrefix|] == ErrorPrefix && s[|ErrorPrefix|..|ErrorPrefix| + |m|] == m;
    assert s[|ErrorPrefix| + |m|..|head|] == " (";
    assert s[|head|..|s| - 1] == c;
    s
  }

  /** The code can be read back from an error's text: what stands between " (" and the final ")" parses to it. */
  lemma ErrorTextCode(code: int, message: Message)
    ensures var s := ErrorText(code, message); var n := |ErrorPrefix| + |MessageText(message)|;
      |s| >= n + 3 && s[n + 2..|s| - 1] == Strings.IntToString(code) &&
      Strings.ParseInt(s[n + 2..|s| - 1]) == code
  {
    Strings.IntToStringRoundTrip(code);
  }

  /**
   * The status rule of `_request`: a status above 400 raises `Buzzdata.Error`; any other
   * status, 400 included, yields the decoded body unchanged.
   */
  function Handle(resp: Response): (r: Result<Option<Json>, Failure>)
    ensures r.Failure? <==> resp.status > 400
    ensures r.Success? ==> r.value == resp.json
    ensures r.Failure? ==> r.error == NewError(resp)
  {
    if resp.status > 400 then Failure(NewError(resp)) else Success(resp.json)
  }

  /** `reply[key]` on the outcome of `_get`, `_post` or `_delete`: an exception passes through. */
  function Field(reply: Result<Option<Json>, Failure>, key: string): (r: Result<Json, Failure>)
    ensures reply.Failure? ==> r == Failure(reply.error)
    ensures reply.Success? ==> r == Subscript(reply.value, key)
  {
    var body :- reply;
    Subscript(body, key)
  }

  /**
   * The request `_request` issues: the URL is the base URL,
   * a slash and the path; the query is the caller's params with `api_key` set to the client's key,
   * overriding a caller's `api_key`; `data` and `files` go along exactly when given.
   */
  function BuildRequest(verb: Verb, baseUrl: string, apiKey: Option<string>, path: string,
                        params: Dict<Option<string>>, data: Option<Dict<Json>>,
                        files: Option<Dict<FilePart>>): (r: HttpRequest)
    ensures r.verb == verb && r.url == baseUrl + "/" + path
    ensures Lookup(r.params, ApiKeyParam) == Some(apiKey)
    ensures forall k :: k != ApiKeyParam ==> Lookup(r.params, k) == Lookup(params, k)
    ensures Keys(r.params) == Keys(params) + {ApiKeyParam}
    ensures r.data == data && r.files == files
  {
    PutLookup(params, ApiKeyParam, apiKey);
    HttpRequest(verb, baseUrl + "/" + path, Put(params, ApiKeyParam, apiKey), data, files)
  }

  /** The request of `_get` and `_delete`: the URL and key as for any request, and no form data and no files. */
  function QueryRequest(verb: Verb, baseUrl: string, apiKey: Option<string>, path: string,
                        params: Dict<Option<string>>): (r: HttpRequest)
    requires verb != POST
    ensures r.verb == verb && r.url == baseUrl + "/" + path
    ensures r.data == None && r.files == None
    ensures Lookup(r.params, ApiKeyParam) == Some(apiKey)
    ensures forall k :: k != ApiKeyParam ==> Lookup(r.params, k) == Lookup(params, k)
  {
    BuildRequest(verb, baseUrl, apiKey, path, params, None, None)
  }

  /** The request of `_post`: a form dict always goes along, possibly empty, and the only query parameter is `api_key`. */
  function PostRequest(baseUrl: string, apiKey: Option<string>, path: string,
                       data: Dict<Json>, files: Option<Dict<FilePart>>): (r: HttpRequest)
    ensures r.verb == POST && r.url == baseUrl + "/" + path
    ensures r.params == [(ApiKeyParam, apiKey)]
    ensures r.data == Some(data) && r.files == files
  {
    BuildRequest(POST, baseUrl, apiKey, path, [], Some(data), files)
  }
}
