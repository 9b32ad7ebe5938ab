/** `src/services/api.js`: the HTTP wrapper that turns failed responses into
    `ApiError`, and the authentication and category services built on it.
    The network is an input: each call receives the outcome of its request. */
module Api {
  import opened Wrappers
  import opened Text
  import opened Config
  import Helpers

  // ------------------------------------------------------------- JSON values

  /** A parsed JSON value. Numbers are whole numbers here. */
  datatype Json =
    | JNull
    | JBool(b: bool)
    | JNum(n: int)
    | JStr(s: string)
    | JArr(items: seq<Json>)
    | JObj(fields: map<string, Json>)

  /** JavaScript truthiness of a JSON value (arrays and objects are truthy). */
  predicate Truthy(j: Json)
  {
    match j
    case JNull => false
    case JBool(b) => b
    case JNum(n) => n != 0
    case JStr(s) => s != ""
    case _ => true
  }

  /** `value.key` on a non-null value: only objects have the keys the services
      read; on anything else the property is `undefined`. */
  function Field(j: Json, key: string): Option<Json>
  {
    if j.JObj? && key in j.fields then Some(j.fields[key]) else None
  }

  /** `value.key` used where a truthy property is expected. */
  predicate TruthyField(j: Json, key: string)
  {
    Field(j, key).Some? && Truthy(Field(j, key).value)
  }

  /** A string property that is truthy (present, a string, non-empty). */
  function StringField(j: Json, key: string): (r: Option<string>)
    ensures r.Some? ==> r.value != "" && Field(j, key) == Some(JStr(r.value))
  {
    match Field(j, key)
    case Some(JStr(s)) => if s != "" then Some(s) else None
    case _ => None
  }

  // ------------------------------------------------------- requests, errors

  /** `new ApiError(message, status, code)`. */
  datatype ApiError = ApiError(message: string, status: int, code: Option<string>)

  /** What a service call can throw: an `ApiError`, or another JavaScript
      error (a `SyntaxError` from `response.json()`, a `TypeError` from reading
      a property of `null`). */
  datatype Thrown = ApiErr(apiError: ApiError) | OtherErr(message: string)
  {
    function Message(): string
    {
      match this
      case ApiErr(e) => e.message
      case OtherErr(m) => m
    }
    /** `err.code`, `undefined` for errors that are not `ApiError`s. */
    function Code(): Option<string>
    {
      match this
      case ApiErr(e) => e.code
      case OtherErr(_) => None
    }
  }

  /** The body of a response: its text and, when that text is JSON, its value. */
  datatype Body = Body(text: string, parsed: Option<Json>)

  datatype Response = Response(status: nat, body: Body)

  /** What `fetch` produced: a response, or no response at all. */
  datatype HttpOutcome = Received(response: Response) | TransportFailure

  /** `response.ok`. */
  predicate IsOk(status: nat)
  {
    200 <= status <= 299
  }

  const NetworkError := ApiError("Erro de conexão com o servidor", 0, Some("NETWORK_ERROR"))
  /** What `response.json()` throws on a body that is not JSON (the text is the browser's). */
  const JsonSyntaxError := OtherErr("Unexpected token in JSON")
  /** What reading a property of `null` throws (the text is the browser's). */
  const NullPropertyError := OtherErr("Cannot read properties of null")

  /** `Erro <status>`. */
  function DefaultErrorMessage(status: nat): string
  {
    "Erro " + Decimal(status)
  }

  /** The `ApiError` that `makeRequest` builds for a response that is not ok:
      the JSON body's `message` and `errorCode` when the body is a JSON value
      whose properties can be read, otherwise the body text; `Erro <status>`
      when neither gives a message. */
  function ErrorFromResponse(resp: Response): (e: ApiError)
    ensures e.status == resp.status
    ensures e.message != ""
    ensures e.code.Some? ==> e.code.value != ""
    ensures resp.body.parsed.Some? && resp.body.parsed.value != JNull ==>
              e.code == StringField(resp.body.parsed.value, "errorCode") &&
              e.message == StringField(resp.body.parsed.value, "message").GetOr(DefaultErrorMessage(resp.status))
    ensures (resp.body.parsed.None? || resp.body.parsed.value == JNull) ==>
              e.code.None? &&
              e.message == (if resp.body.text != "" then resp.body.text else DefaultErrorMessage(resp.status))
  {
    var fallback := DefaultErrorMessage(resp.status);
    if resp.body.parsed.Some? && resp.body.parsed.value != JNull then
      var data := resp.body.parsed.value;
      ApiError(StringField(data, "message").GetOr(fallback), resp.status, StringField(data, "errorCode"))
    else
      ApiError(if resp.body.text != "" then resp.body.text else fallback, resp.status, None)
  }

  /** `makeRequest`, as intended: an ok response is handed back unchanged;
      any other response becomes an `ApiError` carrying its status; no
      response at all becomes the network error. */
  function MakeRequest(o: HttpOutcome): (r: Result<Response, ApiError>)
    ensures r.Success? <==> o.Received? && IsOk(o.response.status)
    ensures r.Success? ==> r.value == o.response
    ensures o.Received? && !IsOk(o.response.status) ==>
              r.Failure? && r.error.status == o.response.status && r.error.message != ""
    ensures o.TransportFailure? ==> r == Failure(NetworkError)
    ensures o.Received? && !IsOk(o.response.status) ==> r == Failure(ErrorFromResponse(o.response))
    ensures r.Failure? ==> r.error.message != "" && (r.error.code.Some? ==> r.error.code.value != "")
  {
    match o
    case TransportFailure => Failure(NetworkError)
    case Received(resp) =>
      if IsOk(resp.status) then Success(resp) else Failure(ErrorFromResponse(resp))
  }

  /** `makeRequest` as the source is written. `response.json()` consumes the
      body even when it fails to parse, so the `response.text()` in the
      fallback rejects with a `TypeError`, which the outer handler turns into
      the network error: a non-JSON error body never reaches the caller.
      A JSON `null` error body goes the same way, since reading its
      `message` throws before the same fallback. */
  function MakeRequestAsWritten(o: HttpOutcome): (r: Result<Response, ApiError>)
    ensures o.Received? && !IsOk(o.response.status) &&
            (o.response.body.parsed.None? || o.response.body.parsed == Some(JNull)) ==>
              r == Failure(NetworkError)
  {
    match o
    case TransportFailure => Failure(NetworkError)
    case Received(resp) =>
      if IsOk(resp.status) then Success(resp)
      else if resp.body.parsed.Some? && resp.body.parsed.value != JNull then Failure(ErrorFromResponse(resp))
      else Failure(NetworkError)
  }

  /** A 500 answered with a plain-text body: the code as written reports a
      connection failure with status 0; the intended wrapper reports the
      server's text with status 500. */
  lemma TextErrorBodyLostAsWritten()
    ensures var o := Received(Response(500, Body("Internal Server Error", None)));
            MakeRequestAsWritten(o) == Failure(NetworkError) &&
            MakeRequest(o) == Failure(ApiError("Internal Server Error", 500, None))
  {
  }

  /** Where the two versions agree: on every outcome except a failed response
      whose body is not a readable JSON value. */
  lemma MakeRequestAgreesAsWritten(o: HttpOutcome)
    requires o.Received? && !IsOk(o.response.status) ==>
               o.response.body.parsed.Some? && o.response.body.parsed.value != JNull
    ensures MakeRequestAsWritten(o) == MakeRequest(o)
  {
  }

  // -------------------------------------------------------------- auth

  /** `response.json()` on a response that `makeRequest` let through. */
  function ReadJson(resp: Response): (r: Result<Json, Thrown>)
    ensures r.Success? <==> resp.body.parsed.Some?
    ensures r.Success? ==> r.value == resp.body.parsed.value
  {
    match resp.body.parsed
    case Some(j) => Success(j)
    case None => Failure(JsonSyntaxError)
  }

  const NoTokenError := ApiError("Token não recebido do servidor", 200, Some("NO_TOKEN"))

  /** `authService.login`: the parsed body, which must carry a truthy
      `accessToken`; without one, an `ApiError` with status 200 and code
      `NO_TOKEN`, whatever the response's own status was. */
  function Login(o: HttpOutcome): (r: Result<Json, Thrown>)
    ensures r.Success? ==> o.Received? && IsOk(o.response.status) &&
                           o.response.body.parsed == Some(r.value) && TruthyField(r.value, "accessToken")
    ensures (o.Received? && IsOk(o.response.status) && o.response.body.parsed.Some? &&
             o.response.body.parsed.value != JNull &&
             !TruthyField(o.response.body.parsed.value, "accessToken")) ==> r == Failure(ApiErr(NoTokenError))
    ensures MakeRequest(o).Failure? ==> r == Failure(ApiErr(MakeRequest(o).error))
    ensures (o.Received? && IsOk(o.response.status) && o.response.body.parsed.Some? &&
             TruthyField(o.response.body.parsed.value, "accessToken")) ==> r == Success(o.response.body.parsed.value)
    ensures o.Received? && IsOk(o.response.status) && o.response.body.parsed.None? ==> r == Failure(JsonSyntaxError)
    ensures o.Received? && IsOk(o.response.status) && o.response.body.parsed == Some(JNull) ==>
              r == Failure(NullPropertyError)
  {
    match MakeRequest(o)
    case Failure(e) => Failure(ApiErr(e))
    case Success(resp) =>
      match ReadJson(resp)
      case Failure(t) => Failure(t)
      case Success(data) =>
        if data == JNull then Failure(NullPropertyError)
        else if !TruthyField(data, "accessToken") then Failure(ApiErr(NoTokenError))
        else Success(data)
  }

  // -------------------------------------------------------- categories

  /** The list inside `{success, data: {content: [...]}}`, if `data` has that shape. */
  function PagedContent(data: Json): Option<seq<Json>>
  {
    if TruthyField(data, "success") && TruthyField(data, "data") then
      match Field(Field(data, "data").value, "content")
      case Some(JArr(items)) => Some(items)
      case _ => None
    else None
  }

  /** The list inside `{content: [...]}`, if `data` has that shape. */
  function TopContent(data: Json): Option<seq<Json>>
  {
    match Field(data, "content")
    case Some(JArr(items)) => Some(items)
    case _ => None
  }

  /** The envelope chain of `fetchCategories`: the paged envelope first, then
      a top-level `content` array, then a bare array, else nothing. Reading
      `data.success` on a `null` body throws. */
  function UnwrapCategories(data: Json): (r: Result<seq<Json>, Thrown>)
    ensures r.Failure? <==> data == JNull
    ensures PagedContent(data).Some? ==> r == Success(PagedContent(data).value)
    ensures PagedContent(data).None? && TopContent(data).Some? ==> r == Success(TopContent(data).value)
    ensures data.JArr? ==> r == Success(data.items)
    ensures r.Success? && r.value != [] ==>
              PagedContent(data) == Some(r.value) || TopContent(data) == Some(r.value) || data == JArr(r.value)
  {
    if data == JNull then Failure(NullPropertyError)
    else if PagedContent(data).Some? then Success(PagedContent(data).value)
    else if TopContent(data).Some? then Success(TopContent(data).value)
    else if data.JArr? then Success(data.items)
    else Success([])
  }

  /** The same list in each of the three envelopes comes out the same. */
  lemma EnvelopeShapesAgree(items: seq<Json>)
    ensures UnwrapCategories(JArr(items)) == Success(items)
    ensures UnwrapCategories(JObj(map["content" := JArr(items)])) == Success(items)
    ensures UnwrapCategories(JObj(map["success" := JBool(true),
                                      "data" := JObj(map["content" := JArr(items)])])) == Success(items)
  {
    var paged := JObj(map["success" := JBool(true), "data" := JObj(map["content" := JArr(items)])]);
    assert PagedContent(paged) == Some(items);
    assert PagedContent(JObj(map["content" := JArr(items)])).None?;
  }

  /** A body of any other shape yields the empty list, not an error. */
  lemma UnknownEnvelopeIsEmpty(data: Json)
    requires data != JNull && !data.JArr?
    requires PagedContent(data).None? && TopContent(data).None?
    ensures UnwrapCategories(data) == Success([])
  {
  }

  /** `categoryService.fetchCategories`. */
  function FetchCategories(o: HttpOutcome): (r: Result<seq<Json>, Thrown>)
    ensures MakeRequest(o).Failure? ==> r == Failure(ApiErr(MakeRequest(o).error))
    ensures r.Success? ==> o.Received? && IsOk(o.response.status) && o.response.body.parsed.Some? &&
                           r == UnwrapCategories(o.response.body.parsed.value)
    ensures o.Received? && IsOk(o.response.status) && o.response.body.parsed.Some? ==>
              r == UnwrapCategories(o.response.body.parsed.value)
    ensures o.Received? && IsOk(o.response.status) && o.response.body.parsed.None? ==> r == Failure(JsonSyntaxError)
  {
    match MakeRequest(o)
    case Failure(e) => Failure(ApiErr(e))
    case Success(resp) =>
      match ReadJson(resp)
      case Failure(t) => Failure(t)
      case Success(data) => UnwrapCategories(data)
  }

  // ------------------------------------------------------- multipart forms

  /** What a multipart part carries: the JSON payload as an
      `application/json` blob, an image file, or text (`FormData.append`
      turns any other value into its string form). */
  datatype FormValue = JsonBlob(json: Json) | FileValue(file: Helpers.ImageFile) | TextValue(text: string)

  datatype FormPart = FormPart(name: string, value: FormValue)

  /** The browser's `FormData`: an ordered list of named parts. */
  class FormData {
    var entries: seq<FormPart>

    constructor ()
      ensures entries == []
    {
      entries := [];
    }

    method Append(name: string, value: FormValue)
      modifies this
      ensures entries == old(entries) + [FormPart(name, value)]
    {
      entries := entries + [FormPart(name, value)];
    }
  }

  function PartNames(parts: seq<FormPart>): (names: seq<string>)
    ensures |names| == |parts|
    ensures forall i :: 0 <= i < |parts| ==> names[i] == parts[i].name
  {
    seq(|parts|, i requires 0 <= i < |parts| => parts[i].name)
  }

  datatype HttpMethod = Get | Post | Put | Delete

  datatype Request = Request(verb: HttpMethod, url: string, authorization: string, parts: seq<FormPart>)

  function Bearer(token: string): string
  {
    "Bearer " + token
  }

  /** `categoryService.createCategory`: always both parts, `dados` then
      `imagem`; a missing file still produces an `imagem` part, holding the
      text `undefined`. A `null` payload throws when its `nome` is logged,
      before any request is built. */
  method CreateCategory(categoryData: Json, imageFile: Option<Helpers.ImageFile>, token: string,
                        o: HttpOutcome)
    returns (request: Option<Request>, result: Result<Json, Thrown>)
    ensures categoryData == JNull ==> request.None? && result == Failure(NullPropertyError)
    ensures categoryData != JNull ==> request.Some?
    ensures request.Some? ==>
              request.value.verb == Post && request.value.url == BuildApiUrl(CategoriesCreateEndpoint) &&
              request.value.authorization == Bearer(token)
    ensures request.Some? ==>
              PartNames(request.value.parts) == ["dados", "imagem"] &&
              request.value.parts[0].value == JsonBlob(categoryData) &&
              request.value.parts[1].value ==
                if imageFile.Some? then FileValue(imageFile.value) else TextValue("undefined")
    ensures request.Some? && MakeRequest(o).Failure? ==> result == Failure(ApiErr(MakeRequest(o).error))
    ensures request.Some? && MakeRequest(o).Success? ==> result == ReadJson(o.response)
  {
    if categoryData == JNull {
      return None, Failure(NullPropertyError);
    }
    var form := new FormData();
    form.Append("dados", JsonBlob(categoryData));
    form.Append("imagem", if imageFile.Some? then FileValue(imageFile.value) else TextValue("undefined"));
    request := Some(Request(Post, BuildApiUrl(CategoriesCreateEndpoint), Bearer(token), form.entries));
    match MakeRequest(o)
    case Failure(e) =>
      result := Failure(ApiErr(e));
    case Success(resp) =>
      result := ReadJson(resp);
  }

  /** `categoryService.updateCategory`: `dados` always, `imagem` only when a
      file is supplied; success is reported as `{success: true}`. A `null`
      payload throws before any request is built, as in create. */
  method UpdateCategory(categoryData: Json, imageFile: Option<Helpers.ImageFile>, token: string,
                        o: HttpOutcome)
    returns (request: Option<Request>, result: Result<bool, Thrown>)
    ensures categoryData == JNull ==> request.None? && result == Failure(NullPropertyError)
    ensures categoryData != JNull ==> request.Some?
    ensures request.Some? ==>
              request.value.verb == Put && request.value.url == BuildApiUrl(CategoriesUpdateEndpoint) &&
              request.value.authorization == Bearer(token)
    ensures request.Some? ==>
              PartNames(request.value.parts) == (if imageFile.Some? then ["dados", "imagem"] else ["dados"]) &&
              request.value.parts[0].value == JsonBlob(categoryData) &&
              (imageFile.Some? ==> request.value.parts[1].value == FileValue(imageFile.value))
    ensures request.Some? ==> (result.Success? <==> MakeRequest(o).Success?)
    ensures result.Success? ==> result.value
    ensures request.Some? && MakeRequest(o).Failure? ==> result == Failure(ApiErr(MakeRequest(o).error))
  {
    if categoryData == JNull {
      return None, Failure(NullPropertyError);
    }
    var form := new FormData();
    form.Append("dados", JsonBlob(categoryData));
    if imageFile.Some? {
      form.Append("imagem", FileValue(imageFile.value));
    }
    request := Some(Request(Put, BuildApiUrl(CategoriesUpdateEndpoint), Bearer(token), form.entries));
    match MakeRequest(o)
    case Failure(e) =>
      result := Failure(ApiErr(e));
    case Success(resp) =>
      result := Success(IsOk(resp.status));
  }

  /** The URL `categoryService.deleteCategory` calls. */
  function DeleteCategoryUrl(categoryId: string): (url: string)
    ensures StartsWith(url, ApiRoot)
    ensures url[|ApiRoot|..] == CategoriesDeleteEndpoint + "/" + categoryId
    ensures url[|ApiRoot| + |CategoriesDeleteEndpoint| + 1..] == categoryId
  {
    BuildApiUrl(CategoriesDeleteEndpoint + "/" + categoryId)
  }

  /** `categoryService.deleteCategory`: `response.ok`, which is always true
      for a response `makeRequest` let through. */
  function DeleteCategory(o: HttpOutcome): (r: Result<bool, Thrown>)
    ensures r.Success? <==> MakeRequest(o).Success?
    ensures r.Success? ==> r.value
    ensures MakeRequest(o).Failure? ==> r == Failure(ApiErr(MakeRequest(o).error))
  {
    match MakeRequest(o)
    case Failure(e) => Failure(ApiErr(e))
    case Success(resp) => Success(IsOk(resp.status))
  }

  // ------------------------------------------------------ error predicates

  const CategoryWithProductsCode := "C.ITDx0001"
  const Unauthorized := 401
  const Forbidden := 403

  /** `isCategoryWithProductsError`: only an `ApiError` can carry the code. */
  function IsCategoryWithProductsError(e: Thrown): (r: bool)
    ensures r <==> e.Code() == Some(CategoryWithProductsCode)
    ensures e.OtherErr? ==> !r
  {
    e.ApiErr? && e.apiError.code == Some(CategoryWithProductsCode)
  }

  /** `isAuthError`: an `ApiError` with status 401 or 403, so never a 2xx
      success status and never the network error. */
  function IsAuthError(e: Thrown): (r: bool)
    ensures r ==> e.ApiErr? && e.apiError.status >= 300 && e.apiError != NetworkError
    ensures e.ApiErr? && e.apiError.status == Unauthorized ==> r
    ensures e.ApiErr? && e.apiError.status == Forbidden ==> r
    ensures e.OtherErr? ==> !r
    ensures e.ApiErr? && e.apiError.status != Unauthorized && e.apiError.status != Forbidden ==> !r
  {
    e.ApiErr? && (e.apiError.status == Unauthorized || e.apiError.status == Forbidden)
  }

  /** A request fails with an authentication error exactly when the server
      answered 401 or 403. */
  lemma AuthErrorIffAuthStatus(o: HttpOutcome)
    requires MakeRequest(o).Failure?
    ensures IsAuthError(ApiErr(MakeRequest(o).error)) <==>
              o.Received? && (o.response.status == 401 || o.response.status == 403)
  {
  }

  /** As the wrapper is written, a 401 or 403 whose body is not JSON ends as
      the network error, which is not an authentication error; the intended
      wrapper reports it as one. */
  lemma AuthErrorLostAsWritten(status: nat, text: string)
    requires status == Unauthorized || status == Forbidden
    ensures var o := Received(Response(status, Body(text, None)));
            MakeRequestAsWritten(o) == Failure(NetworkError) &&
            !IsAuthError(ApiErr(MakeRequestAsWritten(o).error)) &&
            IsAuthError(ApiErr(MakeRequest(o).error))
  {
  }

  /** A failed response whose JSON body carries the category-with-products
      code is recognised, whatever its status and message. */
  lemma CategoryWithProductsRecognised(status: nat, text: string, fields: map<string, Json>)
    requires !IsOk(status)
    requires "errorCode" in fields && fields["errorCode"] == JStr(CategoryWithProductsCode)
    ensures var o := Received(Response(status, Body(text, Some(JObj(fields)))));
            MakeRequest(o).Failure? && IsCategoryWithProductsError(ApiErr(MakeRequest(o).error))
  {
  }

  /** A transport failure is neither an authentication error nor a domain
      conflict. */
  lemma NetworkErrorIsNotClassified()
    ensures !IsAuthError(ApiErr(NetworkError)) && !IsCategoryWithProductsError(ApiErr(NetworkError))
  {
  }
}
