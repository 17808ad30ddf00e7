/*
 * The POST handler of app/api/generate/route.ts: validate the prompt, check
 * the provider key, build the provider payload with defaults, call the
 * provider, and translate its answer. The request body (as request.json()
 * produced it), the environment, the provider's answer and Date.now() are
 * inputs, so the handler is a function of them.
 */
module GenerateRoute {
  import opened Js

  const PromptRequired := "提示词不能为空"
  const KeyNotConfigured := "API密钥未配置，请在.env.local中设置"
  const KeyPlaceholder := "your-sora-api-key-here"
  const DefaultEndpoint := "https://yunwu.ai"
  const CreatePath := "/v1/video/create"
  const Model := "sora-2"
  const DefaultFailure := "视频生成失败"
  const StartedMessage := "视频生成已开始"
  const ServerErrorPrefix := "服务器错误: "

  /** The JSON body sent to the provider's create endpoint. */
  datatype Payload = Payload(
    prompt: string,
    model: string,
    orientation: Value,
    size: Value,
    duration: Value,
    watermark: bool,
    isPrivate: bool,
    images: seq<Value>)

  /** The one provider call the handler makes. */
  datatype ProviderRequest = ProviderRequest(url: string, authorization: string, payload: Payload)

  /** What fetch resolved to: the HTTP status and the body text. */
  datatype ProviderReply = ProviderReply(status: int, text: string)

  /** The handler's answer: the success JSON, or an `{ error }` JSON with a status code. */
  datatype ApiResponse =
    | Accepted(taskId: Value, taskStatus: Value)
    | Rejected(status: int, error: string)

  /** How far the handler gets before the provider call. */
  datatype Stage = Answer(response: ApiResponse) | Call(request: ProviderRequest)

  /** One run of the handler: the provider call it made, if any, and its answer. */
  datatype Exchange = Exchange(call: Option<ProviderRequest>, response: ApiResponse)

  /** `Response.ok` */
  predicate IsOk(status: int) {
    200 <= status <= 299
  }

  /** `process.env[name]` */
  function EnvVar(env: map<string, string>, name: string): Value {
    if name in env then Str(env[name]) else Undefined
  }

  /** The catch block: any thrown value becomes a 500 with a prefixed message. */
  function ServerError(t: Thrown): (r: ApiResponse)
    ensures r.Rejected? && r.status == 500
    ensures |r.error| >= |ServerErrorPrefix| && r.error[..|ServerErrorPrefix|] == ServerErrorPrefix
    ensures t.ErrorObject? ==> r.error[|ServerErrorPrefix|..] == t.message
    ensures t.NonError? ==> r.error[|ServerErrorPrefix|..] == "Unknown error"
  {
    Rejected(500, ServerErrorPrefix + Message(t, "Unknown error"))
  }

  /** A prompt the handler refuses with 400: falsy, or a string that trims to "". */
  predicate PromptRefused(prompt: Value) {
    !Truthy(prompt) || (prompt.Str? && IsBlank(prompt.s))
  }

  /** A key the handler accepts: set, non-empty and not the template placeholder. */
  predicate KeyConfigured(key: Value) {
    Truthy(key) && key != Str(KeyPlaceholder)
  }

  /** `settings?.<name> || fallback` */
  function Setting(settings: Value, name: string, fallback: Value): (r: Value)
    requires Truthy(fallback)
    ensures Truthy(r)
    ensures Truthy(OptGet(settings, name)) ==> r == OptGet(settings, name)
    ensures !Truthy(OptGet(settings, name)) ==> r == fallback
  {
    Or(OptGet(settings, name), fallback)
  }

  /** The provider payload: fixed model, watermark, visibility and images;
      orientation, size and duration from the settings when truthy. */
  function BuildPayload(prompt: string, settings: Value): (p: Payload)
    ensures p.prompt == prompt
    ensures p.model == Model && !p.watermark && !p.isPrivate && p.images == []
    ensures Truthy(p.orientation) && Truthy(p.size) && Truthy(p.duration)
    ensures !Truthy(OptGet(settings, "orientation")) ==> p.orientation == Str("landscape")
    ensures !Truthy(OptGet(settings, "size")) ==> p.size == Str("large")
    ensures !Truthy(OptGet(settings, "duration")) ==> p.duration == Num(10)
    ensures Truthy(OptGet(settings, "orientation")) ==> p.orientation == OptGet(settings, "orientation")
    ensures Truthy(OptGet(settings, "size")) ==> p.size == OptGet(settings, "size")
    ensures Truthy(OptGet(settings, "duration")) ==> p.duration == OptGet(settings, "duration")
  {
    Payload(
      prompt, Model,
      Setting(settings, "orientation", Str("landscape")),
      Setting(settings, "size", Str("large")),
      Setting(settings, "duration", Num(10)),
      false, false, [])
  }

  /** Everything up to the provider call: destructure the body, validate the
      prompt, read the key and the endpoint, build the request. */
  function Prepare(body: Result<Value>, env: map<string, string>, js: Engine): (r: Stage)
    // a request body that does not parse, or parses to null, ends in the catch block
    ensures body.Throw? ==> r == Answer(ServerError(body.thrown))
    ensures body.Ok? && Nullish(body.value) ==> r.Answer? && r.response.Rejected? && r.response.status == 500
    // a missing, falsy or blank prompt is a 400 and no call
    ensures body.Ok? && !Nullish(body.value) && PromptRefused(OptGet(body.value, "prompt"))
      ==> r == Answer(Rejected(400, PromptRequired))
    // a prompt that is truthy but not a string has no trim(): a TypeError, so a 500
    ensures body.Ok? && Truthy(OptGet(body.value, "prompt")) && !OptGet(body.value, "prompt").Str?
      ==> r.Answer? && r.response.Rejected? && r.response.status == 500
    // a valid prompt with a missing or placeholder key is a 500 and no call
    ensures body.Ok? && !Nullish(body.value) && OptGet(body.value, "prompt").Str?
      && !PromptRefused(OptGet(body.value, "prompt")) && !KeyConfigured(EnvVar(env, "SORA_API_KEY"))
      ==> r == Answer(Rejected(500, KeyNotConfigured))
    // the call happens exactly when the prompt is a non-blank string and the key is configured
    ensures r.Call? <==>
      body.Ok? && !Nullish(body.value) && OptGet(body.value, "prompt").Str?
      && !PromptRefused(OptGet(body.value, "prompt")) && KeyConfigured(EnvVar(env, "SORA_API_KEY"))
    ensures r.Call? ==>
      && r.request.payload == BuildPayload(OptGet(body.value, "prompt").s, OptGet(body.value, "settings"))
      && r.request.authorization == "Bearer " + EnvVar(env, "SORA_API_KEY").s
      && r.request.url == Or(EnvVar(env, "SORA_API_ENDPOINT"), Str(DefaultEndpoint)).s + CreatePath
  {
    match body
    case Throw(t) => Answer(ServerError(t))
    case Ok(b) =>
      if Nullish(b) then
        // `const { prompt, settings } = body` on null
        Answer(ServerError(ErrorObject(js.typeErrorMessage("prompt"))))
      else
        var prompt := OptGet(b, "prompt");
        var settings := OptGet(b, "settings");
        if !Truthy(prompt) then Answer(Rejected(400, PromptRequired))
        else if !prompt.Str? then Answer(ServerError(ErrorObject(js.typeErrorMessage("trim"))))
        else if IsBlank(prompt.s) then Answer(Rejected(400, PromptRequired))
        else
          var key := EnvVar(env, "SORA_API_KEY");
          var endpoint := Or(EnvVar(env, "SORA_API_ENDPOINT"), Str(DefaultEndpoint));
          if !KeyConfigured(key) then Answer(Rejected(500, KeyNotConfigured))
          else Call(ProviderRequest(endpoint.s + CreatePath, "Bearer " + key.s, BuildPayload(prompt.s, settings)))
  }

  /** The message reported for a provider error body: a string `message`,
      else a string `error`, else the stringified first truthy of
      `message`, `error` and the default. Reading from null throws. */
  function ProviderMessage(errorData: Value, js: Engine): (r: Result<string>)
    ensures r.Throw? <==> Nullish(errorData)
    ensures r.Ok? && OptGet(errorData, "message").Str? ==> r.value == OptGet(errorData, "message").s
    ensures r.Ok? && !OptGet(errorData, "message").Str? && OptGet(errorData, "error").Str?
      ==> r.value == OptGet(errorData, "error").s
    ensures r.Ok? && !OptGet(errorData, "message").Str? && !OptGet(errorData, "error").Str?
      ==> r.value == js.stringify(
            if Truthy(OptGet(errorData, "message")) then OptGet(errorData, "message")
            else if Truthy(OptGet(errorData, "error")) then OptGet(errorData, "error")
            else Str(DefaultFailure))
  {
    if Nullish(errorData) then Throw(ErrorObject(js.typeErrorMessage("message")))
    else
      var message := OptGet(errorData, "message");
      var error := OptGet(errorData, "error");
      if message.Str? then Ok(message.s)
      else if error.Str? then Ok(error.s)
      else Ok(js.stringify(Or(message, Or(error, Str(DefaultFailure)))))
  }

  /** The body of a non-ok reply as parsed: its JSON, or `{ message: text }` when it is not JSON. */
  function ErrorData(text: string, js: Engine): Value {
    match js.parse(text)
    case Ok(v) => v
    case Throw(_) => Obj(map["message" := Str(text)])
  }

  /** `Date.now().toString()`: the decimal digits of a non-negative integer. */
  function Decimal(n: nat): (r: string)
    ensures |r| >= 1
    ensures forall i :: 0 <= i < |r| ==> '0' <= r[i] <= '9'
    ensures r[0] == '0' ==> n == 0
  {
    var digit := "0123456789"[n % 10];
    if n < 10 then [digit] else Decimal(n / 10) + [digit]
  }

  /** The number a string of decimal digits denotes. */
  function DigitsValue(s: string): nat
    requires forall i :: 0 <= i < |s| ==> '0' <= s[i] <= '9'
  {
    if s == [] then 0 else DigitsValue(s[..|s| - 1]) * 10 + (s[|s| - 1] as int - '0' as int)
  }

  /** Reading the timestamp fallback back as a number gives the clock reading. */
  lemma {:induction false} DecimalRoundTrip(n: nat)
    ensures DigitsValue(Decimal(n)) == n
  {
    var r := Decimal(n);
    var digit := "0123456789"[n % 10];
    assert digit as int - '0' as int == n % 10;
    if n >= 10 {
      DecimalRoundTrip(n / 10);
      assert r[..|r| - 1] == Decimal(n / 10);
    }
  }

  /** The success body: the task id is `id`, else `task_id`, else the
      timestamp; the status is the provider's, else "processing". */
  function Started(data: Value, now: nat): (r: ApiResponse)
    ensures r.Accepted?
    ensures Truthy(r.taskId) && Truthy(r.taskStatus)
    ensures Truthy(OptGet(data, "id")) ==> r.taskId == OptGet(data, "id")
    ensures !Truthy(OptGet(data, "id")) && Truthy(OptGet(data, "task_id")) ==> r.taskId == OptGet(data, "task_id")
    ensures !Truthy(OptGet(data, "id")) && !Truthy(OptGet(data, "task_id")) ==> r.taskId == Str(Decimal(now))
    ensures Truthy(OptGet(data, "status")) ==> r.taskStatus == OptGet(data, "status")
    ensures !Truthy(OptGet(data, "status")) ==> r.taskStatus == Str("processing")
  {
    var fallback := Decimal(now);
    assert fallback[0] in fallback;
    Accepted(
      Or(OptGet(data, "id"), Or(OptGet(data, "task_id"), Str(fallback))),
      Or(OptGet(data, "status"), Str("processing")))
  }

  /** Everything after the provider call. */
  function Finish(reply: Result<ProviderReply>, js: Engine, now: nat): (r: ApiResponse)
    // a rejected fetch ends in the catch block
    ensures reply.Throw? ==> r == ServerError(reply.thrown)
    // a non-ok reply: its status is mirrored and its message chosen from its body
    ensures reply.Ok? && !IsOk(reply.value.status) && !Nullish(ErrorData(reply.value.text, js))
      ==> r.Rejected? && r.status == reply.value.status
          && Ok(r.error) == ProviderMessage(ErrorData(reply.value.text, js), js)
    // an error body that is JSON null has no message to read: a TypeError, so a 500
    ensures reply.Ok? && !IsOk(reply.value.status) && Nullish(ErrorData(reply.value.text, js))
      ==> r.Rejected? && r.status == 500
    // an error body that is not JSON is reported verbatim
    ensures reply.Ok? && !IsOk(reply.value.status) && js.parse(reply.value.text).Throw?
      ==> r == Rejected(reply.value.status, reply.value.text)
    // an ok reply whose body is a non-null JSON value is a success
    ensures r.Accepted? <==>
      reply.Ok? && IsOk(reply.value.status) && js.parse(reply.value.text).Ok?
      && !Nullish(js.parse(reply.value.text).value)
    ensures r.Accepted? ==> r == Started(js.parse(reply.value.text).value, now)
    ensures r.Rejected? && reply.Ok? && IsOk(reply.value.status) ==> r.status == 500
  {
    match reply
    case Throw(t) => ServerError(t)
    case Ok(ProviderReply(status, text)) =>
      if !IsOk(status) then
        match ProviderMessage(ErrorData(text, js), js)
        case Ok(message) => Rejected(status, message)
        case Throw(t) => ServerError(t)
      else
        match js.parse(text)
        case Throw(t) => ServerError(t)
        case Ok(data) =>
          if Nullish(data) then ServerError(ErrorObject(js.typeErrorMessage("id")))
          else Started(data, now)
  }

  /** The whole handler. The provider's reply is only consulted when the call is made. */
  function Post(body: Result<Value>, env: map<string, string>, reply: Result<ProviderReply>, js: Engine, now: nat)
    : (r: Exchange)
    ensures r.call.None? <==> Prepare(body, env, js).Answer?
    ensures r.call.None? ==> r.response == Prepare(body, env, js).response
    ensures r.call.Some? ==> r.call.value == Prepare(body, env, js).request && r.response == Finish(reply, js, now)
    ensures r.response.Accepted? ==> r.call.Some? && Truthy(r.response.taskId)
    // every refusal carries a status that is not ok
    ensures r.response.Rejected? ==> !IsOk(r.response.status)
  {
    match Prepare(body, env, js)
    case Answer(a) => Exchange(None, a)
    case Call(request) => Exchange(Some(request), Finish(reply, js, now))
  }

  /** What NextResponse.json sends: the status code and the JSON body. */
  datatype HttpResponse = HttpResponse(status: int, body: Value)

  function Render(r: ApiResponse): HttpResponse {
    match r
    case Accepted(taskId, taskStatus) =>
      HttpResponse(200, Obj(map["success" := Bool(true), "taskId" := taskId, "status" := taskStatus,
                                "message" := Str(StartedMessage)]))
    case Rejected(status, error) => HttpResponse(status, Obj(map["error" := Str(error)]))
  }
}
