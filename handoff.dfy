/*
 * The page and the submission route together: the body handleGenerate
 * posts is what the POST handler destructures, and the JSON the handler
 * answers with is what handleGenerate reads back.
 */
module Handoff {
  import opened Js
  import GenerateRoute
  import VideoGenerator

  /** `JSON.stringify({ prompt, settings, hasImages })` as request.json() gives it back. */
  function RequestJson(q: VideoGenerator.GenerateRequest): Value {
    Obj(map[
      "prompt" := Str(q.prompt),
      "settings" := Obj(map[
        "orientation" := Str(q.settings.orientation),
        "size" := Str(q.settings.size),
        "duration" := Num(q.settings.duration)]),
      "hasImages" := Bool(q.hasImages)])
  }

  /** What `fetch` and `response.json()` make of the handler's answer on the page. */
  function Delivered(h: GenerateRoute.HttpResponse): VideoGenerator.HttpReply {
    VideoGenerator.HttpReply(GenerateRoute.IsOk(h.status), h.body)
  }

  /** A prompt the page sends is one the handler accepts, and with a
      configured key it reaches the provider with the page's settings, each
      empty string or zero duration replaced by the handler's default. */
  lemma ClientRequestIsForwarded(s: VideoGenerator.State, reply: Result<VideoGenerator.HttpReply>, now: nat, js: Engine,
                                 env: map<string, string>)
    requires VideoGenerator.SessionInvariant(s) && !s.isGenerating && !IsBlank(s.prompt)
    requires GenerateRoute.KeyConfigured(GenerateRoute.EnvVar(env, "SORA_API_KEY"))
    ensures var q := VideoGenerator.Submit(s, reply, now, js).1;
      && q.Some?
      && var stage := GenerateRoute.Prepare(Ok(RequestJson(q.value)), env, js);
      && stage.Call?
      && stage.request.payload.prompt == s.prompt
      && stage.request.payload.orientation == Str(if s.settings.orientation == "" then "landscape" else s.settings.orientation)
      && stage.request.payload.size == Str(if s.settings.size == "" then "large" else s.settings.size)
      && stage.request.payload.duration == Num(if s.settings.duration == 0 then 10 else s.settings.duration)
  {
    var q := VideoGenerator.Submit(s, reply, now, js).1.value;
    var body := RequestJson(q);
    assert OptGet(body, "prompt") == Str(s.prompt);
    assert OptGet(body, "settings") == Obj(map[
        "orientation" := Str(s.settings.orientation),
        "size" := Str(s.settings.size),
        "duration" := Num(s.settings.duration)]);
  }

  /** An accepted submission hands the page the handler's task id. */
  lemma ClientTracksRouteTaskId(r: GenerateRoute.ApiResponse, js: Engine)
    requires r.Accepted?
    ensures VideoGenerator.TaskIdOf(Ok(Delivered(GenerateRoute.Render(r))), js) == Ok(r.taskId)
  {
    assert OptGet(GenerateRoute.Render(r).body, "taskId") == r.taskId;
  }

  /** A refusal with an error status reaches the page as an Error carrying the handler's message. */
  lemma ClientShowsRouteError(r: GenerateRoute.ApiResponse, js: Engine)
    requires r.Rejected? && !GenerateRoute.IsOk(r.status)
    ensures VideoGenerator.TaskIdOf(Ok(Delivered(GenerateRoute.Render(r))), js) == Throw(ErrorObject(r.error))
  {
    assert OptGet(GenerateRoute.Render(r).body, "error") == Str(r.error);
  }

  /** One submission end to end: whatever the provider does, the page either
      starts polling the task id the handler chose, or shows the handler's
      error and leaves its history alone. */
  lemma SubmissionEndToEnd(s: VideoGenerator.State, env: map<string, string>, provider: Result<GenerateRoute.ProviderReply>,
                          serverNow: nat, now: nat, js: Engine)
    requires VideoGenerator.SessionInvariant(s) && !s.isGenerating && !IsBlank(s.prompt)
    ensures
      var q := VideoGenerator.GenerateRequest(s.prompt, s.settings, |s.uploadedImages| > 0);
      var exchange := GenerateRoute.Post(Ok(RequestJson(q)), env, provider, js, serverNow);
      var page := VideoGenerator.Submit(s, Ok(Delivered(GenerateRoute.Render(exchange.response))), now, js);
      && page.1 == Some(q)
      && (exchange.response.Accepted? ==>
            && page.0.pollPending && page.0.isGenerating
            && page.0.generatedVideos[0].id == exchange.response.taskId
            && Truthy(page.0.generatedVideos[0].id))
      && (exchange.response.Rejected? ==>
            && page.0.error == Some(exchange.response.error)
            && !page.0.isGenerating && !page.0.pollPending
            && page.0.generatedVideos == s.generatedVideos)
  {
    var q := VideoGenerator.GenerateRequest(s.prompt, s.settings, |s.uploadedImages| > 0);
    var exchange := GenerateRoute.Post(Ok(RequestJson(q)), env, provider, js, serverNow);
    if exchange.response.Accepted? {
      ClientTracksRouteTaskId(exchange.response, js);
    } else {
      ClientShowsRouteError(exchange.response, js);
    }
  }
}
