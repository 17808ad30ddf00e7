/*
 * The client side of components/VideoGenerator.tsx: submitting a prompt
 * (handleGenerate), the status poll session (pollVideoStatus and its poll
 * closure), and the image list (handleImageUpload, removeImage).
 *
 * The first half defines the component's state as a value and each event
 * as a function of it; the class Component at the end holds the same state
 * in fields and changes it step by step, each method proved equal to its
 * function. Server replies are inputs; a timer firing is one call of Poll.
 */
module VideoGenerator {
  import opened Js

  const MaxAttempts := 60
  const PromptMissing := "请输入视频描述"
  const GenerateFailed := "生成失败"
  const UnknownError := "未知错误"

  datatype Settings = Settings(orientation: string, size: string, duration: int)

  const DefaultSettings := Settings("landscape", "large", 10)

  /** The closed set of statuses an entry can show. */
  datatype Status = Generating | Completed | Failed

  /** One history entry (GeneratedVideo). The id and URLs are whatever the
      server sent, so they are JavaScript values; createdAt is a clock reading. */
  datatype Video = Video(
    id: Value,
    prompt: string,
    videoUrl: Value,
    thumbnailUrl: Value,
    status: Status,
    createdAt: nat,
    settings: Settings)

  datatype ImageFile = ImageFile(name: string)

  /** The body handleGenerate posts to the submission endpoint. */
  datatype GenerateRequest = GenerateRequest(prompt: string, settings: Settings, hasImages: bool)

  /** What `fetch` plus `response.json()` gave: `response.ok` and the parsed body. */
  datatype HttpReply = HttpReply(ok: bool, data: Value)

  /** How a poll session stopped (each is one of the four alerts). */
  datatype Ending = Succeeded | GenerationFailed | TimedOut | QueryFailed

  /** The component's state and the locals of the current poll session:
      pollEntry is the entry being polled (its id is the task id), attempts
      and maxAttempts are pollVideoStatus's counter and bound, pollPending says
      that another status query is due. */
  datatype State = State(
    prompt: string,
    settings: Settings,
    uploadedImages: seq<ImageFile>,
    generatedVideos: seq<Video>,
    isGenerating: bool,
    currentVideo: Option<Video>,
    error: Option<string>,
    pollEntry: Option<Video>,
    attempts: nat,
    maxAttempts: nat,
    pollPending: bool,
    ending: Option<Ending>)

  /** A query is only due inside a session that is generating and under its budget. */
  predicate SessionInvariant(s: State) {
    s.pollPending ==> s.pollEntry.Some? && s.attempts < s.maxAttempts && s.isGenerating
  }

  /** The number of status queries a session may still make. */
  function Budget(s: State): nat {
    if s.pollPending && s.attempts < s.maxAttempts then s.maxAttempts - s.attempts else 0
  }

  // ---------------------------------------------------------------------
  // Pure pieces

  /** The provider's status string mapped into the closed set; anything
      other than "completed" and "failed", missing included, is generating. */
  function MapStatus(status: Value): (r: Status)
    ensures r == Completed <==> status == Str("completed")
    ensures r == Failed <==> status == Str("failed")
    ensures r == Generating <==> status != Str("completed") && status != Str("failed")
  {
    if status == Str("completed") then Completed
    else if status == Str("failed") then Failed
    else Generating
  }

  /** The entry a successful status reply produces: the polled entry with the
      reply's URLs (or "") and mapped status; id, prompt, creation time and
      settings stay those of the polled entry. */
  function Observed(entry: Video, data: Value): (r: Video)
    ensures r.id == entry.id && r.prompt == entry.prompt
    ensures r.createdAt == entry.createdAt && r.settings == entry.settings
    ensures r.status == MapStatus(OptGet(data, "status"))
    ensures Truthy(OptGet(data, "videoUrl")) ==> r.videoUrl == OptGet(data, "videoUrl")
    ensures !Truthy(OptGet(data, "videoUrl")) ==> r.videoUrl == Str("")
    ensures Truthy(OptGet(data, "thumbnailUrl")) ==> r.thumbnailUrl == OptGet(data, "thumbnailUrl")
    ensures !Truthy(OptGet(data, "thumbnailUrl")) ==> r.thumbnailUrl == Str("")
  {
    entry.(
      videoUrl := Or(OptGet(data, "videoUrl"), Str("")),
      thumbnailUrl := Or(OptGet(data, "thumbnailUrl"), Str("")),
      status := MapStatus(OptGet(data, "status")))
  }

  /** `prev.map(v => v.id === taskId ? updated : v)` */
  function ReplaceById(history: seq<Video>, id: Value, updated: Video): (r: seq<Video>)
    ensures |r| == |history|
    ensures forall i :: 0 <= i < |history| && history[i].id == id ==> r[i] == updated
    ensures forall i :: 0 <= i < |history| && history[i].id != id ==> r[i] == history[i]
  {
    if history == [] then []
    else [if history[0].id == id then updated else history[0]] + ReplaceById(history[1..], id, updated)
  }

  /** Replacing by id twice with the same entry is replacing once: a repeated
      terminal reply rewrites the same history. */
  lemma {:induction false} ReplaceByIdIdempotent(history: seq<Video>, id: Value, updated: Video)
    ensures ReplaceById(ReplaceById(history, id, updated), id, updated) == ReplaceById(history, id, updated)
  {
    var once := ReplaceById(history, id, updated);
    var twice := ReplaceById(once, id, updated);
    assert |twice| == |once|;
    forall i | 0 <= i < |once| ensures twice[i] == once[i] {
      if history[i].id == id {
        assert once[i] == updated;
      } else {
        assert once[i] == history[i];
      }
    }
  }

  /** `images.filter((_, i) => i !== index)`, the element at position
      `offset` of `images` having index `offset` in the whole list. */
  function FilterIndex(images: seq<ImageFile>, index: int, offset: int): (r: seq<ImageFile>)
    ensures 0 <= index - offset < |images| ==> r == images[..index - offset] + images[index - offset + 1..]
    ensures !(0 <= index - offset < |images|) ==> r == images
  {
    if images == [] then []
    else (if offset != index then [images[0]] else []) + FilterIndex(images[1..], index, offset + 1)
  }

  /** removeImage: removes exactly the element at `index`, keeping the
      others in order; an index outside the list removes nothing. */
  function RemoveAt(images: seq<ImageFile>, index: int): (r: seq<ImageFile>)
    ensures 0 <= index < |images| ==> |r| == |images| - 1
    ensures 0 <= index < |images| ==> r[..index] == images[..index] && r[index..] == images[index + 1..]
    ensures !(0 <= index < |images|) ==> r == images
  {
    FilterIndex(images, index, 0)
  }

  /** handleImageUpload: the chosen files follow the existing ones; with no
      file list or an empty one the list is unchanged. */
  function AddUploads(images: seq<ImageFile>, files: Option<seq<ImageFile>>): (r: seq<ImageFile>)
    ensures |r| >= |images| && r[..|images|] == images
    ensures files.Some? && |files.value| > 0 ==> r[|images|..] == files.value
    ensures !(files.Some? && |files.value| > 0) ==> r == images
  {
    if files.Some? && |files.value| > 0 then images + files.value else images
  }

  // ---------------------------------------------------------------------
  // Submitting a prompt

  /** The task id handleGenerate takes from the submission endpoint's reply,
      or what it throws: a rejected fetch or body, a TypeError on a null body,
      or an Error whose message is the reply's `error` (a string as is,
      anything else stringified, "生成失败" when that gives nothing). */
  function TaskIdOf(reply: Result<HttpReply>, js: Engine): (r: Result<Value>)
    // a rejected fetch or an unparseable body is rethrown as it is
    ensures reply.Throw? ==> r == Throw(reply.thrown)
    ensures reply.Ok? && Nullish(reply.value.data) ==> r.Throw? && r.thrown.ErrorObject?
    ensures reply.Ok? && reply.value.ok && !Nullish(reply.value.data)
      ==> r == Ok(OptGet(reply.value.data, "taskId"))
    ensures reply.Ok? && !reply.value.ok && OptGet(reply.value.data, "error").Str?
      ==> r == Throw(ErrorObject(OptGet(reply.value.data, "error").s))
    ensures reply.Ok? && !reply.value.ok && !Nullish(reply.value.data) && OptGet(reply.value.data, "error").Undefined?
      ==> r == Throw(ErrorObject(GenerateFailed))
    ensures reply.Ok? && !reply.value.ok && !Nullish(reply.value.data) && !OptGet(reply.value.data, "error").Str?
      ==> r == Throw(ErrorObject(StringifyOr(OptGet(reply.value.data, "error"), GenerateFailed, js)))
  {
    match reply
    case Throw(t) => Throw(t)
    case Ok(HttpReply(ok, data)) =>
      if Nullish(data) then Throw(ErrorObject(js.typeErrorMessage(if ok then "taskId" else "error")))
      else if !ok then
        var error := OptGet(data, "error");
        Throw(ErrorObject(if error.Str? then error.s else StringifyOr(error, GenerateFailed, js)))
      else Ok(OptGet(data, "taskId"))
  }

  /** The entry a successful submission prepends. */
  function NewEntry(s: State, taskId: Value, now: nat): (v: Video)
    ensures v.id == taskId && v.prompt == s.prompt && v.settings == s.settings && v.createdAt == now
    ensures v.status == Generating && v.videoUrl == Str("") && v.thumbnailUrl == Str("")
  {
    Video(taskId, s.prompt, Str(""), Str(""), Generating, now, s.settings)
  }

  /** handleGenerate, with the reply to its request and the clock as inputs;
      the second component is the request sent, if any. The button that
      calls it is disabled while generating, so no session is running. */
  function Submit(s: State, reply: Result<HttpReply>, now: nat, js: Engine): (r: (State, Option<GenerateRequest>))
    requires SessionInvariant(s) && !s.isGenerating
    ensures SessionInvariant(r.0)
    // a blank prompt sets the error and sends nothing; nothing else changes
    ensures IsBlank(s.prompt) ==> r.1.None? && r.0 == s.(error := Some(PromptMissing))
    // otherwise the prompt, the settings and whether images are attached are sent
    ensures !IsBlank(s.prompt) ==> r.1 == Some(GenerateRequest(s.prompt, s.settings, |s.uploadedImages| > 0))
    // success: one new generating entry in front of the old history, and a fresh session polling it
    ensures !IsBlank(s.prompt) && TaskIdOf(reply, js).Ok? ==>
      var v := NewEntry(s, TaskIdOf(reply, js).value, now);
      && r.0.generatedVideos == [v] + s.generatedVideos
      && r.0.currentVideo == Some(v) && r.0.pollEntry == Some(v)
      && r.0.isGenerating && r.0.error.None?
      && r.0.pollPending && r.0.attempts == 0 && r.0.maxAttempts == MaxAttempts && r.0.ending.None?
      && r.0.prompt == s.prompt && r.0.settings == s.settings && r.0.uploadedImages == s.uploadedImages
    // failure: only the error message changes; a rejected fetch shows its own message
    ensures !IsBlank(s.prompt) && TaskIdOf(reply, js).Throw? ==>
      r.0 == s.(error := Some(Message(TaskIdOf(reply, js).thrown, UnknownError)))
  {
    if IsBlank(s.prompt) then (s.(error := Some(PromptMissing)), None)
    else
      var request := GenerateRequest(s.prompt, s.settings, |s.uploadedImages| > 0);
      var started := s.(isGenerating := true, error := None);
      match TaskIdOf(reply, js)
      case Throw(t) => (started.(error := Some(Message(t, UnknownError)), isGenerating := false), Some(request))
      case Ok(taskId) =>
        var v := NewEntry(s, taskId, now);
        (started.(currentVideo := Some(v), generatedVideos := [v] + s.generatedVideos,
                  pollEntry := Some(v), attempts := 0, maxAttempts := MaxAttempts,
                  pollPending := true, ending := None),
         Some(request))
  }

  // ---------------------------------------------------------------------
  // The poll session

  /** A status reply the poll closure can read: fetched, ok, with a non-null
      body. Anything else lands in its catch block. */
  predicate Answered(reply: Result<HttpReply>) {
    reply.Ok? && reply.value.ok && !Nullish(reply.value.data)
  }

  /** An answered reply whose status ends the session. */
  predicate Terminal(reply: Result<HttpReply>) {
    Answered(reply) && MapStatus(OptGet(reply.value.data, "status")) != Generating
  }

  /** `attempts++`, then another query if under the bound, else the session ends. */
  function Retry(s: State, why: Ending): State {
    var a := s.attempts + 1;
    if a < s.maxAttempts then s.(attempts := a)
    else s.(attempts := a, pollPending := false, isGenerating := false, ending := Some(why))
  }

  /** One run of the poll closure on the reply to its status query. */
  function Step(s: State, reply: Result<HttpReply>): (r: State)
    requires SessionInvariant(s) && s.pollPending
    ensures SessionInvariant(r)
    ensures Budget(r) < Budget(s)
    // a terminal status stops polling, clears isGenerating and is not counted
    ensures Terminal(reply) ==> r.attempts == s.attempts && !r.pollPending && !r.isGenerating
    ensures Terminal(reply) ==>
      r.ending == Some(if OptGet(reply.value.data, "status") == Str("completed") then Succeeded else GenerationFailed)
    // a non-terminal status, a non-ok reply and a thrown error all count one attempt
    ensures !Terminal(reply) ==> r.attempts == s.attempts + 1
    ensures !Terminal(reply) ==> (r.pollPending <==> r.attempts < s.maxAttempts) && r.isGenerating == r.pollPending
    ensures !Terminal(reply) && !r.pollPending ==> r.ending == Some(if Answered(reply) then TimedOut else QueryFailed)
    // an answered reply rewrites the polled entry in place; an error leaves the entries alone
    ensures Answered(reply) ==>
      var v := Observed(s.pollEntry.value, reply.value.data);
      r.generatedVideos == ReplaceById(s.generatedVideos, s.pollEntry.value.id, v) && r.currentVideo == Some(v)
    ensures !Answered(reply) ==> r.generatedVideos == s.generatedVideos && r.currentVideo == s.currentVideo
    ensures r.pollEntry == s.pollEntry && r.maxAttempts == s.maxAttempts
    ensures r.pollPending ==> r.ending == s.ending
    ensures r.prompt == s.prompt && r.settings == s.settings
    ensures r.uploadedImages == s.uploadedImages && r.error == s.error
  {
    if !Answered(reply) then Retry(s, QueryFailed)
    else
      var data := reply.value.data;
      var entry := s.pollEntry.value;
      var v := Observed(entry, data);
      var seen := s.(currentVideo := Some(v), generatedVideos := ReplaceById(s.generatedVideos, entry.id, v));
      var status := OptGet(data, "status");
      if status == Str("completed") then seen.(isGenerating := false, pollPending := false, ending := Some(Succeeded))
      else if status == Str("failed") then seen.(isGenerating := false, pollPending := false, ending := Some(GenerationFailed))
      else Retry(seen, TimedOut)
  }

  /** A whole session: the k-th status query is answered by answers(k). The
      result is the final state and the number of queries made. */
  function Drain(s: State, answers: nat -> Result<HttpReply>, k: nat): (r: (State, nat))
    requires SessionInvariant(s)
    ensures SessionInvariant(r.0) && !r.0.pollPending
    // the number of queries never exceeds the budget
    ensures r.1 <= Budget(s)
    // a running session always ends, with isGenerating cleared
    ensures s.pollPending ==> r.1 >= 1 && !r.0.isGenerating && r.0.ending.Some?
    ensures !s.pollPending ==> r == (s, 0)
    // a timeout or a run of errors ends the session only once the whole budget is spent
    ensures s.pollPending && (r.0.ending == Some(TimedOut) || r.0.ending == Some(QueryFailed)) ==> r.1 == Budget(s)
    // entries keep their positions, and one becomes failed only on a failed reply
    ensures |r.0.generatedVideos| == |s.generatedVideos| && r.0.pollEntry == s.pollEntry
    ensures forall i :: 0 <= i < |s.generatedVideos| && r.0.generatedVideos[i].status == Failed ==>
                s.generatedVideos[i].status == Failed || r.0.ending == Some(GenerationFailed)
    decreases Budget(s)
  {
    if !s.pollPending then (s, 0)
    else
      var rest := Drain(Step(s, answers(k)), answers, k + 1);
      (rest.0, rest.1 + 1)
  }

  /** A running session is one poll followed by the rest of the session. */
  lemma DrainUnfolds(s: State, answers: nat -> Result<HttpReply>, k: nat)
    requires SessionInvariant(s) && s.pollPending
    ensures var rest := Drain(Step(s, answers(k)), answers, k + 1);
      Drain(s, answers, k) == (rest.0, rest.1 + 1)
  {
  }

  /** The status the entry shows once a session has ended this way. */
  function Shown(e: Ending): Status {
    match e
    case Succeeded => Completed
    case GenerationFailed => Failed
    case TimedOut => Generating
    case QueryFailed => Generating
  }

  /** The newest history entry is the polled one, shows `status`, and is the one on display. */
  predicate Showing(s: State, status: Status) {
    && s.pollEntry.Some? && |s.generatedVideos| > 0
    && s.generatedVideos[0].id == s.pollEntry.value.id
    && s.generatedVideos[0].status == status
    && s.currentVideo == Some(s.generatedVideos[0])
  }

  /** A poll after which the session goes on leaves the newest entry generating and on display. */
  lemma PollKeepsShowingGenerating(s: State, reply: Result<HttpReply>)
    requires SessionInvariant(s) && s.pollPending && Showing(s, Generating)
    ensures Step(s, reply).pollPending ==> Showing(Step(s, reply), Generating)
  {
    if Answered(reply) {
      assert Step(s, reply).generatedVideos[0] == Observed(s.pollEntry.value, reply.value.data);
    }
  }

  /** While a session runs, the newest entry stays generating; once it ends,
      that entry and the preview show the outcome: completed, failed, or
      still generating after a timeout or a run of failed queries. */
  lemma {:induction false} SessionShowsOutcome(s: State, answers: nat -> Result<HttpReply>, k: nat)
    requires SessionInvariant(s) && s.pollPending && Showing(s, Generating)
    ensures var r := Drain(s, answers, k).0;
      r.ending.Some? && Showing(r, Shown(r.ending.value))
    decreases Budget(s)
  {
    var reply := answers(k);
    var next := Step(s, reply);
    if Answered(reply) {
      assert next.generatedVideos[0] == Observed(s.pollEntry.value, reply.value.data);
    }
    if next.pollPending {
      PollKeepsShowingGenerating(s, reply);
      SessionShowsOutcome(next, answers, k + 1);
    }
  }

  /** A successful submission starts a session that makes between 1 and 60
      status queries, clears isGenerating when it ends, and leaves the new
      entry, first in the history and on display, showing the outcome. */
  lemma SubmittedSessionEnds(
    s: State, reply: Result<HttpReply>, now: nat, js: Engine, answers: nat -> Result<HttpReply>)
    requires SessionInvariant(s) && !s.isGenerating && !IsBlank(s.prompt) && TaskIdOf(reply, js).Ok?
    ensures var started := Submit(s, reply, now, js).0;
      var (r, queries) := Drain(started, answers, 0);
      && 1 <= queries <= MaxAttempts && !r.isGenerating
      && r.ending.Some? && Showing(r, Shown(r.ending.value))
      && r.generatedVideos[0].id == TaskIdOf(reply, js).value
  {
    var started := Submit(s, reply, now, js).0;
    SessionShowsOutcome(started, answers, 0);
  }

  // ---------------------------------------------------------------------
  // As written, the poll closure reads the currentVideo, prompt and settings
  // of the render in which handleGenerate ran, that is, from before
  // setCurrentVideo(newVideo). Observed above is the evidently intended entry.

  /** The entry the poll closure builds as written, from the captured values. */
  function ObservedAsWritten(
    captured: Option<Video>, capturedPrompt: string, capturedSettings: Settings,
    taskId: Value, data: Value, now: nat): (r: Video)
    // `currentVideo?.prompt || prompt`: the captured video's prompt unless there is none or it is empty
    ensures captured.Some? && captured.value.prompt != "" ==> r.prompt == captured.value.prompt
    ensures captured.None? || captured.value.prompt == "" ==> r.prompt == capturedPrompt
    // a captured video supplies its own creation time and settings
    ensures captured.Some? ==> r.createdAt == captured.value.createdAt && r.settings == captured.value.settings
    ensures captured.None? ==> r.createdAt == now && r.settings == capturedSettings
    // the id, the URLs and the status are as in Observed
    ensures r.id == taskId && r.status == MapStatus(OptGet(data, "status"))
    ensures Truthy(OptGet(data, "videoUrl")) ==> r.videoUrl == OptGet(data, "videoUrl")
    ensures !Truthy(OptGet(data, "videoUrl")) ==> r.videoUrl == Str("")
    ensures Truthy(OptGet(data, "thumbnailUrl")) ==> r.thumbnailUrl == OptGet(data, "thumbnailUrl")
    ensures !Truthy(OptGet(data, "thumbnailUrl")) ==> r.thumbnailUrl == Str("")
  {
    Video(
      taskId,
      if captured.Some? && captured.value.prompt != "" then captured.value.prompt else capturedPrompt,
      Or(OptGet(data, "videoUrl"), Str("")),
      Or(OptGet(data, "thumbnailUrl"), Str("")),
      MapStatus(OptGet(data, "status")),
      if captured.Some? then captured.value.createdAt else now,
      if captured.Some? then captured.value.settings else capturedSettings)
  }

  /** When an earlier video was current at submission, the first answered
      poll relabels the new entry with that video's prompt, creation time and
      settings; the intended update keeps the new entry's own. */
  lemma StaleCaptureRelabelsEntry(s: State, reply: Result<HttpReply>, now: nat, js: Engine, data: Value, pollTime: nat)
    requires SessionInvariant(s) && !s.isGenerating && !IsBlank(s.prompt) && TaskIdOf(reply, js).Ok?
    requires s.currentVideo.Some? && s.currentVideo.value.prompt != "" && s.currentVideo.value.prompt != s.prompt
    ensures var entry := Submit(s, reply, now, js).0.pollEntry.value;
      var asWritten := ObservedAsWritten(s.currentVideo, s.prompt, s.settings, entry.id, data, pollTime);
      && asWritten.prompt == s.currentVideo.value.prompt != entry.prompt
      && asWritten.createdAt == s.currentVideo.value.createdAt && entry.createdAt == now
      && asWritten.settings == s.currentVideo.value.settings && entry.settings == s.settings
      && Observed(entry, data).prompt == entry.prompt
      && Observed(entry, data).createdAt == entry.createdAt
      && Observed(entry, data).settings == entry.settings
  {
  }

  /** On a first submission (no current video) every answered poll stamps the
      entry with the poll's own clock reading; the intended update keeps its creation time. */
  lemma StaleCaptureRestampsEntry(s: State, reply: Result<HttpReply>, now: nat, js: Engine, data: Value, pollTime: nat)
    requires SessionInvariant(s) && !s.isGenerating && !IsBlank(s.prompt) && TaskIdOf(reply, js).Ok?
    requires s.currentVideo.None? && pollTime != now
    ensures var entry := Submit(s, reply, now, js).0.pollEntry.value;
      && ObservedAsWritten(s.currentVideo, s.prompt, s.settings, entry.id, data, pollTime).createdAt != entry.createdAt
      && Observed(entry, data).createdAt == entry.createdAt
  {
  }

  // ---------------------------------------------------------------------
  // The component, with its state in fields

  class Component {
    var prompt: string
    var settings: Settings
    var uploadedImages: seq<ImageFile>
    var generatedVideos: seq<Video>
    var isGenerating: bool
    var currentVideo: Option<Video>
    var error: Option<string>
    var pollEntry: Option<Video>
    var attempts: nat
    var maxAttempts: nat
    var pollPending: bool
    var ending: Option<Ending>

    function View(): State
      reads this
    {
      State(prompt, settings, uploadedImages, generatedVideos, isGenerating, currentVideo, error,
            pollEntry, attempts, maxAttempts, pollPending, ending)
    }

    predicate Valid()
      reads this
    {
      SessionInvariant(View())
    }

    /** The initial useState values. */
    constructor ()
      ensures Valid()
      ensures View() == State("", DefaultSettings, [], [], false, None, None, None, 0, MaxAttempts, false, None)
    {
      prompt, settings, uploadedImages, generatedVideos := "", DefaultSettings, [], [];
      isGenerating, currentVideo, error := false, None, None;
      pollEntry, attempts, maxAttempts, pollPending, ending := None, 0, MaxAttempts, false, None;
    }

    /** handleGenerate. On success it also runs the start of pollVideoStatus:
        a fresh counter, the bound, and the first query due at once. */
    method HandleGenerate(reply: Result<HttpReply>, now: nat, js: Engine) returns (request: Option<GenerateRequest>)
      requires Valid() && !isGenerating
      modifies this
      ensures Valid()
      ensures View() == Submit(old(View()), reply, now, js).0
      ensures request == Submit(old(View()), reply, now, js).1
    {
      ghost var before := View();
      if IsBlank(prompt) {
        error := Some(PromptMissing);
        assert View() == before.(error := Some(PromptMissing));
        return None;
      }
      isGenerating := true;
      error := None;
      request := Some(GenerateRequest(prompt, settings, |uploadedImages| > 0));
      match TaskIdOf(reply, js)
      case Throw(t) =>
        error := Some(Message(t, UnknownError));
        isGenerating := false;
        assert View() == before.(error := Some(Message(t, UnknownError)));
      case Ok(taskId) =>
        var v := Video(taskId, prompt, Str(""), Str(""), Generating, now, settings);
        assert v == NewEntry(before, taskId, now);
        Prepend(v);
    }

    /** `setCurrentVideo(newVideo)`, `setGeneratedVideos([newVideo, ...generatedVideos])`,
        then the start of pollVideoStatus: a fresh counter, the bound, and a query due at once. */
    method Prepend(v: Video)
      requires isGenerating
      modifies this
      ensures Valid()
      ensures View() == old(View()).(currentVideo := Some(v), generatedVideos := [v] + old(generatedVideos),
        pollEntry := Some(v), attempts := 0, maxAttempts := MaxAttempts, pollPending := true, ending := None)
    {
      currentVideo := Some(v);
      generatedVideos := [v] + generatedVideos;
      pollEntry := Some(v);
      attempts, maxAttempts := 0, MaxAttempts;
      pollPending, ending := true, None;
    }

    /** One firing of the poll closure. */
    method Poll(reply: Result<HttpReply>)
      requires Valid() && pollPending
      modifies this
      ensures Valid()
      ensures View() == Step(old(View()), reply)
    {
      var terminal := false;
      if Answered(reply) {
        var data := reply.value.data;
        var v := Observed(pollEntry.value, data);
        currentVideo := Some(v);
        generatedVideos := ReplaceById(generatedVideos, pollEntry.value.id, v);
        var status := OptGet(data, "status");
        if status == Str("completed") {
          isGenerating := false;
          pollPending := false;
          ending := Some(Succeeded);
          terminal := true;
        } else if status == Str("failed") {
          isGenerating := false;
          pollPending := false;
          ending := Some(GenerationFailed);
          terminal := true;
        }
      }
      if !terminal {
        attempts := attempts + 1;
        if attempts >= maxAttempts {
          isGenerating := false;
          pollPending := false;
          ending := Some(if Answered(reply) then TimedOut else QueryFailed);
        }
      }
    }

    /** A whole poll session: fire the poll closure while a query is due,
        the k-th query being answered by answers(k). */
    method PollVideoStatus(answers: nat -> Result<HttpReply>) returns (queries: nat)
      requires Valid()
      modifies this
      ensures Valid() && !pollPending
      ensures View() == Drain(old(View()), answers, 0).0
      ensures queries == Drain(old(View()), answers, 0).1
    {
      ghost var session := Drain(View(), answers, 0);
      ghost var rest := session;
      queries := 0;
      while pollPending
        invariant Valid()
        invariant rest == Drain(View(), answers, queries)
        invariant session.0 == rest.0 && session.1 == queries + rest.1
        decreases Budget(View())
      {
        ghost var pre := View();
        Poll(answers(queries));
        DrainUnfolds(pre, answers, queries);
        queries := queries + 1;
        rest := Drain(View(), answers, queries);
      }
    }

    /** handleImageUpload, with the chosen file list (null when there is none). */
    method HandleImageUpload(files: Option<seq<ImageFile>>)
      modifies this
      ensures View() == old(View()).(uploadedImages := AddUploads(old(uploadedImages), files))
    {
      if files.Some? && |files.value| > 0 {
        uploadedImages := uploadedImages + files.value;
      }
    }

    /** Clicking a history entry puts it on display. */
    method ShowVideo(index: nat)
      requires index < |generatedVideos|
      modifies this
      ensures View() == old(View()).(currentVideo := Some(old(generatedVideos[index])))
    {
      currentVideo := Some(generatedVideos[index]);
    }

    /** removeImage */
    method RemoveImage(index: int)
      modifies this
      ensures View() == old(View()).(uploadedImages := RemoveAt(old(uploadedImages), index))
    {
      uploadedImages := RemoveAt(uploadedImages, index);
    }
  }
}
