/** The `POST` handler of the generate-short route: request validation, the
    four pipeline stages and the progress stream it writes while they run. */
module GenerateShort {
  import opened Events

  const MaxTitleLength: nat := 100
  const Ellipsis: string := "..."
  const Hashtags: string := "\n\n#Shorts #AI #Generated"

  /** The status announced before each stage runs, in stage order. */
  const Announcements: seq<string> := [
    "Generating script...",
    "Creating video concept...",
    "Generating video (this may take a few minutes)...",
    "Uploading to YouTube..."
  ]

  const WatchPrefix: string := "https://www.youtube.com/watch?v="
  const MockVideoId: string := "dQw4w9WgXcQ"
  const PlaceholderVideoUrl: string := "https://via.placeholder.com/1080x1920/6366f1/ffffff?text=AI+Generated+Short"

  /** The upload title: the topic, cut to 97 characters plus an ellipsis when
      it is longer than the limit. */
  function Title(topic: string): (title: string)
    ensures |title| <= MaxTitleLength
    ensures title == topic <==> |topic| <= MaxTitleLength
    ensures |topic| > MaxTitleLength ==>
      |title| == MaxTitleLength &&
      title[..MaxTitleLength - |Ellipsis|] == topic[..MaxTitleLength - |Ellipsis|] &&
      title[MaxTitleLength - |Ellipsis|..] == Ellipsis
  {
    if |topic| > MaxTitleLength then topic[..97] + Ellipsis else topic
  }

  /** The upload description: the script followed by the hashtag line. */
  function Description(script: string): (description: string)
    ensures script <= description
    ensures description[|script|..] == Hashtags
  {
    script + Hashtags
  }

  function WatchUrl(videoId: string): string
  {
    WatchPrefix + videoId
  }

  /** The four stages, each an opaque call that returns a text or throws:
      the script from the topic, the visual prompt from the script, the video
      reference, and the upload, which is given the video reference, the title
      and the description and yields the id of the published video. */
  datatype Stages = Stages(
    script: string -> Result<string>,
    prompt: string -> Result<string>,
    video: Result<string>,
    upload: (string, string, string) -> Result<string>)

  /** The stages as the route ships them: the video is a fixed placeholder and
      the upload is simulated with a fixed video id. */
  ghost predicate Deployed(st: Stages)
  {
    st.video == Ok(PlaceholderVideoUrl) &&
    forall media, title, description :: st.upload(media, title, description) == Ok(MockVideoId)
  }

  /** The outcomes of the stages that ran, in order. */
  function Trace(topic: string, st: Stages): (trace: seq<Result<string>>)
    ensures 1 <= |trace| <= |Announcements|
    ensures forall i :: 0 <= i < |trace| - 1 ==> trace[i].Ok?
    ensures |trace| < |Announcements| ==> trace[|trace| - 1].Err?
    ensures trace[0] == st.script(topic)
    ensures |trace| >= 2 ==> trace[1] == st.prompt(trace[0].value)
    ensures |trace| >= 3 ==> trace[2] == st.video
    ensures |trace| == 4 ==> trace[3] == st.upload(trace[2].value, Title(topic), Description(trace[0].value))
  {
    var script := st.script(topic);
    if script.Err? then [script] else
    var prompt := st.prompt(script.value);
    if prompt.Err? then [script, prompt] else
    if st.video.Err? then [script, prompt, st.video] else
    [script, prompt, st.video, st.upload(st.video.value, Title(topic), Description(script.value))]
  }

  predicate Succeeded(trace: seq<Result<string>>)
  {
    |trace| == |Announcements| && trace[|trace| - 1].Ok?
  }

  /** The records a run writes: one announcement per stage started, then
      exactly one closing record, an error or the completion. */
  function Emitted(topic: string, st: Stages): (events: seq<Event>)
    ensures |events| == |Trace(topic, st)| + 1
    ensures forall i :: 0 <= i < |events| - 1 ==> events[i] == StatusEvent(Announcements[i])
    ensures forall i :: 0 <= i < |events| - 1 ==> !IsError(events[i]) && !IsComplete(events[i])
    ensures IsError(events[|events| - 1]) != IsComplete(events[|events| - 1])
    ensures IsComplete(events[|events| - 1]) <==> Succeeded(Trace(topic, st))
    ensures var trace := Trace(topic, st);
      !Succeeded(trace) ==> events[|events| - 1] == ErrorEvent(OrGenericFailure(trace[|trace| - 1].message))
    ensures var trace := Trace(topic, st);
      Succeeded(trace) ==> events[|events| - 1] == CompleteEvent(WatchUrl(trace[3].value), trace[0].value, trace[1].value)
  {
    var trace := Trace(topic, st);
    var n := |trace|;
    var last := trace[n - 1];
    assert forall i :: 0 <= i < n ==> Announcements[i] != CompleteStatus;
    seq(n, i requires 0 <= i < n => StatusEvent(Announcements[i])) +
    [if last.Err? then ErrorEvent(OrGenericFailure(last.message))
     else CompleteEvent(WatchUrl(last.value), trace[0].value, trace[1].value)]
  }

  /** With the stages as shipped, only the two language-model calls can fail,
      and a completed run always links the same fixed video, whatever the topic. */
  lemma DeployedRun(topic: string, st: Stages)
    requires Deployed(st)
    ensures |Trace(topic, st)| != 3
    ensures Succeeded(Trace(topic, st)) <==> |Trace(topic, st)| == 4
    ensures var events := Emitted(topic, st);
      IsComplete(events[|events| - 1]) ==>
        events[|events| - 1].videoUrl == "https://www.youtube.com/watch?v=dQw4w9WgXcQ"
  {
  }

  /** The stream controller the `start` callback writes to: the chunks enqueued
      so far and whether the stream is closed. `events` is the record behind
      each chunk. */
  class StreamController {
    const stringify: Event -> string
    var chunks: seq<string>
    var closed: bool
    ghost var events: seq<Event>

    ghost predicate Valid()
      reads this
    {
      chunks == Frames(stringify, events)
    }

    constructor (stringify: Event -> string)
      ensures Valid() && this.stringify == stringify
      ensures chunks == [] && events == [] && !closed
    {
      this.stringify := stringify;
      chunks := [];
      closed := false;
      events := [];
    }

    /** `send`: enqueue one framed record. */
    method Send(e: Event)
      requires Valid() && !closed
      modifies this
      ensures Valid() && !closed
      ensures events == old(events) + [e]
      ensures chunks == old(chunks) + [Frame(stringify(e))]
    {
      chunks := chunks + [Frame(stringify(e))];
      events := events + [e];
    }

    method Close()
      requires Valid() && !closed
      modifies this
      ensures Valid() && closed
      ensures chunks == old(chunks) && events == old(events)
    {
      closed := true;
    }
  }

  /** The `catch` branch: one error record, then close. */
  method Abort(controller: StreamController, message: string)
    requires controller.Valid() && !controller.closed
    modifies controller
    ensures controller.Valid() && controller.closed
    ensures controller.events == old(controller.events) + [ErrorEvent(OrGenericFailure(message))]
  {
    controller.Send(ErrorEvent(OrGenericFailure(message)));
    controller.Close();
  }

  /** The stream's `start` callback: run the stages in order, announcing each,
      and finish with the completion or the first error. */
  method Start(controller: StreamController, topic: string, st: Stages)
    requires controller.Valid() && !controller.closed && controller.events == []
    modifies controller
    ensures controller.Valid() && controller.closed
    ensures controller.events == Emitted(topic, st)
  {
    controller.Send(StatusEvent(Announcements[0]));
    var script := st.script(topic);
    if script.Err? {
      Abort(controller, script.message);
      return;
    }

    controller.Send(StatusEvent(Announcements[1]));
    var videoPrompt := st.prompt(script.value);
    if videoPrompt.Err? {
      Abort(controller, videoPrompt.message);
      return;
    }

    controller.Send(StatusEvent(Announcements[2]));
    var videoUrl := st.video;
    if videoUrl.Err? {
      Abort(controller, videoUrl.message);
      return;
    }

    controller.Send(StatusEvent(Announcements[3]));
    var title := Title(topic);
    var description := Description(script.value);
    var videoId := st.upload(videoUrl.value, title, description);
    if videoId.Err? {
      Abort(controller, videoId.message);
      return;
    }

    controller.Send(CompleteEvent(WatchUrl(videoId.value), script.value, videoPrompt.value));
    controller.Close();
  }

  /** What the handler answers: a JSON error with a status code, or an event
      stream with the chunks written to it. */
  datatype Response = Rejected(code: int, error: string) | EventStream(chunks: seq<string>, closed: bool)

  /** The handler's answer for a request body's `topic` and the value of the
      `youtube_tokens` cookie (`None` when absent). */
  function Respond(topic: Option<string>, tokens: Option<string>, st: Stages, stringify: Event -> string): (resp: Response)
    ensures topic.None? || topic.value == "" ==> resp == Rejected(400, "Topic is required")
    ensures topic.Some? && topic.value != "" && (tokens.None? || tokens.value == "") ==>
      resp == Rejected(401, "Not authenticated")
    ensures resp.EventStream? <==> topic.Some? && topic.value != "" && tokens.Some? && tokens.value != ""
    ensures resp.EventStream? ==> resp.closed && resp.chunks == Frames(stringify, Emitted(topic.value, st))
  {
    if topic.None? || topic.value == "" then Rejected(400, "Topic is required")
    else if tokens.None? || tokens.value == "" then Rejected(401, "Not authenticated")
    else EventStream(Frames(stringify, Emitted(topic.value, st)), true)
  }

  /** `POST`: validate the topic, then the session cookie, then stream the run. */
  method Post(topic: Option<string>, tokens: Option<string>, st: Stages, stringify: Event -> string) returns (resp: Response)
    ensures resp == Respond(topic, tokens, st, stringify)
  {
    if topic.None? || topic.value == "" {
      return Rejected(400, "Topic is required");
    }
    if tokens.None? || tokens.value == "" {
      return Rejected(401, "Not authenticated");
    }
    var controller := new StreamController(stringify);
    Start(controller, topic.value, st);
    resp := EventStream(controller.chunks, controller.closed);
  }
}
