/** How the page reads what the route writes: a framed record comes back as
    its payload, a stream of whole records folds into the view record by
    record, and a whole run leaves the page showing its outcome. */
module RoundTrip {
  import opened Events
  import opened GenerateShort
  import opened Home

  /** A whole record split on line breaks is one `data: ` line followed by the
      two empty pieces of its blank line, and it yields back its payload. */
  lemma FrameSplit(payload: string)
    requires '\n' !in payload
    ensures Split(Frame(payload)) == [DataPrefix + payload, "", ""]
    ensures DataPayloads(Split(Frame(payload))) == [payload]
  {
    var lines := [DataPrefix + payload, "", ""];
    assert Join(lines[2..]) == "";
    assert Join(lines[1..]) == "\n";
    assert Join(lines) == Frame(payload);
    SplitJoin(lines);
    assert !IsDataLine("");
    assert DataPayloads([""]) == [] by { assert [""][1..] == []; }
    assert DataPayloads(lines[1..]) == [] by { assert lines[1..][1..] == [""]; }
    assert IsDataLine(lines[0]) && Payload(lines[0]) == payload;
  }

  /** One chunk carrying whole records, in order. */
  function Chunk(stringify: Event -> string, events: seq<Event>): string
    decreases |events|
  {
    if events == [] then "" else Frame(stringify(events[0])) + Chunk(stringify, events[1..])
  }

  function Payloads(stringify: Event -> string, events: seq<Event>): seq<string>
  {
    seq(|events|, i requires 0 <= i < |events| => stringify(events[i]))
  }

  /** The `data: ` lines of a chunk of whole records carry exactly the
      records' payloads, in order. */
  lemma {:induction false} ChunkPayloads(stringify: Event -> string, events: seq<Event>)
    requires forall i :: 0 <= i < |events| ==> '\n' !in stringify(events[i])
    ensures DataPayloads(Split(Chunk(stringify, events))) == Payloads(stringify, events)
    decreases |events|
  {
    if events != [] {
      var p := stringify(events[0]);
      var rest := Chunk(stringify, events[1..]);
      var line := DataPrefix + p;
      assert Chunk(stringify, events) == line + "\n" + ("" + "\n" + rest);
      SplitAfterLine(line, "" + "\n" + rest);
      SplitAfterLine("", rest);
      var lines := Split(Chunk(stringify, events));
      assert lines == [line, ""] + Split(rest);
      assert lines[1..] == [""] + Split(rest) && lines[1..][1..] == Split(rest);
      assert IsDataLine(line) && Payload(line) == p;
      ChunkPayloads(stringify, events[1..]);
      assert Payloads(stringify, events) == [p] + Payloads(stringify, events[1..]);
    }
  }

  /** Payloads that the codec wrote parse back to their records, which fold
      into the view one by one. */
  lemma {:induction false} DecodeAll(v: View, events: seq<Event>, codec: Codec)
    requires Lawful(codec)
    ensures ConsumePayloads(v, Payloads(codec.stringify, events), codec.parse) == Reading(FoldEvents(v, events), None)
    decreases |events|
  {
    if events != [] {
      var ps := Payloads(codec.stringify, events);
      assert ps[0] == codec.stringify(events[0]);
      assert codec.parse(ps[0]) == Ok(events[0]);
      assert ps[1..] == Payloads(codec.stringify, events[1..]);
      DecodeAll(Apply(v, events[0]), events[1..], codec);
    }
  }

  /** Reading one chunk of whole records applies exactly those records. */
  lemma ChunkRoundTrip(v: View, events: seq<Event>, codec: Codec)
    requires Lawful(codec)
    ensures ConsumeLines(v, Split(Chunk(codec.stringify, events)), codec.parse) == Reading(FoldEvents(v, events), None)
  {
    ChunkPayloads(codec.stringify, events);
    ConsumeLinesDecodesDataLines(v, Split(Chunk(codec.stringify, events)), codec.parse);
    DecodeAll(v, events, codec);
  }

  /** The chunks of a stream whose records arrive grouped, each group whole. */
  function Chunks(stringify: Event -> string, groups: seq<seq<Event>>): seq<string>
  {
    seq(|groups|, i requires 0 <= i < |groups| => Chunk(stringify, groups[i]))
  }

  function Flatten(groups: seq<seq<Event>>): seq<Event>
    decreases |groups|
  {
    if groups == [] then [] else groups[0] + Flatten(groups[1..])
  }

  /** However whole records are grouped into chunks, reading the stream folds
      every record into the view, in order, and nothing is thrown. */
  lemma {:induction false} StreamRoundTrip(v: View, groups: seq<seq<Event>>, codec: Codec)
    requires Lawful(codec)
    ensures ConsumeChunks(v, Chunks(codec.stringify, groups), codec.parse) == Reading(FoldEvents(v, Flatten(groups)), None)
    decreases |groups|
  {
    if groups != [] {
      var chunks := Chunks(codec.stringify, groups);
      assert chunks[0] == Chunk(codec.stringify, groups[0]);
      assert chunks[1..] == Chunks(codec.stringify, groups[1..]);
      ChunkRoundTrip(v, groups[0], codec);
      StreamRoundTrip(FoldEvents(v, groups[0]), groups[1..], codec);
      FoldEventsAppend(v, groups[0], Flatten(groups[1..]));
    }
  }

  /** The chunks exactly as the route enqueues them, one record each. */
  lemma AsEnqueued(v: View, events: seq<Event>, codec: Codec)
    requires Lawful(codec)
    ensures ConsumeChunks(v, Frames(codec.stringify, events), codec.parse) == Reading(FoldEvents(v, events), None)
  {
    var groups := seq(|events|, i requires 0 <= i < |events| => [events[i]]);
    forall i | 0 <= i < |events|
      ensures Frames(codec.stringify, events)[i] == Chunks(codec.stringify, groups)[i]
    {
      assert Chunk(codec.stringify, groups[i]) == Frame(codec.stringify(events[i])) + "";
    }
    assert Frames(codec.stringify, events) == Chunks(codec.stringify, groups);
    FlattenSingletons(events, groups);
    StreamRoundTrip(v, groups, codec);
  }

  lemma {:induction false} FlattenSingletons(events: seq<Event>, groups: seq<seq<Event>>)
    requires |groups| == |events|
    requires forall i :: 0 <= i < |events| ==> groups[i] == [events[i]]
    ensures Flatten(groups) == events
    decreases |events|
  {
    if events != [] {
      FlattenSingletons(events[1..], groups[1..]);
      assert [events[0]] + events[1..] == events;
    }
  }

  /** Where a run leaves the page's view: the completion's status and link,
      or the last announced status and the error, never both. */
  lemma RunView(topic: string, st: Stages)
    ensures var trace := Trace(topic, st);
      var w := FoldEvents(Reset, Emitted(topic, st));
      && (Succeeded(trace) ==> w == View(CompleteStatus, "", WatchUrl(trace[3].value)))
      && (!Succeeded(trace) ==>
            w == View(Announcements[|trace| - 1], OrGenericFailure(trace[|trace| - 1].message), ""))
  {
    var trace := Trace(topic, st);
    var events := Emitted(topic, st);
    var n := |events|;
    var last := events[n - 1];
    var w := FoldEvents(Reset, events);
    assert forall i :: 0 <= i < n - 1 ==> Carried(events[i], ErrorField) == "" && Carried(events[i], VideoUrlField) == "";
    if Succeeded(trace) {
      FoldKeepsLastCarried(Reset, events, StatusField, n - 1);
      FoldKeepsUncarried(Reset, events, ErrorField);
      FoldKeepsLastCarried(Reset, events, VideoUrlField, n - 1);
      assert w == View(Shown(w, StatusField), Shown(w, ErrorField), Shown(w, VideoUrlField));
    } else {
      assert events[n - 2] == StatusEvent(Announcements[n - 2]);
      FoldKeepsLastCarried(Reset, events, StatusField, n - 2);
      FoldKeepsLastCarried(Reset, events, ErrorField, n - 1);
      FoldKeepsUncarried(Reset, events, VideoUrlField);
      assert w == View(Shown(w, StatusField), Shown(w, ErrorField), Shown(w, VideoUrlField));
    }
  }

  /** The text of a sequence of chunks, read one after the other. */
  function Concat(chunks: seq<string>): string
    decreases |chunks|
  {
    if chunks == [] then "" else chunks[0] + Concat(chunks[1..])
  }

  lemma {:induction false} ConcatAppend(a: seq<string>, b: seq<string>)
    ensures Concat(a + b) == Concat(a) + Concat(b)
    decreases |a|
  {
    if a == [] {
      assert a + b == b;
    } else {
      assert (a + b)[1..] == a[1..] + b;
      ConcatAppend(a[1..], b);
    }
  }

  /** A chunk of whole records is the text of their records, one after the other. */
  lemma {:induction false} ChunkIsConcat(stringify: Event -> string, events: seq<Event>)
    ensures Chunk(stringify, events) == Concat(Frames(stringify, events))
    decreases |events|
  {
    if events != [] {
      assert Frames(stringify, events)[1..] == Frames(stringify, events[1..]);
      ChunkIsConcat(stringify, events[1..]);
    }
  }

  /** Regrouping whole records into chunks, as the transport may do, keeps the
      text of the stream: it is the text the route enqueued. */
  lemma {:induction false} RegroupingKeepsText(stringify: Event -> string, groups: seq<seq<Event>>)
    ensures Concat(Chunks(stringify, groups)) == Concat(Frames(stringify, Flatten(groups)))
    decreases |groups|
  {
    if groups != [] {
      var chunks := Chunks(stringify, groups);
      assert chunks[0] == Chunk(stringify, groups[0]);
      assert chunks[1..] == Chunks(stringify, groups[1..]);
      RegroupingKeepsText(stringify, groups[1..]);
      ChunkIsConcat(stringify, groups[0]);
      var rest := Flatten(groups[1..]);
      assert Frames(stringify, groups[0] + rest) == Frames(stringify, groups[0]) + Frames(stringify, rest);
      ConcatAppend(Frames(stringify, groups[0]), Frames(stringify, rest));
    }
  }

  /** What the page's `fetch` sees for an answer of the route, when the reader
      yields `chunks`. The body of a rejection is never read, so it is not
      carried. */
  function Received(resp: Response, chunks: seq<string>): FetchOutcome
  {
    match resp
    case Rejected(_, _) => Responded(false, None)
    case EventStream(_, _) => Responded(true, Some(Body(chunks, None)))
  }

  /** A topic that passes the page's guard, sent to the route and read back
      with the run's records grouped into chunks in any way that keeps each
      record whole: without a session the page shows the generic failure;
      otherwise it shows the run's completion or its error, and exactly one of
      the two. The grouping one record per chunk is the one the route enqueues
      (`AsEnqueued`); any other keeps the same text (`RegroupingKeepsText`). */
  lemma EndToEnd(topic: string, tokens: Option<string>, st: Stages, codec: Codec, groups: seq<seq<Event>>)
    requires Lawful(codec)
    requires !Blank(topic)
    requires Flatten(groups) == Emitted(topic, st)
    ensures var w := Handle(Received(Respond(Some(topic), tokens, st, codec.stringify), Chunks(codec.stringify, groups)), codec.parse);
      var trace := Trace(topic, st);
      && (tokens.None? || tokens.value == "" ==> w == View(Reset.status, GenericFailure, ""))
      && (tokens.Some? && tokens.value != "" && Succeeded(trace) ==>
            w == View(CompleteStatus, "", WatchUrl(trace[3].value)))
      && (tokens.Some? && tokens.value != "" && !Succeeded(trace) ==>
            w == View(Announcements[|trace| - 1], OrGenericFailure(trace[|trace| - 1].message), ""))
      && (w.error == "" <==> w.videoUrl != "")
  {
    assert topic != "" by {
      assert IsWhitespace(topic[0]) ==> |topic| > 0;
    }
    if tokens.Some? && tokens.value != "" {
      StreamRoundTrip(Reset, groups, codec);
      RunView(topic, st);
    }
  }
}
