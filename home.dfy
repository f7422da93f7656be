/** The home page's `handleGenerate`: the blank-topic guard, the view reset,
    and the loop that reads the progress stream into the view state. */
module Home {
  import opened Events

  const BlankTopicError: string := "Please enter a topic"

  // ---------------------------------------------------------------------
  // `String.prototype.trim`

  /** The characters `trim` removes: ECMAScript white space and line
      terminators, the Unicode space separators included. */
  predicate IsWhitespace(c: char)
  {
    c == '\t' || c == '\n' || c == '\U{000B}' || c == '\U{000C}' || c == '\r' || c == ' ' ||
    c == '\U{00A0}' || c == '\U{1680}' || ('\U{2000}' <= c <= '\U{200A}') ||
    c == '\U{2028}' || c == '\U{2029}' || c == '\U{202F}' || c == '\U{205F}' ||
    c == '\U{3000}' || c == '\U{FEFF}'
  }

  predicate Blank(s: string)
  {
    forall i :: 0 <= i < |s| ==> IsWhitespace(s[i])
  }

  function TrimStart(s: string): string
  {
    if |s| > 0 && IsWhitespace(s[0]) then TrimStart(s[1..]) else s
  }

  function TrimEnd(s: string): string
  {
    if |s| > 0 && IsWhitespace(s[|s| - 1]) then TrimEnd(s[..|s| - 1]) else s
  }

  function Trim(s: string): string
  {
    TrimEnd(TrimStart(s))
  }

  lemma {:induction false} TrimStartEmpty(s: string)
    ensures TrimStart(s) == "" <==> Blank(s)
    ensures TrimStart(s) != "" ==> !IsWhitespace(TrimStart(s)[0])
    decreases |s|
  {
    if |s| > 0 && IsWhitespace(s[0]) {
      TrimStartEmpty(s[1..]);
      assert Blank(s) <==> Blank(s[1..]) by {
        if Blank(s[1..]) {
          forall i | 0 <= i < |s| ensures IsWhitespace(s[i]) {
            if i > 0 { assert s[i] == s[1..][i - 1]; }
          }
        }
      }
    }
  }

  lemma {:induction false} TrimEndKeepsFirst(s: string)
    requires |s| > 0 && !IsWhitespace(s[0])
    ensures |TrimEnd(s)| > 0
    decreases |s|
  {
    if IsWhitespace(s[|s| - 1]) {
      TrimEndKeepsFirst(s[..|s| - 1]);
    }
  }

  /** `!topic.trim()` holds exactly for topics made only of white space. */
  lemma TrimEmptyIffBlank(s: string)
    ensures Trim(s) == "" <==> Blank(s)
  {
    TrimStartEmpty(s);
    if TrimStart(s) != "" {
      TrimEndKeepsFirst(TrimStart(s));
    }
  }

  // ---------------------------------------------------------------------
  // `chunk.split('\n')`

  /** The pieces between line breaks; `n` breaks give `n + 1` pieces. */
  function Split(s: string): (lines: seq<string>)
    ensures |lines| >= 1
    ensures forall i :: 0 <= i < |lines| ==> '\n' !in lines[i]
    ensures Join(lines) == s
    decreases |s|
  {
    if s == [] then [""]
    else
      var rest := Split(s[1..]);
      if s[0] == '\n' then
        assert ([""] + rest)[1..] == rest;
        [""] + rest
      else
        assert forall i :: 1 <= i < |rest| ==> ([[s[0]] + rest[0]] + rest[1..])[i] == rest[i];
        assert |rest| > 1 ==> ([[s[0]] + rest[0]] + rest[1..])[1..] == rest[1..];
        [[s[0]] + rest[0]] + rest[1..]
  }

  /** The inverse of `Split`: the pieces with a line break between each two. */
  function Join(lines: seq<string>): string
    requires |lines| >= 1
  {
    if |lines| == 1 then lines[0] else lines[0] + "\n" + Join(lines[1..])
  }

  /** A piece without a break splits into itself; this follows from `Split`'s
      contract alone. */
  lemma SplitLine(line: string)
    requires '\n' !in line
    ensures Split(line) == [line]
  {
  }

  /** A break after a piece that holds none starts the next piece. */
  lemma {:induction false} SplitAfterLine(line: string, rest: string)
    requires '\n' !in line
    ensures Split(line + "\n" + rest) == [line] + Split(rest)
    decreases |line|
  {
    var s := line + "\n" + rest;
    if line == [] {
      assert s[1..] == rest;
    } else {
      assert s[1..] == line[1..] + "\n" + rest;
      SplitAfterLine(line[1..], rest);
      assert [line[0]] + line[1..] == line;
    }
  }

  /** Splitting recovers the pieces that were joined, when none holds a break. */
  lemma {:induction false} SplitJoin(lines: seq<string>)
    requires |lines| >= 1
    requires forall i :: 0 <= i < |lines| ==> '\n' !in lines[i]
    ensures Split(Join(lines)) == lines
    decreases |lines|
  {
    if |lines| == 1 {
      SplitLine(lines[0]);
    } else {
      SplitJoin(lines[1..]);
      SplitAfterLine(lines[0], Join(lines[1..]));
      assert [lines[0]] + lines[1..] == lines;
    }
  }

  // ---------------------------------------------------------------------
  // `data: ` lines

  /** `line.startsWith('data: ')` */
  predicate IsDataLine(line: string)
  {
    DataPrefix <= line
  }

  /** `line.slice(6)`: the line without its field name. */
  function Payload(line: string): (payload: string)
    requires IsDataLine(line)
    ensures DataPrefix + payload == line
  {
    line[6..]
  }

  /** The payloads of the `data: ` lines, in order; every other line is skipped. */
  function DataPayloads(lines: seq<string>): (payloads: seq<string>)
    ensures |payloads| <= |lines|
    ensures forall p :: p in payloads ==> DataPrefix + p in lines
    ensures forall i :: 0 <= i < |lines| && IsDataLine(lines[i]) ==> Payload(lines[i]) in payloads
    decreases |lines|
  {
    if lines == [] then []
    else
      var rest := DataPayloads(lines[1..]);
      assert forall l :: l in lines[1..] ==> l in lines;
      assert forall i :: 1 <= i < |lines| ==> lines[i] == lines[1..][i - 1];
      if IsDataLine(lines[0]) then [Payload(lines[0])] + rest else rest
  }

  /** One line gives its payload when it is a `data: ` line and nothing otherwise. */
  lemma DataPayloadsOfLine(line: string)
    ensures DataPayloads([line]) == if IsDataLine(line) then [Payload(line)] else []
  {
    assert [line][1..] == [];
  }

  /** The payloads of two runs of lines are those of the first run followed by
      those of the second: every `data: ` line is decoded, in order. */
  lemma {:induction false} DataPayloadsAppend(a: seq<string>, b: seq<string>)
    ensures DataPayloads(a + b) == DataPayloads(a) + DataPayloads(b)
    decreases |a|
  {
    if a == [] {
      assert a + b == b;
    } else {
      assert (a + b)[0] == a[0] && (a + b)[1..] == a[1..] + b;
      DataPayloadsAppend(a[1..], b);
    }
  }

  // ---------------------------------------------------------------------
  // The view state and the event fold

  /** The three pieces of state a progress record can change. */
  datatype View = View(status: string, error: string, videoUrl: string)

  /** The view right before the request is sent. */
  const Reset: View := View("Generating script...", "", "")

  datatype Field = StatusField | ErrorField | VideoUrlField

  function Shown(v: View, f: Field): string
  {
    match f
    case StatusField => v.status
    case ErrorField => v.error
    case VideoUrlField => v.videoUrl
  }

  function Carried(e: Event, f: Field): string
  {
    match f
    case StatusField => e.status
    case ErrorField => e.error
    case VideoUrlField => e.videoUrl
  }

  /** One record applied to the view: a field changes only when the record
      carries a truthy value for it, and then takes that value. */
  function Apply(v: View, e: Event): (w: View)
    ensures forall f :: Shown(w, f) == if Carried(e, f) != "" then Carried(e, f) else Shown(v, f)
  {
    View(
      if e.status != "" then e.status else v.status,
      if e.error != "" then e.error else v.error,
      if e.videoUrl != "" then e.videoUrl else v.videoUrl)
  }

  function FoldEvents(v: View, events: seq<Event>): View
    decreases |events|
  {
    if events == [] then v else FoldEvents(Apply(v, events[0]), events[1..])
  }

  lemma {:induction false} FoldEventsAppend(v: View, a: seq<Event>, b: seq<Event>)
    ensures FoldEvents(v, a + b) == FoldEvents(FoldEvents(v, a), b)
    decreases |a|
  {
    if a != [] {
      assert (a + b)[1..] == a[1..] + b;
      FoldEventsAppend(Apply(v, a[0]), a[1..], b);
    } else {
      assert a + b == b;
    }
  }

  /** A field that no record of the run carries keeps what it showed before. */
  lemma {:induction false} FoldKeepsUncarried(v: View, events: seq<Event>, f: Field)
    requires forall i :: 0 <= i < |events| ==> Carried(events[i], f) == ""
    ensures Shown(FoldEvents(v, events), f) == Shown(v, f)
    decreases |events|
  {
    if events != [] {
      assert Carried(events[0], f) == "";
      assert forall i :: 0 <= i < |events[1..]| ==> events[1..][i] == events[i + 1];
      FoldKeepsUncarried(Apply(v, events[0]), events[1..], f);
    }
  }

  /** After a run of records a field shows the last truthy value carried for it. */
  lemma {:induction false} FoldKeepsLastCarried(v: View, events: seq<Event>, f: Field, j: nat)
    requires j < |events| && Carried(events[j], f) != ""
    requires forall i :: j < i < |events| ==> Carried(events[i], f) == ""
    ensures Shown(FoldEvents(v, events), f) == Carried(events[j], f)
    decreases |events|
  {
    var rest := events[1..];
    assert forall i :: 0 <= i < |rest| ==> rest[i] == events[i + 1];
    if j == 0 {
      FoldKeepsUncarried(Apply(v, events[0]), rest, f);
    } else {
      FoldKeepsLastCarried(Apply(v, events[0]), rest, f, j - 1);
    }
  }

  // ---------------------------------------------------------------------
  // Reading the stream

  /** How far reading got: the view so far, and the message of the error that
      stopped it, if one did. */
  datatype Reading = Reading(view: View, thrown: Option<string>)

  /** Decodes the payloads in order, folding each record into the view; the
      first payload that does not parse stops the reading. */
  function ConsumePayloads(v: View, payloads: seq<string>, parse: string -> Result<Event>): Reading
    decreases |payloads|
  {
    if payloads == [] then Reading(v, None)
    else match parse(payloads[0])
      case Err(m) => Reading(v, Some(m))
      case Ok(e) => ConsumePayloads(Apply(v, e), payloads[1..], parse)
  }

  /** The inner `for` loop over the lines of one chunk. */
  function ConsumeLines(v: View, lines: seq<string>, parse: string -> Result<Event>): Reading
    decreases |lines|
  {
    if lines == [] then Reading(v, None)
    else if !IsDataLine(lines[0]) then ConsumeLines(v, lines[1..], parse)
    else match parse(Payload(lines[0]))
      case Err(m) => Reading(v, Some(m))
      case Ok(e) => ConsumeLines(Apply(v, e), lines[1..], parse)
  }

  /** The outer loop over the chunks read from the response body. */
  function ConsumeChunks(v: View, chunks: seq<string>, parse: string -> Result<Event>): Reading
    decreases |chunks|
  {
    if chunks == [] then Reading(v, None)
    else
      var r := ConsumeLines(v, Split(chunks[0]), parse);
      if r.thrown.Some? then r else ConsumeChunks(r.view, chunks[1..], parse)
  }

  /** Only `data: ` lines are decoded, each without its field name; every other
      line, the blank separators included, leaves the view alone. */
  lemma {:induction false} ConsumeLinesDecodesDataLines(v: View, lines: seq<string>, parse: string -> Result<Event>)
    ensures ConsumeLines(v, lines, parse) == ConsumePayloads(v, DataPayloads(lines), parse)
    decreases |lines|
  {
    if lines != [] {
      if IsDataLine(lines[0]) {
        var ps := DataPayloads(lines);
        assert ps[0] == Payload(lines[0]) && ps[1..] == DataPayloads(lines[1..]);
        match parse(Payload(lines[0])) {
          case Err(m) =>
          case Ok(e) => ConsumeLinesDecodesDataLines(Apply(v, e), lines[1..], parse);
        }
      } else {
        ConsumeLinesDecodesDataLines(v, lines[1..], parse);
      }
    }
  }

  // ---------------------------------------------------------------------
  // The request

  /** The chunks the reader yields before it reports `done`, and the message
      of the error a read threw instead, if one did. */
  datatype Body = Body(chunks: seq<string>, readError: Option<string>)

  /** What `fetch` gives: it throws, or it answers with an `ok` flag and a
      body (`None` when the response has no body to read). */
  datatype FetchOutcome = FetchThrew(message: string) | Responded(ok: bool, body: Option<Body>)

  /** The view `handleGenerate` leaves behind for a topic that passed the guard. */
  function Handle(fetch: FetchOutcome, parse: string -> Result<Event>): (w: View)
    ensures fetch.FetchThrew? ==> w == Reset.(error := OrGenericFailure(fetch.message))
    ensures fetch.Responded? && !fetch.ok ==> w == Reset.(error := GenericFailure)
    ensures fetch.Responded? && fetch.ok && fetch.body.None? ==> w == Reset
  {
    match fetch
    case FetchThrew(m) => Reset.(error := OrGenericFailure(m))
    case Responded(ok, body) =>
      if !ok then Reset.(error := OrGenericFailure(GenericFailure))
      else if body.None? then Reset
      else
        var r := ConsumeChunks(Reset, body.value.chunks, parse);
        if r.thrown.Some? then r.view.(error := OrGenericFailure(r.thrown.value))
        else if body.value.readError.Some? then r.view.(error := OrGenericFailure(body.value.readError.value))
        else r.view
  }

  /** The state of the page that `handleGenerate` reads and writes. */
  class HomePage {
    var topic: string
    var loading: bool
    var status: string
    var videoUrl: string
    var error: string

    constructor ()
      ensures topic == "" && !loading && status == "" && videoUrl == "" && error == ""
    {
      topic, loading, status, videoUrl, error := "", false, "", "", "";
    }

    function Displayed(): View
      reads this
    {
      View(status, error, videoUrl)
    }

    /** The blank-topic guard and the reset that precedes the request. */
    method Begin() returns (proceed: bool)
      modifies this
      ensures proceed <==> !Blank(topic)
      ensures topic == old(topic)
      ensures !proceed ==>
        error == BlankTopicError && loading == old(loading) &&
        status == old(status) && videoUrl == old(videoUrl)
      ensures proceed ==> loading && Displayed() == Reset
    {
      TrimEmptyIffBlank(topic);
      if Trim(topic) == "" {
        error := BlankTopicError;
        return false;
      }
      loading := true;
      error := "";
      status := "Generating script...";
      videoUrl := "";
      proceed := true;
    }

    method HandleGenerate(fetch: FetchOutcome, parse: string -> Result<Event>)
      modifies this
      ensures topic == old(topic)
      ensures Blank(topic) ==>
        error == BlankTopicError && loading == old(loading) &&
        status == old(status) && videoUrl == old(videoUrl)
      ensures !Blank(topic) ==> !loading && Displayed() == Handle(fetch, parse)
    {
      var proceed := Begin();
      if !proceed {
        return;
      }
      match fetch {
        case FetchThrew(message) =>
          error := OrGenericFailure(message);
        case Responded(ok, body) =>
          if !ok {
            error := OrGenericFailure(GenericFailure);
          } else if body.Some? {
            var chunks := body.value.chunks;
            var thrown: Option<string> := None;
            var i := 0;
            while i < |chunks| && thrown.None?
              invariant 0 <= i <= |chunks|
              invariant topic == old(topic) && loading
              invariant thrown.None? ==>
                ConsumeChunks(Reset, chunks, parse) == ConsumeChunks(Displayed(), chunks[i..], parse)
              invariant thrown.Some? ==>
                ConsumeChunks(Reset, chunks, parse) == Reading(Displayed(), thrown)
            {
              var lines := Split(chunks[i]);
              ghost var before := Displayed();
              var j := 0;
              while j < |lines| && thrown.None?
                invariant 0 <= j <= |lines|
                invariant topic == old(topic) && loading
                invariant thrown.None? ==>
                  ConsumeLines(before, lines, parse) == ConsumeLines(Displayed(), lines[j..], parse)
                invariant thrown.Some? ==>
                  ConsumeLines(before, lines, parse) == Reading(Displayed(), thrown)
              {
                var line := lines[j];
                assert lines[j..][0] == line && lines[j..][1..] == lines[j + 1..];
                if IsDataLine(line) {
                  var data := parse(line[6..]);
                  if data.Err? {
                    thrown := Some(data.message);
                  } else {
                    if data.value.status != "" {
                      status := data.value.status;
                    }
                    if data.value.error != "" {
                      error := data.value.error;
                    }
                    if data.value.videoUrl != "" {
                      videoUrl := data.value.videoUrl;
                    }
                  }
                }
                j := j + 1;
              }
              assert chunks[i..][0] == chunks[i] && chunks[i..][1..] == chunks[i + 1..];
              i := i + 1;
            }
            if thrown.Some? {
              error := OrGenericFailure(thrown.value);
            } else if body.value.readError.Some? {
              error := OrGenericFailure(body.value.readError.value);
            }
          }
      }
      loading := false;
    }
  }
}
