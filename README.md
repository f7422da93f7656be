# AI Shorts Maker: the generate-short pipeline and its progress stream

The application lets a signed-in user type a topic. A server route then writes
a short-video script with a language model, turns it into a visual prompt,
obtains a video and uploads it, streaming progress records back to the page as
it goes. This project models the two ends of that stream and proves how they
fit together.

- **The route** (`POST` of `app/api/generate-short/route.ts`, module
  `GenerateShort`). It checks the topic first and then the `youtube_tokens`
  cookie. It then runs the four stages in order and announces each one before
  it starts. It derives the upload title and description. It writes every
  record as `data: <payload>\n\n` and closes the stream after exactly one
  completion or error record. The stream controller is a class whose `Send`
  and `Close` methods append to its chunks and set its closed flag. The
  `start` callback is an imperative method over that controller.
- **The page** (`handleGenerate` of `app/page.tsx`, module `Home`). It rejects
  a blank topic and resets the view. It reads the body chunk by chunk, splits
  each chunk on line breaks and decodes the `data: ` lines. It folds each
  record into the `status`, `error` and `videoUrl` state. A `finally` step
  clears `loading`. The page state is a class, and the reading is two nested
  loops whose invariants tie them to the specification functions
  `ConsumeChunks` and `ConsumeLines`.
- **Both ends together** (module `RoundTrip`). A framed record splits back to
  its payload. Any grouping of whole records into chunks folds into the view
  record by record. After a whole run the page shows either the completion or
  the error, never both.

Shared pieces (module `Events`): the progress record, the framing, the
fallback error text, and the JSON codec. The codec is abstract: it is a pair
of total functions, `stringify` and `parse`. The round-trip lemmas assume
`Lawful(codec)`: a serialised record holds no raw line break (JSON escapes
them) and parses back to itself. A record is five strings. The empty string
stands for a key the record does not carry, since both are falsy to the page.

The stages are opaque calls: `script(topic)`, `prompt(script)`, `video`, and
`upload(video, title, description)`, which yields a video id. Each returns a
text or the message of the error it threw. `Deployed(st)` describes the stages
as the route ships them. There the video is the fixed placeholder URL and the
upload is simulated with the fixed id `dQw4w9WgXcQ`. So in the shipped route
only the two language-model calls can fail, and the link is always the same.

Two behaviours of the code are worth noting:

- The route rejects only a missing or empty topic (`!topic`). A topic made
  only of white space passes the route; only the page's `trim` guard stops it.
- A script or prompt may be the empty string, because the model calls fall
  back to `''` on an empty completion.

## Model

| member | source | states |
|---|---|---|
| `Events.OrGenericFailure` | app/api/generate-short/route.ts:167 | The error text is the thrown message, or "Failed to generate short" when that message is empty; it is never empty. |
| `GenerateShort.Title` | app/api/generate-short/route.ts:146 | The title is at most 100 characters. It equals the topic exactly when the topic has at most 100. Otherwise it is exactly 100: the topic's first 97 characters, then "...". |
| `GenerateShort.Description` | app/api/generate-short/route.ts:147 | The script is a prefix of the description, and what follows it is "\n\n#Shorts #AI #Generated". |
| `GenerateShort.Trace` | app/api/generate-short/route.ts:133-155 | Stages run in order and a stage runs only when all earlier ones succeeded. Each stage gets its predecessor's output: the prompt gets the script; the upload gets the video, the title and the description. 1 to 4 stages run, and a run shorter than 4 ends in a failure. |
| `GenerateShort.Emitted` | app/api/generate-short/route.ts:133-169 | One announcement per stage started, in the fixed order, then exactly one closing record. Only the closing record is an error or a completion, and it is exactly one of the two. It is the completion iff all four stages succeeded, with the watch URL, script and prompt. Otherwise it is the error carrying the failed stage's message or the fallback. |
| `GenerateShort.DeployedRun` | app/api/generate-short/route.ts:141-155 | With the stages as shipped the video stage never fails and the upload always succeeds. A completed run links https://www.youtube.com/watch?v=dQw4w9WgXcQ whatever the topic. |
| `GenerateShort.StreamController.constructor` | app/api/generate-short/route.ts:126-127 | A new stream has no chunks, no records, and is open. |
| `GenerateShort.StreamController.Send` | app/api/generate-short/route.ts:129-131 | Sending appends exactly one chunk, `"data: " + stringify(record) + "\n\n"`, and keeps the stream open. |
| `GenerateShort.StreamController.Close` | app/api/generate-short/route.ts:164 | Closing sets the closed flag and changes no chunk; a closed stream cannot be closed again or written to. |
| `GenerateShort.Abort` | app/api/generate-short/route.ts:165-169 | The catch branch appends one error record with the message or the fallback, then closes. |
| `GenerateShort.Start` | app/api/generate-short/route.ts:128-170 | The start callback leaves the stream closed and holding exactly the records of `Emitted`, each framed. |
| `GenerateShort.Respond` | app/api/generate-short/route.ts:104-180 | A missing or empty topic gives 400 "Topic is required" whatever the cookie. A topic with a missing or empty cookie gives 401 "Not authenticated". Only a topic and a cookie give a stream, which holds the framed records of the run and is closed. |
| `GenerateShort.Post` | app/api/generate-short/route.ts:104-180 | The handler answers exactly as `Respond` says. |
| `Home.TrimEmptyIffBlank` | app/page.tsx:32 | `topic.trim()` is empty iff every character of the topic is ECMAScript white space. |
| `Home.Split` | app/page.tsx:64 | `split('\n')` gives at least one piece, no piece holds a line break, and joining the pieces with line breaks gives back the chunk. |
| `Home.SplitJoin` | app/page.tsx:64 | Splitting pieces joined with line breaks gives back the same pieces, when none of them holds a break. |
| `Home.Payload` | app/page.tsx:67-68 | Removing the first 6 characters of a `data: ` line leaves what followed the prefix. |
| `Home.DataPayloads` | app/page.tsx:66-68 | At most one payload per line. Each payload comes from a line that is `"data: "` followed by it, and every `data: ` line's payload is among them. |
| `Home.DataPayloadsOfLine` | app/page.tsx:66-68 | A single line gives its payload if it starts with `data: ` and nothing otherwise. |
| `Home.DataPayloadsAppend` | app/page.tsx:66-68 | The payloads of two runs of lines are the first run's followed by the second's. With `DataPayloadsOfLine` this fixes the result: every `data: ` line is decoded, in line order. |
| `Home.Apply` | app/page.tsx:70-80 | Each of status, error and videoUrl takes the record's value when that value is truthy and keeps its own otherwise. |
| `Home.FoldEventsAppend` | app/page.tsx:59-83 | Folding two runs of records one after the other equals folding them joined. |
| `Home.FoldKeepsUncarried` | app/page.tsx:70-80 | A field that no record of a run carries keeps its value. |
| `Home.FoldKeepsLastCarried` | app/page.tsx:70-80 | After a run of records, a field shows the last truthy value carried for it. |
| `Home.ConsumeLinesDecodesDataLines` | app/page.tsx:64-68 | Reading the lines of a chunk equals decoding just the payloads of its `data: ` lines, in order. Every other line, including the empty separators, leaves the view unchanged. |
| `Home.Handle` | app/page.tsx:42-89 | A fetch that throws shows its message or the fallback. A non-ok response shows "Failed to generate short". A response without a body leaves the view as reset. |
| `Home.HomePage.constructor` | app/page.tsx:6-10 | The page starts with an empty topic, status, link and error, and is not loading. |
| `Home.HomePage.Begin` | app/page.tsx:32-40 | A blank topic sets the error "Please enter a topic" and leaves loading, status and link untouched. Any other topic sets loading and resets the view: error and link empty, status "Generating script...". |
| `Home.HomePage.HandleGenerate` | app/page.tsx:31-90 | The blank-topic case is as in `Begin`. Otherwise loading is false on return and the view is `Handle` of the fetch outcome. The nested loops read the chunks and lines in order and stop at the first payload that does not parse. That error then shows its message, and the topic is never changed. |
| `RoundTrip.FrameSplit` | app/api/generate-short/route.ts:130 | A framed record whose payload has no line break splits into one `data: ` line and two empty pieces, and yields back exactly its payload. |
| `RoundTrip.ChunkPayloads` | app/page.tsx:63-68 | The `data: ` lines of a chunk of whole records carry exactly the records' payloads, in order. |
| `RoundTrip.DecodeAll` | app/page.tsx:68-80 | Payloads written by a lawful codec parse back without error and fold their records in order. |
| `RoundTrip.ChunkRoundTrip` | app/page.tsx:63-82 | Reading one chunk of whole records applies exactly those records and throws nothing. |
| `RoundTrip.StreamRoundTrip` | app/page.tsx:59-83 | However whole records are grouped into chunks, reading the stream folds every record in order and throws nothing. |
| `RoundTrip.AsEnqueued` | app/api/generate-short/route.ts:129-131 | The chunks exactly as the route enqueues them, one record each, fold into the view record by record. |
| `RoundTrip.RunView` | app/page.tsx:70-80 | After a run's records the view shows "Upload complete!", no error and the watch link for a completed run. For a failed run it shows the last stage announced, the error text and no link. |
| `RoundTrip.RegroupingKeepsText` | app/api/generate-short/route.ts:129-131 | Grouping the run's whole records into chunks in any way keeps the text of the stream the route enqueued. |
| `RoundTrip.EndToEnd` | app/page.tsx:42-89 | For a topic that passes the page's guard and is sent to the route, with the records grouped into chunks in any way that keeps each record whole: without a session the page shows "Failed to generate short". With a session it shows the run's completion or its error as in `RunView`. Either way exactly one of error and link is set. |

## Left out

- The OAuth routes (`app/api/auth/youtube`, `app/api/auth/callback`), the
  auth status route, `checkAuth`, the layout and all rendering: framework and
  SDK wrappers with no logic of their own.
- The language-model calls, the placeholder video and the real YouTube upload
  (`uploadToYouTube`, whose only call is commented out) are opaque stages. Their
  prompts, model names and request bodies are not modelled.
- JSON is an abstract codec. `JSON.parse` of the token cookie (route line 124)
  throws outside the stream's `try` on a malformed cookie. That case has no
  modelled response, and the parsed tokens are otherwise used only by the
  disabled upload.
- The request's `topic` is a string or missing; other JSON values (numbers,
  objects) are not modelled. Record fields are strings only, so truthy
  non-string values are not modelled.
- Lengths count characters, not UTF-16 code units, so a title cut inside a
  surrogate pair is not modelled.
- The page does not buffer across chunks, so a record split between two
  chunks is not reassembled. The round-trip lemmas therefore cover whole
  records only. A split record's halves go through `parse` like any other
  `data: ` line, and the model keeps that behaviour.
- The request body is taken to be a JSON object. When `request.json()` (route
  line 105) rejects a body that is not JSON, or destructuring a JSON `null`
  throws, the exception escapes `POST`. `Respond` has no outcome for that
  case.
- Stream cancellation is not modelled. If the consumer cancels the stream (the
  browser disconnects), `controller.enqueue` throws. The catch's own `send`
  (route line 167) then throws again, so no error record is written and the
  stream is never closed. `Start`'s promise of one closing record followed by
  close holds only for a stream that stays open to the end.
- A failing `reader.read()` is modelled as happening after the chunks it
  delivered (`Body.readError`).
- `TextEncoder`/`TextDecoder`, `async`/`await`, response headers, logging with
  `console.error`, and React's batching of state updates are left out. The
  setters are immediate field writes.
- In the shipped route the title and description are computed but used only
  by the disabled upload call. The model passes them to the abstract upload
  stage.
