/** The progress-record contract shared by the generate-short route, which
    writes the records, and the home page, which reads them. */
module Events {

  datatype Option<+T> = None | Some(value: T)

  /** A value, or the message of the error thrown instead of producing it. */
  datatype Result<+T> = Ok(value: T) | Err(message: string)

  /** One progress record. A key that the record does not carry is modelled as
      the empty string: both are falsy, and the page only tests truthiness. */
  datatype Event = Event(status: string, error: string, videoUrl: string, script: string, videoPrompt: string)

  const CompleteStatus: string := "Upload complete!"

  /** The text both sides fall back to when an error carries no message. */
  const GenericFailure: string := "Failed to generate short"

  /** `{ status }` */
  function StatusEvent(status: string): Event
  {
    Event(status, "", "", "", "")
  }

  /** `{ error }` */
  function ErrorEvent(message: string): Event
  {
    Event("", message, "", "", "")
  }

  /** `{ status: 'Upload complete!', videoUrl, script, videoPrompt }` */
  function CompleteEvent(videoUrl: string, script: string, videoPrompt: string): Event
  {
    Event(CompleteStatus, "", videoUrl, script, videoPrompt)
  }

  predicate IsError(e: Event)
  {
    e.error != ""
  }

  predicate IsComplete(e: Event)
  {
    e.status == CompleteStatus
  }

  /** `message || 'Failed to generate short'`: the text shown for a caught error. */
  function OrGenericFailure(message: string): (text: string)
    ensures text != ""
    ensures message != "" ==> text == message
    ensures message == "" ==> text == GenericFailure
  {
    if message != "" then message else GenericFailure
  }

  const DataPrefix: string := "data: "

  /** One server-sent record: the payload behind the `data: ` field name and
      closed by a blank line. */
  function Frame(payload: string): string
  {
    DataPrefix + payload + "\n\n"
  }

  /** The records written for `events`, one per event, in order. */
  function Frames(stringify: Event -> string, events: seq<Event>): seq<string>
  {
    seq(|events|, i requires 0 <= i < |events| => Frame(stringify(events[i])))
  }

  /** The JSON encoding of a record (`JSON.stringify` on the route,
      `JSON.parse` on the page). A parse that throws is an `Err` carrying the
      thrown message. */
  datatype Codec = Codec(stringify: Event -> string, parse: string -> Result<Event>)

  /** What the model assumes of JSON: a serialised record holds no raw line
      break (`JSON.stringify` escapes them) and parses back to itself. */
  ghost predicate Lawful(codec: Codec)
  {
    forall e: Event :: '\n' !in codec.stringify(e) && codec.parse(codec.stringify(e)) == Ok(e)
  }
}
