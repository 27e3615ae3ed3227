/** The records that cross the boundary between the orchestration code and
    the generation SDK: result entries, uploaded files, generation responses
    and thrown values. */
module Types {
  import opened Wrappers

  /** One entry of a result list. Which fields are present depends on the
      function the model called: `text` for captions and sentences,
      `objects` for the table, `value` for the chart. */
  datatype Timecode = Timecode(
    time: string,
    text: Option<string>,
    objects: Option<seq<string>>,
    value: Option<real>)

  /** Whether an entry has a `text` field (`'text' in item`). */
  predicate HasText(t: Timecode) {
    t.text.Some?
  }

  datatype MediaType = Video | Audio

  /** The handle the file service returns: `UploadedFile` of api.ts. */
  datatype UploadedFile = UploadedFile(name: string, uri: string, mimeType: string, state: string)

  /** The arguments object of a function call; only its `timecodes` field is read. */
  datatype Args = Args(timecodes: Option<seq<Timecode>>)

  /** `functionCalls[0]` of a response: both fields may be missing. */
  datatype FunctionCall = FunctionCall(name: Option<string>, args: Option<Args>)

  /** The three parts of a generation response the code inspects: the first
      function call, the text, and the first candidate's finish reason. */
  datatype Response = Response(
    firstCall: Option<FunctionCall>,
    text: Option<string>,
    finishReason: Option<string>)

  /** A thrown value: an `Error` object with a message, or anything else. */
  datatype Thrown = ErrorObject(message: string) | NonErrorValue

  /** What one generation call does: resolve with a response or reject. */
  datatype Reply = Returned(response: Response) | Threw(thrown: Thrown)
}
