/** The `process_music_callback` tool: what its handler does with the reply of
    the music-generation service once the HTTP request has returned.

    The request itself is not modelled; its result is the input `Outcome`.
    The handler's `try` block is `Process` followed by `Success`, its `catch`
    block is `Failure`, and the whole handler is `Handle`, a total function:
    the handler never throws to its caller. */
module MusicCallback {
  import opened Wrappers

  /** A job record as the service returns it. Every field is a string; the
      JSON key `type` is called `kind` here and the snake_case keys are
      written in camelCase. */
  datatype MusicInfo = MusicInfo(
    id: string,
    title: string,
    imageUrl: string,
    lyric: string,
    audioUrl: string,
    videoUrl: string,
    createdAt: string,
    modelName: string,
    status: string,
    prompt: string,
    kind: string,
    tags: string)

  /** The tri-state status of the envelope. */
  datatype Status = Pending | Complete | Error

  /** The envelope returned to the caller. */
  datatype MusicCallbackResponse = MusicCallbackResponse(
    data: Option<MusicInfo>,
    error: Option<string>,
    status: Status,
    hasImage: bool,
    hasAudio: bool,
    hasVideo: bool)

  /** What a `throw` carries to the `catch` block: an `Error` object with its
      message, or any other thrown value. */
  datatype Thrown = ErrorObject(message: string) | OtherValue

  /** One element of the parsed array: a falsy value (null, undefined, 0, "",
      false) or a job record. */
  datatype Element = Falsy | Record(info: MusicInfo)

  /** The parsed JSON body: anything that is not an array, or an array. */
  datatype Body = NotAnArray | Array(elements: seq<Element>)

  /** What the request step hands over: a failure thrown by the transport or
      the JSON parser, or the parsed body. */
  datatype Outcome = Failed(thrown: Thrown) | Fetched(body: Body)

  const InvalidFormatMessage := "Invalid response format"
  const NotFoundMessage := "Music info not found"
  const UnknownErrorMessage := "Unknown error occurred"

  /** The body has the accepted shape: an array with at least one element. */
  predicate IsNonEmptyArray(body: Body) {
    body.Array? && |body.elements| > 0
  }

  /** The body has the accepted shape and its first element is a record. */
  predicate HasFirstRecord(body: Body) {
    IsNonEmptyArray(body) && body.elements[0].Record?
  }

  /** JavaScript's `!!s` on a string: only the empty string is falsy. */
  function Truthy(s: string): (b: bool)
    ensures b <==> |s| > 0
  {
    s != ""
  }

  /** The nested ternary on the raw status: a closed three-way classification
      with `Pending` as the catch-all for every other string. */
  function ClassifyStatus(raw: string): (s: Status)
    ensures s == Complete <==> raw == "complete"
    ensures s == Error <==> raw == "error"
    ensures s == Pending <==> raw != "complete" && raw != "error"
  {
    if raw == "complete" then Complete
    else if raw == "error" then Error
    else Pending
  }

  /** The shape check and the extraction of the first element. */
  function FirstRecord(body: Body): (r: Result<MusicInfo, Thrown>)
    ensures r.Ok? <==> HasFirstRecord(body)
    ensures r.Ok? ==> r.value == body.elements[0].info
    ensures r == Err(ErrorObject(InvalidFormatMessage)) <==> !IsNonEmptyArray(body)
    ensures r == Err(ErrorObject(NotFoundMessage)) <==> IsNonEmptyArray(body) && body.elements[0].Falsy?
  {
    if !IsNonEmptyArray(body) then Err(ErrorObject(InvalidFormatMessage))
    else
      match body.elements[0]
      case Falsy => Err(ErrorObject(NotFoundMessage))
      case Record(info) => Ok(info)
  }

  /** The `try` block after the request: a transport failure propagates as
      thrown, a parsed body goes through the shape check. */
  function Process(o: Outcome): (r: Result<MusicInfo, Thrown>)
    ensures o.Failed? ==> r == Err(o.thrown)
    ensures r.Ok? <==> o.Fetched? && HasFirstRecord(o.body)
    ensures r.Ok? ==> r.value == o.body.elements[0].info
    ensures o.Fetched? && !IsNonEmptyArray(o.body) ==> r == Err(ErrorObject(InvalidFormatMessage))
    ensures o.Fetched? && IsNonEmptyArray(o.body) && o.body.elements[0].Falsy? ==>
              r == Err(ErrorObject(NotFoundMessage))
  {
    match o
    case Failed(t) => Err(t)
    case Fetched(body) => FirstRecord(body)
  }

  /** The message the `catch` block reports for a thrown value. */
  function CatchMessage(t: Thrown): (m: string)
    ensures t.ErrorObject? ==> m == t.message
    ensures t.OtherValue? ==> m == UnknownErrorMessage
  {
    match t
    case ErrorObject(message) => message
    case OtherValue => UnknownErrorMessage
  }

  /** The envelope a successful lookup returns: it carries the record, and
      its flags follow the record's locators whatever the status is. */
  function Success(info: MusicInfo): (r: MusicCallbackResponse)
    ensures IsSuccessEnvelope(r) && r.data == Some(info)
  {
    MusicCallbackResponse(
      Some(info), None, ClassifyStatus(info.status),
      Truthy(info.imageUrl), Truthy(info.audioUrl), Truthy(info.videoUrl))
  }

  /** The envelope the `catch` block returns, the same for every cause but
      for its message. */
  function Failure(t: Thrown): (r: MusicCallbackResponse)
    ensures IsFailureEnvelope(r) && r.error == Some(CatchMessage(t))
  {
    MusicCallbackResponse(None, Some(CatchMessage(t)), Error, false, false, false)
  }

  /** A success envelope: the record is present, no error, the status is the
      classification of the record's own status, and each flag says whether
      the matching locator is non-empty. */
  predicate IsSuccessEnvelope(r: MusicCallbackResponse) {
    && r.data.Some?
    && r.error.None?
    && r.status == ClassifyStatus(r.data.value.status)
    && r.hasImage == (r.data.value.imageUrl != "")
    && r.hasAudio == (r.data.value.audioUrl != "")
    && r.hasVideo == (r.data.value.videoUrl != "")
  }

  /** A failure envelope: no record, a message, status `Error`, no flags. */
  predicate IsFailureEnvelope(r: MusicCallbackResponse) {
    && r.data.None?
    && r.error.Some?
    && r.status == Error
    && !r.hasImage && !r.hasAudio && !r.hasVideo
  }

  /** An envelope the handler can return: one of the two shapes. */
  predicate WellFormed(r: MusicCallbackResponse) {
    IsSuccessEnvelope(r) || IsFailureEnvelope(r)
  }

  /** The handler after the request: total, never throws, and returns a
      success envelope exactly when the body is a non-empty array whose first
      element is a record. */
  function Handle(o: Outcome): (r: MusicCallbackResponse)
    ensures WellFormed(r)
    ensures r.data.Some? <==> r.error.None?
    ensures IsSuccessEnvelope(r) <==> o.Fetched? && HasFirstRecord(o.body)
    ensures o.Fetched? && HasFirstRecord(o.body) ==> r.data == Some(o.body.elements[0].info)
    ensures o.Fetched? && !IsNonEmptyArray(o.body) ==> r.error == Some(InvalidFormatMessage)
    ensures o.Fetched? && IsNonEmptyArray(o.body) && o.body.elements[0].Falsy? ==>
              r.error == Some(NotFoundMessage)
    ensures o.Failed? && o.thrown.ErrorObject? ==> r.error == Some(o.thrown.message)
    ensures o.Failed? && o.thrown.OtherValue? ==> r.error == Some(UnknownErrorMessage)
    ensures r.data.None? ==> r.status == Error && !r.hasImage && !r.hasAudio && !r.hasVideo
  {
    match Process(o)
    case Ok(info) => Success(info)
    case Err(t) => Failure(t)
  }
}
