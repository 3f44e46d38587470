/**
 * The generation service: the single call to the upstream generative-language
 * API, with its key guard, response extraction and status-to-message mapping,
 * and the three generators that send it a prompt from `Prompts`. The HTTP
 * exchange itself is a parameter, `upstream`, that answers a request with an
 * abstract outcome.
 */
module AiService {
  import opened Wrappers
  import opened Prompts

  const ApiUrl := "https://generativelanguage.googleapis.com/v1beta/models/gemini-2.0-flash:generateContent"

  const KeyNotFound := "Gemini API key not found. Please add GEMINI_API_KEY to your .env file"
  const InvalidFormat := "Invalid response format from Gemini API"
  const InvalidKey := "Invalid API key. Please check your GEMINI_API_KEY in the .env file"
  const BadRequest := "Bad request. Please check the prompt format"
  const NoPermission := "API key does not have permission to access Gemini API"
  const TooManyRequests := "Too many requests. Please try again later"

  // The JSON shapes shared by the request body and the response envelope;
  // an absent (or null) member is None.
  datatype Part = Part(text: Option<string>)
  datatype Content = Content(parts: Option<seq<Part>>)
  datatype Candidate = Candidate(content: Option<Content>)
  datatype Envelope = Envelope(candidates: Option<seq<Candidate>>)

  /** The POST the service sends: the URL carrying the key, and the `contents` of the body. */
  datatype Request = Request(url: string, contents: seq<Content>)

  /** A thrown error: its message, and the HTTP status of the response it carries, if any. */
  datatype Error = Error(message: string, status: Option<int>)

  /** What the HTTP call yields: a response with its (possibly absent) data, or a thrown error. */
  datatype Outcome = Responded(data: Option<Envelope>) | Threw(error: Error)

  /** One call of the service: the requests it sent, in order, and what it returned or threw. */
  datatype Call = Call(sent: seq<Request>, result: Result<string, Error>)

  /** The configured key is falsy: unset, or set to the empty string. */
  predicate KeyMissing(apiKey: Option<string>) {
    apiKey.None? || apiKey.value == ""
  }

  /** The request for a prompt: the key in the query string, the prompt as the one part of the one content. */
  function RequestFor(key: string, prompt: string): (r: Request)
    ensures |r.url| == |ApiUrl| + 5 + |key|
    ensures r.url[..|ApiUrl|] == ApiUrl && r.url[|ApiUrl|..|ApiUrl| + 5] == "?key=" && r.url[|ApiUrl| + 5..] == key
    ensures |r.contents| == 1 && r.contents[0].parts == Some([Part(Some(prompt))])
  {
    Request(ApiUrl + "?key=" + key, [Content(Some([Part(Some(prompt))]))])
  }

  /**
   * Reads `candidates[0].content.parts[0].text` through optional chaining; a
   * missing link or an empty (falsy) text gives None.
   */
  function ExtractText(data: Option<Envelope>): (r: Option<string>)
    ensures r.Some? <==>
              && data.Some? && data.value.candidates.Some? && |data.value.candidates.value| > 0
              && data.value.candidates.value[0].content.Some?
              && data.value.candidates.value[0].content.value.parts.Some?
              && |data.value.candidates.value[0].content.value.parts.value| > 0
              && data.value.candidates.value[0].content.value.parts.value[0].text.Some?
              && data.value.candidates.value[0].content.value.parts.value[0].text.value != ""
    ensures r.Some? ==> r.value == data.value.candidates.value[0].content.value.parts.value[0].text.value
  {
    match data
    case None => None
    case Some(Envelope(None)) => None
    case Some(Envelope(Some(cands))) =>
      if |cands| == 0 then None
      else match cands[0].content
        case None => None
        case Some(Content(None)) => None
        case Some(Content(Some(parts))) =>
          if |parts| == 0 then None
          else match parts[0].text
            case None => None
            case Some(t) => if t == "" then None else Some(t)
  }

  /** The message that replaces a thrown error with upstream status 401, 400, 403 or 429. */
  function StatusMessage(status: Option<int>): (m: Option<string>)
    ensures m.Some? <==> status in {Some(401), Some(400), Some(403), Some(429)}
  {
    match status
    case Some(401) => Some(InvalidKey)
    case Some(400) => Some(BadRequest)
    case Some(403) => Some(NoPermission)
    case Some(429) => Some(TooManyRequests)
    case _ => None
  }

  /**
   * The catch block: a mapped status becomes a fresh error (which carries no
   * response), any other error is rethrown as it is.
   */
  function Rethrow(e: Error): (r: Error)
    ensures StatusMessage(e.status).None? ==> r == e
    ensures StatusMessage(e.status).Some? ==> r == Error(StatusMessage(e.status).value, None)
  {
    match StatusMessage(e.status)
    case Some(m) => Error(m, None)
    case None => e
  }

  /**
   * How one upstream outcome settles the call: a response with a first text
   * succeeds with that text, a response without one fails with the format
   * error, and a thrown error fails with what the catch block makes of it.
   */
  predicate Answered(o: Outcome, result: Result<string, Error>) {
    && (o.Responded? && ExtractText(o.data).Some? ==> result == Success(ExtractText(o.data).value))
    && (o.Responded? && ExtractText(o.data).None? ==> result == Failure(Error(InvalidFormat, None)))
    && (o.Threw? ==> result == Failure(Rethrow(o.error)))
  }

  /**
   * `generateContent(prompt)`: fails on a missing key before sending
   * anything; otherwise sends exactly one request and returns the first
   * candidate's text, every error (the format error included) going through
   * the catch block.
   */
  function GenerateContent(apiKey: Option<string>, prompt: string, upstream: Request -> Outcome): (c: Call)
    ensures KeyMissing(apiKey) ==> c == Call([], Failure(Error(KeyNotFound, None)))
    ensures !KeyMissing(apiKey) ==> c.sent == [RequestFor(apiKey.value, prompt)]
    ensures c.result.Success? ==>
              && !KeyMissing(apiKey)
              && upstream(c.sent[0]).Responded?
              && ExtractText(upstream(c.sent[0]).data) == Some(c.result.value)
              && c.result.value != ""
    ensures !KeyMissing(apiKey) ==> Answered(upstream(RequestFor(apiKey.value, prompt)), c.result)
  {
    if KeyMissing(apiKey) then
      Call([], Failure(Error(KeyNotFound, None)))
    else
      var request := RequestFor(apiKey.value, prompt);
      var attempt: Result<string, Error> :=
        match upstream(request)
        case Threw(e) => Failure(e)
        case Responded(data) =>
          match ExtractText(data)
          case Some(t) => Success(t)
          case None => Failure(Error(InvalidFormat, None));
      var result := match attempt
        case Success(t) => Success(t)
        case Failure(e) => Failure(Rethrow(e));
      Call([request], result)
  }

  /** `generateLessonPlan`: one upstream call with the lesson-plan prompt. */
  function GenerateLessonPlan(apiKey: Option<string>, subject: string, classLevel: string, chapter: string,
                              upstream: Request -> Outcome): (c: Call)
    ensures c.sent == if KeyMissing(apiKey) then [] else [RequestFor(apiKey.value, LessonPlanPrompt(subject, classLevel, chapter))]
    ensures KeyMissing(apiKey) ==> c.result == Failure(Error(KeyNotFound, None))
    ensures !KeyMissing(apiKey) ==> Answered(upstream(c.sent[0]), c.result)
    ensures c.result.Success? ==> c.result.value != ""
  {
    GenerateContent(apiKey, LessonPlanPrompt(subject, classLevel, chapter), upstream)
  }

  /** `generateQuiz`: one upstream call with the quiz prompt. */
  function GenerateQuiz(apiKey: Option<string>, subject: string, classLevel: string, chapter: string,
                        upstream: Request -> Outcome): (c: Call)
    ensures c.sent == if KeyMissing(apiKey) then [] else [RequestFor(apiKey.value, QuizPrompt(subject, classLevel, chapter))]
    ensures KeyMissing(apiKey) ==> c.result == Failure(Error(KeyNotFound, None))
    ensures !KeyMissing(apiKey) ==> Answered(upstream(c.sent[0]), c.result)
    ensures c.result.Success? ==> c.result.value != ""
  {
    GenerateContent(apiKey, QuizPrompt(subject, classLevel, chapter), upstream)
  }

  /** `generateHomework`: one upstream call with the homework prompt. */
  function GenerateHomework(apiKey: Option<string>, subject: string, classLevel: string, chapter: string,
                            upstream: Request -> Outcome): (c: Call)
    ensures c.sent == if KeyMissing(apiKey) then [] else [RequestFor(apiKey.value, HomeworkPrompt(subject, classLevel, chapter))]
    ensures KeyMissing(apiKey) ==> c.result == Failure(Error(KeyNotFound, None))
    ensures !KeyMissing(apiKey) ==> Answered(upstream(c.sent[0]), c.result)
    ensures c.result.Success? ==> c.result.value != ""
  {
    GenerateContent(apiKey, HomeworkPrompt(subject, classLevel, chapter), upstream)
  }

  // ---------------------------------------------------------------------
  // Properties of the call

  /** The four mapped messages are pairwise distinct, and distinct from the key and format errors. */
  lemma StatusMessagesDistinct(s1: int, s2: int)
    requires StatusMessage(Some(s1)).Some? && StatusMessage(Some(s2)).Some?
    ensures StatusMessage(Some(s1)) == StatusMessage(Some(s2)) <==> s1 == s2
    ensures StatusMessage(Some(s1)).value != KeyNotFound && StatusMessage(Some(s1)).value != InvalidFormat
  {
    // the six messages have six different lengths
    assert |KeyNotFound| == 69 && |InvalidFormat| == 39 && |InvalidKey| == 66;
    assert |BadRequest| == 43 && |NoPermission| == 53 && |TooManyRequests| == 41;
  }

  /** A thrown error with upstream status 429 reaches the caller as the rate-limit message. */
  lemma RateLimitedCall(apiKey: Option<string>, prompt: string, upstream: Request -> Outcome, message: string)
    requires !KeyMissing(apiKey)
    requires upstream(RequestFor(apiKey.value, prompt)) == Threw(Error(message, Some(429)))
    ensures GenerateContent(apiKey, prompt, upstream).result == Failure(Error(TooManyRequests, None))
  {
  }

  /**
   * A response without the expected text, an empty text included, is the
   * format error; the catch block passes it on with its message intact
   * because it carries no response status.
   */
  lemma MissingTextIsFormatError(apiKey: Option<string>, prompt: string, upstream: Request -> Outcome)
    requires !KeyMissing(apiKey)
    requires upstream(RequestFor(apiKey.value, prompt)).Responded?
    requires ExtractText(upstream(RequestFor(apiKey.value, prompt)).data).None?
    ensures GenerateContent(apiKey, prompt, upstream).result == Failure(Error(InvalidFormat, None))
  {
    assert StatusMessage(None).None?;
  }

  /** Any error whose status is not one of the four mapped ones is rethrown unchanged. */
  lemma UnmappedErrorsPassThrough(apiKey: Option<string>, prompt: string, upstream: Request -> Outcome, e: Error)
    requires !KeyMissing(apiKey)
    requires upstream(RequestFor(apiKey.value, prompt)) == Threw(e)
    requires e.status !in {Some(401), Some(400), Some(403), Some(429)}
    ensures GenerateContent(apiKey, prompt, upstream).result == Failure(e)
  {
  }

  /**
   * Extraction reads back exactly what the request writes: if the upstream
   * answers with the request's own content as its first candidate, the call
   * returns the prompt, unless the prompt is empty.
   */
  lemma EchoRoundTrip(apiKey: Option<string>, prompt: string, upstream: Request -> Outcome, more: seq<Candidate>)
    requires !KeyMissing(apiKey)
    requires upstream(RequestFor(apiKey.value, prompt))
               == Responded(Some(Envelope(Some([Candidate(Some(RequestFor(apiKey.value, prompt).contents[0]))] + more))))
    ensures prompt != "" ==> GenerateContent(apiKey, prompt, upstream).result == Success(prompt)
    ensures prompt == "" ==> GenerateContent(apiKey, prompt, upstream).result == Failure(Error(InvalidFormat, None))
  {
  }
}
