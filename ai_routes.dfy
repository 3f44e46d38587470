/**
 * The generation router: three POST routes, each running the authentication
 * middleware, then `validateRequest`, then its handler, which calls one
 * generator and turns its outcome into an HTTP reply.
 */
module AiRoutes {
  import opened Wrappers
  import opened AiService
  import opened Prompts

  const MissingFields := "Missing required fields"

  datatype Route = LessonPlanRoute | QuizRoute | HomeworkRoute

  /** A JSON request body; an absent or null field is None. */
  datatype Body = Body(subject: Option<string>, classLevel: Option<string>, chapter: Option<string>)

  /** A JSON reply body: `{content}` on success, `{message}` on failure. */
  datatype Json = ContentJson(content: string) | MessageJson(message: string)

  /**
   * What the client receives: the authentication middleware's own rejection
   * (its status and body belong to that middleware), or a status and a body.
   */
  datatype Reply = Unauthorized | Send(status: int, body: Json)

  /** The steps of the middleware chain, in the order they ran. */
  datatype Stage = Auth | Validate | Handler(route: Route)

  /** One request through the router: the stages run, the upstream requests sent, the reply. */
  datatype Exchange = Exchange(stages: seq<Stage>, sent: seq<Request>, reply: Reply)

  /** The outcome of one middleware: pass control on with `next()`, or answer and stop. */
  datatype Gate = Next | Halt(reply: Reply)

  /** The path each route is mounted on. */
  function PathOf(route: Route): string {
    match route
    case LessonPlanRoute => "/lesson-plan"
    case QuizRoute => "/quiz"
    case HomeworkRoute => "/homework"
  }

  /**
   * A regular expression's case-insensitive comparison of one character: an
   * ASCII capital letter compares as its small letter; other characters,
   * non-ASCII ones included, compare as themselves.
   */
  function FoldCase(c: char): char {
    if 'A' <= c <= 'Z' then (c as int + 32) as char else c
  }

  /**
   * Express's default matching of a path against a route's mount path:
   * case-insensitive, with one optional trailing `/`.
   */
  predicate Matches(path: string, mount: string) {
    && (|path| == |mount| || (|path| == |mount| + 1 && path[|mount|] == '/'))
    && forall i :: 0 <= i < |mount| ==> FoldCase(path[i]) == mount[i]
  }

  /** No path matches two mount paths: their second characters differ. */
  lemma {:induction false} MountsDisjoint(path: string, a: Route, b: Route)
    requires Matches(path, PathOf(a)) && Matches(path, PathOf(b))
    ensures a == b
  {
    assert FoldCase(path[1]) == PathOf(a)[1] == PathOf(b)[1];
  }

  /** The route, if any, that a POST to `path` reaches. */
  function RouteOf(path: string): (r: Option<Route>)
    ensures r.Some? ==> Matches(path, PathOf(r.value))
    ensures r.None? ==> forall route :: !Matches(path, PathOf(route))
    ensures r.Some? ==> forall route :: Matches(path, PathOf(route)) ==> route == r.value
  {
    assert forall a, b :: Matches(path, PathOf(a)) && Matches(path, PathOf(b)) ==> a == b by {
      forall a, b | Matches(path, PathOf(a)) && Matches(path, PathOf(b)) {
        MountsDisjoint(path, a, b);
      }
    }
    if Matches(path, "/lesson-plan") then Some(LessonPlanRoute)
    else if Matches(path, "/quiz") then Some(QuizRoute)
    else if Matches(path, "/homework") then Some(HomeworkRoute)
    else None
  }

  /** A field is truthy: present and not the empty string. */
  predicate Given(field: Option<string>) {
    field.Some? && field.value != ""
  }

  predicate Complete(body: Body) {
    Given(body.subject) && Given(body.classLevel) && Given(body.chapter)
  }

  /** `validateRequest`: a 400 unless all three fields are given, otherwise `next()`. */
  function ValidateRequest(body: Body): (g: Gate)
    ensures g.Next? <==> Complete(body)
    ensures g.Halt? ==> g.reply == Send(400, MessageJson(MissingFields))
  {
    if !Given(body.subject) || !Given(body.classLevel) || !Given(body.chapter) then
      Halt(Send(400, MessageJson(MissingFields)))
    else
      Next
  }

  /** The generator a route's handler awaits. */
  function Generate(route: Route, apiKey: Option<string>, subject: string, classLevel: string, chapter: string,
                    upstream: Request -> Outcome): (c: Call)
    ensures c.sent == if KeyMissing(apiKey) then [] else [RequestFor(apiKey.value, PromptOf(route, subject, classLevel, chapter))]
    ensures KeyMissing(apiKey) ==> c.result == Failure(Error(KeyNotFound, None))
    ensures !KeyMissing(apiKey) ==> Answered(upstream(c.sent[0]), c.result)
  {
    match route
    case LessonPlanRoute => GenerateLessonPlan(apiKey, subject, classLevel, chapter, upstream)
    case QuizRoute => GenerateQuiz(apiKey, subject, classLevel, chapter, upstream)
    case HomeworkRoute => GenerateHomework(apiKey, subject, classLevel, chapter, upstream)
  }

  /** The prompt each route sends. */
  function PromptOf(route: Route, subject: string, classLevel: string, chapter: string): string {
    match route
    case LessonPlanRoute => LessonPlanPrompt(subject, classLevel, chapter)
    case QuizRoute => QuizPrompt(subject, classLevel, chapter)
    case HomeworkRoute => HomeworkPrompt(subject, classLevel, chapter)
  }

  /** The handler's try/catch: the result as `{content}`, any thrown error as a 500 with its message. */
  function Respond(result: Result<string, Error>): (reply: Reply)
    ensures result.Success? ==> reply == Send(200, ContentJson(result.value))
    ensures result.Failure? ==> reply == Send(500, MessageJson(result.error.message))
  {
    match result
    case Success(content) => Send(200, ContentJson(content))
    case Failure(e) => Send(500, MessageJson(e.message))
  }

  /**
   * A POST to one route: `auth`, then `validateRequest`, then the handler.
   * Each middleware either passes control on or answers and ends the chain.
   */
  function Handle(route: Route, authenticated: bool, body: Body, apiKey: Option<string>,
                  upstream: Request -> Outcome): (x: Exchange)
    ensures 1 <= |x.stages| <= 3 && x.stages == [Auth, Validate, Handler(route)][..|x.stages|]
    ensures x.sent != [] ==> x.stages == [Auth, Validate, Handler(route)]
    ensures !authenticated <==> x.reply == Unauthorized
    ensures !authenticated ==> x == Exchange([Auth], [], Unauthorized)
    ensures authenticated && !Complete(body) ==> x == Exchange([Auth, Validate], [], Send(400, MessageJson(MissingFields)))
    ensures authenticated && Complete(body) ==> x.stages == [Auth, Validate, Handler(route)] && x.reply.Send? && x.reply.status in {200, 500}
  {
    if !authenticated then
      Exchange([Auth], [], Unauthorized)
    else
      match ValidateRequest(body)
      case Halt(reply) => Exchange([Auth, Validate], [], reply)
      case Next =>
        var call := Generate(route, apiKey, body.subject.value, body.classLevel.value, body.chapter.value, upstream);
        Exchange([Auth, Validate, Handler(route)], call.sent, Respond(call.result))
  }

  /** A POST to the router: the matching route handles it; any other path falls through to None. */
  function Post(path: string, authenticated: bool, body: Body, apiKey: Option<string>,
                upstream: Request -> Outcome): (x: Option<Exchange>)
    ensures x.Some? <==> exists route :: Matches(path, PathOf(route))
    ensures forall route :: Matches(path, PathOf(route)) ==> x == Some(Handle(route, authenticated, body, apiKey, upstream))
  {
    match RouteOf(path)
    case None => None
    case Some(route) => Some(Handle(route, authenticated, body, apiKey, upstream))
  }

  // ---------------------------------------------------------------------
  // Properties of the router

  /**
   * Each route is reached through its own mount path, in any letter case and
   * with or without a trailing `/`, and through no path another route matches.
   */
  lemma RoutingRoundTrip(route: Route, path: string)
    ensures RouteOf(PathOf(route)) == Some(route)
    ensures RouteOf(PathOf(route) + "/") == Some(route)
    ensures RouteOf(path) == Some(route) <==> Matches(path, PathOf(route))
  {
  }

  /**
   * A complete request from an authenticated caller sends exactly the
   * route's own prompt upstream (when a key is configured), and replies with
   * the generator's text as `{content}` or its error message as a 500.
   */
  lemma HandlerDispatch(route: Route, body: Body, apiKey: Option<string>, upstream: Request -> Outcome)
    requires Complete(body)
    ensures var x := Handle(route, true, body, apiKey, upstream);
            var prompt := PromptOf(route, body.subject.value, body.classLevel.value, body.chapter.value);
            var call := GenerateContent(apiKey, prompt, upstream);
            && x.sent == (if KeyMissing(apiKey) then [] else [RequestFor(apiKey.value, prompt)])
            && x.reply == Respond(call.result)
  {
  }

  /** The three routes send three different prompts for the same body. */
  lemma RoutesSendDistinctPrompts(r1: Route, r2: Route, subject: string, classLevel: string, chapter: string)
    requires r1 != r2
    ensures PromptOf(r1, subject, classLevel, chapter) != PromptOf(r2, subject, classLevel, chapter)
  {
    PromptsDiffer(subject, classLevel, chapter, subject, classLevel, chapter);
  }

  /** A request missing a field never reaches a generator, so nothing is sent upstream. */
  lemma IncompleteRequestSendsNothing(route: Route, authenticated: bool, body: Body, apiKey: Option<string>,
                                      upstream: Request -> Outcome)
    requires !Complete(body)
    ensures Handle(route, authenticated, body, apiKey, upstream).sent == []
    ensures Handler(route) !in Handle(route, authenticated, body, apiKey, upstream).stages
  {
  }

  /** An upstream 429 reaches the client as a 500 carrying the rate-limit message. */
  lemma RateLimitReply(route: Route, body: Body, apiKey: Option<string>, upstream: Request -> Outcome, message: string)
    requires Complete(body) && !KeyMissing(apiKey)
    requires upstream(RequestFor(apiKey.value, PromptOf(route, body.subject.value, body.classLevel.value, body.chapter.value)))
               == Threw(Error(message, Some(429)))
    ensures Handle(route, true, body, apiKey, upstream).reply == Send(500, MessageJson(TooManyRequests))
  {
    HandlerDispatch(route, body, apiKey, upstream);
  }

  /** Without a configured key, a complete request is answered 500 with the key-not-found message. */
  lemma MissingKeyReply(route: Route, body: Body, apiKey: Option<string>, upstream: Request -> Outcome)
    requires Complete(body) && KeyMissing(apiKey)
    ensures Handle(route, true, body, apiKey, upstream) ==
              Exchange([Auth, Validate, Handler(route)], [], Send(500, MessageJson(KeyNotFound)))
  {
    HandlerDispatch(route, body, apiKey, upstream);
  }
}
