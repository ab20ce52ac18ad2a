/** The API gateway: one HTTP client with a base address, a request
    interceptor that attaches the stored token as a bearer credential
    (section 2.1 of RFC 6750), a response interceptor that drops the stored
    token and sends the user to `/login` on 401 Unauthorized (section 15.5.2
    of RFC 9110), and one thin wrapper per backend endpoint. */
module Api {
  import opened Outcomes

  const DefaultBaseUrl := "http://localhost:5000"

  /** `process.env.REACT_APP_API_URL || 'http://localhost:5000'`: the configured
      address unless it is unset or empty. */
  function BaseUrl(configured: Option<string>): (url: string)
    ensures configured.Some? && configured.value != "" ==> url == configured.value
    ensures configured.None? || configured.value == "" ==> url == DefaultBaseUrl
  {
    OrString(configured, DefaultBaseUrl)
  }

  datatype Method = Get | Post | Put

  /** A request body: none, the caller's object forwarded as it is, or the
      caller's value wrapped as the only property of a fresh object
      (`{ answers }`). */
  datatype Body<P> = NoBody | Payload(payload: P) | Wrapped(key: string, value: P)

  /** What an endpoint wrapper hands to the client: HTTP method, path, body. */
  datatype Call<P> = Call(verb: Method, path: string, body: Body<P>)

  // Authentication
  function Login<P>(credentials: P): Call<P> { Call(Post, "/api/auth/login", Payload(credentials)) }
  function Register<P>(userData: P): Call<P> { Call(Post, "/api/auth/register", Payload(userData)) }
  function GetProfile<P>(): Call<P> { Call(Get, "/api/auth/profile", NoBody) }
  function UpdateProfile<P>(updates: P): Call<P> { Call(Put, "/api/auth/profile", Payload(updates)) }

  // Learning sessions
  function StartSession<P>(sessionData: P): Call<P> { Call(Post, "/api/learning/session/start", Payload(sessionData)) }
  function GetRecommendations<P>(): Call<P> { Call(Get, "/api/learning/recommendations", NoBody) }
  function Chat<P>(chatData: P): Call<P> { Call(Post, "/api/learning/chat", Payload(chatData)) }
  function GetSessions<P>(): Call<P> { Call(Get, "/api/learning/sessions", NoBody) }
  function EndSession<P>(sessionId: string): Call<P> { Call(Put, "/api/learning/session/" + sessionId + "/end", NoBody) }

  // Quizzes
  function GenerateQuiz<P>(quizData: P): Call<P> { Call(Post, "/api/quizzes/generate", Payload(quizData)) }
  function GetQuizzes<P>(): Call<P> { Call(Get, "/api/quizzes", NoBody) }
  function GetQuiz<P>(quizId: string): Call<P> { Call(Get, "/api/quizzes/" + quizId, NoBody) }
  function SubmitQuiz<P>(quizId: string, answers: P): Call<P> { Call(Post, "/api/quizzes/" + quizId + "/submit", Wrapped("answers", answers)) }
  function GetAnalytics<P>(): Call<P> { Call(Get, "/api/quizzes/analytics/overview", NoBody) }

  // Translation
  function Translate<P>(translationData: P): Call<P> { Call(Post, "/api/translation/translate", Payload(translationData)) }
  function GetLanguages<P>(): Call<P> { Call(Get, "/api/translation/languages", NoBody) }
  function TranslateEducationalContent<P>(contentData: P): Call<P> { Call(Post, "/api/translation/educational-content", Payload(contentData)) }
  function TranslateQuiz<P>(quizData: P): Call<P> { Call(Post, "/api/translation/quiz-translate", Payload(quizData)) }

  /** What the server dispatches a call on: its method and its path. */
  function Route<P>(c: Call<P>): (Method, string) {
    (c.verb, c.path)
  }

  /** The routes of the wrappers whose path is fixed, in declaration order. */
  function FixedRoutes<P>(p: P): seq<(Method, string)> {
    [Route(Login(p)), Route(Register(p)), Route(GetProfile<P>()), Route(UpdateProfile(p)),
     Route(StartSession(p)), Route(GetRecommendations<P>()), Route(Chat(p)), Route(GetSessions<P>()),
     Route(GenerateQuiz(p)), Route(GetQuizzes<P>()), Route(GetAnalytics<P>()),
     Route(Translate(p)), Route(GetLanguages<P>()), Route(TranslateEducationalContent(p)), Route(TranslateQuiz(p))]
  }

  /** No two fixed-path wrappers share a route, so each call reaches the one
      backend handler it is written for; the profile path is shared only by
      the read (GET) and the update (PUT). */
  lemma FixedRoutesDistinct<P>(p: P)
    ensures |FixedRoutes(p)| == 15
    ensures forall i, j :: 0 <= i < j < |FixedRoutes(p)| ==> FixedRoutes(p)[i] != FixedRoutes(p)[j]
  {
  }

  /** A quiz identifier is put into the path verbatim: one without a `/` never
      reaches a fixed-path endpoint. */
  lemma QuizRoutesAvoidFixed<P>(id: string, p: P)
    requires '/' !in id
    ensures Route(GetQuiz<P>(id)) !in FixedRoutes(p)
  {
    var q := GetQuiz<P>(id).path;
    var fs := FixedRoutes(p);
    forall i | 0 <= i < |fs|
      ensures fs[i] != (Get, q)
    {
      if i == 9 {
        assert |fs[i].1| < 13 <= |q|;
      } else if i == 10 {
        if |id| == 18 {
          assert q[22] == id[9] != '/' == fs[i].1[22];
        }
      } else if fs[i].0 == Get {
        assert fs[i].1[5] != 'q' == q[5];
      }
    }
  }

  /** Nothing escapes a quiz identifier either: the identifier
      `analytics/overview` fetches the analytics instead of a quiz. */
  lemma AnalyticsIdCollides<P>()
    ensures Route(GetQuiz<P>("analytics/overview")) == Route(GetAnalytics<P>())
  {
    var a := GetQuiz<P>("analytics/overview").path;
    var b := GetAnalytics<P>().path;
    assert |a| == |b|;
    forall k | 0 <= k < |a|
      ensures a[k] == b[k]
    {
      if k < 13 {
        assert a[k] == "/api/quizzes/"[k];
      } else {
        assert a[k] == "analytics/overview"[k - 13];
      }
    }
    assert a == b;
  }

  /** `s` with `prefix` cut off its front, when `s` starts with it. */
  function StripPrefix(s: string, prefix: string): (r: Option<string>)
    ensures r.Some? <==> |prefix| <= |s| && s[..|prefix|] == prefix
    ensures r.Some? ==> prefix + r.value == s
  {
    if |prefix| <= |s| && s[..|prefix|] == prefix then
      assert prefix + s[|prefix|..] == s;
      Some(s[|prefix|..])
    else None
  }

  /** The identifier-carrying paths are the resource's path with the identifier
      appended verbatim: the quiz path gives the id back, the submit path is
      the quiz path followed by `/submit`, and the end-session path gives back
      the id followed by `/end`. */
  lemma IdentifierPaths<P>(id: string, answers: P)
    ensures StripPrefix(GetQuiz<P>(id).path, "/api/quizzes/") == Some(id)
    ensures StripPrefix(SubmitQuiz(id, answers).path, GetQuiz<P>(id).path) == Some("/submit")
    ensures SubmitQuiz(id, answers).body == Wrapped("answers", answers)
    ensures StripPrefix(EndSession<P>(id).path, "/api/learning/session/") == Some(id + "/end")
  {
    var q := GetQuiz<P>(id).path;
    assert q[..|"/api/quizzes/"|] == "/api/quizzes/";
    assert SubmitQuiz(id, answers).path[..|q|] == q;
    var e := EndSession<P>(id).path;
    assert e[..|"/api/learning/session/"|] == "/api/learning/session/";
    assert e[|"/api/learning/session/"|..] == id + "/end";
  }

  type Headers = map<string, string>

  /** The headers every request starts from. */
  const DefaultHeaders: Headers := map["Content-Type" := "application/json"]

  /** The request interceptor: a truthy stored token (present and not empty)
      becomes `Authorization: Bearer <token>`; otherwise the headers are left as
      they are. */
  function WithBearer(token: Option<string>, headers: Headers): (r: Headers)
    ensures token.Some? && token.value != "" ==> r == headers["Authorization" := "Bearer " + token.value]
    ensures token.None? || token.value == "" ==> r == headers
  {
    if token.Some? && token.value != "" then headers["Authorization" := "Bearer " + token.value]
    else headers
  }

  /** The credential a server reads back from a request's headers: the text after
      the `Bearer ` scheme name of the Authorization field. */
  function BearerCredential(headers: Headers): Option<string> {
    if "Authorization" in headers then StripPrefix(headers["Authorization"], "Bearer ") else None
  }

  /** The bearer credential read back from an intercepted request is the stored
      token; every other header is as it was; with no token stored the request
      carries no credential it did not already have. */
  lemma BearerRoundTrip(token: Option<string>, headers: Headers)
    ensures token.Some? && token.value != "" ==> BearerCredential(WithBearer(token, headers)) == token
    ensures forall k :: k != "Authorization" ==> (k in WithBearer(token, headers) <==> k in headers)
    ensures forall k :: k != "Authorization" && k in headers ==> WithBearer(token, headers)[k] == headers[k]
    ensures token.None? || token.value == "" ==> BearerCredential(WithBearer(token, headers)) == BearerCredential(headers)
  {
    if token.Some? && token.value != "" {
      var v := "Bearer " + token.value;
      assert v[..|"Bearer "|] == "Bearer ";
      assert v[|"Bearer "|..] == token.value;
    }
  }

  /** A rejected request as the response interceptor sees it:
      `error.response?.status` (absent when no response arrived). */
  datatype HttpError = HttpError(status: Option<int>)

  /** 401 Unauthorized (section 15.5.2 of RFC 9110). */
  const Unauthorized := 401

  /** What the interceptors touch outside the client: the stored token
      (`localStorage['token']`) and the browser's location. */
  datatype Environment = Environment(token: Option<string>, location: string)

  /** The response interceptor's effect on the environment: a 401 drops the
      stored token and moves to `/login`; any other failure, including one
      without a response, leaves both alone. */
  function AfterRejection(env: Environment, e: HttpError): (r: Environment)
    ensures e.status == Some(Unauthorized) ==> r.token == None && r.location == "/login"
    ensures e.status != Some(Unauthorized) ==> r == env
  {
    if e.status == Some(Unauthorized) then Environment(None, "/login") else env
  }

  /** Invalidation is idempotent: a second 401, whatever it follows, changes
      nothing more than the first did, and a failure of any other kind does not
      undo it. */
  lemma InvalidationIdempotent(env: Environment, first: HttpError, second: HttpError)
    requires first.status == Some(Unauthorized)
    ensures AfterRejection(AfterRejection(env, first), second) == AfterRejection(env, first)
  {
  }

  /** A request ready to be sent: base address, call and headers. */
  datatype Request<P> = Request(baseUrl: string, call: Call<P>, headers: Headers)

  /** The configured client with the browser state it reads and writes. */
  class Gateway {
    const baseUrl: string
    var token: Option<string>
    var location: string

    constructor (configured: Option<string>, storedToken: Option<string>, location: string)
      ensures baseUrl == BaseUrl(configured) && token == storedToken && this.location == location
    {
      baseUrl := BaseUrl(configured);
      token := storedToken;
      this.location := location;
    }

    /** The request interceptor: the call goes out from the default headers with
        the stored token attached; nothing is changed. */
    method Prepare<P>(call: Call<P>) returns (r: Request<P>)
      ensures r.baseUrl == baseUrl && r.call == call
      ensures BearerCredential(r.headers) == (if token.Some? && token.value != "" then token else None)
      ensures r.headers == WithBearer(token, DefaultHeaders)
    {
      r := Request(baseUrl, call, WithBearer(token, DefaultHeaders));
      BearerRoundTrip(token, DefaultHeaders);
    }

    /** The response interceptor, success side: the response passes unchanged. */
    method Fulfilled<T>(response: T) returns (r: T)
      ensures r == response
    {
      r := response;
    }

    /** The response interceptor, failure side: the error is rejected to the
        caller unchanged (a 401 too), after a 401 has dropped the token and moved
        to `/login`. */
    method Rejected(e: HttpError) returns (rejected: HttpError)
      modifies this
      ensures rejected == e
      ensures Environment(token, location) == AfterRejection(old(Environment(token, location)), e)
    {
      if e.status == Some(Unauthorized) {
        token := None;
        location := "/login";
      }
      rejected := e;
    }
  }
}
