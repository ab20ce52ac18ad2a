/** The application shell: the route table, the guard in front of the signed-in
    pages, the root route's redirect and the navigation bar's visibility, all as
    functions of the session store's `loading` and `isAuthenticated`. */
module App {
  import opened Text
  import QuizTaking
  import QuizGenerator

  /** The session store's two flags the shell reads. */
  datatype Auth = Auth(loading: bool, authenticated: bool)

  datatype Page = Home | Login | Register | Dashboard | Learning | Quizzes | QuizTaking | QuizResults | Translation | Profile

  /** What a route renders: the loading placeholder, a page, or a redirect. */
  datatype Screen = Placeholder | Show(page: Page) | Redirect(to: string)

  /** `ProtectedRoute`: the placeholder while the session store is loading;
      afterwards the page for a signed-in user and a redirect to `/login` for
      anyone else. */
  function ProtectedRoute(auth: Auth, page: Page): (s: Screen)
    ensures auth.loading ==> s == Placeholder
    ensures !auth.loading ==> (s == Show(page) <==> auth.authenticated)
    ensures !auth.loading && !auth.authenticated ==> s == Redirect("/login")
  {
    if auth.loading then Placeholder
    else if auth.authenticated then Show(page)
    else Redirect("/login")
  }

  /** The root route: a signed-in user goes on to `/dashboard`, anyone else sees
      the home page (the loading flag is not consulted). */
  function RootElement(auth: Auth): (s: Screen)
    ensures s == Show(Home) <==> !auth.authenticated
    ensures auth.authenticated ==> s == Redirect("/dashboard")
  {
    if auth.authenticated then Redirect("/dashboard") else Show(Home)
  }

  /** `{isAuthenticated && <Navbar />}` */
  function NavbarVisible(auth: Auth): (visible: bool)
    ensures visible <==> auth.authenticated
  {
    auth.authenticated
  }

  /** A route: its path pattern as the `/`-separated segments (the leading
      empty one included), the page it serves, and whether it sits behind
      `ProtectedRoute`. */
  datatype Route = Route(segments: seq<string>, page: Page, guarded: bool)

  /** The path pattern as written: the segments joined by `/`. */
  function Pattern(r: Route): string {
    Join(r.segments, '/')
  }

  /** The route table, in order: `/`, `/login`, `/register`, `/dashboard`,
      `/learning`, `/quizzes`, `/quiz/:quizId`, `/quiz/:quizId/results`,
      `/translation`, `/profile`. */
  const Routes: seq<Route> := [
    Route(["", ""], Home, false),
    Route(["", "login"], Login, false),
    Route(["", "register"], Register, false),
    Route(["", "dashboard"], Dashboard, true),
    Route(["", "learning"], Learning, true),
    Route(["", "quizzes"], Quizzes, true),
    Route(["", "quiz", ":quizId"], QuizTaking, true),
    Route(["", "quiz", ":quizId", "results"], QuizResults, true),
    Route(["", "translation"], Translation, true),
    Route(["", "profile"], Profile, true)
  ]

  /** The pages anyone may see. */
  predicate Public(p: Page) {
    p == Home || p == Login || p == Register
  }

  /** What a route of the table renders. */
  function Element(r: Route, auth: Auth): Screen {
    if r.guarded then ProtectedRoute(auth, r.page)
    else if r.page == Home then RootElement(auth)
    else Show(r.page)
  }

  /** Exactly the three public pages are unguarded; every other route of the
      table sits behind `ProtectedRoute`. */
  lemma GuardedExactlyThePrivatePages()
    ensures forall i :: 0 <= i < |Routes| ==> (Routes[i].guarded <==> !Public(Routes[i].page))
  {
  }

  /** No route shows a private page unless the session store has finished
      loading and the user is signed in; while it is loading, every private
      route shows the placeholder. */
  lemma PrivatePagesNeedSignIn(auth: Auth)
    ensures forall i :: 0 <= i < |Routes| && Element(Routes[i], auth).Show? && !Public(Element(Routes[i], auth).page)
              ==> !auth.loading && auth.authenticated
    ensures auth.loading ==> forall i :: 0 <= i < |Routes| && !Public(Routes[i].page) ==> Element(Routes[i], auth) == Placeholder
  {
    GuardedExactlyThePrivatePages();
  }

  /** One path segment against one pattern segment: a `:name` parameter takes any
      non-empty segment, anything else must be equal. */
  predicate SegmentMatches(pattern: string, segment: string) {
    if |pattern| > 0 && pattern[0] == ':' then segment != "" else pattern == segment
  }

  /** A path matches a route when both have the same number of `/`-separated
      segments and each segment matches. */
  predicate Matches(r: Route, path: string) {
    var ss := Split(path, '/');
    |r.segments| == |ss| && forall i :: 0 <= i < |ss| ==> SegmentMatches(r.segments[i], ss[i])
  }

  /** Splitting a route's pattern gives back its segments: the two descriptions
      of a route agree. */
  lemma PatternSegments(r: Route)
    requires r in Routes
    ensures Split(Pattern(r), '/') == r.segments
  {
    var i :| 0 <= i < |Routes| && Routes[i] == r;
    SegmentsAreSlashFree(i);
    SplitJoin(r.segments, '/');
  }

  /** No segment of the table contains a `/`. */
  lemma SegmentsAreSlashFree(i: nat)
    requires i < |Routes|
    ensures forall k :: 0 <= k < |Routes[i].segments| ==> '/' !in Routes[i].segments[k]
  {
    if i == 0 {} else if i == 1 {} else if i == 2 {} else if i == 3 {} else if i == 4 {}
    else if i == 5 {} else if i == 6 {} else if i == 7 {} else if i == 8 {} else {}
  }

  /** `/quiz/<id>` is the segments "", "quiz" and the id, joined. */
  lemma JoinQuizPath(id: string)
    ensures Join(["", "quiz", id], '/') == "/quiz/" + id
  {
    var p := ["", "quiz", id];
    assert p[1..] == ["quiz", id] && p[1..][1..] == [id];
    assert Join(["quiz", id], '/') == "quiz" + "/" + id;
    assert Join(p, '/') == "" + "/" + ("quiz" + "/" + id);
    assert "" + "/" + ("quiz" + "/" + id) == ("/" + "quiz" + "/") + id;
  }

  /** `/quiz/<id>/results` is the segments "", "quiz", the id and "results",
      joined. */
  lemma JoinResultsPath(id: string)
    ensures Join(["", "quiz", id, "results"], '/') == "/quiz/" + id + "/results"
  {
    var last := [id, "results"];
    assert Join(last, '/') == id + "/results" by {
      assert last[1..] == ["results"];
    }
    var mid := ["quiz", id, "results"];
    assert Join(mid, '/') == "quiz/" + (id + "/results") by {
      assert mid[1..] == last;
    }
    var p := ["", "quiz", id, "results"];
    assert Join(p, '/') == "/" + ("quiz/" + (id + "/results")) by {
      assert p[1..] == mid;
    }
  }

  /** The path a generated quiz leads to (`/quiz/<id>`) is served by the
      quiz-taking route, and the path a submission leads to
      (`/quiz/<id>/results`) by the results route and not the quiz-taking one,
      for any identifier that is one non-empty segment. */
  lemma NavigationTargetsHaveRoutes(id: string)
    requires id != "" && '/' !in id
    ensures Matches(Routes[6], QuizGenerator.QuizPath(id)) && Routes[6].page == QuizTaking
    ensures Matches(Routes[7], QuizTaking.ResultsPath(id)) && Routes[7].page == QuizResults
    ensures !Matches(Routes[6], QuizTaking.ResultsPath(id))
  {
    JoinQuizPath(id);
    SplitJoin(["", "quiz", id], '/');
    JoinResultsPath(id);
    SplitJoin(["", "quiz", id, "results"], '/');
  }
}
