/**
 * The request handlers of the roast pipeline. `Callback` and `RoastManual` write
 * the session; `RoastMe` (the page shell) and `RoastApiData` (the slow JSON
 * endpoint) only read a snapshot of it and return what Django would send back.
 */
module Views {
  import opened Wrappers
  import opened Json
  import opened Roast
  import opened PromptTemplate
  import opened MusicProfile
  import opened Sessions
  import opened Collaborators
  import opened AiClient

  /** Route names used as redirect targets, and template names. */
  const IndexRoute := "index"
  const RoastMeRoute := "roast_me"
  const IndexTemplate := "index.html"
  const RoastTemplate := "roast.html"
  const ManualTemplate := "manual_input.html"

  const AnonymousName := "Anonymous"
  const AvatarBase := "https://ui-avatars.com/api/?name="

  /** The placeholder avatar for a name, which is appended as it is. */
  function AvatarUrl(name: string): string {
    AvatarBase + name
  }

  /** The name can be read back from the end of its avatar URL, so different names get different avatars. */
  lemma AvatarUrlEmbedsName(name: string, other: string)
    ensures |AvatarUrl(name)| == |AvatarBase| + |name|
    ensures AvatarUrl(name)[..|AvatarBase|] == AvatarBase && AvatarUrl(name)[|AvatarBase|..] == name
    ensures AvatarUrl(name) == AvatarUrl(other) <==> name == other
  {
    assert AvatarUrl(other)[|AvatarBase|..] == other;
  }

  /** The context of `roast.html`; the other templates are rendered without one. */
  datatype Context = NoContext | RoastPage(triggerAjax: bool, username: Option<string>, image: string)

  /** What a handler returns: a redirect (302), a rendered page or a JSON body (both 200). */
  datatype Outcome =
    | Redirect(target: string)
    | Render(template: string, context: Context)
    | JsonBody(body: Json)

  /** A reading handler's response and the external calls it made, in order. */
  datatype Handled = Handled(outcome: Outcome, calls: seq<Call>)

  /** The parts of a request the handlers read: the method, `request.GET` and `request.POST`. */
  datatype Request = Request(httpMethod: string, query: map<string, string>, form: map<string, string>)

  // ---- entry points delegated entirely to collaborators ----

  function Index(): Outcome {
    Render(IndexTemplate, NoContext)
  }

  /** `login` redirects to the authorisation URL that Spotify's OAuth helper builds. */
  function Login(authorizeUrl: string): Outcome {
    Redirect(authorizeUrl)
  }

  // ---- handlers that write the session ----

  /** The session after a successful token exchange. */
  function LoggedIn(s: SessionState, token: TokenBundle): SessionState {
    s.(tokenInfo := Some(token), roastSource := Some(SpotifySource))
  }

  /** `request.GET.get("code")`, and whether it is falsy (missing or empty). */
  function CodeOf(request: Request): Option<string> {
    Lookup(request.query, "code")
  }

  predicate NoCode(request: Request) {
    CodeOf(request).None? || CodeOf(request).value == ""
  }

  /** The OAuth callback: exchange the code, store the token and switch the source to Spotify. */
  method Callback(session: Session, request: Request, exchange: string -> Result<TokenBundle, string>)
    returns (o: Outcome, calls: seq<Call>)
    modifies session
    ensures NoCode(request) ==>
      o == Redirect(IndexRoute) && calls == [] && session.State() == old(session.State())
    ensures !NoCode(request) ==> calls == [ExchangeCode(CodeOf(request).value)]
    ensures !NoCode(request) && exchange(CodeOf(request).value).Ok? ==>
      o == Redirect(RoastMeRoute) &&
      session.State() == LoggedIn(old(session.State()), exchange(CodeOf(request).value).value)
    ensures !NoCode(request) && exchange(CodeOf(request).value).Err? ==>
      o == Redirect(IndexRoute) && session.State() == old(session.State())
  {
    var code := CodeOf(request);
    if code.None? || code.value == "" {
      return Redirect(IndexRoute), [];
    }
    calls := [ExchangeCode(code.value)];
    match exchange(code.value)
    case Ok(token) =>
      session.tokenInfo := Some(token);
      session.roastSource := Some(SpotifySource);
      o := Redirect(RoastMeRoute);
    case Err(_) =>
      o := Redirect(IndexRoute);
  }

  /** The `manual_data` dictionary built from the submitted form. */
  function Submission(form: map<string, string>): ManualData {
    ManualData(Some(Get(form, "username", AnonymousName)), Some(Get(form, "music_taste", "")))
  }

  /** The session after the manual form has been posted. */
  function ManualSubmitted(s: SessionState, form: map<string, string>): SessionState {
    s.(roastSource := Some(ManualSource), manualData := Some(Submission(form)))
  }

  /** The manual-input view: a POST stores the form in the session, anything else shows the form. */
  method RoastManual(session: Session, request: Request) returns (o: Outcome)
    modifies session
    ensures request.httpMethod == "POST" ==>
      o == Redirect(RoastMeRoute) && session.State() == ManualSubmitted(old(session.State()), request.form)
    ensures request.httpMethod != "POST" ==>
      o == Render(ManualTemplate, NoContext) && session.State() == old(session.State())
  {
    if request.httpMethod == "POST" {
      session.roastSource := Some(ManualSource);
      session.manualData := Some(Submission(request.form));
      return Redirect(RoastMeRoute);
    }
    o := Render(ManualTemplate, NoContext);
  }

  // ---- handlers that read the session ----

  /** `session.get('roast_source', 'spotify') == 'manual'`. */
  predicate IsManual(s: SessionState) {
    s.roastSource.GetOr(SpotifySource) == ManualSource
  }

  /** `session.get('manual_data', {})`. */
  function ManualDataOf(s: SessionState): ManualData {
    s.manualData.GetOr(ManualData(None, None))
  }

  /** The access token, when `token_info` is a dictionary that holds one. */
  function AccessToken(s: SessionState): Option<string> {
    if s.tokenInfo.Some? && "access_token" in s.tokenInfo.value
    then Some(s.tokenInfo.value["access_token"]) else None
  }

  /**
   * The page shell. It renders `roast.html` with the name and avatar and the flag
   * that makes the page fetch the roast, or sends the user back to the index. It
   * calls Spotify at most once, for the current user, and never the model.
   */
  function RoastMe(s: SessionState, spotify: SpotifyApi): (r: Handled)
    ensures r.outcome.Redirect? || r.outcome.Render?
    ensures r.outcome.Redirect? ==> r.outcome.target == IndexRoute
    ensures r.outcome.Render? ==>
      r.outcome.template == RoastTemplate && r.outcome.context.RoastPage? && r.outcome.context.triggerAjax
    ensures |r.calls| <= 1 && forall c :: c in r.calls ==> c.CurrentUser?
    ensures IsManual(s) ==> r.calls == [] && r.outcome.Render?
  {
    if IsManual(s) then
      var name := ManualDataOf(s).username.GetOr(AnonymousName);
      Handled(Render(RoastTemplate, RoastPage(true, Some(name), AvatarUrl(name))), [])
    else if s.tokenInfo.None? || s.tokenInfo.value == map[] then
      Handled(Redirect(IndexRoute), [])
    else if AccessToken(s).None? then
      Handled(Redirect(IndexRoute), [])
    else
      var token := AccessToken(s).value;
      match spotify.currentUser(token)
      case Err(_) => Handled(Redirect(IndexRoute), [CurrentUser(token)])
      case Ok(user) =>
        var image := if |user.imageUrls| > 0 then user.imageUrls[0] else AvatarUrl(Str(user.displayName));
        Handled(Render(RoastTemplate, RoastPage(true, user.displayName, image)), [CurrentUser(token)])
  }

  /** The name and profile text handed to the model. */
  datatype ProfileInput = ProfileInput(username: Option<string>, text: string)

  /** The part of the slow handler before the model call: an input, or an error that was raised. */
  datatype Gathered = Gathered(input: Result<ProfileInput, string>, calls: seq<Call>)

  const TopLimit := 10
  const ArtistsRange := "medium_term"
  const TracksRange := "short_term"

  function ArtistsQueryFor(token: string): TopQuery {
    TopQuery(token, TopLimit, ArtistsRange)
  }

  function TracksQueryFor(token: string): TopQuery {
    TopQuery(token, TopLimit, TracksRange)
  }

  /** The Spotify reads of the slow handler, in the order the code makes them. */
  function SpotifyReads(token: string): seq<Call> {
    [TopArtists(ArtistsQueryFor(token)), TopTracks(TracksQueryFor(token)), CurrentUser(token)]
  }

  /**
   * Reads the session and, for Spotify, the top artists, the top tracks and the
   * current user, in that order, stopping at the first error.
   */
  function GatherProfile(s: SessionState, spotify: SpotifyApi): (g: Gathered)
    ensures IsManual(s) ==>
      var d := ManualDataOf(s);
      g == Gathered(Ok(ProfileInput(d.username, ManualProfile(d.username, d.musicInput))), [])
    ensures !IsManual(s) && AccessToken(s).None? ==> g.calls == [] && g.input.Err?
    ensures !IsManual(s) && AccessToken(s).Some? ==>
      var trace := SpotifyReads(AccessToken(s).value);
      1 <= |g.calls| <= 3 && g.calls == trace[..|g.calls|] && (g.input.Ok? ==> g.calls == trace)
    ensures forall c :: c in g.calls ==> !c.GenerateContent? && !c.ExchangeCode?
  {
    if IsManual(s) then
      var data := ManualDataOf(s);
      Gathered(Ok(ProfileInput(data.username, ManualProfile(data.username, data.musicInput))), [])
    else if AccessToken(s).None? then
      Gathered(Err("TypeError"), [])
    else
      var token := AccessToken(s).value;
      var trace := SpotifyReads(token);
      var qa, qt := ArtistsQueryFor(token), TracksQueryFor(token);
      match spotify.topArtists(qa)
      case Err(e) => Gathered(Err(e), trace[..1])
      case Ok(artistPage) =>
        match spotify.topTracks(qt)
        case Err(e) => Gathered(Err(e), trace[..2])
        case Ok(trackPage) =>
          var artistValues, trackValues := PageNames(artistPage), PageNames(trackPage);
          if artistValues.None? || trackValues.None? then
            Gathered(Err("KeyError"), trace[..2])
          else
            match spotify.currentUser(token)
            case Err(e) => Gathered(Err(e), trace)
            case Ok(user) =>
              var artists, tracks := Texts(artistValues.value), Texts(trackValues.value);
              if artists.None? || tracks.None? then
                Gathered(Err("TypeError"), trace)
              else
                Gathered(Ok(ProfileInput(user.displayName, SpotifyProfile(artists.value, tracks.value))), trace)
  }

  /** `JsonResponse(data)` with `safe=True`: only a dictionary is accepted. */
  function JsonResponse(data: Json): (r: Result<Json, string>)
    ensures r.Ok? <==> data.JObj?
    ensures r.Ok? ==> r.value == data
  {
    if data.JObj? then Ok(data)
    else Err("TypeError")
  }

  /**
   * The slow endpoint. It always answers with a JSON object: the object the model
   * produced for the prompt it was sent, or the fallback record.
   */
  function RoastApiData(s: SessionState, apiKey: Option<string>, spotify: SpotifyApi, ai: AiBackend): (r: Handled)
    ensures r.outcome.JsonBody? && r.outcome.body.JObj?
    ensures r.outcome.body == FallbackRoast() ||
      exists p :: GenerateContent(p) in r.calls && ParsedFrom(ai, p, r.outcome.body)
    ensures Unconfigured(apiKey) ==>
      r.outcome.body == FallbackRoast() && forall c :: c in r.calls ==> !c.GenerateContent?
  {
    var g := GatherProfile(s, spotify);
    match g.input
    case Err(_) => Handled(JsonBody(FallbackRoast()), g.calls)
    case Ok(input) =>
      var reply := GetAiRoast(apiKey, input.username, input.text, ai);
      match JsonResponse(reply.value)
      case Ok(body) => Handled(JsonBody(body), g.calls + reply.calls)
      case Err(_) => Handled(JsonBody(FallbackRoast()), g.calls + reply.calls)
  }
}
