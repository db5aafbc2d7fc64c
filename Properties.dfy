/**
 * What the handlers guarantee together: the page shell against the session the
 * writers leave behind, and the slow endpoint's "the model's object or the
 * fallback, and nothing else".
 */
module PipelineProperties {
  import opened Wrappers
  import opened Json
  import opened Roast
  import opened PromptTemplate
  import opened MusicProfile
  import opened Sessions
  import opened Collaborators
  import opened AiClient
  import opened Views

  // ---- the page shell ----

  /** Manual source: the stored name, or "Anonymous", with its placeholder avatar, and no call at all. */
  lemma ShellShowsManualIdentity(s: SessionState, spotify: SpotifyApi)
    requires IsManual(s)
    ensures var name := ManualDataOf(s).username.GetOr(AnonymousName);
      RoastMe(s, spotify) == Handled(Render(RoastTemplate, RoastPage(true, Some(name), AvatarBase + name)), [])
  {
  }

  /** Spotify source without a usable token: back to the index before any call. */
  lemma ShellRequiresToken(s: SessionState, spotify: SpotifyApi)
    requires !IsManual(s) && AccessToken(s).None?
    ensures RoastMe(s, spotify) == Handled(Redirect(IndexRoute), [])
  {
  }

  /** A session nobody has written to counts as Spotify and is sent back to the index. */
  lemma ShellRedirectsFreshSession(spotify: SpotifyApi)
    ensures RoastMe(EmptySession, spotify) == Handled(Redirect(IndexRoute), [])
  {
  }

  /**
   * Spotify source with a token: one `current_user` call with that token; its error
   * sends the user to the index, its record gives the name and the first image, or
   * the placeholder avatar when there is none.
   */
  lemma ShellShowsSpotifyIdentity(s: SessionState, spotify: SpotifyApi, token: string)
    requires !IsManual(s) && AccessToken(s) == Some(token)
    ensures RoastMe(s, spotify).calls == [CurrentUser(token)]
    ensures spotify.currentUser(token).Err? ==> RoastMe(s, spotify).outcome == Redirect(IndexRoute)
    ensures spotify.currentUser(token).Ok? ==>
      var user := spotify.currentUser(token).value;
      RoastMe(s, spotify).outcome == Render(RoastTemplate, RoastPage(true, user.displayName,
        if |user.imageUrls| > 0 then user.imageUrls[0] else AvatarBase + Str(user.displayName)))
  {
    assert s.tokenInfo.Some? && s.tokenInfo.value != map[] by {
      assert "access_token" in s.tokenInfo.value;
    }
  }

  // ---- the slow endpoint ----

  /**
   * Whatever the source, once a name and a profile text have been gathered a
   * configured client makes exactly one model call after the reads, with the
   * prompt built from them.
   */
  lemma ApiPromptsWithGatheredInput(s: SessionState, apiKey: Option<string>, spotify: SpotifyApi, ai: AiBackend,
                                    input: ProfileInput)
    requires GatherProfile(s, spotify).input == Ok(input) && !Unconfigured(apiKey)
    ensures RoastApiData(s, apiKey, spotify, ai).calls ==
      GatherProfile(s, spotify).calls + [GenerateContent(Prompt(Str(input.username), input.text))]
  {
  }

  /** Manual source: one model call, whose prompt holds the stored name and the manual profile text. */
  lemma ApiPromptsWithManualProfile(s: SessionState, apiKey: Option<string>, spotify: SpotifyApi, ai: AiBackend)
    requires IsManual(s) && !Unconfigured(apiKey)
    ensures var d := ManualDataOf(s);
      RoastApiData(s, apiKey, spotify, ai).calls == [GenerateContent(Prompt(Str(d.username), ManualProfile(d.username, d.musicInput)))]
  {
    var d := ManualDataOf(s);
    ApiPromptsWithGatheredInput(s, apiKey, spotify, ai, ProfileInput(d.username, ManualProfile(d.username, d.musicInput)));
  }

  /** Manual source with both values stored: the name and `"<name> input: <music>"` go into the prompt. */
  lemma ApiPromptsWithManualData(s: SessionState, apiKey: Option<string>, spotify: SpotifyApi, ai: AiBackend, name: string, music: string)
    requires IsManual(s) && s.manualData == Some(ManualData(Some(name), Some(music)))
    requires !Unconfigured(apiKey)
    ensures RoastApiData(s, apiKey, spotify, ai).calls == [GenerateContent(Prompt(name, name + " input: " + music))]
  {
    ApiPromptsWithManualProfile(s, apiKey, spotify, ai);
    assert ManualProfile(Some(name), Some(music)) == name + " input: " + music;
  }

  /**
   * A manual source with no stored data is not defaulted here as it is on the page:
   * the page says "Anonymous" while the prompt gets the text "None" twice.
   */
  lemma ApiDoesNotDefaultManualName(s: SessionState, apiKey: Option<string>, spotify: SpotifyApi, ai: AiBackend)
    requires IsManual(s) && s.manualData.None?
    requires !Unconfigured(apiKey)
    ensures RoastMe(s, spotify).outcome.context.username == Some(AnonymousName)
    ensures RoastApiData(s, apiKey, spotify, ai).calls == [GenerateContent(Prompt("None", "None input: None"))]
  {
    ApiPromptsWithManualProfile(s, apiKey, spotify, ai);
    assert ManualProfile(None, None) == "None" + InputSeparator + "None";
    assert "None" + InputSeparator + "None" == "None input: None";
  }

  /**
   * Whatever the source, when the model's answer to the prompt for the gathered
   * input decodes to an object, that object is the response body, untouched.
   */
  lemma ApiPassesModelObjectThrough(s: SessionState, apiKey: Option<string>, spotify: SpotifyApi, ai: AiBackend,
                                    input: ProfileInput, fields: map<string, Json>)
    requires GatherProfile(s, spotify).input == Ok(input) && !Unconfigured(apiKey)
    requires ParsedFrom(ai, Prompt(Str(input.username), input.text), JObj(fields))
    ensures RoastApiData(s, apiKey, spotify, ai).outcome == JsonBody(JObj(fields))
  {
  }

  /**
   * Whatever the source, when the answer decodes to something that is not an
   * object (None, a list, a number...), the body is the fallback.
   */
  lemma ApiReplacesNonObject(s: SessionState, apiKey: Option<string>, spotify: SpotifyApi, ai: AiBackend,
                             input: ProfileInput, v: Json)
    requires GatherProfile(s, spotify).input == Ok(input) && !Unconfigured(apiKey) && !v.JObj?
    requires ParsedFrom(ai, Prompt(Str(input.username), input.text), v)
    ensures RoastApiData(s, apiKey, spotify, ai).outcome == JsonBody(FallbackRoast())
  {
  }

  /** Any error raised while reading the session or Spotify gives the fallback, and the model is never called. */
  lemma ApiFallsBackOnFetchError(s: SessionState, apiKey: Option<string>, spotify: SpotifyApi, ai: AiBackend)
    requires GatherProfile(s, spotify).input.Err?
    ensures RoastApiData(s, apiKey, spotify, ai).outcome == JsonBody(FallbackRoast())
    ensures forall c :: c in RoastApiData(s, apiKey, spotify, ai).calls ==> !c.GenerateContent?
  {
  }

  /** Whatever the session and the services do, the body is a complete roast record or the model's own object. */
  lemma ApiBodyIsRecordOrModelObject(s: SessionState, apiKey: Option<string>, spotify: SpotifyApi, ai: AiBackend)
    ensures var body := RoastApiData(s, apiKey, spotify, ai).outcome.body;
      IsRoastResult(body) || exists p :: ParsedFrom(ai, p, body)
  {
    FallbackIsRoastResult();
  }

  /** The Spotify reads when every call succeeds and every name is a string. */
  lemma GatherSpotifyProfile(s: SessionState, spotify: SpotifyApi, token: string,
                             artistPage: Json, trackPage: Json, artistItems: seq<Json>, trackItems: seq<Json>,
                             user: SpotifyUser)
    requires !IsManual(s) && AccessToken(s) == Some(token)
    requires spotify.topArtists(ArtistsQueryFor(token)) == Ok(artistPage) && PageItems(artistPage) == Some(artistItems)
    requires spotify.topTracks(TracksQueryFor(token)) == Ok(trackPage) && PageItems(trackPage) == Some(trackItems)
    requires NameList(artistItems).Some? && NameList(trackItems).Some?
    requires spotify.currentUser(token) == Ok(user)
    ensures GatherProfile(s, spotify) == Gathered(
      Ok(ProfileInput(user.displayName, SpotifyProfile(NameList(artistItems).value, NameList(trackItems).value))),
      SpotifyReads(token))
  {
    assert NameValues(artistItems).Some? && NameValues(trackItems).Some?;
  }

  /**
   * The Spotify path when every call succeeds: top artists (10, medium term), top
   * tracks (10, short term), the current user, then one model call whose prompt
   * holds the display name and both name lists in the order returned.
   */
  lemma ApiSpotifyCallSequence(s: SessionState, apiKey: Option<string>, spotify: SpotifyApi, ai: AiBackend,
                               token: string, artistPage: Json, trackPage: Json,
                               artistItems: seq<Json>, trackItems: seq<Json>, user: SpotifyUser)
    requires !IsManual(s) && AccessToken(s) == Some(token) && !Unconfigured(apiKey)
    requires spotify.topArtists(TopQuery(token, 10, "medium_term")) == Ok(artistPage)
    requires spotify.topTracks(TopQuery(token, 10, "short_term")) == Ok(trackPage)
    requires PageItems(artistPage) == Some(artistItems) && PageItems(trackPage) == Some(trackItems)
    requires forall i :: 0 <= i < |artistItems| ==> HasName(artistItems[i])
    requires forall i :: 0 <= i < |trackItems| ==> HasName(trackItems[i])
    requires spotify.currentUser(token) == Ok(user)
    ensures RoastApiData(s, apiKey, spotify, ai).calls == [
      TopArtists(TopQuery(token, 10, "medium_term")),
      TopTracks(TopQuery(token, 10, "short_term")),
      CurrentUser(token),
      GenerateContent(Prompt(Str(user.displayName),
        SpotifyProfile(NameList(artistItems).value, NameList(trackItems).value)))]
  {
    GatherSpotifyProfile(s, spotify, token, artistPage, trackPage, artistItems, trackItems, user);
  }

  /**
   * A page without `items`, or an item without a name, in either list fails a list
   * comprehension after both top-item calls: the current user is never asked for,
   * and the body is the fallback.
   */
  lemma ApiStopsAtUnreadablePage(s: SessionState, apiKey: Option<string>, spotify: SpotifyApi, ai: AiBackend,
                                 token: string, artistPage: Json, trackPage: Json)
    requires !IsManual(s) && AccessToken(s) == Some(token)
    requires spotify.topArtists(ArtistsQueryFor(token)) == Ok(artistPage)
    requires spotify.topTracks(TracksQueryFor(token)) == Ok(trackPage)
    requires PageNames(artistPage).None? || PageNames(trackPage).None?
    ensures RoastApiData(s, apiKey, spotify, ai) ==
      Handled(JsonBody(FallbackRoast()), [TopArtists(ArtistsQueryFor(token)), TopTracks(TracksQueryFor(token))])
  {
  }

  /**
   * A name that is there but is not a string, in either list, only fails at the
   * join, which comes after the current user has been fetched: three Spotify calls,
   * no model call, and the fallback.
   */
  lemma ApiJoinFailsAfterUserCall(s: SessionState, apiKey: Option<string>, spotify: SpotifyApi, ai: AiBackend,
                                  token: string, artistPage: Json, trackPage: Json, user: SpotifyUser)
    requires !IsManual(s) && AccessToken(s) == Some(token)
    requires spotify.topArtists(ArtistsQueryFor(token)) == Ok(artistPage)
    requires spotify.topTracks(TracksQueryFor(token)) == Ok(trackPage)
    requires PageNames(artistPage).Some? && PageNames(trackPage).Some?
    requires (exists v :: v in PageNames(artistPage).value && !v.JStr?) ||
             (exists v :: v in PageNames(trackPage).value && !v.JStr?)
    requires spotify.currentUser(token) == Ok(user)
    ensures RoastApiData(s, apiKey, spotify, ai) ==
      Handled(JsonBody(FallbackRoast()), SpotifyReads(token))
  {
    assert Texts(PageNames(artistPage).value).None? || Texts(PageNames(trackPage).value).None?;
  }

  // ---- writers followed by readers ----

  /** After the manual form is posted, the page shows the posted name (or "Anonymous") without calling anything. */
  lemma ManualPostThenShell(s: SessionState, form: map<string, string>, spotify: SpotifyApi)
    ensures var name := Get(form, "username", AnonymousName);
      RoastMe(ManualSubmitted(s, form), spotify) ==
        Handled(Render(RoastTemplate, RoastPage(true, Some(name), AvatarBase + name)), [])
  {
  }

  /**
   * After the manual form is posted, the endpoint prompts with the posted name and
   * taste (defaults "Anonymous" and "") and never calls Spotify, even with a token stored.
   */
  lemma ManualPostThenApi(s: SessionState, form: map<string, string>, apiKey: Option<string>, spotify: SpotifyApi, ai: AiBackend)
    requires !Unconfigured(apiKey)
    ensures var name, music := Get(form, "username", AnonymousName), Get(form, "music_taste", "");
      RoastApiData(ManualSubmitted(s, form), apiKey, spotify, ai).calls ==
        [GenerateContent(Prompt(name, name + " input: " + music))]
  {
    var t := ManualSubmitted(s, form);
    ApiPromptsWithManualProfile(t, apiKey, spotify, ai);
  }

  /** After a login the source is Spotify again, whatever it was, and the page asks Spotify who the user is. */
  lemma LoginThenShell(s: SessionState, token: TokenBundle, spotify: SpotifyApi)
    requires "access_token" in token
    ensures RoastMe(LoggedIn(s, token), spotify).calls == [CurrentUser(token["access_token"])]
  {
    ShellShowsSpotifyIdentity(LoggedIn(s, token), spotify, token["access_token"]);
  }

  // ---- the scenarios of the test suite ----

  /** The record the mocked model returns in the test suite. */
  const MockedRecord := JObj(map[
    HeadlineKey := JStr("Mocked Headline"), ScoreKey := JNum(100),
    BodyKey := JStr("This is a fake roast for testing."), DatingKey := JStr("Forever alone")])

  /** The mocked-model test: a manual session for "Tester" gets the model's record back as it is. */
  lemma MockedModelScenario(apiKey: Option<string>, spotify: SpotifyApi, ai: AiBackend)
    requires !Unconfigured(apiKey)
    requires ParsedFrom(ai, Prompt("Tester", "Tester input: Test Music"), MockedRecord)
    ensures var s := SessionState(Some(ManualSource), Some(ManualData(Some("Tester"), Some("Test Music"))), None);
      RoastApiData(s, apiKey, spotify, ai).outcome == JsonBody(MockedRecord)
  {
    var s := SessionState(Some(ManualSource), Some(ManualData(Some("Tester"), Some("Test Music"))), None);
    assert ManualProfile(Some("Tester"), Some("Test Music")) == "Tester" + InputSeparator + "Test Music";
    assert "Tester" + InputSeparator + "Test Music" == "Tester input: Test Music";
    ApiPassesModelObjectThrough(s, apiKey, spotify, ai, ProfileInput(Some("Tester"), "Tester input: Test Music"), MockedRecord.fields);
  }

  /** The manual-form test: posting the form redirects to the page and stores the source and the name. */
  method ManualFormScenario() returns (o: Outcome, after: SessionState)
    ensures o == Redirect(RoastMeRoute)
    ensures after.roastSource == Some(ManualSource)
    ensures after.manualData.Some? && after.manualData.value.username == Some("Test User")
  {
    var session := new Session();
    var form := map["username" := "Test User", "music_taste" := "I love Nickelback and silence."];
    o := RoastManual(session, Request("POST", map[], form));
    after := session.State();
  }

  /** The form page: a GET renders the form and leaves a fresh session as it was. */
  method ManualPageScenario() returns (o: Outcome, after: SessionState)
    ensures o == Render(ManualTemplate, NoContext)
    ensures after == EmptySession
  {
    var session := new Session();
    o := RoastManual(session, Request("GET", map[], map[]));
    after := session.State();
  }
}
