# RoastBeats roast pipeline, in Dafny

This project models the request handlers of RoastBeats (`core/views.py`). RoastBeats is a Django site that "roasts" a user's music taste. The taste comes either from the user's Spotify top artists and tracks or from text typed into a form. It is turned into a prompt for Gemini, which answers with a JSON record of four fields: `headline`, `score`, `roast_body` and `dating_life`.

How the handlers are modelled:

- The session is a class, `Sessions.Session`, with the three keys the pipeline uses: `roast_source`, `manual_data` and `token_info`. `State()` gives a snapshot of it.
- The two handlers that write the session are methods that change it in place:
  - `Views.Callback` handles the OAuth callback.
  - `Views.RoastManual` handles the manual form.
- The handlers that only read the session are functions of that snapshot:
  - `Views.RoastMe` builds the page shell.
  - `Views.RoastApiData` is the slow JSON endpoint.
  - `AiClient.GetAiRoast` is the model call.
- Every outside service is a total function passed in as a parameter: the OAuth token exchange, the Spotify Web API, Gemini's `generate_content` and `json.loads`. Each returns either a value or the error it raised.
- Each reading handler also returns the list of outside calls it made, in order (`Collaborators.Call`). This makes statements like these expressible:
  - the page shell never fetches top items and never calls the model;
  - without an API key the model is never called;
  - the Spotify reads happen in the order the code makes them.

Python details that are modelled:

- `dict.get` with and without a default (`Wrappers.Get`, `Wrappers.Lookup`).
- Falsiness tests (`not code`, `not token_info`, `not api_key`).
- f-strings rendering `None` as `"None"` (`Json.Str`).
- `', '.join` (`MusicProfile.Join`), which accepts only strings.
- Django's `JsonResponse` with `safe=True`, which rejects anything that is not a dictionary (`Views.JsonResponse`).

The prompt template (`PromptTemplate`) is the exact text of the f-string at `core/views.py:36-52`, with the user name and the profile inserted. The fallback record and the limits the prompt asks of the model are in `Roast`.

Route names (`index`, `roast_me`) come from `core/urls.py` and appear only as redirect targets. `index` and `login` are modelled as constant outcomes, `Views.Index` and `Views.Login`. Neither has a contract of its own: they do nothing beyond rendering a template and redirecting to a URL the OAuth helper builds.

## Model

| member | source | states |
|---|---|---|
| Roast.FallbackRoast | core/views.py:63-70 | The fallback record itself, with no contract of its own: `Roast.FallbackIsRoastResult` and the `Roast.Fallback*` lemmas state what it satisfies. |
| Roast.FallbackIsRoastResult | core/views.py:63-70 | The fallback record is a complete roast record: exactly the four keys, a headline of at most four words, an integer score in 0..100, a body without `*`, `_`, backticks or markup other than `<b>`/`<i>` tags, and a dating line of at most six words. |
| Roast.RecordIsRoastResult | core/views.py:47-51 | A record with the four keys whose values respect the limits the prompt states is a roast record. |
| Roast.FallbackHeadlineWords | core/views.py:66 | "Basic Taste" is two words, within the four-word limit of the headline. |
| Roast.FallbackBodyPlain | core/views.py:68 | The fallback body has no Markdown characters and no tags. |
| Roast.WordsAppend | core/views.py:48-51 | Word counts of concatenated text add up, minus the word that the join splits. |
| PromptTemplate.Prompt | core/views.py:36-52 | The prompt built from a name and a profile, with no contract of its own: `PromptProperties.PromptEmbedsVerbatim`, `PromptProperties.PromptDeterminesInputs` and `PromptProperties.PromptNamesEveryRoastKey` state its shape. |
| PromptProperties.PromptEmbedsVerbatim | core/views.py:36-52 | The prompt is the constant head, the user name, the constant middle, the profile and the constant tail, each in full and in that order: nothing is truncated, escaped or reordered. |
| PromptProperties.PromptDeterminesInputs | core/views.py:39-40 | Two prompts with names of the same length are equal only if their names and profiles are equal. |
| PromptProperties.PromptNamesEveryRoastKey | core/views.py:47-51 | Each of the four keys `headline`, `score`, `roast_body` and `dating_life` occurs, quoted, in every prompt, whatever the name and the profile. |
| PromptProperties.TailNamesEveryRoastKey | core/views.py:47-51 | The constant tail of the template names all four keys. |
| MusicProfile.PageItems | core/views.py:145-146 | `page['items']` as the comprehension iterates it. It is defined only for a dictionary with `items`, and a list there is iterated element by element. |
| MusicProfile.PageNames | core/views.py:145-146 | The names of a page exist exactly when its `items` can be iterated and every item has a `name`; they are then the names of those items. |
| MusicProfile.NameValues | core/views.py:145-146 | The list comprehension succeeds exactly when every item has a `name`, keeps the length, and gives each item's name at the same index. |
| MusicProfile.Texts | core/views.py:148 | The join's type check succeeds exactly when every name is a string, and keeps each string at its index. |
| MusicProfile.NameList | core/views.py:145-148 | Both steps together succeed exactly when every item has a string name, and give the names in the order the service returned them. |
| MusicProfile.Join | core/views.py:148 | `', '.join`, with no contract of its own: `MusicProfile.JoinAt`, `MusicProfile.JoinSeparatorAt`, `MusicProfile.JoinLength` and `MusicProfile.OffsetNext` state its layout. |
| MusicProfile.JoinAt | core/views.py:148 | Every joined element appears verbatim at its offset in the joined text. |
| MusicProfile.JoinSeparatorAt | core/views.py:148 | Every element but the last is followed by exactly one separator. |
| MusicProfile.JoinLength | core/views.py:148 | The joined text ends with the last element, and joining nothing gives the empty text. |
| MusicProfile.OffsetNext | core/views.py:148 | The next element starts right after the current element and one separator. |
| MusicProfile.ManualProfile | core/views.py:139 | `"<name> input: <music>"`, with no contract of its own: `PipelineProperties.ApiPromptsWithManualData` and `PipelineProperties.ApiDoesNotDefaultManualName` state its value with and without stored data. |
| MusicProfile.SpotifyProfile | core/views.py:148 | The Spotify profile text, with no contract of its own: the two lemmas below state where every name lies in it. |
| MusicProfile.SpotifyProfileListsArtists | core/views.py:148 | Each artist name appears verbatim in the Spotify profile, after the label "Top artists: ", at its offset in the list. |
| MusicProfile.SpotifyProfileListsTracks | core/views.py:148 | Each track name appears verbatim in the Spotify profile, after the artists and the label ", Top tracks: ", at its offset in the list. |
| AiClient.GetAiRoast | core/views.py:18-61 | A missing or empty key makes no model call and gives None. Otherwise there is exactly one model call, whose prompt holds the name and the profile, and the result is the decoded answer or the fallback record. |
| AiClient.AiAnswerPassesThrough | core/views.py:53-55 | A decoded answer is returned unchanged: no clamping of the score, no check of the keys. |
| AiClient.AiFailureGivesFallback | core/views.py:56-61 | A decode error or any other exception gives exactly the fallback record. |
| AiClient.UnconfiguredIgnoresBackend | core/views.py:23-26 | Without a key the result does not depend on the model at all. |
| Views.Index | core/views.py:72-73 | Renders `index.html`; no contract of its own. |
| Views.Login | core/views.py:75-77 | Redirects to the authorisation URL; no contract of its own. |
| Views.AvatarUrl | core/views.py:105 | The placeholder avatar URL, with no contract of its own: `Views.AvatarUrlEmbedsName` states its shape. |
| Views.AvatarUrlEmbedsName | core/views.py:105 | The avatar URL is the constant base followed by the name, unencoded and untruncated, so two names give the same URL only if they are equal. |
| Views.Callback | core/views.py:79-93 | No code: redirect to `index`, no call, session unchanged. Otherwise one exchange with the code. On success, redirect to `roast_me` with `token_info` stored and the source set to `spotify`, nothing else changed. On failure, redirect to `index` with the session unchanged. |
| Views.RoastManual | core/views.py:119-128 | A POST stores source `manual` and `manual_data` (the posted name or "Anonymous", the posted taste or ""), leaves `token_info` alone and redirects to `roast_me`. Any other method renders `manual_input.html` and leaves the session unchanged. |
| Views.RoastMe | core/views.py:97-117 | The shell either redirects to `index` or renders `roast.html` with `trigger_ajax` set. It makes at most one call, which is `current_user`. A manual source makes no call and always renders. |
| Views.GatherProfile | core/views.py:132-148 | A manual source makes no call and yields the stored name (or None) and `"<name> input: <music>"`. A Spotify source without an access token makes no call and fails. A Spotify source with a token makes a prefix of top artists, top tracks and the current user, in that order, and all three when it yields a profile. No path calls the model or the token exchange. |
| Views.JsonResponse | core/views.py:152 | The response accepts its argument exactly when it is a dictionary, and then sends it unchanged. |
| Views.RoastApiData | core/views.py:130-155 | The body is always a JSON object. It is either the fallback record or the object the model produced for a prompt that was actually sent. Without a key it is the fallback and the model is not called. |
| PipelineProperties.ShellShowsManualIdentity | core/views.py:102-105 | Manual source: the stored name or "Anonymous", the placeholder avatar for that name, and no call. |
| PipelineProperties.ShellRequiresToken | core/views.py:106-117 | Spotify source with no token bundle, an empty one, or one without `access_token`: redirect to `index` before any call. |
| PipelineProperties.ShellRedirectsFreshSession | core/views.py:98-109 | A session nobody has written counts as Spotify and is sent to `index`. |
| PipelineProperties.ShellShowsSpotifyIdentity | core/views.py:110-117 | Spotify source with a token: exactly one `current_user` call with that token. Its error redirects to `index`. Otherwise the page shows the display name and the first image, or the placeholder avatar when there is no image. |
| PipelineProperties.ApiPromptsWithGatheredInput | core/views.py:132-150 | For either source, once a name and profile have been gathered, a configured client makes exactly one model call after the reads, with the prompt built from them. |
| PipelineProperties.ApiPromptsWithManualProfile | core/views.py:136-150 | Manual source with a key: the only call is one model call, whose prompt holds the stored name and `"<name> input: <music>"`. |
| PipelineProperties.ApiPromptsWithManualData | core/views.py:137-139 | With both manual values stored, the prompt is built from the name and `name + " input: " + music`. |
| PipelineProperties.ApiDoesNotDefaultManualName | core/views.py:138-139 | Without stored manual data the page says "Anonymous", but the prompt gets the text "None" as the name and "None input: None" as the profile. |
| PipelineProperties.ApiPassesModelObjectThrough | core/views.py:132-152 | For either source, when the answer to the prompt for the gathered name and profile decodes to an object, that object is the response body, unchanged. |
| PipelineProperties.ApiReplacesNonObject | core/views.py:132-155 | For either source, a decoded value that is not an object (null, a list, a number, text) is replaced by the fallback record. |
| PipelineProperties.ApiFallsBackOnFetchError | core/views.py:140-155 | Any failure while reading the session or Spotify gives the fallback record and no model call. |
| PipelineProperties.ApiBodyIsRecordOrModelObject | core/views.py:150-155 | Whatever the session and services do, the body is a complete roast record or a value the model produced. |
| PipelineProperties.GatherSpotifyProfile | core/views.py:141-148 | When every Spotify call succeeds, both pages have `items` and every name is a string, the reads are top artists, top tracks and the current user, in that order. The profile is built from both name lists. |
| PipelineProperties.ApiSpotifyCallSequence | core/views.py:141-150 | On the successful Spotify path the calls are exactly: top artists (10, `medium_term`), top tracks (10, `short_term`), the current user, then one model call whose prompt holds the display name and both name lists. |
| PipelineProperties.ApiStopsAtUnreadablePage | core/views.py:143-146 | A page of either list without `items`, or an item without a name, stops the handler after both top-item calls, before the current user is fetched, and the body is the fallback. |
| PipelineProperties.ApiJoinFailsAfterUserCall | core/views.py:145-148 | A name in either list that is present but is not a string fails only at the join, after the current user was fetched: three calls, no model call, and the fallback. |
| PipelineProperties.ManualPostThenShell | core/views.py:119-127 | After the manual form is posted, the page shows the posted name (or "Anonymous") without any call. |
| PipelineProperties.ManualPostThenApi | core/views.py:119-127 | After the manual form is posted, the endpoint prompts with the posted name and taste and never calls Spotify, even with a token stored. |
| PipelineProperties.LoginThenShell | core/views.py:86-89 | After a successful login the source is Spotify whatever it was before, and the page asks Spotify for the current user with the new token. |
| PipelineProperties.MockedModelScenario | core/tests.py:71-104 | A manual session for "Tester" with "Test Music", whose model returns the mocked record, gets that record back as the body. |
| PipelineProperties.ManualFormScenario | core/tests.py:39-59 | Posting the test form redirects to `roast_me` and stores source `manual` and the name "Test User". |
| PipelineProperties.ManualPageScenario | core/tests.py:20-24 | A GET of the manual page renders `manual_input.html` and leaves a fresh session empty. |

## Left out

- Spotify's OAuth helper (`get_spotify_oauth`, core/views.py:9-16): it reads the environment and is constructed outside any `try`. The model assumes building it never raises. `login` is modelled only as a redirect to the URL it returns.
- The Spotify client and its HTTP calls: each call is a function from its arguments to a value or an error. The Spotify user record is reduced to its display name and image URLs. A user record missing one of the keys the code reads (`display_name`, `images[0]['url']`) is folded into the `current_user` call's error; the call is made either way, so the trace is the same. Top-item pages are kept whole, and their `items` are read after both calls, as the code does.
- Gemini's configuration, model name and generation settings (core/views.py:27-35): these never change what the views return. `generate_content(...).text` is modelled as returning text or raising.
- The `GEMINI_API_KEY` environment read: the key is a parameter of the handlers.
- `print` logging, Django's `render`, `redirect` and template rendering, HTTP status codes, and session serialisation: outcomes are tagged values and the session is a record.
- The error a failed read raises is recorded by name only, and not always the name Python would give: an item that is not a dictionary raises `TypeError` in the code where the model records `KeyError`. Every exception is caught in the same place, so the response and the calls are the same.
- JSON numbers are integers: floats and exponents, which `json.loads` can also produce, are not modelled. That leaves the pass-through of the model's object unaffected but makes it less general.
- The avatar URL appends the name as it is: the code does no URL encoding, and neither does the model.
- `core/models.py`, `RoastBeats/settings.py` and `static/js/roast.js` are not part of this model. The first is an ORM model the views never use, the second is configuration, and the third is the browser side.
- Views.RoastApiData: its own contract says the body is the fallback or a model-produced object for some prompt that was sent. The exact prompt and call order are stated by the `PipelineProperties.Api*` lemmas instead.
- Views.GatherProfile: its own contract gives the manual result and the order of the Spotify reads, but not the Spotify profile on success nor which error stops it. Those are stated by `PipelineProperties.GatherSpotifyProfile`, `PipelineProperties.ApiStopsAtUnreadablePage`, `PipelineProperties.ApiJoinFailsAfterUserCall` and `PipelineProperties.ApiFallsBackOnFetchError`.
- Views.RoastMe: its own contract states only the shape of the response. The exact name, image and calls are stated by the `PipelineProperties.Shell*` lemmas.
- PipelineProperties.MockedModelScenario: the test replaces `get_ai_roast` as a whole. The lemma instead uses a configured key and a model that answers with the mocked record, which reaches the same body through the real `get_ai_roast`.
- The prompt (core/views.py:47-51) asks the model for four keys within stated limits, but the code checks neither the keys nor the limits of what it decodes: any decoded dictionary is sent as it is. The model follows the code. `PipelineProperties.ApiBodyIsRecordOrModelObject` states what the code does guarantee, and `AiClient.AiAnswerPassesThrough` and `PipelineProperties.ApiPassesModelObjectThrough` state the pass-through.
