/**
 * The outside services the views call, reduced to what they return: Spotify's
 * OAuth exchange and Web API, Gemini's text generation and `json.loads`.
 * Each is a total function from its input to a value or a raised error.
 */
module Collaborators {
  import opened Wrappers
  import opened Json
  import opened Sessions

  /** `current_user()` once its `display_name` and `images[*]['url']` have been read. */
  datatype SpotifyUser = SpotifyUser(displayName: Option<string>, imageUrls: seq<string>)

  /** The arguments of a top-artists or top-tracks request. */
  datatype TopQuery = TopQuery(accessToken: string, limit: nat, timeRange: string)

  /** The Spotify Web API as seen by a client built from an access token. The top-item calls return the decoded page. */
  datatype SpotifyApi = SpotifyApi(
    currentUser: string -> Result<SpotifyUser, string>,
    topArtists: TopQuery -> Result<Json, string>,
    topTracks: TopQuery -> Result<Json, string>)

  /** `model.generate_content(prompt).text`, or the exception either step raised. */
  datatype Generation = Text(text: string) | Raised(error: string)

  /** `json.loads(text)`: the decoded value, or a `JSONDecodeError`. */
  datatype JsonParse = Parsed(value: Json) | DecodeError(message: string)

  datatype AiBackend = AiBackend(
    generateContent: string -> Generation,
    jsonLoads: string -> JsonParse)

  /** An external call a handler makes, with the arguments it passes. */
  datatype Call =
    | ExchangeCode(code: string)
    | CurrentUser(accessToken: string)
    | TopArtists(query: TopQuery)
    | TopTracks(query: TopQuery)
    | GenerateContent(prompt: string)
}
