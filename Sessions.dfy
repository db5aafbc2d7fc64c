/**
 * The per-user session the handlers share. Only the three keys the roast
 * pipeline uses are modelled.
 */
module Sessions {
  import opened Wrappers

  const ManualSource := "manual"
  const SpotifySource := "spotify"

  /** The `manual_data` dictionary; a field is None when its key is missing. */
  datatype ManualData = ManualData(username: Option<string>, musicInput: Option<string>)

  /** The token bundle returned by the OAuth exchange, as a dictionary. */
  type TokenBundle = map<string, string>

  /** A snapshot of the session; a field is None when its key is absent. */
  datatype SessionState = SessionState(
    roastSource: Option<string>,
    manualData: Option<ManualData>,
    tokenInfo: Option<TokenBundle>)

  const EmptySession := SessionState(None, None, None)

  /** `request.session`, which the handlers change in place. */
  class Session {
    var roastSource: Option<string>
    var manualData: Option<ManualData>
    var tokenInfo: Option<TokenBundle>

    constructor ()
      ensures State() == EmptySession
    {
      roastSource, manualData, tokenInfo := None, None, None;
    }

    function State(): SessionState
      reads this
    {
      SessionState(roastSource, manualData, tokenInfo)
    }
  }
}
