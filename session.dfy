/** The session rules of `LineClient`: transport headers and the login result classification. */
module Session {
  import opened Wrappers
  import opened LineTypes

  /** `LineClient._LINE_APP_ID`, sent as `X-Line-Application` on every transport. */
  const LINE_APP_ID: string := "DESKTOPWIN\t3.2.1.83\tWINDOWS\t5.1.2600-XP-x64"

  /** The `X-Line-Access` value a transport carries before login. */
  const UNAUTHENTICATED_ACCESS: string := "x"

  const LOGIN_SUCCESS: int := 1
  const LOGIN_PIN_REQUIRED: int := 3

  /** The custom headers a transport is given for one access token. */
  function Headers(access: string): map<string, string>
  {
    map["X-Line-Application" := LINE_APP_ID, "X-Line-Access" := access]
  }

  /**
   * What `_login` makes of the login result type: only type 1 lets the
   * session proceed; type 3 is the unsupported PIN path; any other type is an
   * error carrying that type.
   */
  function LoginOutcome(resultType: int): (r: Outcome<LineError>)
    ensures r.Pass? <==> resultType == LOGIN_SUCCESS
    ensures resultType == LOGIN_PIN_REQUIRED ==> r == Fail(PinRequired)
    ensures resultType != LOGIN_SUCCESS && resultType != LOGIN_PIN_REQUIRED ==> r == Fail(LoginFailed(resultType))
  {
    if resultType == LOGIN_PIN_REQUIRED then Fail(PinRequired)
    else if resultType != LOGIN_SUCCESS then Fail(LoginFailed(resultType))
    else Pass
  }
}
