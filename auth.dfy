/** The login session, password hashes and the `login_required` guard. */
module Auth {
  import opened Text
  import opened Web

  /** Stand-in for a Werkzeug password hash. `generate_password_hash` salts
      with fresh randomness, so the salt is a parameter; `check_password_hash`
      is modelled by the one property the application relies on. */
  datatype PasswordHash = PasswordHash(salt: string, secret: string)

  function HashPassword(password: string, salt: string): PasswordHash {
    PasswordHash(salt, password)
  }

  predicate CheckPassword(h: PasswordHash, candidate: string) {
    h.secret == candidate
  }

  /** A password checks against its own hash and against no other password,
      whatever the salt. */
  lemma CheckHashed(password: string, salt: string, candidate: string)
    ensures CheckPassword(HashPassword(password, salt), candidate) <==> candidate == password
  {
  }

  /** The three keys of Flask's `session` that the application uses. */
  datatype SessionData = SessionData(userId: Option<int>, username: Option<string>, role: Option<string>)

  /** The session of one browser, which `login` writes key by key. */
  class Session {
    var userId: Option<int>
    var username: Option<string>
    var role: Option<string>

    constructor ()
      ensures Data() == SessionData(None, None, None)
    {
      userId, username, role := None, None, None;
    }

    function Data(): SessionData
      reads this
    {
      SessionData(userId, username, role)
    }
  }

  /** Python truthiness of an optional string. */
  predicate Truthy(s: Option<string>) {
    s.Some? && s.value != ""
  }

  /** `session.get("user_id")` is truthy: present and not 0. */
  predicate SignedIn(s: SessionData) {
    s.userId.Some? && s.userId.value != 0
  }

  datatype GuardDecision = Allow | Deny(response: Response)

  const PLEASE_LOGIN := Flash(Warning, "Please login first.")
  const ACCESS_DENIED := Flash(Danger, "Access denied.")

  /** `login_required(role)`: decide, before the handler runs, whether it may
      run for this session. */
  function Guard(s: SessionData, required: Option<string>): (d: GuardDecision)
    ensures d.Allow? <==> SignedIn(s) && (Truthy(required) ==> s.role == required)
    ensures d.Deny? ==> d.response.Redirect? && d.response.target == LoginPage
    ensures !SignedIn(s) ==> d.Deny? && d.response.flash == PLEASE_LOGIN
    ensures SignedIn(s) && d.Deny? ==> d.response.flash == ACCESS_DENIED
  {
    if !SignedIn(s) then Deny(Redirect(LoginPage, PLEASE_LOGIN))
    else if Truthy(required) && s.role != required then Deny(Redirect(LoginPage, ACCESS_DENIED))
    else Allow
  }
}
