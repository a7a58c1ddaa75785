/**
  The three credentials the service issues. Each is a value set once when it is
  built and never changed; each carries its own expiry, which the client never
  checks. A user session and a guest session are different types with differently
  named identifiers, so one can never be passed where the other is expected.
 */
module Objects {

  /** A naive date and time, as `datetime.strptime` returns it. */
  datatype Timestamp = Timestamp(year: int, month: int, day: int, hour: int, minute: int, second: int)

  datatype AuthenticationToken = AuthenticationToken(requestToken: string, expiresAt: Timestamp)

  datatype Session = Session(sessionId: string, expiresAt: Timestamp)

  datatype GuestSession = GuestSession(guestSessionId: string, expiresAt: Timestamp)

  /** `str(token)`: the request token itself, so a token can stand wherever its text is expected. */
  function TokenString(t: AuthenticationToken): (s: string)
    ensures s == t.requestToken
  {
    t.requestToken
  }

  /** `str(session)`: the session identifier. */
  function SessionString(s: Session): (r: string)
    ensures r == s.sessionId
  {
    s.sessionId
  }

  /** `str(guest_session)`: the guest session identifier. */
  function GuestSessionString(g: GuestSession): (r: string)
    ensures r == g.guestSessionId
  {
    g.guestSessionId
  }
}
