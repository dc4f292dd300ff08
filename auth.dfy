/**
 * auth/auth_functions.go: the client that holds the session and its token bearer, and
 * the check that the session is still good.  Reading the Kubernetes secret
 * splicectl-api-tokens and the clock are inputs.
 */
module Auth {
  import opened Text
  import Rfc3339

  /** common.SessionData */
  datatype SessionData = SessionData(sessionID: string, validUntil: string)

  /**
   * What reading the secret gives: its data, or the step that failed.  Each failure
   * (restConfig, kubernetes.NewForConfig, the Get of the secret) ends the process.
   */
  datatype SecretRead = ConfigFailed | ClientFailed | GetFailed | Read(data: map<string, string>)

  const BearerKeySuffix: string := "_token-bearer"

  /** The bearer stored for a session in the secret, trimmed; a missing key reads as empty. */
  function StoredToken(secret: map<string, string>, sessionID: string): string {
    var key := sessionID + BearerKeySuffix;
    TrimSpace(if key in secret then secret[key] else "")
  }

  /** notAfter.Before(now), with an unreadable stamp read as the zero Time. */
  predicate Expired(validUntil: string, now: int) {
    Rfc3339.NotAfter(validUntil) < now
  }

  /** Whether CheckTokenValidity gets as far as reading the secret. */
  predicate ReachesSecret(session: SessionData, now: int) {
    session.sessionID != "" && session.validUntil != "" && !Expired(session.validUntil, now)
  }

  /** Whether CheckTokenValidity ends the process: it reads the secret and the read fails. */
  predicate ExitsOnSecret(session: SessionData, now: int, read: SecretRead) {
    ReachesSecret(session, now) && !read.Read?
  }

  /** What CheckTokenValidity answers for a session at instant `now`, when it returns. */
  predicate TokenValid(session: SessionData, now: int, read: SecretRead) {
    ReachesSecret(session, now) && read.Read? && StoredToken(read.data, session.sessionID) != ""
  }

  /** auth.Info */
  class Info {
    var tokenBearer: string
    var session: SessionData
    var environment: string

    /** NewAuth: the environment and session, with no token bearer yet. */
    constructor NewAuth(environmentName: string, sess: SessionData)
      ensures tokenBearer == "" && session == sess && environment == environmentName
    {
      environment := environmentName;
      session := sess;
      tokenBearer := "";
    }

    function GetTokenBearer(): string
      reads this
    {
      tokenBearer
    }

    function GetSessionID(): string
      reads this
    {
      session.sessionID
    }

    function GetSession(): SessionData
      reads this
    {
      session
    }

    /**
     * RetrieveTokenBearer: read the secret, ending the process when that fails; then
     * look up "<SessionID>_token-bearer", keep it trimmed, and report whether it is
     * non-empty.
     */
    method RetrieveTokenBearer(read: SecretRead) returns (ok: bool, exited: bool)
      modifies this
      ensures exited <==> !read.Read?
      ensures exited ==> !ok && tokenBearer == old(tokenBearer)
      ensures !exited ==> tokenBearer == StoredToken(read.data, old(session).sessionID)
      ensures !exited ==> (ok <==> tokenBearer != "")
      ensures session == old(session) && environment == old(environment)
    {
      if !read.Read? {
        return false, true;
      }
      exited := false;
      var bearerPath := session.sessionID + BearerKeySuffix;
      tokenBearer := TrimSpace(if bearerPath in read.data then read.data[bearerPath] else "");
      if tokenBearer == "" {
        return false, false;
      }
      return true, false;
    }

    /**
     * CheckTokenValidity: false for an empty session id or stamp, false when the stamp
     * is before `now`, otherwise whatever RetrieveTokenBearer finds, including its exit.
     */
    method CheckTokenValidity(now: int, read: SecretRead) returns (valid: bool, exited: bool)
      modifies this
      ensures session == old(session) && environment == old(environment)
      ensures exited <==> ExitsOnSecret(old(session), now, read)
      ensures valid <==> TokenValid(old(session), now, read)
      ensures tokenBearer == if ReachesSecret(old(session), now) && read.Read?
                             then StoredToken(read.data, old(session).sessionID) else old(tokenBearer)
    {
      valid, exited := false, false;
      if ReachesSecret(session, now) {
        valid, exited := RetrieveTokenBearer(read);
      }
    }
  }

  /** A new client reports back exactly the session it was given, and no bearer. */
  method NewAuthView(environmentName: string, sess: SessionData) returns (bearer: string, id: string, got: SessionData)
    ensures bearer == "" && id == sess.sessionID && got == sess
  {
    var client := new Info.NewAuth(environmentName, sess);
    bearer := client.GetTokenBearer();
    id := client.GetSessionID();
    got := client.GetSession();
  }

  /** An empty session id or stamp is never valid, whatever the secret holds. */
  lemma EmptySessionInvalid(session: SessionData, now: int, read: SecretRead)
    requires session.sessionID == "" || session.validUntil == ""
    ensures !TokenValid(session, now, read) && !ExitsOnSecret(session, now, read)
  {
  }

  /** A stamp that does not parse is the zero Time, which is before every later instant. */
  lemma UnreadableStampExpired(validUntil: string, now: int)
    requires Rfc3339.Parse(validUntil).None? && now > 0
    ensures Expired(validUntil, now)
  {
  }

  /** For a stamp written in RFC 3339 form, expiry is exactly "its instant is before now". */
  lemma ExpiryOfWrittenStamp(dt: Rfc3339.DateTime, now: int)
    requires Rfc3339.Valid(dt)
    ensures Expired(Rfc3339.Format(dt), now) <==> Rfc3339.Instant(dt) < now
  {
    Rfc3339.FormatRoundTrip(dt);
  }

  /** A bearer of white space alone counts as no bearer. */
  lemma BlankBearerInvalid(session: SessionData, now: int, data: map<string, string>)
    requires session.sessionID + BearerKeySuffix in data
    requires forall i :: 0 <= i < |data[session.sessionID + BearerKeySuffix]| ==> IsSpace(data[session.sessionID + BearerKeySuffix][i])
    ensures !TokenValid(session, now, Read(data))
  {
    BlankTrimsToEmpty(data[session.sessionID + BearerKeySuffix]);
  }

  lemma {:induction false} BlankTrimsToEmpty(s: string)
    requires forall i :: 0 <= i < |s| ==> IsSpace(s[i])
    ensures TrimSpace(s) == ""
  {
    if s != [] {
      assert forall i :: 0 <= i < |s[1..]| ==> IsSpace(s[1..][i]);
      BlankTrimsToEmpty(s[1..]);
    }
  }
}
