/**
 * The checks cmd/main.go's PersistentPreRun makes before any command runs: the session
 * gate and the validation of the global -o flag.  The gate looks at os.Args[1], the
 * first word on the command line, which is the subcommand only when no global flag
 * precedes it: unless that word is "version" a valid session is needed, and when it is
 * "auth" the command may run without one.  The viper configuration, the clock and the
 * read of the Kubernetes secret are inputs.
 */
module RootCommand {
  import opened Wrappers
  import opened Text
  import Rfc3339
  import Auth
  import Config

  /**
   * How PersistentPreRun ends: the command runs, or the process exits with status 1
   * (the secret could not be read, the session has expired, or -o is unknown).
   */
  datatype Outcome = Ready | SecretFatal | SessionExpired | InvalidFormat

  /** What fmt.Sprintf("%s", nil) prints: a key viper does not hold. */
  const MissingValue: string := "%!s(<nil>)"

  /** fmt.Sprintf("%s", viper.Get(key)) for configuration values that are strings. */
  function ViperString(settings: map<string, string>, key: string): (r: string)
    ensures key in settings ==> r == settings[key]
    ensures key !in settings ==> r == MissingValue
  {
    if key in settings then settings[key] else MissingValue
  }

  /** The session read from "<environment>-session_id" and "<environment>-valid_until". */
  function StoredSession(settings: map<string, string>, environment: string): Auth.SessionData {
    Auth.SessionData(ViperString(settings, environment + "-session_id"),
                     ViperString(settings, environment + "-valid_until"))
  }

  /** The values the -o switch lets through, after lower-casing. */
  predicate Accepted(lower: string) {
    lower == "json" || lower == "gron" || lower == "yaml" || lower == "text" || lower == "table" || lower == "raw"
  }

  /**
   * The -o validation: an empty flag means JSON, not overridden; any other value is
   * lower-cased and kept, overridden, when it is one of the accepted names; None is the
   * exit with status 1.
   */
  function ValidateFormat(format: string): (r: Option<(string, bool)>)
  {
    if format == "" then Some(("json", false))
    else
      var lower := ToLower(format);
      if Accepted(lower) then Some((lower, true)) else None
  }

  /** The gate ends the process because reading the secret failed. */
  predicate SecretFails(firstArg: string, session: Auth.SessionData, now: int, read: Auth.SecretRead) {
    firstArg != "version" && Auth.ExitsOnSecret(session, now, read)
  }

  /** The gate ends the process because the session is not valid. */
  predicate SessionRefused(firstArg: string, session: Auth.SessionData, now: int, read: Auth.SecretRead) {
    firstArg != "version" && firstArg != "auth"
    && !Auth.ExitsOnSecret(session, now, read) && !Auth.TokenValid(session, now, read)
  }

  /** The session gate: for which first arguments, sessions and secrets the command goes on. */
  predicate PassesGate(firstArg: string, session: Auth.SessionData, now: int, read: Auth.SecretRead) {
    !SecretFails(firstArg, session, now, read) && !SessionRefused(firstArg, session, now, read)
  }

  /**
   * PersistentPreRun from the session check on.  Unless os.Args[1] is "version" a new
   * auth client is made from the stored session and asked whether it is still valid;
   * that check ends the process when the secret cannot be read, and an invalid session
   * stops everything but "auth".  Then -o is validated.
   */
  method PersistentPreRun(c: Config.Config, firstArg: string, environment: string,
                          settings: map<string, string>, now: int, read: Auth.SecretRead)
    returns (outcome: Outcome)
    modifies c
    ensures c.apiServer == old(c.apiServer) && c.noHeaders == old(c.noHeaders)
    ensures firstArg == "version" ==> c.authClient == old(c.authClient)
    ensures firstArg != "version" ==>
      && c.authClient != null && fresh(c.authClient)
      && c.authClient.session == StoredSession(settings, environment)
      && c.authClient.environment == environment
      && c.authClient.tokenBearer == (if Auth.ReachesSecret(StoredSession(settings, environment), now) && read.Read?
                                      then Auth.StoredToken(read.data, StoredSession(settings, environment).sessionID)
                                      else "")
    ensures outcome == SecretFatal <==> SecretFails(firstArg, StoredSession(settings, environment), now, read)
    ensures outcome == SessionExpired <==> SessionRefused(firstArg, StoredSession(settings, environment), now, read)
    ensures outcome == SecretFatal || outcome == SessionExpired ==>
      c.outputFormat == old(c.outputFormat) && c.formatOverridden == old(c.formatOverridden)
    ensures outcome == InvalidFormat <==>
      PassesGate(firstArg, StoredSession(settings, environment), now, read) && ValidateFormat(old(c.outputFormat)).None?
    ensures outcome == InvalidFormat ==> c.outputFormat == ToLower(old(c.outputFormat))
    ensures outcome == Ready ==> ValidateFormat(old(c.outputFormat)) == Some((c.outputFormat, c.formatOverridden))
  {
    outcome := CheckSession(c, firstArg, environment, StoredSession(settings, environment), now, read);
    if outcome != Ready {
      return;
    }
    var valid := ApplyFormat(c);
    outcome := if valid then Ready else InvalidFormat;
  }

  /**
   * The session gate: unless os.Args[1] is "version" a new auth client is made from the
   * stored session; the outcome is Ready when the command goes on.
   */
  method CheckSession(c: Config.Config, firstArg: string, environment: string, session: Auth.SessionData,
                      now: int, read: Auth.SecretRead)
    returns (outcome: Outcome)
    modifies c
    ensures c.apiServer == old(c.apiServer) && c.noHeaders == old(c.noHeaders)
    ensures c.outputFormat == old(c.outputFormat) && c.formatOverridden == old(c.formatOverridden)
    ensures firstArg == "version" ==> c.authClient == old(c.authClient)
    ensures firstArg != "version" ==>
      && c.authClient != null && fresh(c.authClient)
      && c.authClient.session == session
      && c.authClient.environment == environment
      && c.authClient.tokenBearer == (if Auth.ReachesSecret(session, now) && read.Read? then Auth.StoredToken(read.data, session.sessionID) else "")
    ensures outcome != InvalidFormat
    ensures outcome == SecretFatal <==> SecretFails(firstArg, session, now, read)
    ensures outcome == SessionExpired <==> SessionRefused(firstArg, session, now, read)
  {
    outcome := Ready;
    if firstArg != "version" {
      var client := new Auth.Info.NewAuth(environment, session);
      c.authClient := client;
      var isValid, exited := client.CheckTokenValidity(now, read);
      if exited {
        return SecretFatal;
      }
      if !isValid && firstArg != "auth" {
        return SessionExpired;
      }
    }
  }

  /** The -o validation applied to the configuration: valid is false on the exit with status 1. */
  method ApplyFormat(c: Config.Config) returns (valid: bool)
    modifies c
    ensures c.apiServer == old(c.apiServer) && c.noHeaders == old(c.noHeaders) && c.authClient == old(c.authClient)
    ensures valid <==> ValidateFormat(old(c.outputFormat)).Some?
    ensures valid ==> ValidateFormat(old(c.outputFormat)) == Some((c.outputFormat, c.formatOverridden))
    ensures !valid ==> c.outputFormat == ToLower(old(c.outputFormat))
  {
    valid := true;
    if c.outputFormat != "" {
      c.outputFormat := ToLower(c.outputFormat);
      if Accepted(c.outputFormat) {
        c.formatOverridden := true;
      } else {
        valid := false;
      }
    } else {
      c.formatOverridden := false;
      c.outputFormat := "json";
    }
  }

  /** Validation ignores case, fails exactly on a non-empty unknown name, and marks -o as given. */
  lemma ValidateFormatCases(format: string)
    ensures ValidateFormat(format) == ValidateFormat(ToLower(format))
    ensures ValidateFormat(format).None? <==> format != "" && !Accepted(ToLower(format))
    ensures ValidateFormat(format).Some? ==> ValidateFormat(format).value.1 <==> format != ""
  {
    Config.ToLowerIdempotent(format);
    if format != "" {
      assert |ToLower(format)| > 0;
    }
  }

  /** A validated format validates again to itself, now as an explicit choice. */
  lemma ValidateFormatIdempotent(format: string)
    requires ValidateFormat(format).Some?
    ensures ValidateFormat(ValidateFormat(format).value.0) == Some((ValidateFormat(format).value.0, true))
  {
    var lower := ValidateFormat(format).value.0;
    if format == "" {
      assert ToLower("json") == "json";
    } else {
      Config.ToLowerIdempotent(format);
      assert |lower| > 0;
    }
  }

  /**
   * Every accepted name but "raw" has a renderer in outputData, and the JSON default
   * is one of them.
   */
  lemma AcceptedFormatsRender(format: string, noHeaders: bool)
    requires ValidateFormat(format).Some?
    ensures Config.RendererFor(ValidateFormat(format).value.0, noHeaders).NoOutput?
            <==> ValidateFormat(format).value.0 == "raw"
  {
    var lower := ValidateFormat(format).value.0;
    if format == "" {
      assert ToLower("json") == "json";
    } else {
      Config.ToLowerIdempotent(format);
    }
    Config.RendererChoice(lower, noHeaders);
  }

  /**
   * A session whose validity stamp is missing from the configuration carries the text
   * "%!s(<nil>)", which does not parse; it is expired at every instant after the zero Time.
   */
  lemma MissingStampExpires(settings: map<string, string>, environment: string, now: int, read: Auth.SecretRead)
    requires environment + "-valid_until" !in settings && now > 0
    ensures !Auth.TokenValid(StoredSession(settings, environment), now, read)
    ensures !Auth.ExitsOnSecret(StoredSession(settings, environment), now, read)
  {
    assert Rfc3339.Parse(MissingValue).None?;
    Auth.UnreadableStampExpired(MissingValue, now);
  }
}
