/** How a tool obtains an authenticated client (`_get_reddit_client`):
    credentials come from the credential store when one was registered,
    otherwise from the JSON held in the REDDIT_CREDENTIALS environment
    variable; they must name the four OAuth fields before the client
    library is asked to build a client from them. */
module Credentials {

  import opened Wrappers
  import opened Strings

  /** A decoded credential object: field name to value. */
  type Creds = map<string, string>

  /** The `{"error": ..., "help": ...}` dictionary a tool returns on failure;
      `help` is present only for configuration errors. */
  datatype ErrorDict = ErrorDict(error: string, help: Option<string>)

  /** A registered credential store, seen through its one lookup:
      what `get("reddit")` returns. */
  datatype Adapter = Adapter(reddit: Option<Creds>)

  /** Everything outside the tool that decides which client it gets. */
  datatype Config = Config(
    /** Whether the client library could be imported. */
    libraryAvailable: bool,
    /** The credential store passed to `register_tools`, if any. */
    adapter: Option<Adapter>,
    /** The value of REDDIT_CREDENTIALS, if set. */
    env: Option<string>,
    /** The JSON decoder: `None` when the text is not valid JSON. */
    parseJson: string -> Option<Creds>,
    /** The message of the exception the client constructor raises, if it does. */
    constructorError: Option<string>)

  /** The client the library builds, recorded by the four values it was built from. */
  datatype Client = Client(clientId: string, clientSecret: string, refreshToken: string, userAgent: string)

  const RequiredFields: seq<string> := ["client_id", "client_secret", "refresh_token", "user_agent"]

  const LibraryMissing := ErrorDict("PRAW library not installed",
                                    Some("Install with: pip install praw>=7.7.1 prawcore>=2.4.0"))
  const InvalidFormat := ErrorDict("Invalid REDDIT_CREDENTIALS format",
                                   Some("Must be valid JSON with client_id, client_secret, refresh_token, user_agent"))
  const NotConfigured := ErrorDict("REDDIT_CREDENTIALS not configured",
                                   Some("Get credentials at https://www.reddit.com/prefs/apps"))
  const MissingFieldsPrefix := "Missing required credential fields: "
  const MissingFieldsHelp := "REDDIT_CREDENTIALS must include: client_id, client_secret, refresh_token, user_agent"
  const AuthenticationPrefix := "Failed to authenticate with Reddit: "

  /** `r` keeps some of the elements of `s`, in the order `s` has them. */
  predicate IsSubsequence(r: seq<string>, s: seq<string>)
    decreases |s|
  {
    if r == [] then true
    else if s == [] then false
    else if r[0] == s[0] then IsSubsequence(r[1..], s[1..])
    else IsSubsequence(r, s[1..])
  }

  /** The fields of `fields` that are not keys of `creds`, in order. */
  function MissingFields(fields: seq<string>, creds: Creds): (r: seq<string>)
    ensures forall f :: f in r <==> f in fields && f !in creds
    ensures IsSubsequence(r, fields)
    ensures |r| <= |fields|
  {
    if fields == [] then []
    else if fields[0] in creds then MissingFields(fields[1..], creds)
    else [fields[0]] + MissingFields(fields[1..], creds)
  }

  /** The credentials as looked up, before any check on their content:
      the store when there is one (the environment is then not read),
      otherwise the decoded environment variable. An unset or empty
      variable gives no credentials; one that does not decode is an error. */
  function LookupCredentials(cfg: Config): (r: Result<Option<Creds>, ErrorDict>)
    ensures cfg.adapter.Some? ==> r == Success(cfg.adapter.value.reddit)
    ensures r.Failure? <==> cfg.adapter.None? && cfg.env.Some? && cfg.env.value != ""
                            && cfg.parseJson(cfg.env.value).None?
    ensures r.Failure? ==> r.error == InvalidFormat
    ensures cfg.adapter.None? && (cfg.env.None? || cfg.env.value == "") ==> r == Success(None)
    ensures cfg.adapter.None? && cfg.env.Some? && cfg.env.value != "" && cfg.parseJson(cfg.env.value).Some?
            ==> r == Success(cfg.parseJson(cfg.env.value))
  {
    if cfg.adapter.Some? then Success(cfg.adapter.value.reddit)
    else if cfg.env.Some? && cfg.env.value != "" then
      match cfg.parseJson(cfg.env.value)
      case None => Failure(InvalidFormat)
      case Some(creds) => Success(Some(creds))
    else Success(None)
  }

  /** Python's truthiness of the looked-up credentials: `None` and `{}` are false. */
  predicate Present(creds: Option<Creds>): (b: bool)
    ensures creds.None? ==> !b
    ensures creds.Some? ==> (b <==> exists k :: k in creds.value)
  {
    creds.Some? && creds.value != map[]
  }

  /** The error message that names the missing fields. */
  function MissingFieldsMessage(missing: seq<string>): (r: string)
    ensures StripPrefix(MissingFieldsPrefix, r) == Some(Join(", ", missing))
  {
    StripPrefixOfConcat(MissingFieldsPrefix, Join(", ", missing));
    MissingFieldsPrefix + Join(", ", missing)
  }

  /** `_get_reddit_client`: a client built from the four credential fields,
      or the error dictionary for the first check that fails. */
  function GetRedditClient(cfg: Config): (r: Result<Client, ErrorDict>)
    ensures !cfg.libraryAvailable ==> r == Failure(LibraryMissing)
    ensures cfg.libraryAvailable && LookupCredentials(cfg).Failure? ==> r == Failure(InvalidFormat)
    ensures (cfg.libraryAvailable && LookupCredentials(cfg).Success? && !Present(LookupCredentials(cfg).value))
            ==> r == Failure(NotConfigured)
    ensures r.Success? ==>
              && cfg.libraryAvailable
              && cfg.constructorError.None?
              && LookupCredentials(cfg).Success?
              && var creds := LookupCredentials(cfg).value;
              && creds.Some?
              && (forall f :: f in RequiredFields ==> f in creds.value)
              && r.value == Client(creds.value["client_id"], creds.value["client_secret"],
                                   creds.value["refresh_token"], creds.value["user_agent"])
    ensures r.Failure? && r.error.help == Some(MissingFieldsHelp) ==>
              && LookupCredentials(cfg).Success?
              && var creds := LookupCredentials(cfg).value;
              && Present(creds)
              && MissingFields(RequiredFields, creds.value) != []
              && r.error.error == MissingFieldsMessage(MissingFields(RequiredFields, creds.value))
    ensures (&& cfg.libraryAvailable && LookupCredentials(cfg).Success?
             && Present(LookupCredentials(cfg).value)
             && MissingFields(RequiredFields, LookupCredentials(cfg).value.value) == [])
            ==> && (cfg.constructorError.Some? ==>
                      r == Failure(ErrorDict(AuthenticationPrefix + cfg.constructorError.value, None)))
                && (cfg.constructorError.None? ==> r.Success?)
  {
    if !cfg.libraryAvailable then Failure(LibraryMissing)
    else match LookupCredentials(cfg)
      case Failure(e) => Failure(e)
      case Success(creds) =>
        if !Present(creds) then Failure(NotConfigured)
        else
          var missing := MissingFields(RequiredFields, creds.value);
          if missing != [] then Failure(ErrorDict(MissingFieldsMessage(missing), Some(MissingFieldsHelp)))
          else match cfg.constructorError
            case Some(message) => Failure(ErrorDict(AuthenticationPrefix + message, None))
            case None =>
              var c := creds.value;
              Success(Client(c["client_id"], c["client_secret"], c["refresh_token"], c["user_agent"]))
  }

  /** With a credential store registered, neither the environment variable
      nor the JSON decoder has any say in the outcome. */
  lemma AdapterTakesPrecedence(cfg1: Config, cfg2: Config)
    requires cfg1.adapter.Some? && cfg1.adapter == cfg2.adapter
    requires cfg1.libraryAvailable == cfg2.libraryAvailable
    requires cfg1.constructorError == cfg2.constructorError
    ensures GetRedditClient(cfg1) == GetRedditClient(cfg2)
  {
  }

  /** Once credentials are present, the missing-fields error is reported
      exactly when some required field is absent. */
  lemma MissingFieldsErrorIff(cfg: Config)
    requires cfg.libraryAvailable && LookupCredentials(cfg).Success?
    requires Present(LookupCredentials(cfg).value)
    ensures var missing := MissingFields(RequiredFields, LookupCredentials(cfg).value.value);
            GetRedditClient(cfg) == Failure(ErrorDict(MissingFieldsMessage(missing), Some(MissingFieldsHelp)))
            <==> missing != []
  {
  }

  /** No required field name contains a comma. */
  lemma RequiredFieldLacksComma(f: string)
    requires f in RequiredFields
    ensures Lacks(f, ',')
  {
    assert f == RequiredFields[0] || f == RequiredFields[1] || f == RequiredFields[2] || f == RequiredFields[3];
  }

  /** No missing field name contains a comma. */
  lemma RequiredFieldsLackComma(missing: seq<string>, creds: Creds)
    requires missing == MissingFields(RequiredFields, creds)
    ensures forall i :: 0 <= i < |missing| ==> Lacks(missing[i], ',')
  {
    forall i | 0 <= i < |missing|
      ensures Lacks(missing[i], ',')
    {
      RequiredFieldLacksComma(missing[i]);
    }
  }

  /** The missing-fields message is unambiguous: two credential sets that
      draw the same message lack exactly the same fields. */
  lemma MissingFieldsMessageDeterminesFields(creds1: Creds, creds2: Creds)
    requires MissingFields(RequiredFields, creds1) != []
    requires MissingFields(RequiredFields, creds2) != []
    requires MissingFieldsMessage(MissingFields(RequiredFields, creds1))
             == MissingFieldsMessage(MissingFields(RequiredFields, creds2))
    ensures MissingFields(RequiredFields, creds1) == MissingFields(RequiredFields, creds2)
  {
    var m1 := MissingFields(RequiredFields, creds1);
    var m2 := MissingFields(RequiredFields, creds2);
    StripPrefixOfConcat(MissingFieldsPrefix, Join(", ", m1));
    StripPrefixOfConcat(MissingFieldsPrefix, Join(", ", m2));
    RequiredFieldsLackComma(m1, creds1);
    RequiredFieldsLackComma(m2, creds2);
    JoinInjective(", ", m1, m2);
  }

  /** Credentials holding only `client_id` lack the other three fields. */
  lemma OnlyClientIdMissing(creds: Creds)
    requires "client_id" in creds
    requires "client_secret" !in creds && "refresh_token" !in creds && "user_agent" !in creds
    ensures MissingFields(RequiredFields, creds) == ["client_secret", "refresh_token", "user_agent"]
  {
    var fields := RequiredFields;
    assert MissingFields(fields[3..], creds) == ["user_agent"];
    assert MissingFields(fields[2..], creds) == ["refresh_token", "user_agent"];
  }

  /** The message naming the last three fields, written out. */
  lemma LastThreeFieldsMessage()
    ensures MissingFieldsMessage(RequiredFields[1..])
            == MissingFieldsPrefix + "client_secret" + ", " + "refresh_token" + ", " + "user_agent"
  {
    assert RequiredFields[1..] == ["client_secret", "refresh_token", "user_agent"];
    JoinThree(", ", "client_secret", "refresh_token", "user_agent");
  }

  /** A store whose credentials hold `client_id` but none of the other
      three fields is refused, naming those three in their fixed order. */
  lemma OnlyClientIdExample(cfg: Config, creds: Creds)
    requires cfg.libraryAvailable
    requires cfg.adapter == Some(Adapter(Some(creds)))
    requires "client_id" in creds
    requires "client_secret" !in creds && "refresh_token" !in creds && "user_agent" !in creds
    ensures GetRedditClient(cfg) == Failure(ErrorDict(MissingFieldsMessage(RequiredFields[1..]), Some(MissingFieldsHelp)))
  {
    OnlyClientIdMissing(creds);
    assert RequiredFields[1..] == ["client_secret", "refresh_token", "user_agent"];
    MissingFieldsErrorIff(cfg);
  }
}
