/** The configuration extraction of main.py: the credentials block and the
    query block that read an already parsed configuration document, each of
    which logs one error line and raises when a key is missing. */
module Configuration {
  import opened Text
  import opened Effects
  import opened Logging
  import opened Languages
  import opened ResultTypes

  /** A parsed JSON value. */
  datatype Json =
    | JNull
    | JBool(b: bool)
    | JNumber(n: int)
    | JString(s: string)
    | JArray(items: seq<Json>)
    | JObject(fields: map<string, Json>)

  /** The values the script keeps from the configuration (its globals
      `CONSUMER_KEY`, `CONSUMER_SECRET`, `HASHTAG`, `MAX_TWEETS`, `LANGUAGE`,
      `RESULT_TYPE`). The first four are kept as the document has them. */
  datatype Config = Config(
    consumerKey: Json,
    consumerSecret: Json,
    hashtag: Json,
    maxTweets: Json,
    language: string,
    resultType: string)

  /** What the query block reads before its handler runs. */
  datatype Query = Query(hashtag: Json, maxTweets: Json, language: string, resultType: string)

  const CredentialsError := "Internal key error when using the credentials..."
  const ParseError := "Can't parse the configuration for querying the tweets..."

  /** The credentials entry, when present, is an object: the credentials
      block reads it at once, and any other value reaches only the block's
      generic handler. */
  predicate CredentialsTyped(doc: map<string, Json>) {
    "credentials" in doc ==> doc["credentials"].JObject?
  }

  predicate HasCredentials(doc: map<string, Json>) {
    "credentials" in doc && doc["credentials"].JObject? &&
    "consumer-key" in doc["credentials"].fields &&
    "consumer-secret" in doc["credentials"].fields
  }

  /** The query block gets as far as lower-casing the language. */
  predicate ReachesLanguage(doc: map<string, Json>) {
    "hashtag" in doc && "max-tweets" in doc && "language" in doc
  }

  /** The query block lower-cases a string wherever it lower-cases a value:
      the language once the three keys before it are read, and the result
      type once the language has resolved. A value it never reaches may have
      any shape. */
  predicate QueryTyped(doc: map<string, Json>) {
    (ReachesLanguage(doc) ==> doc["language"].JString?) &&
    ((ReachesLanguage(doc) && doc["language"].JString? && Lower(doc["language"].s) in Names() &&
      "result-type" in doc) ==> doc["result-type"].JString?)
  }

  /** The documents on which both blocks either succeed or fail with a
      KeyError: the credentials entry is an object, and once the credentials
      are read the query block meets strings where it lower-cases. */
  predicate WellTyped(doc: map<string, Json>) {
    CredentialsTyped(doc) && (HasCredentials(doc) ==> QueryTyped(doc))
  }

  /** A document the script accepts: every key present, a language whose
      lower case is in the table, and a result type whose lower case, stripped,
      is one of the three accepted values. */
  predicate Loadable(doc: map<string, Json>)
    requires WellTyped(doc)
  {
    HasCredentials(doc) && ReachesLanguage(doc) && "result-type" in doc &&
    Lower(doc["language"].s) in Names() &&
    Strip(Lower(doc["result-type"].s)) in Accepted
  }

  /** The body of the query block, up to the first exception: a missing key
      raises a bare KeyError naming it, and the resolver and the validator
      log their own error line before raising. */
  function QueryStep(doc: map<string, Json>, time: string): (e: Step<Query>)
    requires QueryTyped(doc)
    ensures e.result.Ok? ==> e.written == []
  {
    if "hashtag" !in doc then Step([], Raised(KeyError("hashtag")))
    else if "max-tweets" !in doc then Step([], Raised(KeyError("max-tweets")))
    else if "language" !in doc then Step([], Raised(KeyError("language")))
    else
      var language := ResolveStep(Lower(doc["language"].s), time);
      if language.result.Raised? then Step(language.written, Raised(language.result.error))
      else if "result-type" !in doc then Step([], Raised(KeyError("result-type")))
      else
        var resultType := ValidateStep(Lower(doc["result-type"].s), time);
        if resultType.result.Raised? then Step(resultType.written, Raised(resultType.result.error))
        else Step([], Ok(Query(doc["hashtag"], doc["max-tweets"], language.result.value, resultType.result.value)))
  }

  /** Both blocks, handlers included. Success logs nothing; every failure
      logs one or two lines, ends with the failing block's own error line and
      raises that block's KeyError. */
  function ExtractStep(doc: map<string, Json>, time: string): (e: Step<Config>)
    requires WellTyped(doc)
    ensures e.result.Ok? ==> e.written == []
    ensures e.result.Raised? ==>
      1 <= |e.written| <= 2 &&
      (e.result.error == KeyError(CredentialsError) || e.result.error == KeyError(ParseError)) &&
      e.written[|e.written| - 1] == Line(time, "[E]: " + e.result.error.message)
  {
    if !HasCredentials(doc) then
      Step([Line(time, "[E]: " + CredentialsError)], Raised(KeyError(CredentialsError)))
    else
      var credentials := doc["credentials"].fields;
      var query := QueryStep(doc, time);
      match query.result
      case Raised(_) => Step(query.written + [Line(time, "[E]: " + ParseError)], Raised(KeyError(ParseError)))
      case Ok(q) =>
        Step([], Ok(Config(credentials["consumer-key"], credentials["consumer-secret"],
                           q.hashtag, q.maxTweets, q.language, q.resultType)))
  }

  /** The document is accepted exactly when it is `Loadable`. */
  lemma ExtractSucceedsIff(doc: map<string, Json>, time: string)
    requires WellTyped(doc)
    ensures ExtractStep(doc, time).result.Ok? <==> Loadable(doc)
  {
  }

  /** A missing credentials entry or key logs one error line and raises
      before the query block runs: no language or result-type line appears. */
  lemma MissingCredentialsFailsFirst(doc: map<string, Json>, time: string)
    requires CredentialsTyped(doc) && !HasCredentials(doc)
    ensures ExtractStep(doc, time) == Step([Line(time, "[E]: " + CredentialsError)], Raised(KeyError(CredentialsError)))
  {
  }

  /** The result type is never read when the credentials are missing: a
      document holding only a numeric result type fails on the credentials. */
  lemma UnreadResultTypeExample(time: string)
    ensures WellTyped(map["result-type" := JNumber(5)])
    ensures ExtractStep(map["result-type" := JNumber(5)], time) ==
      Step([Line(time, "[E]: " + CredentialsError)], Raised(KeyError(CredentialsError)))
  {
    MissingCredentialsFailsFirst(map["result-type" := JNumber(5)], time);
  }

  /** With the credentials present, a missing hashtag, tweet limit or language
      logs only the query block's error line. */
  lemma MissingQueryKeyFails(doc: map<string, Json>, time: string)
    requires HasCredentials(doc) && !ReachesLanguage(doc)
    ensures ExtractStep(doc, time) == Step([Line(time, "[E]: " + ParseError)], Raised(KeyError(ParseError)))
  {
    assert QueryStep(doc, time).written == [];
  }

  /** An unsupported language logs two lines: the resolver's, naming the
      lower-cased language, then the query block's. */
  lemma UnsupportedLanguageLogsTwice(doc: map<string, Json>, time: string)
    requires HasCredentials(doc) && ReachesLanguage(doc) && doc["language"].JString?
    requires Lower(doc["language"].s) !in Names()
    ensures ExtractStep(doc, time) ==
      Step([Line(time, "[E]: " + NotFoundLog(Lower(doc["language"].s))), Line(time, "[E]: " + ParseError)],
           Raised(KeyError(ParseError)))
  {
    var q := QueryStep(doc, time);
    assert q.written == [Line(time, "[E]: " + NotFoundLog(Lower(doc["language"].s)))];
  }

  /** A supported language with no result type logs only the query block's
      line. */
  lemma MissingResultTypeFails(doc: map<string, Json>, time: string)
    requires WellTyped(doc) && HasCredentials(doc)
    requires "hashtag" in doc && "max-tweets" in doc && "language" in doc && "result-type" !in doc
    requires Lower(doc["language"].s) in Names()
    ensures ExtractStep(doc, time) == Step([Line(time, "[E]: " + ParseError)], Raised(KeyError(ParseError)))
  {
    var q := QueryStep(doc, time);
    assert q.written == [];
  }

  /** A failed query block is followed by the block's own error line. */
  lemma QueryFailureLogsParseError(doc: map<string, Json>, time: string)
    requires WellTyped(doc) && HasCredentials(doc)
    requires QueryStep(doc, time).result.Raised?
    ensures ExtractStep(doc, time) ==
      Step(QueryStep(doc, time).written + [Line(time, "[E]: " + ParseError)], Raised(KeyError(ParseError)))
  {
  }

  /** A successful query block completes the configuration with the
      credentials and the query's values, and nothing is logged. */
  lemma QuerySuccessLoads(doc: map<string, Json>, time: string)
    requires WellTyped(doc) && HasCredentials(doc)
    requires QueryStep(doc, time).result.Ok?
    ensures ExtractStep(doc, time) == Step([], Ok(Config(
      doc["credentials"].fields["consumer-key"], doc["credentials"].fields["consumer-secret"],
      QueryStep(doc, time).result.value.hashtag, QueryStep(doc, time).result.value.maxTweets,
      QueryStep(doc, time).result.value.language, QueryStep(doc, time).result.value.resultType)))
  {
  }

  /** Once the language resolves, a failing validator fails the query block
      with the validator's lines. */
  lemma ValidatorFailureFailsQuery(doc: map<string, Json>, time: string)
    requires QueryTyped(doc)
    requires "hashtag" in doc && "max-tweets" in doc && "language" in doc && "result-type" in doc
    requires Lower(doc["language"].s) in Names()
    requires ValidateStep(Lower(doc["result-type"].s), time).result.Raised?
    ensures QueryStep(doc, time) ==
      Step(ValidateStep(Lower(doc["result-type"].s), time).written,
           Raised(ValidateStep(Lower(doc["result-type"].s), time).result.error))
  {
    var resolved := ResolveStep(Lower(doc["language"].s), time);
    assert resolved.result.Ok?;
  }

  /** An invalid result type logs the validator's line first, then the query
      block's. */
  lemma InvalidResultTypeLogsTwice(doc: map<string, Json>, time: string)
    requires WellTyped(doc) && HasCredentials(doc)
    requires "hashtag" in doc && "max-tweets" in doc && "language" in doc && "result-type" in doc
    requires Lower(doc["language"].s) in Names()
    requires Strip(Lower(doc["result-type"].s)) !in Accepted
    ensures ExtractStep(doc, time) ==
      Step([Line(time, "[E]: " + InvalidLog), Line(time, "[E]: " + ParseError)], Raised(KeyError(ParseError)))
  {
    var validated := ValidateStep(Lower(doc["result-type"].s), time);
    assert validated.result.Raised? && validated.written == [Line(time, "[E]: " + InvalidLog)];
    ValidatorFailureFailsQuery(doc, time);
    QueryFailureLogsParseError(doc, time);
  }

  /** An accepted document gives the credentials and query values as they
      are, the code of the lower-cased language, and the stripped lower-cased
      result type. */
  lemma LoadedValues(doc: map<string, Json>, time: string)
    requires WellTyped(doc) && Loadable(doc)
    ensures ExtractStep(doc, time) == Step([], Ok(Config(
      doc["credentials"].fields["consumer-key"], doc["credentials"].fields["consumer-secret"],
      doc["hashtag"], doc["max-tweets"],
      Lookup(Table, Lower(doc["language"].s)).value, Strip(Lower(doc["result-type"].s)))))
  {
    var q := QueryStep(doc, time);
    assert q.result.Ok?;
  }

  /** A document with credentials, a hashtag and a tweet limit, asking for
      "Spanish" and " recent ", loads with the code "es" and the result type
      "recent", and logs nothing. */
  lemma SpanishRecentExample(doc: map<string, Json>, time: string)
    requires WellTyped(doc) && HasCredentials(doc) && "hashtag" in doc && "max-tweets" in doc
    requires "language" in doc && doc["language"] == JString("Spanish")
    requires "result-type" in doc && doc["result-type"] == JString(" recent ")
    ensures ExtractStep(doc, time).written == []
    ensures ExtractStep(doc, time).result.Ok?
    ensures ExtractStep(doc, time).result.value.language == "es"
    ensures ExtractStep(doc, time).result.value.resultType == "recent"
  {
    LowerExample();
    LowerSpacedExample();
    StripExample();
    ResolveName("spanish", "es", time);
    LoadedValues(doc, time);
  }

  /** The query block's body, logging to `store`. */
  method ReadQuery(store: LogStore, doc: map<string, Json>, time: string) returns (r: Result<Query>)
    requires QueryTyped(doc)
    modifies store
    ensures store.lines == old(store.lines) + QueryStep(doc, time).written
    ensures r == QueryStep(doc, time).result
  {
    if "hashtag" !in doc {
      return Raised(KeyError("hashtag"));
    }
    var hashtag := doc["hashtag"];
    if "max-tweets" !in doc {
      return Raised(KeyError("max-tweets"));
    }
    var maxTweets := doc["max-tweets"];
    if "language" !in doc {
      return Raised(KeyError("language"));
    }
    ghost var before := store.lines;
    ghost var resolved := ResolveStep(Lower(doc["language"].s), time);
    var language := ToIsoCode(store, Lower(doc["language"].s), time);
    if language.Raised? {
      assert QueryStep(doc, time) == Step(resolved.written, Raised(language.error));
      return Raised(language.error);
    }
    assert store.lines == before;
    if "result-type" !in doc {
      return Raised(KeyError("result-type"));
    }
    ghost var validated := ValidateStep(Lower(doc["result-type"].s), time);
    var resultType := IsValidResult(store, Lower(doc["result-type"].s), time);
    if resultType.Raised? {
      assert QueryStep(doc, time) == Step(validated.written, Raised(resultType.error));
      return Raised(resultType.error);
    }
    r := Ok(Query(hashtag, maxTweets, language.value, resultType.value));
    assert QueryStep(doc, time) == Step([], r);
  }

  /** The credentials block followed by the query block, logging to `store`. */
  method LoadConfiguration(store: LogStore, doc: map<string, Json>, time: string) returns (r: Result<Config>)
    requires WellTyped(doc)
    modifies store
    ensures store.lines == old(store.lines) + ExtractStep(doc, time).written
    ensures r == ExtractStep(doc, time).result
  {
    if !HasCredentials(doc) {
      MissingCredentialsFailsFirst(doc, time);
      ErrorLogLine(CredentialsError, time);
      var _ := store.Log(CredentialsError, "error", time);
      return Raised(KeyError(CredentialsError));
    }
    var consumerKey := doc["credentials"].fields["consumer-key"];
    var consumerSecret := doc["credentials"].fields["consumer-secret"];
    ghost var before := store.lines;
    ghost var queried := QueryStep(doc, time);
    var query := ReadQuery(store, doc, time);
    if query.Raised? {
      QueryFailureLogsParseError(doc, time);
      ErrorLogLine(ParseError, time);
      var _ := store.Log(ParseError, "error", time);
      assert store.lines == before + (queried.written + [Line(time, "[E]: " + ParseError)]);
      return Raised(KeyError(ParseError));
    }
    QuerySuccessLoads(doc, time);
    r := Ok(Config(consumerKey, consumerSecret, query.value.hashtag, query.value.maxTweets,
                   query.value.language, query.value.resultType));
  }
}
