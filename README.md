# twitter-rt-bot: configuration checks and the log

This project models the part of `main.py` in twitter-rt-bot that runs before
any call to Twitter. That part has four pieces:

- **The logger** (`log`). It normalises the kind of a message: lower-case,
  then strip.
  - `info` and `error` get a bracketed tag, `[I]: ` or `[E]: `.
  - `title` writes the message upper-cased.
  - Any other kind writes the line of a recursive
    `log("Internal key error when trying to log an error inside the script",
    log_type="error")` call and then raises `KeyError`.
  - Each call appends exactly one line, `"\n" + time + " | " + message`, to
    the log file, which is only ever appended to.
- **The language resolver** (`to_iso_code`). It looks a name up, exactly as
  given, in a table of ten names and their two-letter codes.
  - If the name is missing, it logs
    `[E]: Can't find the language requested: <name>`.
  - It then raises a `KeyError` whose message quotes the name and lists
    every supported name. The names are joined by `"\n   -"`, so no
    separator comes before the first name or after the last: the first name
    follows the introduction directly, and the closing hint follows the last.
- **The result-type validator** (`is_valid_result`). It strips the value and
  accepts only `mixed`, `recent` or `popular`, compared exactly. Otherwise it
  logs `[E]: Invalid result type from the configuration` and raises.
- **The two configuration blocks** of the script body.
  - The credentials block reads `credentials`, `consumer-key` and
    `consumer-secret`.
  - The query block reads `hashtag` and `max-tweets`, the lower-cased
    `language` through the resolver, and the lower-cased `result-type`
    through the validator.
  - Each block catches any `KeyError`, logs its own error line and raises
    its own `KeyError`. The credentials block runs first, so its failure
    stops the script before the query block.

### Shape of the model

Each operation is written twice:

- A pure function returns a `Step`: the lines the operation appends plus an
  `Ok` value or a raised `KeyError`. These are `Logging.LogStep`,
  `Languages.ResolveStep`, `ResultTypes.ValidateStep`,
  `Configuration.QueryStep` and `Configuration.ExtractStep`.
- A method performs the same operation on a `Logging.LogStore`, a class
  whose `lines` field is the log file. Its postcondition ties the new
  `lines` and its result to that function.

Other choices:

- The clock reading is a parameter.
- The configuration file is given as an already parsed JSON object, a
  `map<string, Json>`.
- Python's `str.strip`, `str.lower`, `str.upper` and `sep.join` are modelled
  in `Text`.

The resolver's docstring says it returns codes like `EN-en`. The code
returns the two lower-case letters of its table (`en`), and the model
follows the code.

## Model

| member | source | states |
|---|---|---|
| Text.IsSpace | main.py:139 | Python's whitespace set, the characters `strip()` removes: it holds space, tab, newline and carriage return, and no ASCII letter |
| Text.Lower | main.py:41 | `lower()` keeps the length and maps every character through the letter case map |
| Text.Upper | main.py:61 | `upper()` keeps the length and maps every character through the letter case map |
| Text.Strip | main.py:139 | `strip()` never lengthens and leaves no whitespace at either end |
| Text.StripIsPiece | main.py:139 | the stripped string is a contiguous piece of the original |
| Text.StripUnpadded | main.py:139 | a string with no whitespace at either end is its own strip |
| Text.StripPadded | main.py:139 | stripping any whitespace padding around a string gives back exactly that string |
| Text.StripIdempotent | main.py:139 | stripping twice is stripping once |
| Text.LowerIdempotent | main.py:41 | lower-casing twice is lower-casing once |
| Text.LowerOfLowerCase | main.py:41 | a string with no upper-case letter is its own lower case |
| Text.LowerHasNoUpperLetter | main.py:41 | a lower-cased string has no upper-case letter |
| Text.StripKeepsNoUpperLetter | main.py:41 | stripping a string with no upper-case letter leaves none |
| Text.LowerOfStripOfLower | main.py:41 | the strip of a lower-cased kind is still lower-case |
| Text.UpperHasNoLowerLetter | main.py:61 | an upper-cased title has no lower-case letter |
| Text.OccursShift | main.py:115-118 | a substring occurrence survives text added before and after |
| Text.OccursExtend | main.py:118-120 | a substring occurrence survives text added after |
| Text.Join | main.py:115 | `sep.join(parts)`: the separator between consecutive parts only; its contract is stated by `Text.JoinEnds` and `Text.JoinContainsPart` |
| Text.JoinContainsPart | main.py:115 | every name joined into the list occurs in the joined string |
| Text.JoinEnds | main.py:115 | a join of at least one name starts with the first name and ends with the last, with no separator before or after them |
| Text.LowerExample | main.py:188 | `"Spanish".lower()` is `"spanish"` |
| Text.LowerSpacedExample | main.py:189 | `" recent ".lower()` is `" recent "` |
| Text.StripExample | main.py:139 | `" recent ".strip()` is `"recent"` |
| Logging.NormaliseKind | main.py:41 | the kind as `log` compares it, lower-cased then stripped; idempotent by `Logging.NormaliseKindIdempotent` |
| Logging.Render | main.py:41-61 | a message is rendered exactly when the normalised kind is `title`, `info` or `error` |
| Logging.RenderTagged | main.py:42-51 | `info` renders as `[I]: msg` and `error` as `[E]: msg` |
| Logging.RenderTitle | main.py:60-61 | a title is the message upper-cased, same length, with no tag and no lower-case letter |
| Logging.Line | main.py:64 | the written line, a newline, the time, `" \| "` and the message |
| Logging.LogStep | main.py:41-68 | one call appends exactly one line; it succeeds exactly for a known kind and then appends `"\n" + time + " \| " + rendered`; otherwise it raises the internal key error |
| Logging.ErrorKindIsKnown | main.py:54 | the kind `"error"` passed by the recursive call normalises to itself |
| Logging.ErrorLogLine | main.py:49-64 | `log(msg, log_type="error")` appends `"\n" + time + " \| [E]: " + msg` and returns |
| Logging.UnknownKindLogsError | main.py:52-55 | an unknown kind appends only the line of the recursive error call, never the message itself |
| Logging.NormaliseKindIdempotent | main.py:41 | normalising a kind twice is normalising it once |
| Logging.LogStepNormalisesKind | main.py:41 | `log` behaves the same on a kind and on its normalised form |
| Logging.InfoKindExample | main.py:41-51 | the kind `"INFO "` writes an `[I]: ` line |
| Logging.TitleKindExample | main.py:60-64 | the title `"abc"` is written as `ABC` |
| Logging.UnknownKindExample | main.py:49-55 | the kind `"bogus"` raises the internal key error |
| Logging.LogStore.constructor | main.py:67 | the log starts with the lines already in the file |
| Logging.LogStore.Log | main.py:33-68 | the log grows by exactly the lines `LogStep` gives, keeps its old lines as a prefix, and the result is `LogStep`'s |
| Languages.Names | main.py:115 | the supported names are the table's names, in table order |
| Languages.Lookup | main.py:112 | a found code is listed in the table under that name; not found means no entry has that name |
| Languages.NotFoundLog | main.py:121 | the error line text `Can't find the language requested: <name>` |
| Languages.NotFoundMessage | main.py:115-120 | the raised message: introduction quoting the name, the joined names, the closing hint; `Languages.NotFoundMessageListsNames` proves it contains the name and every supported name |
| Languages.ResolveStep | main.py:110-122 | it succeeds exactly for a name in the table, logging nothing and returning a code listed for it; any other name logs one `[E]:` line naming it and raises the listing message |
| Languages.ToIsoCode | main.py:87-125 | the log and the result are those of `ResolveStep` |
| Languages.TableIsInjective | main.py:95-109 | the table has ten entries with distinct names and distinct two-letter lower-case codes |
| Languages.ResolveName | main.py:111-112 | a name listed with a code resolves to exactly that code and logs nothing |
| Languages.ResolveTable | main.py:99-108 | the ten documented name/code pairs, `arab`→`ar` to `chines`→`zn` |
| Languages.ResolveMissing | main.py:113-122 | a name outside the table logs `[E]: Can't find the language requested: <name>` and raises the listing message |
| Languages.ResolveIsCaseSensitive | main.py:112-121 | `"Spanish"` is not found, and the error line quotes it as given |
| Languages.ResolveDoesNotStrip | main.py:112 | `" spanish"` is not found |
| Languages.NotFoundMessageListsNames | main.py:115-120 | the raised message contains the requested name and every supported name |
| ResultTypes.InvalidMessage | main.py:143 | the raised message, quoting the stripped value |
| ResultTypes.ValidateStep | main.py:139-145 | it succeeds exactly when the stripped value is `mixed`, `recent` or `popular`, and then returns that stripped value with nothing logged; otherwise it logs the invalid-result line and raises a message quoting the stripped value |
| ResultTypes.IsValidResult | main.py:128-145 | the log and the result are those of `ValidateStep` |
| ResultTypes.ValidatePadded | main.py:139-141 | an accepted value with any whitespace padding is accepted as the bare value |
| ResultTypes.ValidateIdempotent | main.py:139-141 | validating an accepted result again gives the same step |
| ResultTypes.ValidateIsCaseSensitive | main.py:140-145 | `"Recent"` is rejected with the invalid-result line |
| Configuration.HasCredentials | main.py:163-165 | the credentials entry is an object holding both `consumer-key` and `consumer-secret` |
| Configuration.QueryStep | main.py:185-189 | a successful query block logs nothing |
| Configuration.ExtractStep | main.py:162-193 | success logs nothing; a failure logs one or two lines, raises the credentials or the parse error, and ends with that error's own line |
| Configuration.ExtractSucceedsIff | main.py:162-193 | the document loads exactly when every key is present, the lower-cased language is supported and the lower-cased, stripped result type is accepted |
| Configuration.MissingCredentialsFailsFirst | main.py:162-169 | a missing credentials entry or key logs only the credentials error line and raises it, whatever the unread keys hold |
| Configuration.UnreadResultTypeExample | main.py:162-169 | a document holding only a numeric result type is handled, and fails on the credentials |
| Configuration.MissingQueryKeyFails | main.py:185-193 | a missing hashtag, tweet limit or language logs only the parse error line, whatever the unread keys hold |
| Configuration.UnsupportedLanguageLogsTwice | main.py:188-193 | an unsupported language logs the resolver's line naming the lower-cased language, then the parse error line, whatever the unread result type holds |
| Configuration.MissingResultTypeFails | main.py:189-193 | a supported language without a result type logs only the parse error line |
| Configuration.QueryFailureLogsParseError | main.py:190-193 | a failed query block's lines are followed by the parse error line, and the parse error is raised |
| Configuration.QuerySuccessLoads | main.py:162-189 | a successful query block completes the configuration with the two credentials and the query's values |
| Configuration.ValidatorFailureFailsQuery | main.py:188-189 | once the language resolves, a failing validator fails the query block with the validator's lines and error |
| Configuration.InvalidResultTypeLogsTwice | main.py:189-193 | an invalid result type logs the validator's line, then the parse error line |
| Configuration.LoadedValues | main.py:162-189 | a loadable document yields the credentials, hashtag and tweet limit as given, the table code of the lower-cased language and the stripped lower-cased result type |
| Configuration.SpanishRecentExample | main.py:185-189 | language `"Spanish"` with result type `" recent "` loads as `es` and `recent` with nothing logged |
| Configuration.ReadQuery | main.py:184-189 | the log and the result are those of `QueryStep` |
| Configuration.LoadConfiguration | main.py:160-193 | the log and the result are those of `ExtractStep` |

## Left out

- The clock (`get_current_time`, main.py:22-30) is replaced by a `time` parameter. One reading serves a whole call, while the script reads the clock again for each line.
- Reading and parsing `configuration.json` (main.py:148-157) is left out. The model starts from the parsed object.
- Opening and writing `logs.txt` (main.py:66-68) becomes an append to `LogStore.lines`. The `FileNotFoundError` branch (main.py:69-72) is not modelled.
- The generic `except Exception` handlers and `log_undefined_error` (main.py:56-57, 73-84, 123-124, 170-171, 194-195) are not modelled. Of the lookups modelled, only a value of the wrong JSON type could reach them.
- Configuration.QueryStep: requires `QueryTyped`. The language must be a string once `hashtag`, `max-tweets` and `language` are all present. The result type must be a string once, in addition, the lower-cased language is in the table and `result-type` is present. At those two points the script calls `.lower()`, and any other value raises `AttributeError`, which only the generic handler catches. A value the block never reaches may have any shape.
- Configuration.ReadQuery: requires `QueryTyped`, as `QueryStep` does.
- Configuration.ExtractStep: requires `WellTyped`. A present `credentials` entry must be an object, because any other value raises `TypeError` at main.py:164. Once the credentials are read, `QueryTyped` must hold.
- Configuration.LoadConfiguration: requires `WellTyped`, as `ExtractStep` does.
- The tweepy authentication and the tweet search (main.py:173-180, 197-209) are calls into a library outside this model, so they are left out. So are the unused access tokens (main.py:161) and the `__main__` demo calls (main.py:211-215).
- Text.Lower: maps only ASCII letters. Python's `str.lower()` also maps other Unicode letters.
- Text.Upper: maps only ASCII letters. Python's `str.upper()` maps other letters too and can change the length (`"ß"` becomes `"SS"`).
- JSON numbers are integers here, and `max-tweets` is passed through as whatever JSON value the document holds, as the script does.
- A raised `KeyError` carries its message string. Python's quoting of the key in `str(KeyError)` is not modelled, and no logged line depends on it.
- `log`'s default `log_type="info"` is not a default here. Callers pass `"info"` explicitly.
