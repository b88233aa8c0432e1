/** The result-type validator of main.py (`is_valid_result`): the search
    ranking mode, stripped, must be one of three fixed words. */
module ResultTypes {
  import opened Text
  import opened Effects
  import opened Logging

  /** The accepted values, compared exactly (after stripping). */
  const Accepted: set<string> := {"mixed", "recent", "popular"}

  /** The line logged when the value is rejected. */
  const InvalidLog := "Invalid result type from the configuration"

  /** The message of the KeyError raised when the value is rejected; it
      quotes the stripped value. */
  function InvalidMessage(stripped: string): string {
    "Sorry, but the result type should be: 'mixed', 'recent' or 'popular', you requested '" + stripped + "'"
  }

  /** One call of `is_valid_result(resultType)`: the stripped value, with
      nothing logged, when it is accepted; otherwise one error line and a
      KeyError. An accepted result has no surrounding whitespace. */
  function ValidateStep(resultType: string, time: string): (e: Step<string>)
    ensures e.result.Ok? <==> Strip(resultType) in Accepted
    ensures e.result.Ok? ==>
      e.written == [] && e.result.value == Strip(resultType) && e.result.value in Accepted
    ensures e.result.Raised? ==>
      e.written == [Line(time, "[E]: " + InvalidLog)] &&
      e.result.error == KeyError(InvalidMessage(Strip(resultType)))
  {
    var r := Strip(resultType);
    if r in Accepted then Step([], Ok(r))
    else Step([Line(time, "[E]: " + InvalidLog)], Raised(KeyError(InvalidMessage(r))))
  }

  /** `is_valid_result(resultType)`, logging to `store`. */
  method IsValidResult(store: LogStore, resultType: string, time: string) returns (r: Result<string>)
    modifies store
    ensures store.lines == old(store.lines) + ValidateStep(resultType, time).written
    ensures r == ValidateStep(resultType, time).result
  {
    var stripped := Strip(resultType);
    if stripped in Accepted {
      return Ok(stripped);
    }
    var err := InvalidMessage(stripped);
    ErrorLogLine(InvalidLog, time);
    var _ := store.Log(InvalidLog, "error", time);
    r := Raised(KeyError(err));
  }

  /** An accepted value, padded with any whitespace, is accepted as itself. */
  lemma ValidatePadded(before: string, value: string, after: string, time: string)
    requires value in Accepted
    requires forall i :: 0 <= i < |before| ==> IsSpace(before[i])
    requires forall i :: 0 <= i < |after| ==> IsSpace(after[i])
    ensures ValidateStep(before + value + after, time) == Step([], Ok(value))
  {
    assert !IsSpace(value[0]) && !IsSpace(value[|value| - 1]);
    StripPadded(before, value, after);
  }

  /** Validating an accepted result again accepts it unchanged. */
  lemma ValidateIdempotent(resultType: string, time: string)
    requires ValidateStep(resultType, time).result.Ok?
    ensures ValidateStep(ValidateStep(resultType, time).result.value, time) == ValidateStep(resultType, time)
  {
    StripIdempotent(resultType);
  }

  /** The comparison is case-sensitive: "Recent" is rejected. */
  lemma ValidateIsCaseSensitive(time: string)
    ensures ValidateStep("Recent", time) ==
      Step([Line(time, "[E]: " + InvalidLog)], Raised(KeyError(InvalidMessage("Recent"))))
  {
    StripUnpadded("Recent");
    assert "Recent" !in Accepted;
  }
}
