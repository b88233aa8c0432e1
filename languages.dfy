/** The language resolver of main.py (`to_iso_code`): a language name looked
    up, exactly as given, in a closed table of ten two-letter codes. */
module Languages {
  import opened Text
  import opened Effects
  import opened Logging

  /** The table of `to_iso_code`: (name, code) entries in the order the
      source lists them, which is the order the error message enumerates
      the names in. */
  const Table: seq<(string, string)> := [
    ("arab", "ar"), ("greek", "el"), ("german", "de"), ("english", "en"), ("spanish", "es"),
    ("french", "fr"), ("italian", "it"), ("korean", "ko"), ("russian", "ru"), ("chines", "zn")]

  /** The supported names, in table order. */
  function Names(): (names: seq<string>)
    ensures |names| == |Table|
    ensures forall i :: 0 <= i < |Table| ==> names[i] == Table[i].0
  {
    seq(|Table|, i requires 0 <= i < |Table| => Table[i].0)
  }

  /** Python's `table[name]` on a dict: the code of the entry named `name`,
      or None when no entry has that name. */
  function Lookup(table: seq<(string, string)>, name: string): (r: Option<string>)
    ensures r.Some? ==> (name, r.value) in table
    ensures r.None? ==> forall i :: 0 <= i < |table| ==> table[i].0 != name
  {
    if table == [] then None
    else if table[0].0 == name then Some(table[0].1)
    else
      var r := Lookup(table[1..], name);
      assert r.Some? ==> (name, r.value) in table[1..];
      r
  }

  /** The line logged when a name is not in the table. */
  function NotFoundLog(language: string): string {
    "Can't find the language requested: " + language
  }

  /** The pieces of the message of the KeyError raised for a name not in the
      table; the names are joined by `NameSeparator`, which puts nothing
      before the first name and nothing after the last. */
  const IntroHead := "Sorry, but we can't get the language '"
  const IntroTail := "'...\nWe currently have support for the following languages:"
  const NameSeparator := "\n   -"
  const SupportHint := "If you think that your language should be supported, you can create a pr on GitHub: \n github.com/pblcc/twitter-rt-bot"

  /** The message of the KeyError raised when a name is not in the table. */
  function NotFoundMessage(language: string): string {
    IntroHead + language + IntroTail + Join(Names(), NameSeparator) + SupportHint
  }

  /** One call of `to_iso_code(language)`: for a name in the table, the code
      listed for it, with nothing logged; for any other name, one error line
      naming it and a KeyError. */
  function ResolveStep(language: string, time: string): (e: Step<string>)
    ensures e.result.Ok? <==> language in Names()
    ensures e.result.Ok? ==> e.written == [] && (language, e.result.value) in Table
    ensures e.result.Raised? ==>
      e.written == [Line(time, "[E]: " + NotFoundLog(language))] &&
      e.result.error == KeyError(NotFoundMessage(language))
  {
    match Lookup(Table, language)
    case Some(code) => Step([], Ok(code))
    case None =>
      Step([Line(time, "[E]: " + NotFoundLog(language))], Raised(KeyError(NotFoundMessage(language))))
  }

  /** `to_iso_code(language)`, logging to `store`. */
  method ToIsoCode(store: LogStore, language: string, time: string) returns (r: Result<string>)
    modifies store
    ensures store.lines == old(store.lines) + ResolveStep(language, time).written
    ensures r == ResolveStep(language, time).result
  {
    var code := Lookup(Table, language);
    if code.Some? {
      return Ok(code.value);
    }
    var err := NotFoundMessage(language);
    ErrorLogLine(NotFoundLog(language), time);
    var _ := store.Log(NotFoundLog(language), "error", time);
    r := Raised(KeyError(err));
  }

  /** The table has ten entries; no two share a name or a code, and every
      code is two lower-case letters. So the code found for a name is the only
      one listed for it, and determines the name it came from. */
  lemma TableIsInjective()
    ensures |Table| == 10
    ensures forall i, j :: 0 <= i < |Table| && 0 <= j < |Table| && Table[i].0 == Table[j].0 ==> i == j
    ensures forall i, j :: 0 <= i < |Table| && 0 <= j < |Table| && Table[i].1 == Table[j].1 ==> i == j
    ensures forall i :: 0 <= i < |Table| ==>
      |Table[i].1| == 2 && IsLowerLetter(Table[i].1[0]) && IsLowerLetter(Table[i].1[1])
  {
  }

  /** A name of the table resolves to the code listed for it and logs
      nothing. */
  lemma ResolveName(name: string, code: string, time: string)
    requires (name, code) in Table
    ensures ResolveStep(name, time) == Step([], Ok(code))
  {
    TableIsInjective();
    var e := ResolveStep(name, time);
    var i :| 0 <= i < |Table| && Table[i] == (name, code);
    assert Names()[i] == name;
    var j :| 0 <= j < |Table| && Table[j] == (name, e.result.value);
  }

  /** The documented code of each of the ten names. */
  lemma ResolveTable(time: string)
    ensures ResolveStep("arab", time).result == Ok("ar")
    ensures ResolveStep("greek", time).result == Ok("el")
    ensures ResolveStep("german", time).result == Ok("de")
    ensures ResolveStep("english", time).result == Ok("en")
    ensures ResolveStep("spanish", time).result == Ok("es")
    ensures ResolveStep("french", time).result == Ok("fr")
    ensures ResolveStep("italian", time).result == Ok("it")
    ensures ResolveStep("korean", time).result == Ok("ko")
    ensures ResolveStep("russian", time).result == Ok("ru")
    ensures ResolveStep("chines", time).result == Ok("zn")
  {
    ResolveName("arab", "ar", time);
    ResolveName("greek", "el", time);
    ResolveName("german", "de", time);
    ResolveName("english", "en", time);
    ResolveName("spanish", "es", time);
    ResolveName("french", "fr", time);
    ResolveName("italian", "it", time);
    ResolveName("korean", "ko", time);
    ResolveName("russian", "ru", time);
    ResolveName("chines", "zn", time);
  }

  /** A name outside the table logs one error line naming it and raises. */
  lemma ResolveMissing(name: string, time: string)
    requires name !in Names()
    ensures ResolveStep(name, time) ==
      Step([Line(time, "[E]: " + NotFoundLog(name))], Raised(KeyError(NotFoundMessage(name))))
  {
    var e := ResolveStep(name, time);
    assert e.result.Raised?;
  }

  /** The lookup is exact: a capitalised name is not found, and the error
      line quotes it as given. */
  lemma ResolveIsCaseSensitive(time: string)
    ensures ResolveStep("Spanish", time).written == [Line(time, "[E]: " + NotFoundLog("Spanish"))]
  {
    assert "Spanish" !in Names();
    ResolveMissing("Spanish", time);
  }

  /** The lookup does not strip: a padded name is not found. */
  lemma ResolveDoesNotStrip(time: string)
    ensures ResolveStep(" spanish", time).result.Raised?
  {
    assert " spanish" !in Names();
  }

  /** The raised message names the language asked for and lists every
      supported name. */
  lemma NotFoundMessageListsNames(language: string)
    ensures Contains(NotFoundMessage(language), language)
    ensures forall k :: 0 <= k < |Names()| ==> Contains(NotFoundMessage(language), Names()[k])
  {
    var intro := IntroHead + language + IntroTail;
    var names := Join(Names(), NameSeparator);
    OccursShift(language, language, 0, IntroHead, IntroTail);
    OccursExtend(language, intro, |IntroHead|, names);
    OccursExtend(language, intro + names, |IntroHead|, SupportHint);
    forall k | 0 <= k < |Names()|
      ensures Contains(NotFoundMessage(language), Names()[k])
    {
      JoinContainsPart(Names(), NameSeparator, k);
      var i :| OccursAt(Names()[k], names, i);
      OccursShift(Names()[k], names, i, intro, SupportHint);
    }
  }
}
