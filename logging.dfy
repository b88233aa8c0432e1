/** The logger of main.py (`log`): renders a message according to its kind
    and appends one timestamped line to the append-only log. */
module Logging {
  import opened Text
  import opened Effects

  /** The kinds that get a one-letter bracket tag (`types_hash`). */
  const Tags: map<string, string> := map["info" := "I", "error" := "E"]

  /** The kind that is written upper-cased without a tag. */
  const TitleKind := "title"

  /** What `log` writes instead of the message when the kind is unknown. */
  const InternalKeyError := "Internal key error when trying to log an error inside the script"

  /** The kind as `log` compares it: lower-cased, then stripped. */
  function NormaliseKind(kind: string): string {
    Strip(Lower(kind))
  }

  predicate IsKnownKind(kind: string) {
    NormaliseKind(kind) == TitleKind || NormaliseKind(kind) in Tags
  }

  /** The message part of a log line, or None for a kind `log` does not know. */
  function Render(msg: string, kind: string): (r: Option<string>)
    ensures r.Some? <==> IsKnownKind(kind)
  {
    var k := NormaliseKind(kind);
    if k == TitleKind then Some(Upper(msg))
    else if k in Tags then Some("[" + Tags[k] + "]: " + msg)
    else None
  }

  /** Info and error messages keep their text behind a bracketed one-letter
      tag. */
  lemma RenderTagged(msg: string, kind: string)
    requires NormaliseKind(kind) in Tags
    ensures Render(msg, kind).Some?
    ensures NormaliseKind(kind) == "info" ==> Render(msg, kind).value == "[I]: " + msg
    ensures NormaliseKind(kind) == "error" ==> Render(msg, kind).value == "[E]: " + msg
  {
  }

  /** A title is the message upper-cased, with no tag: same length, no
      lower-case letter left. */
  lemma RenderTitle(msg: string, kind: string)
    requires NormaliseKind(kind) == TitleKind
    ensures Render(msg, kind).Some?
    ensures |Render(msg, kind).value| == |msg|
    ensures forall i :: 0 <= i < |msg| ==>
      Render(msg, kind).value[i] == UpperChar(msg[i]) && !IsLowerLetter(Render(msg, kind).value[i])
  {
  }

  /** The line written to the log file for one message. */
  function Line(time: string, message: string): string {
    "\n" + time + " | " + message
  }

  /** One call of `log(msg, kind)` at time `time`: exactly one line is
      appended. For a known kind it is the rendered message; for an unknown
      kind it is the line of the recursive `log(err, log_type="error")` call
      (see `UnknownKindLogsError`), and the call raises. */
  function LogStep(msg: string, kind: string, time: string): (e: Step<()>)
    ensures |e.written| == 1
    ensures e.result.Ok? <==> IsKnownKind(kind)
    ensures e.result.Ok? ==> e.written == [Line(time, Render(msg, kind).value)]
    ensures e.result.Raised? ==> e.result.error == KeyError(InternalKeyError)
  {
    match Render(msg, kind)
    case Some(m) => Step([Line(time, m)], Ok(()))
    case None => Step([Line(time, "[E]: " + InternalKeyError)], Raised(KeyError(InternalKeyError)))
  }

  /** The kind the recursive call passes is recognised as it stands. */
  lemma ErrorKindIsKnown()
    ensures NormaliseKind("error") == "error"
  {
    LowerOfLowerCase("error");
    StripUnpadded("error");
  }

  /** What every `log(msg, log_type="error")` call of the script appends. */
  lemma ErrorLogLine(msg: string, time: string)
    ensures LogStep(msg, "error", time) == Step([Line(time, "[E]: " + msg)], Ok(()))
  {
    ErrorKindIsKnown();
    RenderTagged(msg, "error");
  }

  /** An unknown kind writes exactly what the recursive call
      `log(err, log_type="error")` writes, and the message itself never
      reaches the log. */
  lemma UnknownKindLogsError(msg: string, kind: string, time: string)
    requires !IsKnownKind(kind)
    ensures LogStep(msg, kind, time).written == LogStep(InternalKeyError, "error", time).written
    ensures LogStep(msg, kind, time).written == [Line(time, "[E]: " + InternalKeyError)]
  {
    ErrorLogLine(InternalKeyError, time);
  }

  /** Normalising a kind twice is normalising it once. */
  lemma NormaliseKindIdempotent(kind: string)
    ensures NormaliseKind(NormaliseKind(kind)) == NormaliseKind(kind)
  {
    LowerOfStripOfLower(kind);
    StripIdempotent(Lower(kind));
  }

  /** `log` only looks at the normalised kind: "INFO " behaves like "info". */
  lemma LogStepNormalisesKind(msg: string, kind: string, time: string)
    ensures LogStep(msg, kind, time) == LogStep(msg, NormaliseKind(kind), time)
  {
    NormaliseKindIdempotent(kind);
  }

  /** "INFO " is the info kind. */
  lemma InfoKindExample(msg: string, time: string)
    ensures LogStep(msg, "INFO ", time).written == [Line(time, "[I]: " + msg)]
  {
    assert NormaliseKind("INFO ") == "info";
    RenderTagged(msg, "INFO ");
  }

  /** A title is written upper-cased with no tag. */
  lemma TitleKindExample(time: string)
    ensures LogStep("abc", "title", time).written == [Line(time, "ABC")]
  {
    assert NormaliseKind("title") == "title";
    assert Render("abc", "title") == Some(Upper("abc"));
    assert Upper("abc") == "ABC";
  }

  /** "bogus" is no kind: the call raises. */
  lemma UnknownKindExample(msg: string, time: string)
    ensures LogStep(msg, "bogus", time).result == Raised(KeyError(InternalKeyError))
  {
    assert NormaliseKind("bogus") == "bogus";
  }

  /** The log file: lines are only ever appended to it. */
  class LogStore {
    /** The lines written so far, oldest first. */
    var lines: seq<string>

    constructor (existing: seq<string>)
      ensures lines == existing
    {
      lines := existing;
    }

    /** `log(msg, kind)` with the clock reading `time`. */
    method Log(msg: string, kind: string, time: string) returns (r: Result<()>)
      modifies this
      ensures lines == old(lines) + LogStep(msg, kind, time).written
      ensures r == LogStep(msg, kind, time).result
      ensures old(lines) <= lines && |lines| == |old(lines)| + 1
      decreases if IsKnownKind(kind) then 0 else 1
    {
      var k := Strip(Lower(kind));
      var message := msg;
      if k != TitleKind {
        if k !in Tags {
          assert Render(msg, kind) == None;
          UnknownKindLogsError(msg, kind, time);
          ErrorKindIsKnown();
          var _ := Log(InternalKeyError, "error", time);
          return Raised(KeyError(InternalKeyError));
        }
        message := "[" + Tags[k] + "]: " + msg;
      }
      if k == TitleKind {
        message := Upper(msg);
      }
      assert Render(msg, kind) == Some(message);
      lines := lines + [Line(time, message)];
      r := Ok(());
    }
  }
}
