/**
 * How the real-time status service turns the writer agent's last chat
 * message into the response's (answer, sources, suggestions). The message
 * may be a JSON object carrying those three fields; otherwise the whole
 * message is the answer. JSON parsing is an input (`parse`, `None` when the
 * text is not JSON), and so is Python's `str()` of a non-string value
 * (`show`).
 */
module Insights {
  import opened Wrappers
  import opened Values

  datatype Answer = Answer(answer: string, sources: seq<Value>, suggestions: seq<Value>)

  /** Indexing the last message of an empty chat history raises. */
  datatype AnswerError = EmptyHistory

  /** The answer when the message is not used as JSON: the message itself, with no sources or suggestions. */
  function Fallback(message: string): Answer {
    Answer(message, [], [])
  }

  /**
   * The block as written: it parses a name that is not defined at that
   * point, the resulting error is swallowed by the `except`, and so the
   * last message is always returned verbatim.
   */
  function FinalAnswerAsWritten(history: seq<string>): (r: Result<Answer, AnswerError>)
    ensures history == [] <==> r.Failure?
    ensures r.Success? ==> r.value == Fallback(history[|history| - 1])
  {
    if history == [] then Failure(EmptyHistory) else Success(Fallback(history[|history| - 1]))
  }

  /** Python's `str(v)`: a string is itself; other values are rendered by `show`. */
  function Text(v: Value, show: Value -> string): (s: string)
    ensures v.Str? ==> s == v.s
  {
    if v.Str? then v.s else show(v)
  }

  /**
   * Python's `list(v)` where it succeeds: a list is itself and a string is
   * its characters; `None` where `list` raises (null, booleans, numbers) or
   * where the model cannot say the order (objects).
   */
  function ListOf(v: Value): (r: Option<seq<Value>>)
    ensures v.List? ==> r == Some(v.items)
    ensures v.Str? ==> r.Some? && |r.value| == |v.s| && forall i :: 0 <= i < |v.s| ==> r.value[i] == Str([v.s[i]])
    ensures r.Some? <==> v.List? || v.Str?
  {
    match v
    case List(items) => Some(items)
    case Str(s) => Some(seq(|s|, i requires 0 <= i < |s| => Str([s[i]])))
    case _ => None
  }

  /**
   * The evidently intended block: the last message is parsed; when it is a
   * JSON object, each of `answer`, `sources` and `suggestions` present in it
   * replaces the default. The assignments run in that order, and an error in
   * a later one leaves the earlier ones in place (the `except` only skips
   * the rest).
   */
  function FinalAnswer(history: seq<string>, parse: string -> Option<Value>, show: Value -> string)
    : (r: Result<Answer, AnswerError>)
    ensures history == [] <==> r.Failure?
    ensures r.Success? ==>
              var message := history[|history| - 1];
              (parse(message).None? || !parse(message).value.Dict?) ==> r.value == Fallback(message)
    ensures r.Success? ==>
              var message := history[|history| - 1];
              parse(message).Some? && parse(message).value.Dict? ==>
                var d := parse(message).value.fields;
                && r.value.answer == (if "answer" in d then Text(d["answer"], show) else message)
                && ("sources" !in d ==> r.value.sources == [])
                && ("sources" in d && ListOf(d["sources"]).Some? ==> r.value.sources == ListOf(d["sources"]).value)
                && ("sources" in d && ListOf(d["sources"]).None? ==> r.value.sources == [])
                && (("sources" in d && ListOf(d["sources"]).None?) || "suggestions" !in d ==> r.value.suggestions == [])
                && (("sources" !in d || ListOf(d["sources"]).Some?) && "suggestions" in d ==>
                      r.value.suggestions ==
                        (if ListOf(d["suggestions"]).Some? then ListOf(d["suggestions"]).value else []))
  {
    if history == [] then Failure(EmptyHistory)
    else
      var message := history[|history| - 1];
      var parsed := parse(message);
      if parsed.None? || !parsed.value.Dict? then Success(Fallback(message))
      else
        var d := parsed.value.fields;
        var answer := if "answer" in d then Text(d["answer"], show) else message;
        var sources := if "sources" in d then ListOf(d["sources"]) else Some([]);
        if sources.None? then Success(Answer(answer, [], []))
        else
          var suggestions := if "suggestions" in d then ListOf(d["suggestions"]) else Some([]);
          if suggestions.None? then Success(Answer(answer, sources.value, []))
          else Success(Answer(answer, sources.value, suggestions.value))
  }

  /** A well-formed reply is taken apart exactly. */
  lemma WellFormedReply(history: seq<string>, parse: string -> Option<Value>, show: Value -> string,
                        answer: string, sources: seq<Value>, suggestions: seq<Value>)
    requires history != []
    requires parse(history[|history| - 1]) ==
               Some(Dict(map["answer" := Str(answer), "sources" := List(sources), "suggestions" := List(suggestions)]))
    ensures FinalAnswer(history, parse, show) == Success(Answer(answer, sources, suggestions))
  {
  }

  /** The code as written behaves as if no message were ever JSON. */
  lemma AsWrittenNeverParses(history: seq<string>, show: Value -> string)
    ensures FinalAnswerAsWritten(history) == FinalAnswer(history, (s: string) => None, show)
  {
  }

  /** A reply `{"answer": "42"}` comes back as its raw JSON text instead of "42". */
  lemma AnswerFieldIgnored(parse: string -> Option<Value>, show: Value -> string)
    requires parse("{\"answer\": \"42\"}") == Some(Dict(map["answer" := Str("42")]))
    ensures FinalAnswerAsWritten(["{\"answer\": \"42\"}"]).value.answer == "{\"answer\": \"42\"}"
    ensures FinalAnswer(["{\"answer\": \"42\"}"], parse, show).value.answer == "42"
    ensures FinalAnswerAsWritten(["{\"answer\": \"42\"}"]) != FinalAnswer(["{\"answer\": \"42\"}"], parse, show)
  {
  }
}
