/** The console log line format (LogHelper) and the log categories
    (LogTypes). The clock is an input: `time` is the already formatted
    SHORT/MEDIUM local date-time that LogHelper.getTime would produce. */
module Log {
  import opened Text

  /** LogTypes, plus INVALID, which the command router logs with although
      the enum as shown does not declare it. */
  datatype LogType = CLIENT | CONSOLE | DEBUG | ERROR | INFO | SERVER | WARNING | INVALID

  /** LogTypes.getType: the tag printed between brackets. */
  function Tag(t: LogType): string {
    match t
    case CLIENT => "CLIENT"
    case CONSOLE => "CONSOLE"
    case DEBUG => "DEBUG"
    case ERROR => "ERROR"
    case INFO => "INFO"
    case SERVER => "SERVER"
    case WARNING => "WARNING"
    case INVALID => "INVALID"
  }

  /** The inverse of Tag, for reading a log line back. */
  function TypeOfTag(s: string): Option<LogType> {
    if s == "CLIENT" then Some(CLIENT)
    else if s == "CONSOLE" then Some(CONSOLE)
    else if s == "DEBUG" then Some(DEBUG)
    else if s == "ERROR" then Some(ERROR)
    else if s == "INFO" then Some(INFO)
    else if s == "SERVER" then Some(SERVER)
    else if s == "WARNING" then Some(WARNING)
    else if s == "INVALID" then Some(INVALID)
    else None
  }

  /** Every tag is its own type's name: reading the tag back gives the type,
      so distinct types print distinct tags. */
  lemma TagRoundTrip(t: LogType)
    ensures TypeOfTag(Tag(t)) == Some(t)
    ensures |Tag(t)| > 0 && ']' !in Tag(t)
  {
    match t
    case CLIENT =>
    case CONSOLE =>
    case DEBUG =>
    case ERROR =>
    case INFO =>
    case SERVER =>
    case WARNING =>
    case INVALID =>
  }

  /** LogHelper.checkNullText: true for the empty string only. */
  predicate CheckNullText(msg: string) {
    msg == ""
  }

  /** LogHelper.log: "[time][TAG]: text", or null (None) for empty text. */
  function Format(time: string, text: string, t: LogType): (r: Option<string>)
    ensures r.None? <==> text == ""
    ensures r.Some? ==> |r.value| == |time| + |Tag(t)| + |text| + 6
  {
    if !CheckNullText(text) then Some("[" + time + "][" + Tag(t) + "]: " + text) else None
  }

  /** LogHelper.debugLog, without the print: the DEBUG-tagged line. */
  function DebugLog(time: string, text: string): (r: Option<string>)
    ensures r.None? <==> text == ""
    ensures text != "" && ']' !in time ==> ParseLine(r.value) == Some((time, DEBUG, text))
  {
    if text != "" && ']' !in time then ParseFormat(time, text, DEBUG); Format(time, text, DEBUG)
    else Format(time, text, DEBUG)
  }

  /** A message sent to the console, before a time is attached. */
  datatype Message = Message(text: string, kind: LogType)

  /** app.sendToConsole(LogHelper.log(text, kind)): the console ignores the
      null that log returns for empty text, so empty text emits nothing. */
  function Emit(text: string, kind: LogType): (ms: seq<Message>)
  {
    if CheckNullText(text) then [] else [Message(text, kind)]
  }

  /** Empty text, for which log answers null, emits nothing; any other
      text emits one message, with that text and type. */
  lemma EmitShape(text: string, kind: LogType)
    ensures Emit(text, kind) == [] <==> text == ""
    ensures Emit(text, kind) != [] ==> Emit(text, kind) == [Message(text, kind)]
  {
  }

  /** What reaches the console is exactly what log formats: every emitted
      message renders as log's line and reads back as its time, type and
      text, and log's null is what emits nothing. */
  lemma EmitRendered(time: string, text: string, kind: LogType)
    requires ']' !in time
    ensures Emit(text, kind) == [] <==> Format(time, text, kind).None?
    ensures forall m :: m in Emit(text, kind) ==>
              Render(time, m) == Format(time, text, kind)
              && ParseLine(Render(time, m).value) == Some((time, kind, text))
  {
    if text != "" {
      ParseFormat(time, text, kind);
    }
  }

  /** The console line for a message at a given time. */
  function Render(time: string, m: Message): Option<string> {
    Format(time, m.text, m.kind)
  }

  /** Reads a console line back into its time, type and message: the
      time runs to the first ']', the tag to the next one, and the message
      is everything after "]: ". */
  function ParseLine(line: string): Option<(string, LogType, string)> {
    if |line| == 0 || line[0] != '[' then None
    else
      var i := FindChar(line, ']', 1);
      if i + 2 > |line| || line[i + 1] != '[' then None
      else
        var j := FindChar(line, ']', i + 2);
        if j + 3 > |line| || line[j + 1..j + 3] != ": " then None
        else
          match TypeOfTag(line[i + 2..j])
          case None => None
          case Some(t) => Some((line[1..i], t, line[j + 3..]))
  }

  /** A formatted line keeps its parts: the time is recovered, the tag is
      the given type's, and the message is the unchanged suffix after "]: ".
      The time must not contain ']' (the localized date-time format never
      does). */
  lemma {:induction false} ParseFormat(time: string, text: string, t: LogType)
    requires text != "" && ']' !in time
    ensures Format(time, text, t).Some?
    ensures ParseLine(Format(time, text, t).value) == Some((time, t, text))
  {
    TagRoundTrip(t);
    BracketLayout(time, Tag(t), text);
  }

  /** Where the brackets of "[time][tag]: text" fall when neither the time
      nor the tag holds a ']'. */
  lemma {:induction false} BracketLayout(time: string, tag: string, text: string)
    requires ']' !in time && ']' !in tag
    ensures var line := "[" + time + "][" + tag + "]: " + text;
            var i := |time| + 1;
            var j := i + 2 + |tag|;
            && |line| == j + 3 + |text| && line[0] == '['
            && FindChar(line, ']', 1) == i && line[i + 1] == '['
            && FindChar(line, ']', i + 2) == j && line[j + 1..j + 3] == ": "
            && line[1..i] == time && line[i + 2..j] == tag && line[j + 3..] == text
  {
    var line := "[" + time + "][" + tag + "]: " + text;
    var i := |time| + 1;
    assert line[i] == ']' && line[i + 1] == '[';
    assert line[1..i] == time;
    FindFirst(line, ']', 1, i);
    var j := i + 2 + |tag|;
    assert line[j] == ']';
    assert line[i + 2..j] == tag;
    assert forall k :: i + 2 <= k < j ==> line[k] == tag[k - i - 2];
    FindFirst(line, ']', i + 2, j);
    assert line[j + 1..j + 3] == ": ";
    assert line[j + 3..] == text;
  }
}
