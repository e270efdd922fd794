/** Building one RawLog record from a logging event. The three appenders and
    the encoder share this builder; they differ only in the argument rule and
    in where the record goes. */
module RawLogs {
  import opened Common
  import opened Stringify

  /** A logback logging event, as far as the builder reads it. */
  datatype Event = Event(
    loggerName: string,
    level: string,               // the level's name, e.g. "INFO"
    timeStamp: int,              // milliseconds since the epoch
    message: string,             // the message template
    args: Option<seq<Arg>>,      // the argument array, possibly null
    mdc: map<string, string>)    // the mapped diagnostic context

  /** What `append` or `doLayout` receives: a logging event, or some other
      object, which the appenders ignore. */
  datatype Logged = LoggingEvent(event: Event) | OtherObject

  /** The record the builder produces. */
  datatype RawLog = RawLog(
    loggerName: string,
    logLevel: string,
    logDateTime: string,
    format: string,
    args: seq<Option<string>>,
    context: map<string, string>,
    rendered: Option<string>,
    lineNumber: Option<int>)

  /** The foreign collaborators of the builder, each a function of its inputs. */
  datatype Env = Env(
    mapper: Mapper,                       // Jackson writeValueAsString
    isLevel: string -> bool,              // LogLevel.valueOf accepts this name
    utcDateTime: int -> string,           // the timestamp as a Joda DateTime in UTC, printed
    render: (string, Event) -> string,    // a PatternLayout for this pattern, applied to the event
    callerLine: Event -> string,          // LineOfCallerConverter.convert
    parseInt: string -> Option<int>)      // Integer.valueOf, None where it throws

  /** How a component configures the builder: the argument rule, the pattern
      of its started render layout (None when none was started) and whether
      line numbers are wanted. */
  datatype Settings = Settings(rule: Rule, renderPattern: Option<string>, lineNumbers: bool)

  /** logback's CallerData.NA, the caller line of an event without caller data. */
  const NA: string := "?"

  /** The optional line-number field. */
  function LineNumberOf(e: Event, lineNumbers: bool, env: Env): (line: Try<Option<int>>)
  {
    if !lineNumbers || env.callerLine(e) == NA then Ok(None)
    else
      match env.parseInt(env.callerLine(e))
      case Some(n) => Ok(Some(n))
      case None => Thrown(NumberFormat)
  }

  /** The record built from an event, or the exception the builder throws. */
  function RawLogOf(e: Event, settings: Settings, env: Env): (raw: Try<RawLog>)
  {
    if !env.isLevel(e.level) then Thrown(UnknownLevel)
    else
      match StringifySpec(settings.rule, e.args, env.mapper)
      case Thrown(c) => Thrown(c)
      case Ok(args) =>
        match LineNumberOf(e, settings.lineNumbers, env)
        case Thrown(c) => Thrown(c)
        case Ok(line) =>
          var rendered := if settings.renderPattern.Some? then Some(env.render(settings.renderPattern.value, e)) else None;
          Ok(RawLog(e.loggerName, e.level, env.utcDateTime(e.timeStamp), e.message, args, e.mdc, rendered, line))
  }

  /** The context of a built record holds exactly the event's MDC entries;
      the rendered text is present exactly when a render layout was started;
      the line number is present exactly when line numbers are on and the
      caller line is known; and building fails exactly on an unknown level,
      a mapper failure or an unparsable caller line. */
  lemma RawLogFields(e: Event, settings: Settings, env: Env)
    ensures var r := RawLogOf(e, settings, env);
      && (r.Thrown? <==>
            || !env.isLevel(e.level)
            || StringifySpec(settings.rule, e.args, env.mapper).Thrown?
            || (settings.lineNumbers && env.callerLine(e) != NA && env.parseInt(env.callerLine(e)).None?))
      && (r.Ok? ==>
            && r.value.context == e.mdc
            && r.value.args == StringifySpec(settings.rule, e.args, env.mapper).value
            && (r.value.rendered.Some? <==> settings.renderPattern.Some?)
            && (settings.renderPattern.Some? ==> r.value.rendered == Some(env.render(settings.renderPattern.value, e)))
            && (r.value.lineNumber.Some? <==> settings.lineNumbers && env.callerLine(e) != NA)
            && r.value.loggerName == e.loggerName && r.value.format == e.message
            && r.value.logLevel == e.level && r.value.logDateTime == env.utcDateTime(e.timeStamp))
  {
  }

  /** The copy of the MDC the builder makes, entry by entry. */
  method CopyContext(mdc: map<string, string>) returns (copy: map<string, string>)
    ensures copy == mdc
  {
    copy := map[];
    var rest := mdc.Keys;
    while rest != {}
      invariant rest <= mdc.Keys
      invariant copy.Keys == mdc.Keys - rest
      invariant forall k :: k in copy ==> copy[k] == mdc[k]
      decreases rest
    {
      var k :| k in rest;
      copy := copy[k := mdc[k]];
      rest := rest - {k};
    }
  }

  /** The builder chain of `append` / `_doLayout`, statement by statement. */
  method Build(e: Event, settings: Settings, env: Env) returns (r: Try<RawLog>)
    ensures r == RawLogOf(e, settings, env)
  {
    if !env.isLevel(e.level) {
      return Thrown(UnknownLevel);
    }
    var args := StringifyArgs(settings.rule, e.args, env.mapper);
    if args.Thrown? {
      return Thrown(args.cause);
    }
    var context := CopyContext(e.mdc);
    var rendered: Option<string> := None;
    if settings.renderPattern.Some? {
      rendered := Some(env.render(settings.renderPattern.value, e));
    }
    var line: Option<int> := None;
    if settings.lineNumbers {
      var lineText := env.callerLine(e);
      if lineText != NA {
        var n := env.parseInt(lineText);
        if n.None? {
          return Thrown(NumberFormat);
        }
        line := Some(n.value);
      }
    }
    return Ok(RawLog(e.loggerName, e.level, env.utcDateTime(e.timeStamp), e.message, args.value, context, rendered, line));
  }
}
