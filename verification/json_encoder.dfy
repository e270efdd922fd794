/** JsonEncoder: a logback encoder whose layout turns each logging event into
    one RawLog printed as JSON text, followed by the line separator. */
module JsonEncoding {
  import opened Common
  import opened Stringify
  import opened RawLogs

  /** The `line.separator` system property, "\n" when it is unset. */
  function LineSeparator(property: Option<string>): (sep: string)
  {
    if property.Some? then property.value else "\n"
  }

  class JsonEncoder {
    /** NEW_LINE, read once from the system properties. */
    const lineSeparator: string
    var pattern: Option<string>
    var lineNumbers: bool
    var debug: bool
    /** The pattern of the started render layout, None while there is none. */
    var renderPattern: Option<string>

    constructor (separatorProperty: Option<string>)
      ensures lineSeparator == LineSeparator(separatorProperty)
      ensures pattern == None && !lineNumbers && !debug && renderPattern == None
    {
      lineSeparator := LineSeparator(separatorProperty);
      pattern, lineNumbers, debug, renderPattern := None, false, false, None;
    }

    method SetPattern(p: Option<string>)
      modifies this`pattern
      ensures pattern == p
    {
      pattern := p;
    }

    method SetLineNumbers(on: bool)
      modifies this`lineNumbers
      ensures lineNumbers == on
    {
      lineNumbers := on;
    }

    method SetDebug(on: bool)
      modifies this`debug
      ensures debug == on
    {
      debug := on;
    }

    /** `start`: a render layout is started only when a pattern is configured;
        without one, whatever layout there was stays. */
    method Start()
      modifies this`renderPattern
      ensures renderPattern == if pattern.Some? then pattern else old(renderPattern)
    {
      if pattern.Some? {
        renderPattern := pattern;
      }
    }

    /** The builder settings this encoder uses. */
    function Settings(): (settings: Settings)
      reads this
    {
      RawLogs.Settings(JsonRule, renderPattern, lineNumbers)
    }

    /** `_doLayout`: the record's text followed by exactly one line separator,
        or null (None) when the object is not a logging event or building the
        record throws; it never throws itself. `text` is the record's toString. */
    method DoLayout(obj: Logged, env: Env, text: RawLog -> string) returns (r: Option<string>)
      ensures obj.OtherObject? ==> r.None?
      ensures obj.LoggingEvent? ==> (r.None? <==> RawLogOf(obj.event, Settings(), env).Thrown?)
      ensures r.Some? ==>
        && obj.LoggingEvent? && RawLogOf(obj.event, Settings(), env).Ok?
        && r.value == text(RawLogOf(obj.event, Settings(), env).value) + lineSeparator
    {
      if obj.LoggingEvent? {
        var raw := Build(obj.event, Settings(), env);
        if raw.Ok? {
          return Some(text(raw.value) + lineSeparator);
        }
      }
      return None;
    }
  }
}
