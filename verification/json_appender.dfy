/** JsonAppender: prints each logging event's RawLog as one line on standard
    output or standard error. */
module JsonConsole {
  import opened Common
  import opened Stringify
  import opened RawLogs

  /** The two print streams a target name can select. */
  datatype Stream = StdOut | StdErr

  /** Case mapping of a character, over the ASCII letters. */
  function UpperAscii(c: char): (u: char)
  {
    if 'a' <= c <= 'z' then (c as int - 32) as char else c
  }

  function LowerAscii(c: char): (l: char)
  {
    if 'A' <= c <= 'Z' then (c as int + 32) as char else c
  }

  /** Java's `String.equalsIgnoreCase`, with the case mapping restricted to
      ASCII letters: equal lengths, and at each position the characters are
      equal, or their upper-cased forms are equal, or the lower-cased forms of
      their upper-cased forms are equal. */
  predicate EqualsIgnoreCase(a: string, b: string)
  {
    |a| == |b| &&
    forall k :: 0 <= k < |a| ==>
      a[k] == b[k] || UpperAscii(a[k]) == UpperAscii(b[k])
      || LowerAscii(UpperAscii(a[k])) == LowerAscii(UpperAscii(b[k]))
  }

  /** A string with every letter upper-cased. */
  function UpperCase(s: string): (u: string)
    ensures |u| == |s|
    ensures forall k :: 0 <= k < |s| ==> u[k] == UpperAscii(s[k])
  {
    seq(|s|, k requires 0 <= k < |s| => UpperAscii(s[k]))
  }

  /** Over ASCII case mapping, `equalsIgnoreCase` agrees with comparing the
      upper-cased strings. */
  lemma EqualsIgnoreCaseIsUpperCaseEquality(a: string, b: string)
    ensures EqualsIgnoreCase(a, b) <==> UpperCase(a) == UpperCase(b)
  {
    if EqualsIgnoreCase(a, b) {
      forall k | 0 <= k < |a| ensures UpperCase(a)[k] == UpperCase(b)[k] {
        assert LowerAscii(UpperAscii(a[k])) == LowerAscii(UpperAscii(b[k])) ==> UpperAscii(a[k]) == UpperAscii(b[k]);
      }
    }
    if UpperCase(a) == UpperCase(b) {
      forall k | 0 <= k < |a| ensures UpperAscii(a[k]) == UpperAscii(b[k]) {
        assert UpperCase(a)[k] == UpperCase(b)[k];
      }
    }
  }

  /** The stream a `target` name selects, None for an unknown name. */
  function TargetFor(name: string): (target: Option<Stream>)
  {
    if EqualsIgnoreCase(name, "System.out") then Some(StdOut)
    else if EqualsIgnoreCase(name, "System.err") then Some(StdErr)
    else None
  }

  /** Standard output is selected by exactly the case variants of
      "System.out", standard error by exactly those of "System.err", and
      every other name is refused. */
  lemma TargetNames(name: string)
    ensures TargetFor(name) == Some(StdOut) <==> UpperCase(name) == "SYSTEM.OUT"
    ensures TargetFor(name) == Some(StdErr) <==> UpperCase(name) == "SYSTEM.ERR"
    ensures TargetFor(name).None? <==> UpperCase(name) != "SYSTEM.OUT" && UpperCase(name) != "SYSTEM.ERR"
  {
    assert UpperCase("System.out") == "SYSTEM.OUT";
    assert UpperCase("System.err") == "SYSTEM.ERR";
    EqualsIgnoreCaseIsUpperCaseEquality(name, "System.out");
    EqualsIgnoreCaseIsUpperCaseEquality(name, "System.err");
  }

  class JsonAppender {
    var pattern: Option<string>
    var lineNumbers: bool
    var debug: bool
    var target: Stream
    /** The pattern of the started render layout, None while there is none. */
    var renderPattern: Option<string>
    /** The lines printed so far, with the stream each went to. */
    var printed: seq<(Stream, string)>

    /** A new appender prints to standard output. */
    constructor ()
      ensures target == StdOut
      ensures pattern == None && !lineNumbers && !debug && renderPattern == None && printed == []
    {
      pattern, lineNumbers, debug := None, false, false;
      target, renderPattern, printed := StdOut, None, [];
    }

    method SetPattern(p: Option<string>)
      modifies this`pattern
      ensures pattern == p
    {
      pattern := p;
    }

    method SetLineNumbers(on: bool)
      modifies this`lineNumbers
      ensures lineNumbers == on
    {
      lineNumbers := on;
    }

    method SetDebug(on: bool)
      modifies this`debug
      ensures debug == on
    {
      debug := on;
    }

    /** `setTarget`: any case variant of "System.out" or "System.err" selects
        that stream; any other name throws IllegalArgumentException carrying
        the name and leaves the target as it was. */
    method SetTarget(name: string) returns (o: Outcome)
      modifies this`target
      ensures TargetFor(name).Some? ==> o == Pass && target == TargetFor(name).value
      ensures TargetFor(name).None? ==> o == Fail(IllegalArgument(name)) && target == old(target)
    {
      if EqualsIgnoreCase(name, "System.out") {
        target := StdOut;
      } else if EqualsIgnoreCase(name, "System.err") {
        target := StdErr;
      } else {
        return Fail(IllegalArgument(name));
      }
      return Pass;
    }

    /** `start`: a render layout is started only when a pattern is configured. */
    method Start()
      modifies this`renderPattern
      ensures renderPattern == if pattern.Some? then pattern else old(renderPattern)
    {
      if pattern.Some? {
        renderPattern := pattern;
      }
    }

    function Settings(): (settings: Settings)
      reads this
    {
      RawLogs.Settings(JsonRule, renderPattern, lineNumbers)
    }

    /** `append`: a logging event whose record builds is printed as one line
        on the target stream; any other object, and any event whose building
        throws, prints nothing, and no exception reaches the caller.
        `text` is the record's toString. */
    method Append(obj: Logged, env: Env, text: RawLog -> string)
      modifies this`printed
      ensures obj.LoggingEvent? && RawLogOf(obj.event, Settings(), env).Ok? ==>
        printed == old(printed) + [(target, text(RawLogOf(obj.event, Settings(), env).value))]
      ensures !(obj.LoggingEvent? && RawLogOf(obj.event, Settings(), env).Ok?) ==>
        printed == old(printed)
    {
      if obj.LoggingEvent? {
        var raw := Build(obj.event, Settings(), env);
        if raw.Ok? {
          printed := printed + [(target, text(raw.value))];
        }
      }
    }
  }
}
