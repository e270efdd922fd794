/** How a log call's argument array becomes the record's list of argument
    texts. The JSON appender and encoder keep nulls and strings as they are
    and send everything else through the JSON mapper; the S3 appender sends
    every argument through the mapper. */
module Stringify {
  import opened Common

  /** One element of a log call's argument array. Objects other than strings
      are opaque: only the mapper looks at them. */
  datatype Arg = NullArg | Str(text: string) | Obj(handle: nat)

  /** Jackson's `writeValueAsString`: the JSON text of a value, or None where
      it throws an IOException. */
  type Mapper = Arg -> Option<string>

  /** Which per-element rule a component applies. */
  datatype Rule =
    | JsonRule  // JsonEncoder and JsonAppender
    | AvroRule  // AvroS3Appender

  /** The text of one argument, None standing for a null entry in the list. */
  function ArgText(rule: Rule, arg: Arg, mapper: Mapper): (text: Try<Option<string>>)
  {
    if rule == JsonRule && arg.NullArg? then Ok(None)
    else if rule == JsonRule && arg.Str? then Ok(Some(arg.text))
    else
      match mapper(arg)
      case Some(json) => Ok(Some(json))
      case None => Thrown(MappingFailure)
  }

  /** The argument list as a whole: empty for a null array; otherwise element
      i is the text of argument i, unless the mapper throws on some element,
      in which case the exception escapes. */
  function StringifySpec(rule: Rule, args: Option<seq<Arg>>, mapper: Mapper): (texts: Try<seq<Option<string>>>)
  {
    if args.None? then Ok([])
    else if exists k :: 0 <= k < |args.value| && ArgText(rule, args.value[k], mapper).Thrown? then
      Thrown(MappingFailure)
    else
      Ok(seq(|args.value|, k requires 0 <= k < |args.value| => ArgText(rule, args.value[k], mapper).value))
  }

  /** `stringify`: fills a list element by element, leaving by the exception
      the mapper throws. */
  method StringifyArgs(rule: Rule, args: Option<seq<Arg>>, mapper: Mapper) returns (r: Try<seq<Option<string>>>)
    ensures r == StringifySpec(rule, args, mapper)
    ensures args.None? ==> r == Ok([])
    ensures r.Ok? && args.Some? ==> |r.value| == |args.value|
    ensures r.Ok? && args.Some? ==> forall k :: 0 <= k < |args.value| ==>
      match args.value[k]
      case NullArg => r.value[k] == (if rule == JsonRule then None else mapper(NullArg))
      case Str(t) => r.value[k] == (if rule == JsonRule then Some(t) else mapper(Str(t)))
      case Obj(h) => r.value[k] == mapper(Obj(h))
    ensures r.Thrown? <==> args.Some? && exists k :: 0 <= k < |args.value| && ArgText(rule, args.value[k], mapper).Thrown?
  {
    if args.None? {
      return Ok([]);
    }
    var xs := args.value;
    var list: seq<Option<string>> := [];
    var i := 0;
    while i < |xs|
      invariant 0 <= i <= |xs|
      invariant |list| == i
      invariant forall k :: 0 <= k < i ==> ArgText(rule, xs[k], mapper) == Ok(list[k])
    {
      var text := ArgText(rule, xs[i], mapper);
      if text.Thrown? {
        return Thrown(text.cause);
      }
      list := list + [text.value];
      i := i + 1;
    }
    assert !exists k :: 0 <= k < |xs| && ArgText(rule, xs[k], mapper).Thrown?;
    assert list == seq(|xs|, k requires 0 <= k < |xs| => ArgText(rule, xs[k], mapper).value);
    return Ok(list);
  }
}
