/** BatchUploader.run: one submitted batch becomes one putObject request.
    The request is the model's output; sending it, and every failure after
    it, belong to the store client. */
module BatchUpload {
  import opened Common
  import opened RawLogs
  import opened Utf8

  /** What the appender hands to the batcher: the event and its record. */
  datatype EventPair = EventPair(event: Event, rawLog: RawLog)

  /** The stream given to putObject: a ByteArrayInputStream over the bytes
      it has left to read, a GZIPInputStream reading the bytes, or (in the
      corrected gzip stage only) a GZIPOutputStream's compression of them. */
  datatype Body = Plain(bytes: seq<Byte>) | Gunzipping(bytes: seq<Byte>) | Gzipping(bytes: seq<Byte>)

  /** The outcome of `new GZIPInputStream(stream)`: the wrapping stream, or
      the exception, after which the caller keeps the wrapped stream with
      only its unread bytes left. */
  datatype GunzipOpen = Opened(stream: Body) | Failed(rest: seq<Byte>)

  /** A putObject call: bucket, key, content stream and object metadata. */
  datatype PutObject = PutObject(
    bucket: string,
    key: string,
    body: Body,
    contentType: string,
    contentEncoding: Option<string>,
    contentLength: Option<nat>,
    userMetadata: map<string, string>)

  /** The foreign collaborators of the uploader. */
  datatype UploadEnv = UploadEnv(
    text: RawLog -> string,          // RawLog.toString
    keyLayout: (string, Event) -> string,  // a PatternLayout for this pattern, applied to an event
    durationText: int -> string)     // Joda Duration.toString of a length in milliseconds

  const ContentType: string := "application/json; charset=UTF-8"
  const DurationHeader: string := "BlackLocus-Duration"

  /** The batch's payload: the records' texts concatenated in batch order. */
  function Payload(logs: seq<EventPair>, text: RawLog -> string): (payload: string)
    decreases |logs|
  {
    if logs == [] then "" else Payload(logs[..|logs| - 1], text) + text(logs[|logs| - 1].rawLog)
  }

  /** The payload of two consecutive runs of records is the two payloads one
      after the other: no record's text is dropped, repeated or moved. */
  lemma {:induction false} PayloadAppend(a: seq<EventPair>, b: seq<EventPair>, text: RawLog -> string)
    ensures Payload(a + b, text) == Payload(a, text) + Payload(b, text)
    decreases |b|
  {
    if b == [] {
      assert a + b == a;
    } else {
      var n := |b| - 1;
      assert (a + b)[..|a + b| - 1] == a + b[..n];
      assert (a + b)[|a + b| - 1] == b[n];
      PayloadAppend(a, b[..n], text);
    }
  }

  /** The payload of a single record is that record's text. */
  lemma PayloadOne(log: EventPair, text: RawLog -> string)
    ensures Payload([log], text) == text(log.rawLog)
  {
    assert [log][..0] == [];
  }

  /** The GZIPInputStream constructor reads the two-byte magic number of the
      stream it wraps, one byte at a time, and throws unless it matches. A
      stream that ends first throws after the bytes it had. Either way the
      bytes read are gone from the wrapped stream. */
  function OpenGunzip(bytes: seq<Byte>): (r: GunzipOpen)
  {
    if HasGzipMagic(bytes) then Opened(Gunzipping(bytes))
    else Failed(bytes[(if |bytes| < 2 then |bytes| else 2)..])
  }

  /** The bytes a reader of the stored object gets back once the object's
      content encoding is undone, or None when the body and its content
      encoding do not fit together. */
  function Delivered(body: Body, encoding: Option<string>): (r: Option<seq<Byte>>)
  {
    match body
    case Plain(bytes) => if encoding.None? then Some(bytes) else None
    case Gzipping(bytes) => if encoding == Some("gzip") then Some(bytes) else None
    case Gunzipping(_) => None
  }

  /** `BatchUploader.run` up to the putObject call. The payload is the
      records' texts in batch order, encoded as UTF-8; the content type is
      JSON; the duration header is the last record's timestamp minus the
      first's; the key is the started key layout applied to the first record alone; the content
      length is set exactly when gzip is off. With gzip on, the payload is
      wrapped in a GZIPInputStream and marked as gzip-encoded only when the
      constructor does not throw; its exception is swallowed otherwise.
      GzipNeverApplies shows that it always throws. */
  method Upload(bucket: string, keyPattern: string, logs: seq<EventPair>, gzip: bool, env: UploadEnv) returns (put: PutObject)
    requires |logs| > 0
    ensures put.bucket == bucket && put.contentType == ContentType
    ensures var content := Encode(Payload(logs, env.text));
      && (put.contentLength.Some? <==> !gzip)
      && (!gzip ==> put.contentLength == Some(|content|))
      && (put.contentEncoding.Some? <==> gzip && HasGzipMagic(content))
      && (put.contentEncoding.Some? ==> put.contentEncoding == Some("gzip") && put.body == Gunzipping(content))
      && (!gzip ==> put.body == Plain(content))
      && (gzip && put.contentEncoding.None? ==> put.body == Plain(content[(if |content| < 2 then |content| else 2)..]))
    ensures put.userMetadata
      == map[DurationHeader := env.durationText(logs[|logs| - 1].event.timeStamp - logs[0].event.timeStamp)]
    ensures put.key == env.keyLayout(keyPattern, logs[0].event)
  {
    var sb := "";
    var i := 0;
    while i < |logs|
      invariant 0 <= i <= |logs|
      invariant sb == Payload(logs[..i], env.text)
    {
      assert logs[..i + 1][..i] == logs[..i];
      sb := sb + env.text(logs[i].rawLog);
      i := i + 1;
    }
    assert logs[..i] == logs;
    var content := Encode(sb);

    var body := Plain(content);
    var contentEncoding: Option<string> := None;
    var contentLength: Option<nat> := None;
    if gzip {
      match OpenGunzip(content)
      case Opened(stream) =>
        body := stream;
        contentEncoding := Some("gzip");
      case Failed(rest) =>
        body := Plain(rest);
    } else {
      contentLength := Some(|content|);
    }

    var firstEvent := logs[0].event.timeStamp;
    var lastEvent := logs[|logs| - 1].event.timeStamp;
    var metadata := map[DurationHeader := env.durationText(lastEvent - firstEvent)];
    var key := env.keyLayout(keyPattern, logs[0].event);
    put := PutObject(bucket, key, body, ContentType, contentEncoding, contentLength, metadata);
  }

  /** As written, gzip never takes effect: the payload is UTF-8 text, which
      never starts with the gzip magic number, so the GZIPInputStream
      constructor always throws and no upload is gzip-encoded. */
  lemma GzipNeverApplies(logs: seq<EventPair>, text: RawLog -> string)
    ensures OpenGunzip(Encode(Payload(logs, text))).Failed?
  {
    NoTextHasGzipMagic(Payload(logs, text));
  }

  /** As written, a gzip-on upload delivers the payload without its first
      two bytes (without its only byte, for a one-byte payload): the failed
      header read consumed them. Any non-empty payload is damaged. */
  lemma GzipUploadLosesHeaderBytes(logs: seq<EventPair>, text: RawLog -> string)
    ensures var content := Encode(Payload(logs, text));
      && OpenGunzip(content).Failed?
      && var rest := OpenGunzip(content).rest;
      && |rest| == |content| - (if |content| < 2 then |content| else 2)
      && content[|content| - |rest|..] == rest
      && (content != [] ==> Delivered(Plain(rest), None) != Some(content))
  {
    var content := Encode(Payload(logs, text));
    GzipNeverApplies(logs, text);
    var rest := OpenGunzip(content).rest;
    if content != [] {
      assert |rest| < |content|;
    }
  }

  /** The evidently intended gzip stage: the payload compressed by a
      GZIPOutputStream and marked gzip-encoded, so that a reader undoing the
      content encoding gets the whole payload back. */
  function GzipStageCorrected(content: seq<Byte>): (r: (Body, Option<string>))
    ensures Delivered(r.0, r.1) == Some(content)
  {
    (Gzipping(content), Some("gzip"))
  }
}
