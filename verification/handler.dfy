/**
 The HTTP-triggered synthesis function: it reads `text`, `languageCode` and
 `voiceId` from the request body, asks the speech provider for mp3 audio,
 stores the audio under a timestamped key in the bucket, and answers with
 the public URL of the stored object, or with status 500 and the error message.

 The outside world is passed in: the parsed body (or the message of the
 exception parsing threw), the provider and the store as functions from a
 request to its outcome, the bucket name and the clock reading. The handler
 is then a total function returning the response together with the list of
 external calls it issued, in order.
 */
module Handler {
  import opened Text
  import opened Outcomes

  /** The JSON values a body field can hold, as far as `||` looks at them.
      Numbers are integers here. */
  datatype JsValue = Undefined | Null | Bool(b: bool) | Number(n: int) | Str(s: string)

  /** JavaScript truthiness of a body field. */
  predicate Truthy(v: JsValue) {
    match v
    case Undefined => false
    case Null => false
    case Bool(b) => b
    case Number(n) => n != 0
    case Str(s) => s != []
  }

  /** The fields the handler destructures from the parsed body. */
  datatype Body = Body(text: JsValue, languageCode: JsValue, voiceId: JsValue)

  /** The request sent to the speech provider. */
  datatype SpeechParams = SpeechParams(text: JsValue, outputFormat: string, voiceId: JsValue, languageCode: JsValue)

  /** The encoded audio the provider returns; its content is opaque here. */
  type Audio = seq<bv8>

  /** The request sent to the object store. */
  datatype PutRequest = PutRequest(bucket: string, key: string, body: Audio, contentType: string)

  /** An external call the handler issues. */
  datatype Call = Synthesize(params: SpeechParams) | Put(request: PutRequest)

  /** The JSON body of the response: `{audioUrl}` or `{error}`. */
  datatype ResponseBody = AudioUrl(url: string) | ErrorMessage(message: string)

  datatype Response = Response(statusCode: int, headers: seq<(string, string)>, body: ResponseBody)

  /** What one invocation does: the response and the calls made, in order. */
  datatype Invocation = Invocation(response: Response, calls: seq<Call>)

  const DefaultVoice := "Joanna"
  const DefaultLanguage := "en-US"
  const OutputFormat := "mp3"
  const AudioContentType := "audio/mpeg"
  const KeyPrefix := "tts-output-"
  const KeySuffix := ".mp3"

  /** Both envelopes carry the same permissive cross-origin headers. */
  const CorsHeaders: seq<(string, string)> :=
    [("Access-Control-Allow-Origin", "*"), ("Access-Control-Allow-Headers", "*")]

  /** `v || fallback`: the field itself when it is truthy, else the fallback. */
  function OrElse(v: JsValue, fallback: string): (r: JsValue)
    ensures r == v || r == Str(fallback)
    ensures Truthy(v) ==> r == v
    ensures fallback != [] ==> Truthy(r)
  {
    if Truthy(v) then v else Str(fallback)
  }

  /** The provider request built from the body. */
  function Params(b: Body): (p: SpeechParams)
    ensures p.text == b.text
    ensures p.outputFormat == OutputFormat
    ensures Truthy(p.voiceId) && Truthy(p.languageCode)
    ensures p.voiceId == (if Truthy(b.voiceId) then b.voiceId else Str(DefaultVoice))
    ensures p.languageCode == (if Truthy(b.languageCode) then b.languageCode else Str(DefaultLanguage))
  {
    SpeechParams(b.text, OutputFormat, OrElse(b.voiceId, DefaultVoice), OrElse(b.languageCode, DefaultLanguage))
  }

  /** The object key for a clock reading in milliseconds. */
  function ObjectKey(now: nat): (k: string)
    ensures KeyTimestamp(k) == Some(now)
  {
    var k := KeyPrefix + Decimal(now) + KeySuffix;
    assert k[..|KeyPrefix|] == KeyPrefix;
    assert k[|k| - |KeySuffix|..] == KeySuffix;
    assert k[|KeyPrefix|..|k| - |KeySuffix|] == Decimal(now);
    DecimalRoundTrip(now);
    k
  }

  /** Reads the clock reading back out of an object key, if it is one. */
  function KeyTimestamp(k: string): Option<nat> {
    var lo := |KeyPrefix|;
    var hi := |k| - |KeySuffix|;
    if lo < hi && k[..lo] == KeyPrefix && k[hi..] == KeySuffix && AllDigits(k[lo..hi]) then
      Some(ParseDecimal(k[lo..hi]))
    else
      None
  }

  /** Distinct clock readings give distinct keys, so no object is overwritten. */
  lemma ObjectKeyInjective(t1: nat, t2: nat)
    ensures ObjectKey(t1) == ObjectKey(t2) ==> t1 == t2
  {
  }

  /** The public address of an object in the bucket. */
  function ObjectUrl(bucket: string, key: string): string {
    "https://" + bucket + ".s3.amazonaws.com/" + key
  }

  /** The path segment after the last `/` of a URL. */
  function LastSegment(u: string): (r: string)
    ensures |r| <= |u|
  {
    if u == [] || u[|u| - 1] == '/' then [] else LastSegment(u[..|u| - 1]) + [u[|u| - 1]]
  }

  /** A segment without `/` that follows a `/` is what LastSegment recovers. */
  lemma {:induction false} LastSegmentOfJoin(p: string, k: string)
    requires p != [] && p[|p| - 1] == '/'
    requires forall i :: 0 <= i < |k| ==> k[i] != '/'
    ensures LastSegment(p + k) == k
  {
    if k == [] {
      assert p + k == p;
    } else {
      var k' := k[..|k| - 1];
      assert (p + k)[..|p + k| - 1] == p + k';
      LastSegmentOfJoin(p, k');
    }
  }

  /** The URL handed back names the stored object: its last segment is the
      key, and the key gives back the clock reading it was made from. */
  lemma UrlNamesKey(bucket: string, now: nat)
    ensures LastSegment(ObjectUrl(bucket, ObjectKey(now))) == ObjectKey(now)
    ensures KeyTimestamp(LastSegment(ObjectUrl(bucket, ObjectKey(now)))) == Some(now)
  {
    var k := ObjectKey(now);
    var p := "https://" + bucket + ".s3.amazonaws.com/";
    assert ObjectUrl(bucket, k) == p + k;
    forall i | 0 <= i < |k|
      ensures k[i] != '/'
    {
      var d := Decimal(now);
      assert k == KeyPrefix + d + KeySuffix;
      if |KeyPrefix| <= i < |KeyPrefix| + |d| {
        assert k[i] == d[i - |KeyPrefix|];
      }
    }
    LastSegmentOfJoin(p, k);
  }

  function ErrorResponse(message: string): Response {
    Response(500, CorsHeaders, ErrorMessage(message))
  }

  /** The number of store writes among the calls. */
  function PutCount(calls: seq<Call>): nat {
    if calls == [] then 0 else (if calls[0].Put? then 1 else 0) + PutCount(calls[1..])
  }

  /** One invocation of the handler. Any exception (body parsing or
      destructuring, synthesis, storage) becomes the 500 envelope. */
  function Handle(parsed: Result<Body, string>, synthesize: SpeechParams -> Result<Audio, string>,
                  putObject: PutRequest -> Outcome<string>, bucket: string, now: nat): (r: Invocation)
    ensures r.response.headers == CorsHeaders
    ensures r.response.statusCode == 200 || r.response.statusCode == 500
    ensures r.response.statusCode == 200 <==> r.response.body.AudioUrl?
    // the calls come in order: synthesis first, the store write only after it succeeded
    ensures |r.calls| <= 2
    ensures parsed.Failure? <==> r.calls == []
    ensures parsed.Success? ==> r.calls[0] == Synthesize(Params(parsed.value))
    ensures |r.calls| == 2 <==> parsed.Success? && synthesize(Params(parsed.value)).Success?
    ensures |r.calls| == 2 ==> r.calls[1] == Put(PutRequest(bucket, ObjectKey(now),
                                                          synthesize(Params(parsed.value)).value, AudioContentType))
    // success needs every step to succeed, and then names the stored object
    ensures r.response.statusCode == 200 <==>
              |r.calls| == 2 && putObject(r.calls[1].request).Pass?
    ensures r.response.statusCode == 200 ==> r.response.body.url == ObjectUrl(bucket, ObjectKey(now))
    // each failure carries the message of the step that threw
    ensures parsed.Failure? ==> r.response == ErrorResponse(parsed.error)
    ensures parsed.Success? && synthesize(Params(parsed.value)).Failure? ==>
              r.response == ErrorResponse(synthesize(Params(parsed.value)).error)
    ensures |r.calls| == 2 && putObject(r.calls[1].request).Fail? ==>
              r.response == ErrorResponse(putObject(r.calls[1].request).error)
  {
    match parsed
    case Failure(e) => Invocation(ErrorResponse(e), [])
    case Success(b) =>
      var params := Params(b);
      match synthesize(params)
      case Failure(e) => Invocation(ErrorResponse(e), [Synthesize(params)])
      case Success(audio) =>
        var key := ObjectKey(now);
        var put := PutRequest(bucket, key, audio, AudioContentType);
        var calls := [Synthesize(params), Put(put)];
        match putObject(put)
        case Fail(e) => Invocation(ErrorResponse(e), calls)
        case Pass => Invocation(Response(200, CorsHeaders, AudioUrl(ObjectUrl(bucket, key))), calls)
  }

  /** At most one object is written per invocation; exactly one on success,
      with the audio content type; none when synthesis failed. */
  lemma HandleWritesAtMostOnce(parsed: Result<Body, string>, synthesize: SpeechParams -> Result<Audio, string>,
                               putObject: PutRequest -> Outcome<string>, bucket: string, now: nat)
    ensures var r := Handle(parsed, synthesize, putObject, bucket, now);
            && PutCount(r.calls) <= 1
            && (r.response.statusCode == 200 ==> PutCount(r.calls) == 1 && r.calls[1].request.contentType == AudioContentType)
            && (parsed.Success? && synthesize(Params(parsed.value)).Failure? ==> PutCount(r.calls) == 0)
  {
    var r := Handle(parsed, synthesize, putObject, bucket, now);
    if |r.calls| == 2 {
      assert r.calls[1..][1..] == [];
      assert PutCount(r.calls[1..]) == 1;
      assert PutCount(r.calls) == 1;
    } else if |r.calls| == 1 {
      assert r.calls[1..] == [];
    }
  }

  /** Repeating a request is not idempotent: two successful invocations at
      different times name different objects. */
  lemma DistinctTimesDistinctUrls(parsed: Result<Body, string>, synthesize: SpeechParams -> Result<Audio, string>,
                                  putObject: PutRequest -> Outcome<string>, bucket: string, t1: nat, t2: nat)
    requires t1 != t2
    requires Handle(parsed, synthesize, putObject, bucket, t1).response.statusCode == 200
    requires Handle(parsed, synthesize, putObject, bucket, t2).response.statusCode == 200
    ensures Handle(parsed, synthesize, putObject, bucket, t1).response.body.url
         != Handle(parsed, synthesize, putObject, bucket, t2).response.body.url
  {
    UrlNamesKey(bucket, t1);
    UrlNamesKey(bucket, t2);
  }

  /** The handler does not look at the text: an empty text still reaches the
      provider, and the outcome is whatever the provider makes of it. */
  lemma EmptyTextIsForwarded(languageCode: JsValue, voiceId: JsValue, synthesize: SpeechParams -> Result<Audio, string>,
                             putObject: PutRequest -> Outcome<string>, bucket: string, now: nat)
    ensures Handle(Success(Body(Str(""), languageCode, voiceId)), synthesize, putObject, bucket, now).calls[0].params.text == Str("")
  {
  }
}
