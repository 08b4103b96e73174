/** The transport adapter `H3YunHttpClient`: it configures the injected
    HTTP transport once the options are validated, attaches the credentials
    to every request, and turns each transport outcome into either the
    decoded result or an `H3YunException`. The network exchange itself is
    abstract: each operation is given the outcome of sending its request
    and, where it decodes a body, the decoder's verdict on that body. */
module Http {
  import opened Wrappers
  import opened Configuration
  import opened Exceptions
  import opened BizObjectModels
  import opened Envelope

  // ----- The abstract transport -----

  /** An HTTP status: its numeric code and the text the runtime prints for
      it (the `HttpStatusCode` name, such as "BadRequest"). */
  datatype HttpStatus = HttpStatus(code: int, name: string)

  /** `IsSuccessStatusCode`: the 2xx range. */
  predicate IsSuccessStatusCode(s: HttpStatus)
  {
    200 <= s.code <= 299
  }

  /** A `Content-Disposition` header, with its raw `FileName` parameter. */
  datatype ContentDisposition = ContentDisposition(fileName: Option<string>)

  /** A received response: status, the body read as text and as bytes, the
      media type of its `Content-Type` header (absent when the header or its
      media type is) and its `Content-Disposition` header. */
  datatype HttpResponse = HttpResponse(
    status: HttpStatus,
    body: string,
    bytes: seq<byte>,
    mediaType: Option<string>,
    disposition: Option<ContentDisposition>)

  /** What sending a request and reading its response came to: a system
      exception, or a response. */
  datatype TransportOutcome = Threw(fault: Fault) | Responded(response: HttpResponse)

  /** What the JSON decoder makes of a body: it throws a `JsonException`
      with a message, yields null (as for an empty body), or yields a value. */
  datatype Decoded<T> = Malformed(detail: string) | Null | Value(value: T)

  // ----- Messages of the exceptions raised -----

  const TimeoutMessage: string := "请求超时"
  const UnparsableResponseMessage: string := "无法解析API响应"
  const UnparsableUploadMessage: string := "无法解析上传响应"
  const HttpFailedPrefix: string := "HTTP请求失败，状态码："
  const HttpExceptionPrefix: string := "HTTP请求异常: "
  const JsonExceptionPrefix: string := "JSON解析异常: "
  const UnknownExceptionPrefix: string := "未知异常: "
  const UploadFailedPrefix: string := "文件上传失败，状态码："
  const UploadExceptionPrefix: string := "文件上传异常: "
  const DownloadFailedPrefix: string := "文件下载失败，状态码："
  const DownloadExceptionPrefix: string := "文件下载异常: "

  /** The message of a system exception. */
  function FaultMessage(f: Fault): string
  {
    match f
    case HttpRequestFault(m) => m
    case CanceledFault(m, _) => m
    case JsonFault(m) => m
    case OtherFault(m) => m
  }

  // ----- Classification of a JSON post -----

  /** The catch clauses of `PostAsync`, in order, for an exception thrown
      while sending: a request exception, a cancellation whose inner
      exception is a timeout, a JSON exception, and anything else. Each is
      wrapped with the default code and the exception as its inner one. */
  function ClassifyFault(f: Fault): (e: H3YunException)
    ensures e.errorCode == UnknownCode && e.inner == Some(f)
    ensures e.message == TimeoutMessage <==> f.CanceledFault? && f.innerIsTimeout
    ensures f.HttpRequestFault? ==> e.message == HttpExceptionPrefix + f.message
    ensures f.JsonFault? ==> e.message == JsonExceptionPrefix + f.message
    ensures (f.OtherFault? || (f.CanceledFault? && !f.innerIsTimeout)) ==>
      e.message == UnknownExceptionPrefix + FaultMessage(f)
  {
    match f
    case HttpRequestFault(m) => WithInner(HttpExceptionPrefix + m, f)
    case CanceledFault(m, timeout) =>
      if timeout then WithInner(TimeoutMessage, f) else WithInner(UnknownExceptionPrefix + m, f)
    case JsonFault(m) => WithInner(JsonExceptionPrefix + m, f)
    case OtherFault(m) => WithInner(UnknownExceptionPrefix + m, f)
  }

  /** `PostAsync`'s decision chain. The result is returned exactly when a 2xx
      response decodes to a value, and that value is returned unchanged,
      whatever it says about business success. A non-2xx status raises with
      the raw body as the code, whatever the body is, and that exception is
      rethrown as it is; a malformed body raises a JSON exception with the
      default code; a body that decodes to null raises with the body as the
      code; an exception from the transport is classified by `ClassifyFault`. */
  function ClassifyPost<T>(outcome: TransportOutcome, decoded: Decoded<T>): (r: Result<T, H3YunException>)
    ensures r.Success? <==>
      outcome.Responded? && IsSuccessStatusCode(outcome.response.status) && decoded.Value?
    ensures r.Success? ==> r.value == decoded.value
    ensures outcome.Responded? && !IsSuccessStatusCode(outcome.response.status) ==>
      r == Failure(WithCode(HttpFailedPrefix + outcome.response.status.name, outcome.response.body))
    ensures outcome.Responded? && IsSuccessStatusCode(outcome.response.status) && decoded.Malformed? ==>
      r == Failure(WithInner(JsonExceptionPrefix + decoded.detail, JsonFault(decoded.detail)))
    ensures outcome.Responded? && IsSuccessStatusCode(outcome.response.status) && decoded.Null? ==>
      r == Failure(WithCode(UnparsableResponseMessage, outcome.response.body))
    ensures outcome.Threw? ==> r == Failure(ClassifyFault(outcome.fault))
    ensures r.Failure? && r.error.errorCode != UnknownCode ==>
      outcome.Responded? && r.error.errorCode == outcome.response.body
  {
    match outcome
    case Threw(f) => Failure(ClassifyFault(f))
    case Responded(resp) =>
      if !IsSuccessStatusCode(resp.status) then
        Failure(WithCode(HttpFailedPrefix + resp.status.name, resp.body))
      else
        match decoded
        case Malformed(detail) => Failure(ClassifyFault(JsonFault(detail)))
        case Null => Failure(WithCode(UnparsableResponseMessage, resp.body))
        case Value(v) => Success(v)
  }

  /** A cancellation without an inner timeout is not a timeout: it reaches
      the last catch clause and is reported as unknown. */
  lemma PlainCancellationIsUnknown<T>(message: string, decoded: Decoded<T>)
    ensures ClassifyPost(Threw(CanceledFault(message, false)), decoded)
         == Failure(WithInner(UnknownExceptionPrefix + message, CanceledFault(message, false)))
    ensures ClassifyPost(Threw(CanceledFault(message, false)), decoded).error.message != TimeoutMessage
  {
  }

  /** A non-2xx body is never decoded: the decoder's verdict does not matter. */
  lemma HttpFailureIgnoresDecoding<T>(resp: HttpResponse, d1: Decoded<T>, d2: Decoded<T>)
    requires !IsSuccessStatusCode(resp.status)
    ensures ClassifyPost(Responded(resp), d1) == ClassifyPost(Responded(resp), d2)
  {
  }

  // ----- Classification of an upload -----

  /** `UploadFileAsync`'s decision chain: a non-2xx status raises with the
      body as the code, a null decode raises with the body as the code, and
      every other exception, a malformed body or a timeout included, is
      wrapped under one upload message with the default code. */
  function ClassifyUpload<T>(outcome: TransportOutcome, decoded: Decoded<T>): (r: Result<T, H3YunException>)
    ensures r.Success? <==>
      outcome.Responded? && IsSuccessStatusCode(outcome.response.status) && decoded.Value?
    ensures r.Success? ==> r.value == decoded.value
    ensures outcome.Responded? && !IsSuccessStatusCode(outcome.response.status) ==>
      r == Failure(WithCode(UploadFailedPrefix + outcome.response.status.name, outcome.response.body))
    ensures outcome.Responded? && IsSuccessStatusCode(outcome.response.status) && decoded.Null? ==>
      r == Failure(WithCode(UnparsableUploadMessage, outcome.response.body))
    ensures outcome.Threw? ==>
      r == Failure(WithInner(UploadExceptionPrefix + FaultMessage(outcome.fault), outcome.fault))
    ensures outcome.Responded? && IsSuccessStatusCode(outcome.response.status) && decoded.Malformed? ==>
      r == Failure(WithInner(UploadExceptionPrefix + decoded.detail, JsonFault(decoded.detail)))
  {
    match outcome
    case Threw(f) => Failure(WithInner(UploadExceptionPrefix + FaultMessage(f), f))
    case Responded(resp) =>
      if !IsSuccessStatusCode(resp.status) then
        Failure(WithCode(UploadFailedPrefix + resp.status.name, resp.body))
      else
        match decoded
        case Malformed(detail) => Failure(WithInner(UploadExceptionPrefix + detail, JsonFault(detail)))
        case Null => Failure(WithCode(UnparsableUploadMessage, resp.body))
        case Value(v) => Success(v)
  }

  /** The file part's arguments the framework refuses before anything is
      sent: `MediaTypeHeaderValue` rejects an empty media type, and
      `MultipartFormDataContent.Add` rejects a file name that is empty or
      all white space. Either raises an `ArgumentException`. */
  predicate RejectsFilePart(fileName: string, contentType: string)
  {
    contentType == "" || IsNullOrWhiteSpace(Some(fileName))
  }

  /** The whole of `UploadFileAsync`'s result: a refused file part raises
      inside the `try` before the request exists, so the generic catch wraps
      the framework's `ArgumentException` (whose text is `argumentMessage`)
      whatever the transport would have done; otherwise the outcome of the
      send is classified. */
  function UploadResult<T>(fileName: string, contentType: string, argumentMessage: string,
                           outcome: TransportOutcome, decoded: Decoded<T>): (r: Result<T, H3YunException>)
    ensures RejectsFilePart(fileName, contentType) ==>
      r == Failure(WithInner(UploadExceptionPrefix + argumentMessage, OtherFault(argumentMessage)))
    ensures RejectsFilePart(fileName, contentType) ==>
      r == ClassifyUpload(Threw(OtherFault(argumentMessage)), decoded)
    ensures !RejectsFilePart(fileName, contentType) ==> r == ClassifyUpload(outcome, decoded)
  {
    if RejectsFilePart(fileName, contentType) then
      Failure(WithInner(UploadExceptionPrefix + argumentMessage, OtherFault(argumentMessage)))
    else ClassifyUpload(outcome, decoded)
  }

  // ----- Header extraction of a download -----

  /** `Trim('"')` from the start: drops every leading quote. */
  function TrimStartQuotes(s: string): (r: string)
    ensures |r| <= |s| && r == s[|s| - |r|..]
    ensures forall k :: 0 <= k < |s| - |r| ==> s[k] == '"'
    ensures r == [] || r[0] != '"'
  {
    if |s| > 0 && s[0] == '"' then TrimStartQuotes(s[1..]) else s
  }

  /** `Trim('"')` from the end: drops every trailing quote. */
  function TrimEndQuotes(s: string): (r: string)
    ensures |r| <= |s| && r == s[..|r|]
    ensures forall k :: |r| <= k < |s| ==> s[k] == '"'
    ensures r == [] || r[|r| - 1] != '"'
  {
    if |s| > 0 && s[|s| - 1] == '"' then TrimEndQuotes(s[..|s| - 1]) else s
  }

  /** `Trim('"')`: both ends trimmed, so no quote is left at either end. */
  function TrimQuotes(s: string): (r: string)
    ensures |r| <= |s|
    ensures r == [] || (r[0] != '"' && r[|r| - 1] != '"')
  {
    TrimEndQuotes(TrimStartQuotes(s))
  }

  /** Trimming drops only quotes: the result is the infix of the name
      between a run of leading quotes and a run of trailing quotes. */
  lemma TrimQuotesDropsOnlyQuotes(s: string)
    ensures var a := LeadingQuotes(s); var r := TrimQuotes(s);
      && a + |r| <= |s| && r == s[a..a + |r|]
      && (forall k :: 0 <= k < a ==> s[k] == '"')
      && (forall k :: a + |r| <= k < |s| ==> s[k] == '"')
  {
    var t := TrimStartQuotes(s);
    PrefixOfSuffix(s, t, TrimEndQuotes(t));
  }

  /** A prefix `r` of a suffix `t` of `s` is an infix of `s`, and what
      follows `r` in `t` follows it in `s`. */
  lemma PrefixOfSuffix(s: string, t: string, r: string)
    requires |t| <= |s| && t == s[|s| - |t|..]
    requires |r| <= |t| && r == t[..|r|]
    requires forall k :: |r| <= k < |t| ==> t[k] == '"'
    ensures var a := |s| - |t|; r == s[a..a + |r|] && forall k :: a + |r| <= k < |s| ==> s[k] == '"'
  {
    var a := |s| - |t|;
    forall k | a + |r| <= k < |s| ensures s[k] == '"' {
      assert s[k] == t[k - a];
    }
  }

  /** The number of leading quotes `Trim('"')` drops. */
  function LeadingQuotes(s: string): nat
  {
    |s| - |TrimStartQuotes(s)|
  }

  /** A name with no quote at either end is kept as it is. */
  lemma TrimQuotesKeepsUnquoted(s: string)
    requires s == [] || (s[0] != '"' && s[|s| - 1] != '"')
    ensures TrimQuotes(s) == s
  {
    assert TrimStartQuotes(s) == s;
    assert TrimEndQuotes(s) == s;
  }

  /** Trimming twice trims nothing more. */
  lemma TrimQuotesIdempotent(s: string)
    ensures TrimQuotes(TrimQuotes(s)) == TrimQuotes(s)
  {
    TrimQuotesKeepsUnquoted(TrimQuotes(s));
  }

  /** The downloaded file's name: the disposition's file name with its
      quotes trimmed, or "" when the header or its file name is absent. */
  function DownloadFileName(disposition: Option<ContentDisposition>): (name: string)
    ensures disposition.None? || disposition.value.fileName.None? ==> name == ""
    ensures disposition.Some? && disposition.value.fileName.Some? ==>
      name == TrimQuotes(disposition.value.fileName.value)
  {
    match disposition
    case None => ""
    case Some(cd) =>
      match cd.fileName
      case None => ""
      case Some(n) => TrimQuotes(n)
  }

  const OctetStream: string := "application/octet-stream"

  /** The downloaded file's content type: the response's media type, or
      the generic octet-stream type when it has none. */
  function DownloadContentType(mediaType: Option<string>): (t: string)
    ensures mediaType.Some? ==> t == mediaType.value
    ensures mediaType.None? ==> t == OctetStream
  {
    match mediaType
    case Some(m) => m
    case None => OctetStream
  }

  /** `DownloadFileAsync`'s decision chain: any exception is wrapped under
      one download message; a non-2xx status raises with the body as the
      code; otherwise the bytes and the two headers make the file. */
  function ClassifyDownload(outcome: TransportOutcome): (r: Result<DownloadBizObjectFileResponse, H3YunException>)
    ensures r.Success? <==> outcome.Responded? && IsSuccessStatusCode(outcome.response.status)
    ensures r.Success? ==>
      && r.value.fileBytes == outcome.response.bytes
      && r.value.fileName == DownloadFileName(outcome.response.disposition)
      && r.value.contentType == DownloadContentType(outcome.response.mediaType)
    ensures outcome.Responded? && !IsSuccessStatusCode(outcome.response.status) ==>
      r == Failure(WithCode(DownloadFailedPrefix + outcome.response.status.name, outcome.response.body))
    ensures outcome.Threw? ==>
      r == Failure(WithInner(DownloadExceptionPrefix + FaultMessage(outcome.fault), outcome.fault))
  {
    match outcome
    case Threw(f) => Failure(WithInner(DownloadExceptionPrefix + FaultMessage(f), f))
    case Responded(resp) =>
      if !IsSuccessStatusCode(resp.status) then
        Failure(WithCode(DownloadFailedPrefix + resp.status.name, resp.body))
      else
        var file := DefaultDownloadBizObjectFileResponse();
        var file := file.(fileBytes := resp.bytes);
        var file := file.(fileName := DownloadFileName(resp.disposition));
        var file := file.(contentType := DownloadContentType(resp.mediaType));
        Success(file)
  }

  // ----- Request messages -----

  /** A request header. */
  datatype Header = Header(name: string, value: string)

  /** The content of a request: a JSON body, given by the envelope it
      serialises (whose keys on the wire are `Encode(envelope)`); a
      multipart body with one file part; or a form body with its own
      content headers. */
  datatype Content =
    | JsonContent(envelope: ApiRequest)
    | MultipartContent(partName: string, fileName: string, contentType: string, bytes: seq<byte>)
    | FormContent(fields: seq<(string, string)>, contentHeaders: seq<Header>)

  /** A POST request as sent: target, message headers and content. */
  datatype HttpMessage = HttpMessage(uri: string, headers: seq<Header>, content: Content)

  /** `HttpRequestMessage`: created for one request; headers are added to it. */
  class HttpRequestMessage {
    const uri: string
    const content: Content
    var headers: seq<Header>

    constructor (uri: string, content: Content)
      ensures this.uri == uri && this.content == content && headers == []
    {
      this.uri := uri;
      this.content := content;
      headers := [];
    }

    /** `Headers.Add(name, value)`. */
    method AddHeader(name: string, value: string)
      modifies this
      ensures headers == old(headers) + [Header(name, value)]
    {
      headers := headers + [Header(name, value)];
    }

    /** The message as it stands. */
    function Snapshot(): HttpMessage
      reads this
    {
      HttpMessage(uri, headers, content)
    }
  }

  /** The injected `HttpClient`: the three settings the adapter changes. */
  class HttpTransport {
    var baseAddress: Option<string>
    var timeoutSeconds: int
    var acceptHeaders: seq<string>

    /** A transport in whatever state its owner left it. */
    constructor (baseAddress: Option<string>, timeoutSeconds: int, acceptHeaders: seq<string>)
      ensures this.baseAddress == baseAddress && this.timeoutSeconds == timeoutSeconds
      ensures this.acceptHeaders == acceptHeaders
    {
      this.baseAddress := baseAddress;
      this.timeoutSeconds := timeoutSeconds;
      this.acceptHeaders := acceptHeaders;
    }
  }

  const JsonMediaType: string := "application/json"

  /** What a request sent, and what came of it. */
  datatype Exchange<T> = Exchange(sent: HttpMessage, result: Result<T, H3YunException>)

  /** What an upload sent, if it got as far as sending, and what came of it. */
  datatype Attempt<T> = Attempt(sent: Option<HttpMessage>, result: Result<T, H3YunException>)

  /** `H3YunHttpClient`: the transport it configured and the options it was
      built from, which passed validation. */
  class H3YunHttpClient {
    const transport: HttpTransport
    const options: H3YunOptions

    /** The client's invariant: its options are valid. */
    predicate Valid()
    {
      Validate(options).Pass?
    }

    /** The constructor's body once validation has passed: it points the
        transport at the base URL, sets its timeout and asks for JSON. */
    constructor Configure(transport: HttpTransport, options: H3YunOptions)
      requires Validate(options).Pass?
      modifies transport
      ensures Valid() && this.transport == transport && this.options == options
      ensures transport.baseAddress == options.baseUrl
      ensures transport.timeoutSeconds == options.timeoutSeconds as int
      ensures transport.acceptHeaders == old(transport.acceptHeaders) + [JsonMediaType]
    {
      this.options := options;
      this.transport := transport;
      new;
      transport.baseAddress := options.baseUrl;
      transport.timeoutSeconds := options.timeoutSeconds as int;
      transport.acceptHeaders := transport.acceptHeaders + [JsonMediaType];
    }

    /** `new H3YunHttpClient(httpClient, options)`: the options are validated
        before anything is set, so invalid options throw and leave the
        transport untouched. */
    static method Create(transport: HttpTransport, options: H3YunOptions)
      returns (r: Result<H3YunHttpClient, ArgumentError>)
      modifies transport
      ensures Validate(options).Fail? ==> r == Failure(Validate(options).error) && unchanged(transport)
      ensures Validate(options).Pass? ==>
        && r.Success? && fresh(r.value) && r.value.Valid()
        && r.value.transport == transport && r.value.options == options
        && transport.baseAddress == options.baseUrl
        && transport.timeoutSeconds == options.timeoutSeconds as int
        && transport.acceptHeaders == old(transport.acceptHeaders) + [JsonMediaType]
    {
      var check := Validate(options);
      if check.Fail? {
        return Failure(check.error);
      }
      var client := new H3YunHttpClient.Configure(transport, options);
      return Success(client);
    }

    /** The two credential headers, taken from the options. */
    function CredentialHeaders(): (hs: seq<Header>)
      requires Valid()
      ensures |hs| == 2
      ensures hs[0].name == "EngineCode" && Some(hs[0].value) == options.engineCode
      ensures hs[1].name == "EngineSecret" && Some(hs[1].value) == options.engineSecret
    {
      [Header("EngineCode", options.engineCode.value), Header("EngineSecret", options.engineSecret.value)]
    }

    /** The JSON post `PostAsync` sends: the endpoint, the two credential
        headers, and the envelope as its JSON body. */
    function PostMessage(endpoint: string, request: ApiRequest): HttpMessage
      requires Valid()
    {
      HttpMessage(endpoint, CredentialHeaders(), JsonContent(request))
    }

    /** `PostAsync`: builds a fresh message, adds the credentials to it, and
        follows the try/catch chain on the outcome of sending it. */
    method PostAsync<T>(endpoint: string, request: ApiRequest, outcome: TransportOutcome, decoded: Decoded<T>)
      returns (sent: HttpRequestMessage, r: Result<T, H3YunException>)
      requires Valid()
      ensures fresh(sent) && sent.Snapshot() == PostMessage(endpoint, request)
      ensures r == ClassifyPost(outcome, decoded)
    {
      sent := new HttpRequestMessage(endpoint, JsonContent(request));
      sent.AddHeader("EngineCode", options.engineCode.value);
      sent.AddHeader("EngineSecret", options.engineSecret.value);
      if outcome.Threw? {
        return sent, Failure(ClassifyFault(outcome.fault));
      }
      var response := outcome.response;
      if !IsSuccessStatusCode(response.status) {
        return sent, Failure(WithCode(HttpFailedPrefix + response.status.name, response.body));
      }
      if decoded.Malformed? {
        return sent, Failure(ClassifyFault(JsonFault(decoded.detail)));
      }
      if decoded.Null? {
        return sent, Failure(WithCode(UnparsableResponseMessage, response.body));
      }
      return sent, Success(decoded.value);
    }

    /** The multipart post `UploadFileAsync` sends: one file part named
        "media", and the two credential headers. */
    function UploadMessage(uploadUrl: string, fileBytes: seq<byte>, fileName: string, contentType: string): HttpMessage
      requires Valid()
    {
      HttpMessage(uploadUrl, CredentialHeaders(), MultipartContent("media", fileName, contentType, fileBytes))
    }

    /** `UploadFileAsync`: a refused file part fails before any message
        exists; otherwise it builds a fresh multipart message with the
        credentials and classifies the outcome. */
    method UploadFileAsync<T>(uploadUrl: string, fileBytes: seq<byte>, fileName: string, contentType: string,
                              argumentMessage: string, outcome: TransportOutcome, decoded: Decoded<T>)
      returns (sent: Option<HttpRequestMessage>, r: Result<T, H3YunException>)
      requires Valid()
      ensures RejectsFilePart(fileName, contentType) <==> sent.None?
      ensures sent.Some? ==>
        fresh(sent.value) && sent.value.Snapshot() == UploadMessage(uploadUrl, fileBytes, fileName, contentType)
      ensures r == UploadResult(fileName, contentType, argumentMessage, outcome, decoded)
    {
      if contentType == "" || IsNullOrWhiteSpace(Some(fileName)) {
        return None, Failure(WithInner(UploadExceptionPrefix + argumentMessage, OtherFault(argumentMessage)));
      }
      var message := new HttpRequestMessage(uploadUrl, MultipartContent("media", fileName, contentType, fileBytes));
      message.AddHeader("EngineCode", options.engineCode.value);
      message.AddHeader("EngineSecret", options.engineSecret.value);
      sent := Some(message);
      r := ClassifyUpload(outcome, decoded);
    }

    /** The form post `DownloadFileAsync` sends: the attachment id and the
        engine code as form fields, and the credentials as headers of the
        content rather than of the message. */
    function DownloadMessage(downloadUrl: string, attachmentId: string): HttpMessage
      requires Valid()
    {
      HttpMessage(downloadUrl, [],
        FormContent([("attachmentId", attachmentId), ("EngineCode", options.engineCode.value)], CredentialHeaders()))
    }

    /** `DownloadFileAsync`: builds the form content, adds the credentials
        to it, and on success fills a fresh response field by field. */
    method DownloadFileAsync(downloadUrl: string, attachmentId: string, outcome: TransportOutcome)
      returns (sent: HttpMessage, r: Result<DownloadBizObjectFileResponse, H3YunException>)
      requires Valid()
      ensures sent == DownloadMessage(downloadUrl, attachmentId)
      ensures r == ClassifyDownload(outcome)
    {
      var content := FormContent([("attachmentId", attachmentId), ("EngineCode", options.engineCode.value)], []);
      content := content.(contentHeaders := content.contentHeaders + [Header("EngineCode", options.engineCode.value)]);
      content := content.(contentHeaders := content.contentHeaders + [Header("EngineSecret", options.engineSecret.value)]);
      assert content.contentHeaders == CredentialHeaders();
      sent := HttpMessage(downloadUrl, [], content);
      if outcome.Threw? {
        return sent, Failure(WithInner(DownloadExceptionPrefix + FaultMessage(outcome.fault), outcome.fault));
      }
      var response := outcome.response;
      if !IsSuccessStatusCode(response.status) {
        return sent, Failure(WithCode(DownloadFailedPrefix + response.status.name, response.body));
      }
      var fileName := "";
      var contentType := DownloadContentType(response.mediaType);
      if response.disposition.Some? {
        fileName := DownloadFileName(response.disposition);
      }
      var file := DefaultDownloadBizObjectFileResponse();
      file := file.(fileBytes := response.bytes);
      file := file.(fileName := fileName);
      file := file.(contentType := contentType);
      return sent, Success(file);
    }
  }
}
