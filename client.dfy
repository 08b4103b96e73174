/** The facade `H3YunClient`: one operation per platform action. Each
    business operation fills an `ApiRequest` envelope from its typed request
    and posts it to the single invoke endpoint; upload and download go to
    their own fixed URLs and wrap the file result as a successful response. */
module Facade {
  import opened Wrappers
  import opened Configuration
  import opened Exceptions
  import opened Responses
  import opened BizObjectModels
  import opened Envelope
  import opened Http

  /** The one endpoint, relative to the base URL, that every action is posted to. */
  const ApiEndpoint: string := "/OpenApi/Invoke"

  /** The upload URL's fixed host and path: it does not follow the base URL. */
  const UploadUrlPrefix: string := "https://www.h3yun.com/OpenApi/UploadAttachment?SchemaCode="
  const FilePropertyNameParam: string := "&FilePropertyName="
  const BizObjectIdParam: string := "&BizObjectId="

  /** The fixed download URL. */
  const DownloadUrl: string := "https://www.h3yun.com/Api/DownloadBizObjectFile"

  // ----- Envelopes, one per action -----

  /** `CreateBizObject`: schema code, object and submit flag. */
  function CreateBizObjectEnvelope(req: CreateBizObjectRequest): (r: ApiRequest)
    ensures r.actionName == "CreateBizObject"
    ensures Encode(r) == [ActionName, SchemaCode, BizObjectKey, IsSubmit]
    ensures r.schemaCode == Some(req.schemaCode) && r.bizObject == Some(req.bizObject)
    ensures r.isSubmit == Some(req.isSubmit)
  {
    var r := EmptyRequest().(actionName := "CreateBizObject", schemaCode := Some(req.schemaCode),
                             bizObject := Some(req.bizObject), isSubmit := Some(req.isSubmit));
    OrderedByMembers(Encode(r), [ActionName, SchemaCode, BizObjectKey, IsSubmit]);
    r
  }

  /** `CreateBizObjects`: schema code, the rows' JSON texts and submit flag. */
  function CreateBizObjectsEnvelope(req: CreateBizObjectsRequest): (r: ApiRequest)
    ensures r.actionName == "CreateBizObjects"
    ensures Encode(r) == [ActionName, SchemaCode, BizObjectArray, IsSubmit]
    ensures r.schemaCode == Some(req.schemaCode) && r.bizObjectArray == Some(req.bizObjectArray)
    ensures r.isSubmit == Some(req.isSubmit)
  {
    var r := EmptyRequest().(actionName := "CreateBizObjects", schemaCode := Some(req.schemaCode),
                             bizObjectArray := Some(req.bizObjectArray), isSubmit := Some(req.isSubmit));
    OrderedByMembers(Encode(r), [ActionName, SchemaCode, BizObjectArray, IsSubmit]);
    r
  }

  /** `LoadBizObject`: schema code and object id. */
  function LoadBizObjectEnvelope(req: LoadBizObjectRequest): (r: ApiRequest)
    ensures r.actionName == "LoadBizObject"
    ensures Encode(r) == [ActionName, SchemaCode, BizObjectId]
    ensures r.schemaCode == Some(req.schemaCode) && r.bizObjectId == Some(req.bizObjectId)
  {
    var r := EmptyRequest().(actionName := "LoadBizObject", schemaCode := Some(req.schemaCode),
                             bizObjectId := Some(req.bizObjectId));
    OrderedByMembers(Encode(r), [ActionName, SchemaCode, BizObjectId]);
    r
  }

  /** `UpdateBizObject`: schema code, object and submit flag; the object's
      own id is the only identification sent. */
  function UpdateBizObjectEnvelope(req: UpdateBizObjectRequest): (r: ApiRequest)
    ensures r.actionName == "UpdateBizObject"
    ensures Encode(r) == [ActionName, SchemaCode, BizObjectKey, IsSubmit]
    ensures r.schemaCode == Some(req.schemaCode) && r.bizObject == Some(req.bizObject)
    ensures r.isSubmit == Some(req.isSubmit)
  {
    var r := EmptyRequest().(actionName := "UpdateBizObject", schemaCode := Some(req.schemaCode),
                             bizObject := Some(req.bizObject), isSubmit := Some(req.isSubmit));
    OrderedByMembers(Encode(r), [ActionName, SchemaCode, BizObjectKey, IsSubmit]);
    r
  }

  /** `RemoveBizObject`: schema code and object id. */
  function RemoveBizObjectEnvelope(req: RemoveBizObjectRequest): (r: ApiRequest)
    ensures r.actionName == "RemoveBizObject"
    ensures Encode(r) == [ActionName, SchemaCode, BizObjectId]
    ensures r.schemaCode == Some(req.schemaCode) && r.bizObjectId == Some(req.bizObjectId)
  {
    var r := EmptyRequest().(actionName := "RemoveBizObject", schemaCode := Some(req.schemaCode),
                             bizObjectId := Some(req.bizObjectId));
    OrderedByMembers(Encode(r), [ActionName, SchemaCode, BizObjectId]);
    r
  }

  /** `ListBizObjects`: schema code and the structured filter, which is
      left out of the body when the request has none. */
  function ListBizObjectsEnvelope(req: ListBizObjectsRequest): (r: ApiRequest)
    ensures r.actionName == "ListBizObjects"
    ensures Encode(r) == [ActionName, SchemaCode] + (if req.filter.Some? then [FilterKey] else [])
    ensures r.schemaCode == Some(req.schemaCode) && r.filter == req.filter
  {
    var r := EmptyRequest().(actionName := "ListBizObjects", schemaCode := Some(req.schemaCode),
                             filter := req.filter);
    OrderedByMembers(Encode(r), [ActionName, SchemaCode] + (if req.filter.Some? then [FilterKey] else []));
    r
  }

  /** `LoadBizObjects`: schema code, and the filter text under the
      `FilterString` key rather than the `Filter` key. */
  function LoadBizObjectsEnvelope(req: LoadBizObjectsRequest): (r: ApiRequest)
    ensures r.actionName == "LoadBizObjects"
    ensures Encode(r) == [ActionName, SchemaCode, FilterString]
    ensures r.schemaCode == Some(req.schemaCode) && r.filterString == Some(req.filter)
    ensures r.filter.None?
  {
    var r := EmptyRequest().(actionName := "LoadBizObjects", schemaCode := Some(req.schemaCode),
                             filterString := Some(req.filter));
    OrderedByMembers(Encode(r), [ActionName, SchemaCode, FilterString]);
    r
  }

  /** `UpdateBizObjects`: schema code, the rows' JSON texts and their ids. */
  function UpdateBizObjectsEnvelope(req: UpdateBizObjectsRequest): (r: ApiRequest)
    ensures r.actionName == "UpdateBizObjects"
    ensures Encode(r) == [ActionName, SchemaCode, BizObjectArray, BizObjectIds]
    ensures r.schemaCode == Some(req.schemaCode) && r.bizObjectArray == Some(req.bizObjectArray)
    ensures r.bizObjectIds == Some(req.bizObjectIds)
  {
    var r := EmptyRequest().(actionName := "UpdateBizObjects", schemaCode := Some(req.schemaCode),
                             bizObjectArray := Some(req.bizObjectArray), bizObjectIds := Some(req.bizObjectIds));
    OrderedByMembers(Encode(r), [ActionName, SchemaCode, BizObjectArray, BizObjectIds]);
    r
  }

  /** `RemoveBizObjects`: schema code and the ids. */
  function RemoveBizObjectsEnvelope(req: RemoveBizObjectsRequest): (r: ApiRequest)
    ensures r.actionName == "RemoveBizObjects"
    ensures Encode(r) == [ActionName, SchemaCode, BizObjectIds]
    ensures r.schemaCode == Some(req.schemaCode) && r.bizObjectIds == Some(req.bizObjectIds)
  {
    var r := EmptyRequest().(actionName := "RemoveBizObjects", schemaCode := Some(req.schemaCode),
                             bizObjectIds := Some(req.bizObjectIds));
    OrderedByMembers(Encode(r), [ActionName, SchemaCode, BizObjectIds]);
    r
  }

  /** `GetWorkflowInfo`: the instance id alone. */
  function GetWorkflowInfoEnvelope(req: GetWorkflowInfoRequest): (r: ApiRequest)
    ensures r.actionName == "GetWorkflowInfo"
    ensures Encode(r) == [ActionName, InstanceId]
    ensures r.instanceId == Some(req.instanceId)
  {
    var r := EmptyRequest().(actionName := "GetWorkflowInfo", instanceId := Some(req.instanceId));
    OrderedByMembers(Encode(r), [ActionName, InstanceId]);
    r
  }

  /** `SubmitWorkflow`: instance id and action, and the comment and user id
      only when the request has them. */
  function SubmitWorkflowEnvelope(req: SubmitWorkflowRequest): (r: ApiRequest)
    ensures r.actionName == "SubmitWorkflow"
    ensures Encode(r) == [ActionName, InstanceId, ApprovalAction]
      + (if req.comment.Some? then [Comment] else []) + (if req.userId.Some? then [UserId] else [])
    ensures r.instanceId == Some(req.instanceId) && r.approvalAction == Some(req.approvalAction)
    ensures r.comment == req.comment && r.userId == req.userId
  {
    var r := EmptyRequest().(actionName := "SubmitWorkflow", instanceId := Some(req.instanceId),
                             approvalAction := Some(req.approvalAction), comment := req.comment,
                             userId := req.userId);
    OrderedByMembers(Encode(r), [ActionName, InstanceId, ApprovalAction]
      + (if req.comment.Some? then [Comment] else []) + (if req.userId.Some? then [UserId] else []));
    r
  }

  /** `InvokeCustomApi`: the caller's method name as the action, and the
      caller's payload, left out when it is null. */
  function CustomEnvelope(action: string, payload: Option<Json>): (r: ApiRequest)
    ensures r.actionName == action && r.customData == payload
    ensures Encode(r) == [ActionName] + (if payload.Some? then [CustomData] else [])
  {
    var r := EmptyRequest().(actionName := action, customData := payload);
    OrderedByMembers(Encode(r), [ActionName] + (if payload.Some? then [CustomData] else []));
    r
  }

  /** The upload URL: the three request values spliced verbatim, without
      escaping, into a fixed query string. */
  function UploadUrl(req: UploadAttachmentRequest): (url: string)
    ensures var i := |UploadUrlPrefix|; var j := i + |req.schemaCode| + |FilePropertyNameParam|;
      && |url| == j + |req.filePropertyName| + |BizObjectIdParam| + |req.bizObjectId|
      && url[..i] == UploadUrlPrefix
      && url[i..i + |req.schemaCode|] == req.schemaCode
      && url[i + |req.schemaCode|..j] == FilePropertyNameParam
      && url[j..j + |req.filePropertyName|] == req.filePropertyName
      && url[j + |req.filePropertyName|..|url| - |req.bizObjectId|] == BizObjectIdParam
      && url[|url| - |req.bizObjectId|..] == req.bizObjectId
  {
    UploadUrlPrefix + req.schemaCode + FilePropertyNameParam + req.filePropertyName
      + BizObjectIdParam + req.bizObjectId
  }

  /** Since nothing is escaped, a schema code that contains the next
      parameter's separator makes two different requests target the same URL. */
  lemma UploadUrlIsAmbiguous(s: string, f: string, g: string, id: string, file: UploadAttachmentRequest)
    ensures var a := file.(schemaCode := s + FilePropertyNameParam + f, filePropertyName := g, bizObjectId := id);
            var b := file.(schemaCode := s, filePropertyName := f + FilePropertyNameParam + g, bizObjectId := id);
            a != b && UploadUrl(a) == UploadUrl(b)
  {
    var q := FilePropertyNameParam;
    var a := file.(schemaCode := s + q + f, filePropertyName := g, bizObjectId := id);
    var b := file.(schemaCode := s, filePropertyName := f + q + g, bizObjectId := id);
    assert |a.schemaCode| != |b.schemaCode|;
    var x := UploadUrlPrefix + s;
    assert UploadUrlPrefix + (s + q + f) == x + q + f;
    assert x + q + (f + q + g) == x + q + f + q + g;
  }

  // ----- The client -----

  /** `H3YunClient`: the adapter it built over the injected transport. */
  class H3YunClient {
    const http: H3YunHttpClient

    predicate Valid()
    {
      http.Valid()
    }

    constructor Wrap(http: H3YunHttpClient)
      requires http.Valid()
      ensures this.http == http && Valid()
    {
      this.http := http;
    }

    /** `new H3YunClient(httpClient, options)`: builds the adapter, so it
        throws exactly when the options are invalid. */
    static method Create(transport: HttpTransport, options: H3YunOptions)
      returns (r: Result<H3YunClient, ArgumentError>)
      modifies transport
      ensures Validate(options).Fail? ==> r == Failure(Validate(options).error) && unchanged(transport)
      ensures Validate(options).Pass? ==>
        && r.Success? && fresh(r.value) && r.value.Valid()
        && r.value.http.transport == transport && r.value.http.options == options
        && transport.baseAddress == options.baseUrl
        && transport.timeoutSeconds == options.timeoutSeconds as int
        && transport.acceptHeaders == old(transport.acceptHeaders) + [JsonMediaType]
    {
      var adapter := H3YunHttpClient.Create(transport, options);
      if adapter.Failure? {
        return Failure(adapter.error);
      }
      var client := new H3YunClient.Wrap(adapter.value);
      return Success(client);
    }

    /** Posting an envelope to the invoke endpoint: the body carries the
        envelope's set keys, the credentials go along, and the outcome is
        classified as a JSON post, so a business failure reported in a 2xx
        body is returned, not thrown. */
    function Invoke<T>(request: ApiRequest, outcome: TransportOutcome, decoded: Decoded<ApiResponse<T>>)
      : (x: Exchange<ApiResponse<T>>)
      requires Valid()
      ensures x.sent.uri == ApiEndpoint && x.sent.headers == http.CredentialHeaders()
      ensures x.sent.content == JsonContent(request)
      ensures x.result == ClassifyPost(outcome, decoded)
    {
      Exchange(http.PostMessage(ApiEndpoint, request), ClassifyPost(outcome, decoded))
    }

    function CreateBizObject(req: CreateBizObjectRequest, outcome: TransportOutcome,
                             decoded: Decoded<ApiResponse<CreateBizObjectResponse>>)
      : (x: Exchange<ApiResponse<CreateBizObjectResponse>>)
      requires Valid()
      ensures x.sent.uri == ApiEndpoint && x.sent.headers == http.CredentialHeaders()
      ensures x.sent.content == JsonContent(CreateBizObjectEnvelope(req))
      ensures var e := x.sent.content.envelope;
       
        && e.actionName == "CreateBizObject" && e.schemaCode == Some(req.schemaCode) && e.bizObject == Some(req.bizObject) && e.isSubmit == Some(req.isSubmit)
        && Encode(e) == [ActionName, SchemaCode, BizObjectKey, IsSubmit]
      ensures x.result == ClassifyPost(outcome, decoded)
    {
      Invoke(CreateBizObjectEnvelope(req), outcome, decoded)
    }

    function CreateBizObjects(req: CreateBizObjectsRequest, outcome: TransportOutcome,
                              decoded: Decoded<ApiResponse<CreateBizObjectsResponse>>)
      : (x: Exchange<ApiResponse<CreateBizObjectsResponse>>)
      requires Valid()
      ensures x.sent.uri == ApiEndpoint && x.sent.headers == http.CredentialHeaders()
      ensures x.sent.content == JsonContent(CreateBizObjectsEnvelope(req))
      ensures var e := x.sent.content.envelope;
       
        && e.actionName == "CreateBizObjects" && e.schemaCode == Some(req.schemaCode) && e.bizObjectArray == Some(req.bizObjectArray) && e.isSubmit == Some(req.isSubmit)
        && Encode(e) == [ActionName, SchemaCode, BizObjectArray, IsSubmit]
      ensures x.result == ClassifyPost(outcome, decoded)
    {
      Invoke(CreateBizObjectsEnvelope(req), outcome, decoded)
    }

    function LoadBizObject(req: LoadBizObjectRequest, outcome: TransportOutcome,
                           decoded: Decoded<ApiResponse<LoadBizObjectResponse>>)
      : (x: Exchange<ApiResponse<LoadBizObjectResponse>>)
      requires Valid()
      ensures x.sent.uri == ApiEndpoint && x.sent.headers == http.CredentialHeaders()
      ensures x.sent.content == JsonContent(LoadBizObjectEnvelope(req))
      ensures var e := x.sent.content.envelope;
       
        && e.actionName == "LoadBizObject" && e.schemaCode == Some(req.schemaCode) && e.bizObjectId == Some(req.bizObjectId)
        && Encode(e) == [ActionName, SchemaCode, BizObjectId]
      ensures x.result == ClassifyPost(outcome, decoded)
    {
      Invoke(LoadBizObjectEnvelope(req), outcome, decoded)
    }

    function UpdateBizObject(req: UpdateBizObjectRequest, outcome: TransportOutcome,
                             decoded: Decoded<ApiResponse<UpdateBizObjectResponse>>)
      : (x: Exchange<ApiResponse<UpdateBizObjectResponse>>)
      requires Valid()
      ensures x.sent.uri == ApiEndpoint && x.sent.headers == http.CredentialHeaders()
      ensures x.sent.content == JsonContent(UpdateBizObjectEnvelope(req))
      ensures var e := x.sent.content.envelope;
       
        && e.actionName == "UpdateBizObject" && e.schemaCode == Some(req.schemaCode) && e.bizObject == Some(req.bizObject) && e.isSubmit == Some(req.isSubmit)
        && Encode(e) == [ActionName, SchemaCode, BizObjectKey, IsSubmit]
      ensures x.result == ClassifyPost(outcome, decoded)
    {
      Invoke(UpdateBizObjectEnvelope(req), outcome, decoded)
    }

    function RemoveBizObject(req: RemoveBizObjectRequest, outcome: TransportOutcome,
                             decoded: Decoded<ApiResponse<RemoveBizObjectResponse>>)
      : (x: Exchange<ApiResponse<RemoveBizObjectResponse>>)
      requires Valid()
      ensures x.sent.uri == ApiEndpoint && x.sent.headers == http.CredentialHeaders()
      ensures x.sent.content == JsonContent(RemoveBizObjectEnvelope(req))
      ensures var e := x.sent.content.envelope;
       
        && e.actionName == "RemoveBizObject" && e.schemaCode == Some(req.schemaCode) && e.bizObjectId == Some(req.bizObjectId)
        && Encode(e) == [ActionName, SchemaCode, BizObjectId]
      ensures x.result == ClassifyPost(outcome, decoded)
    {
      Invoke(RemoveBizObjectEnvelope(req), outcome, decoded)
    }

    function ListBizObjects(req: ListBizObjectsRequest, outcome: TransportOutcome,
                            decoded: Decoded<ApiResponse<ListBizObjectsResponse>>)
      : (x: Exchange<ApiResponse<ListBizObjectsResponse>>)
      requires Valid()
      ensures x.sent.uri == ApiEndpoint && x.sent.headers == http.CredentialHeaders()
      ensures x.sent.content == JsonContent(ListBizObjectsEnvelope(req))
      ensures var e := x.sent.content.envelope;
        && e.actionName == "ListBizObjects" && e.schemaCode == Some(req.schemaCode) && e.filter == req.filter
        && Encode(e) == [ActionName, SchemaCode] + (if req.filter.Some? then [FilterKey] else [])
      ensures x.result == ClassifyPost(outcome, decoded)
    {
      Invoke(ListBizObjectsEnvelope(req), outcome, decoded)
    }

    function LoadBizObjects(req: LoadBizObjectsRequest, outcome: TransportOutcome,
                            decoded: Decoded<ApiResponse<LoadBizObjectsResponse>>)
      : (x: Exchange<ApiResponse<LoadBizObjectsResponse>>)
      requires Valid()
      ensures x.sent.uri == ApiEndpoint && x.sent.headers == http.CredentialHeaders()
      ensures x.sent.content == JsonContent(LoadBizObjectsEnvelope(req))
      ensures var e := x.sent.content.envelope;
       
        && e.actionName == "LoadBizObjects" && e.schemaCode == Some(req.schemaCode) && e.filterString == Some(req.filter) && e.filter.None?
        && Encode(e) == [ActionName, SchemaCode, FilterString]
      ensures x.result == ClassifyPost(outcome, decoded)
    {
      Invoke(LoadBizObjectsEnvelope(req), outcome, decoded)
    }

    function UpdateBizObjects(req: UpdateBizObjectsRequest, outcome: TransportOutcome,
                              decoded: Decoded<ApiResponse<UpdateBizObjectsResponse>>)
      : (x: Exchange<ApiResponse<UpdateBizObjectsResponse>>)
      requires Valid()
      ensures x.sent.uri == ApiEndpoint && x.sent.headers == http.CredentialHeaders()
      ensures x.sent.content == JsonContent(UpdateBizObjectsEnvelope(req))
      ensures var e := x.sent.content.envelope;
       
        && e.actionName == "UpdateBizObjects" && e.schemaCode == Some(req.schemaCode) && e.bizObjectArray == Some(req.bizObjectArray) && e.bizObjectIds == Some(req.bizObjectIds)
        && Encode(e) == [ActionName, SchemaCode, BizObjectArray, BizObjectIds]
      ensures x.result == ClassifyPost(outcome, decoded)
    {
      Invoke(UpdateBizObjectsEnvelope(req), outcome, decoded)
    }

    function RemoveBizObjects(req: RemoveBizObjectsRequest, outcome: TransportOutcome,
                              decoded: Decoded<ApiResponse<RemoveBizObjectsResponse>>)
      : (x: Exchange<ApiResponse<RemoveBizObjectsResponse>>)
      requires Valid()
      ensures x.sent.uri == ApiEndpoint && x.sent.headers == http.CredentialHeaders()
      ensures x.sent.content == JsonContent(RemoveBizObjectsEnvelope(req))
      ensures var e := x.sent.content.envelope;
       
        && e.actionName == "RemoveBizObjects" && e.schemaCode == Some(req.schemaCode) && e.bizObjectIds == Some(req.bizObjectIds)
        && Encode(e) == [ActionName, SchemaCode, BizObjectIds]
      ensures x.result == ClassifyPost(outcome, decoded)
    {
      Invoke(RemoveBizObjectsEnvelope(req), outcome, decoded)
    }

    /** The workflow response's shape is left open as `T`. */
    function GetWorkflowInfo<T>(req: GetWorkflowInfoRequest, outcome: TransportOutcome,
                                decoded: Decoded<ApiResponse<T>>)
      : (x: Exchange<ApiResponse<T>>)
      requires Valid()
      ensures x.sent.uri == ApiEndpoint && x.sent.headers == http.CredentialHeaders()
      ensures x.sent.content == JsonContent(GetWorkflowInfoEnvelope(req))
      ensures var e := x.sent.content.envelope;
        && e.actionName == "GetWorkflowInfo" && e.instanceId == Some(req.instanceId)
        && Encode(e) == [ActionName, InstanceId]
      ensures x.result == ClassifyPost(outcome, decoded)
    {
      Invoke(GetWorkflowInfoEnvelope(req), outcome, decoded)
    }

    /** The workflow response's shape is left open as `T`. */
    function SubmitWorkflow<T>(req: SubmitWorkflowRequest, outcome: TransportOutcome,
                               decoded: Decoded<ApiResponse<T>>)
      : (x: Exchange<ApiResponse<T>>)
      requires Valid()
      ensures x.sent.uri == ApiEndpoint && x.sent.headers == http.CredentialHeaders()
      ensures x.sent.content == JsonContent(SubmitWorkflowEnvelope(req))
      ensures var e := x.sent.content.envelope;
       
        && e.actionName == "SubmitWorkflow" && e.instanceId == Some(req.instanceId) && e.approvalAction == Some(req.approvalAction)
        && e.comment == req.comment && e.userId == req.userId
        && Encode(e) == [ActionName, InstanceId, ApprovalAction]
        + (if req.comment.Some? then [Comment] else []) + (if req.userId.Some? then [UserId] else [])
      ensures x.result == ClassifyPost(outcome, decoded)
    {
      Invoke(SubmitWorkflowEnvelope(req), outcome, decoded)
    }

    function InvokeCustomApi<T>(action: string, payload: Option<Json>, outcome: TransportOutcome,
                                decoded: Decoded<ApiResponse<T>>)
      : (x: Exchange<ApiResponse<T>>)
      requires Valid()
      ensures x.sent.uri == ApiEndpoint && x.sent.headers == http.CredentialHeaders()
      ensures x.sent.content == JsonContent(CustomEnvelope(action, payload))
      ensures var e := x.sent.content.envelope;
        && e.actionName == action && e.customData == payload
        && Encode(e) == [ActionName] + (if payload.Some? then [CustomData] else [])
      ensures x.result == ClassifyPost(outcome, decoded)
    {
      Invoke(CustomEnvelope(action, payload), outcome, decoded)
    }

    /** `UploadAttachment`: a multipart post to the fixed upload URL; a
        refused file part fails before sending; when nothing throws, the
        decoded upload result is wrapped as a successful response, whatever
        its own success flag says. */
    function UploadAttachment(req: UploadAttachmentRequest, argumentMessage: string, outcome: TransportOutcome,
                              decoded: Decoded<UploadAttachmentResponse>)
      : (x: Attempt<ApiResponse<UploadAttachmentResponse>>)
      requires Valid()
      ensures x.sent.None? <==> RejectsFilePart(req.fileName, req.contentType)
      ensures x.sent.Some? ==>
        x.sent.value == http.UploadMessage(UploadUrl(req), req.fileBytes, req.fileName, req.contentType)
      ensures var u := UploadResult(req.fileName, req.contentType, argumentMessage, outcome, decoded);
        && (x.result.Success? <==> u.Success?)
        && (x.result.Success? ==>
              && x.result.value.IsSuccess() && x.result.value.base.errorMessage.None?
              && x.result.value.returnData == Some(u.value))
        && (x.result.Failure? ==> x.result.error == u.error)
    {
      var r := UploadResult(req.fileName, req.contentType, argumentMessage, outcome, decoded);
      var result := match r
        case Success(v) => Success(ApiResponse(ApiResponseBase(true, None), Some(v)))
        case Failure(e) => Failure(e);
      var sent := if RejectsFilePart(req.fileName, req.contentType) then None
                  else Some(http.UploadMessage(UploadUrl(req), req.fileBytes, req.fileName, req.contentType));
      Attempt(sent, result)
    }

    /** `DownloadBizObjectFile`: a form post to the fixed download URL; when
        it does not throw, the file is wrapped as a successful response. */
    function DownloadBizObjectFile(req: DownloadBizObjectFileRequest, outcome: TransportOutcome)
      : (x: Exchange<ApiResponse<DownloadBizObjectFileResponse>>)
      requires Valid()
      ensures x.sent == http.DownloadMessage(DownloadUrl, req.attachmentId)
      ensures x.result.Success? <==> ClassifyDownload(outcome).Success?
      ensures x.result.Success? ==>
        && x.result.value.IsSuccess() && x.result.value.base.errorMessage.None?
        && x.result.value.returnData == Some(ClassifyDownload(outcome).value)
      ensures x.result.Failure? ==> x.result.error == ClassifyDownload(outcome).error
    {
      var r := ClassifyDownload(outcome);
      var result := match r
        case Success(v) => Success(ApiResponse(ApiResponseBase(true, None), Some(v)))
        case Failure(e) => Failure(e);
      Exchange(http.DownloadMessage(DownloadUrl, req.attachmentId), result)
    }

    /** Actions whose requests carry the same fields are still told apart
        on the wire by their action names. */
    lemma SameFieldsDifferentActions(
      s: string, o: BizObject, b: bool, id: string, outcome: TransportOutcome,
      d1: Decoded<ApiResponse<CreateBizObjectResponse>>, d2: Decoded<ApiResponse<UpdateBizObjectResponse>>,
      d3: Decoded<ApiResponse<LoadBizObjectResponse>>, d4: Decoded<ApiResponse<RemoveBizObjectResponse>>)
      requires Valid()
      ensures CreateBizObject(CreateBizObjectRequest(s, o, b), outcome, d1).sent
           != UpdateBizObject(UpdateBizObjectRequest(s, o, b), outcome, d2).sent
      ensures LoadBizObject(LoadBizObjectRequest(s, id), outcome, d3).sent
           != RemoveBizObject(RemoveBizObjectRequest(s, id), outcome, d4).sent
    {
    }

    /** An upload request left at its defaults has an empty file name and
        content type, so it fails before sending, whatever the transport
        would have answered. */
    lemma DefaultUploadNeverSends(argumentMessage: string, outcome: TransportOutcome,
                                  decoded: Decoded<UploadAttachmentResponse>)
      requires Valid()
      ensures var x := UploadAttachment(DefaultUploadAttachmentRequest(), argumentMessage, outcome, decoded);
        && x.sent.None? && x.result.Failure?
        && x.result.error == WithInner(UploadExceptionPrefix + argumentMessage, OtherFault(argumentMessage))
    {
    }

    /** An upload the platform rejects in a 2xx body still comes back as a
        successful response; the rejection is only in the returned data. */
    lemma RejectedUploadReportsSuccess(req: UploadAttachmentRequest, argumentMessage: string,
                                       resp: HttpResponse, message: string)
      requires Valid() && IsSuccessStatusCode(resp.status)
      requires !RejectsFilePart(req.fileName, req.contentType)
      ensures var x := UploadAttachment(req, argumentMessage, Responded(resp),
                                        Value(UploadAttachmentResponse(false, None, Some(message))));
              x.result.Success? && x.result.value.IsSuccess()
              && !x.result.value.returnData.value.success
    {
    }

    /** A business failure in a 2xx body is data, not an exception. */
    lemma BusinessFailureIsReturned<T>(request: ApiRequest, resp: HttpResponse, message: string)
      requires Valid() && IsSuccessStatusCode(resp.status)
      ensures var x := Invoke(request, Responded(resp),
                              Decoded<ApiResponse<T>>.Value(ApiResponse(ApiResponseBase(false, Some(message)), None)));
              x.result.Success? && !x.result.value.IsSuccess()
              && x.result.value.base.errorMessage == Some(message)
    {
    }
  }
}
