# H3Yun SDK dispatch and error-normalisation layer, in Dafny

This project models the core of a C# SDK for the H3Yun low-code platform. Every business action (create, load, update, remove, list and the batch forms, plus the workflow actions and custom calls) is posted to one endpoint, `/OpenApi/Invoke`. The action travels in an `ApiRequest` envelope whose null fields are left out of the JSON body. Two credential headers go with each request. The model covers how the SDK works out the result of an exchange:

- a 2xx response that decodes to a value returns that value unchanged;
- everything else becomes one exception type, `H3YunException`.

An exception has a message, an error code and, optionally, an inner exception. Attachment upload and download use their own fixed URLs.

One module per source file:

| module | file | what it holds |
|---|---|---|
| `Configuration` | `configuration.dfy` | `H3YunOptions`, its defaults, and `Validate`'s four ordered guards, using .NET's white-space table |
| `Exceptions` | `exceptions.dfy` | `H3YunException` (a value, so its code cannot change) and its four constructors; the system exceptions it can wrap |
| `Responses` | `api_response.dfy` | `ApiResponse` and `ApiResponse<T>`, with `IsSuccess` |
| `BizObjectModels` | `biz_object_models.dfy` | the request and response records; the query model (`Filter`, `SortBy`, `Matcher`, `ItemMatcher`) and its defaults; the `CompareType`/`MatchType` wire names and their round trips |
| `Envelope` | `envelope.dfy` | `ApiRequest` and its null-omitting serialisation, modelled as the list of keys emitted |
| `Http` | `http_client.dfy` | the transport adapter `H3YunHttpClient` |
| `Facade` | `client.dfy` | `H3YunClient`: one envelope builder per action, the fixed endpoint and URLs, and the upload/download wrapping |
| `Examples` | `examples.dfy` | the batch update/remove sample: `ExtractObjectIds`, the two single-step helpers, and the create → update → remove sequence |

What `Http` covers:

- The class validates the options before it sets the shared transport's base address, timeout and `Accept` header.
- Each operation builds a fresh request message and adds the credential headers to it.
- Each operation then follows the source's `try`/`catch` chain over an abstract outcome. That outcome is either a thrown system exception or a response with a status, a body and headers. The JSON decoder's verdict on the body is also abstract: malformed, null, or a value.
- Each imperative method is proved equal to a pure classifier (`ClassifyPost`, `ClassifyUpload`, `ClassifyDownload`), and the cases are stated on those classifiers.

The facade is pure: each action is a function from its typed request, and the transport result, to what was sent and what came back.

The examples helpers are methods. Their client calls are function parameters standing for the `IH3YunClient` methods, each of which returns a response or the exception it throws. JSON serialisation of the sample rows is a parameter too.

`Validate` and the exception constructors are functions over values. So validation cannot change the options, and re-validating passing options passes again. An exception's code cannot change after construction either.

The code behaves as follows, which a reader may not expect:

- A timeout is only a `TaskCanceledException` whose inner exception is a `TimeoutException`. Its error code is always "Unknown", and its message is "请求超时". Plain cancellation is reported as an unknown exception, not as a timeout.
- The upload URL is a fixed host and path on `https://www.h3yun.com`, whatever the configured base URL. The download URL is also fixed. Neither URL escapes the values it contains: `Facade.UploadUrlIsAmbiguous` shows two different requests that target the same upload URL.
- There are no separate error kinds. There is one exception type: a non-2xx status or a null decode carries the raw body as its code, and every other path carries "Unknown". The messages are the source's Chinese strings.
- `Matcher.Conditions` is a flat list of conditions, not a nested tree.
- Some test expectations contradict the code's defaults: `Filter.ToRowNum` is 100, `SortBy` defaults to `""` and "Ascending", and the request schema codes default to `""`. The code's defaults are modelled.

## Model

| member | source | states |
|---|---|---|
| Configuration.Defaults | H3YunSDK/Configuration/H3YunOptions.cs:13-28 | a fresh options object holds the base URL "https://www.h3yun.com", an empty engine code and secret, and a 60-second timeout |
| Configuration.Validate | H3YunSDK/Configuration/H3YunOptions.cs:34-55 | passes exactly when every string option is present with a non-white-space character and the timeout is at least 1; otherwise reports the first failing guard, in the order BaseUrl, EngineCode, EngineSecret, TimeoutSeconds, with its message and parameter name |
| Configuration.DefaultsFailOnEngineCode | H3YunSDK/Configuration/H3YunOptions.cs:13-44 | default options fail, naming EngineCode, because the base URL default is usable |
| Configuration.TimeoutBoundary | H3YunSDK/Configuration/H3YunOptions.cs:51-54 | with usable strings, timeouts 0 and -1 fail, 1 passes, and validation passes exactly when the timeout is at least 1 |
| Exceptions.WithMessage | H3YunSDK/Exceptions/H3YunException.cs:19-22 | keeps the message, code "Unknown", no inner exception |
| Exceptions.WithCode | H3YunSDK/Exceptions/H3YunException.cs:29-32 | keeps message and code exactly, no inner exception |
| Exceptions.WithInner | H3YunSDK/Exceptions/H3YunException.cs:39-42 | keeps message and the very inner exception, code "Unknown" |
| Exceptions.WithCodeAndInner | H3YunSDK/Exceptions/H3YunException.cs:50-53 | keeps all three |
| Exceptions.ConstructorsAgree | H3YunSDK/Exceptions/H3YunException.cs:13-53 | the code-less constructors are the coded ones at "Unknown"; adding an inner exception changes nothing else |
| Responses.ApiResponseBase.IsSuccess | H3YunSDK/Models/ApiResponse.cs:29 | is exactly the `Successful` flag |
| Responses.ApiResponse.IsSuccess | H3YunSDK/Models/ApiResponse.cs:36-43 | the generic response inherits it: exactly the base flag |
| Responses.DefaultIsNotSuccess | H3YunSDK/Models/ApiResponse.cs:16-43 | a default response is unsuccessful, with no message and no return data |
| Responses.FieldsIndependent | H3YunSDK/Models/ApiResponse.cs:14-43 | any combination of flag, message and data is a response, and `IsSuccess` depends on the flag only |
| BizObjectModels.ParseCompareType | H3YunSDK/Models/BizObjects/BizObjectModels.cs:15-77 | the inverse of the serialised-name table: a decoded operator has the given wire name |
| BizObjectModels.ParseMatchType | H3YunSDK/Models/BizObjects/BizObjectModels.cs:82-96 | the inverse of the serialised-name table: a decoded combinator has the given wire name |
| BizObjectModels.CompareTypeRoundTrip | H3YunSDK/Models/BizObjects/BizObjectModels.cs:15-77 | the name table and its inverse: decoding an encoded operator gives it back, names are injective, and the inverse is defined exactly on the ten serialised names |
| BizObjectModels.CompareTypeHasTenCases | H3YunSDK/Models/BizObjects/BizObjectModels.cs:15-77 | there are exactly ten wire names and every operator has one of them |
| BizObjectModels.MatchTypeRoundTrip | H3YunSDK/Models/BizObjects/BizObjectModels.cs:82-96 | the same round trip between the serialised-name table and its inverse for And and Or, the only two names |
| BizObjectModels.QueryModelDefaults | H3YunSDK/Models/BizObjects/BizObjectModels.cs:305-415 | a filter defaults to rows 0 to 100 with a count and nothing else; a matcher to And without conditions; a condition to no field, Equal, no value; a sort to "" and "Ascending" |
| BizObjectModels.RequestDefaults | H3YunSDK/Models/BizObjects/BizObjectModels.cs:424-845 | create and update requests default to an empty schema code, an empty object and no submit; the batch arrays default to empty; every field of an upload request defaults to empty |
| Envelope.Properties | H3YunSDK/H3YunClient.cs:384-455 | the fourteen properties, each at its declaration position and null exactly when its field is unset |
| Envelope.OmitNulls | H3YunSDK/Http/H3YunHttpClient.cs:65-68 | emits no more keys than there are properties |
| Envelope.OmitNullsMembers | H3YunSDK/Http/H3YunHttpClient.cs:65-68 | a key is emitted exactly when some property with that key is non-null |
| Envelope.OmitNullsKeepsOrder | H3YunSDK/Http/H3YunHttpClient.cs:65-68 | omission keeps the declaration order, so no key is emitted twice |
| Envelope.Encode | H3YunSDK/Http/H3YunHttpClient.cs:65-68 | the body's keys are exactly the set fields, in declaration order, with `ActionName` first and always present |
| Envelope.KeyNamesInjective | H3YunSDK/H3YunClient.cs:384-455 | no two properties share a wire name |
| Envelope.EmptyRequestEncodesActionNameOnly | H3YunSDK/H3YunClient.cs:384-455 | a default envelope serialises to its action name alone |
| Envelope.OrderedByMembers | H3YunSDK/Http/H3YunHttpClient.cs:65-68 | an encoding is determined by the set of keys it emits |
| Http.ClassifyFault | H3YunSDK/Http/H3YunHttpClient.cs:102-125 | a thrown exception is wrapped with code "Unknown" and itself as inner exception; the message is "请求超时" exactly for a cancellation with an inner timeout, "HTTP请求异常: "/"JSON解析异常: " plus the message for those kinds, and "未知异常: " plus the message otherwise |
| Http.ClassifyPost | H3YunSDK/Http/H3YunHttpClient.cs:61-125 | the value is returned, unchanged, exactly for a 2xx response that decodes to one; non-2xx raises "HTTP请求失败，状态码：" plus the status with the body as code; a malformed body raises a JSON exception with code "Unknown"; a null decode raises "无法解析API响应" with the body as code; any code other than "Unknown" is the response body |
| Http.PlainCancellationIsUnknown | H3YunSDK/Http/H3YunHttpClient.cs:107-124 | a cancellation without an inner timeout is reported as unknown, never as a timeout |
| Http.HttpFailureIgnoresDecoding | H3YunSDK/Http/H3YunHttpClient.cs:87-94 | a non-2xx result does not depend on what the body would decode to |
| Http.UploadResult | H3YunSDK/Http/H3YunHttpClient.cs:167-208 | an empty content type or a null-or-white-space file name raises before sending, and the generic catch wraps that `ArgumentException` as "文件上传异常: " plus its message, whatever the transport would have done; otherwise the result is `ClassifyUpload` of the outcome |
| Http.ClassifyUpload | H3YunSDK/Http/H3YunHttpClient.cs:145-208 | success exactly on a 2xx value; non-2xx raises "文件上传失败，状态码：" with the body as code; a null decode raises "无法解析上传响应" with the body as code; any other exception, a malformed body included, is wrapped as "文件上传异常: " plus its message |
| Http.TrimStartQuotes | H3YunSDK/Http/H3YunHttpClient.cs:255 | the result is a suffix, everything dropped is a quote, and it does not start with a quote |
| Http.TrimEndQuotes | H3YunSDK/Http/H3YunHttpClient.cs:255 | the result is a prefix, everything dropped is a quote, and it does not end with a quote |
| Http.TrimQuotes | H3YunSDK/Http/H3YunHttpClient.cs:255 | no longer than the input, with no quote at either end |
| Http.TrimQuotesDropsOnlyQuotes | H3YunSDK/Http/H3YunHttpClient.cs:255 | the result is the infix between a run of leading and a run of trailing quotes |
| Http.TrimQuotesKeepsUnquoted | H3YunSDK/Http/H3YunHttpClient.cs:255 | a name with no quote at either end is unchanged |
| Http.TrimQuotesIdempotent | H3YunSDK/Http/H3YunHttpClient.cs:255 | trimming twice is trimming once |
| Http.DownloadFileName | H3YunSDK/Http/H3YunHttpClient.cs:249-256 | the disposition file name with its quotes trimmed, or "" when the header or its file name is absent |
| Http.DownloadContentType | H3YunSDK/Http/H3YunHttpClient.cs:250 | the media type, or "application/octet-stream" when it is absent |
| Http.ClassifyDownload | H3YunSDK/Http/H3YunHttpClient.cs:238-277 | success exactly on 2xx, with the response's bytes, trimmed file name and defaulted content type; non-2xx raises "文件下载失败，状态码：" with the body as code; an exception is wrapped as "文件下载异常: " plus its message |
| Http.HttpRequestMessage.constructor | H3YunSDK/Http/H3YunHttpClient.cs:72-75 | a fresh message for the target and content, with no headers |
| Http.HttpRequestMessage.AddHeader | H3YunSDK/Http/H3YunHttpClient.cs:77-78 | appends one header and changes nothing else |
| Http.H3YunHttpClient.Configure | H3YunSDK/Http/H3YunHttpClient.cs:39-42 | with valid options, sets the transport's base address to the base URL, its timeout to the configured seconds, and appends "application/json" to its `Accept` headers |
| Http.H3YunHttpClient.Create | H3YunSDK/Http/H3YunHttpClient.cs:36-42 | invalid options fail with `Validate`'s error and leave the transport unchanged; valid ones yield a client over that transport, configured as above |
| Http.H3YunHttpClient.CredentialHeaders | H3YunSDK/Http/H3YunHttpClient.cs:77-78 | exactly two headers, EngineCode and EngineSecret, equal to the options' values |
| Http.H3YunHttpClient.PostAsync | H3YunSDK/Http/H3YunHttpClient.cs:56-126 | sends a fresh message to the endpoint with the two credential headers and the envelope as its JSON body (whose keys are `Encode` of it), and its result is `ClassifyPost` of the outcome |
| Http.H3YunHttpClient.UploadFileAsync | H3YunSDK/Http/H3YunHttpClient.cs:138-209 | sends nothing exactly when the file part is refused (empty content type, or a file name that is empty or white space); otherwise sends a fresh multipart message with one "media" part carrying the file name, content type and bytes, plus the credential headers; the result is `UploadResult`, so a refused part always fails |
| Http.H3YunHttpClient.DownloadFileAsync | H3YunSDK/Http/H3YunHttpClient.cs:219-278 | posts the form fields attachmentId and EngineCode, with the two credentials as content headers and none on the message; the result is `ClassifyDownload` of the outcome |
| Facade.CreateBizObjectEnvelope | H3YunSDK/H3YunClient.cs:52-58 | action "CreateBizObject"; the body carries exactly ActionName, SchemaCode, BizObject and IsSubmit (even when false), with the request's values |
| Facade.CreateBizObjectsEnvelope | H3YunSDK/H3YunClient.cs:77-83 | action "CreateBizObjects"; exactly ActionName, SchemaCode, BizObjectArray, IsSubmit |
| Facade.LoadBizObjectEnvelope | H3YunSDK/H3YunClient.cs:102-107 | action "LoadBizObject"; exactly ActionName, SchemaCode, BizObjectId |
| Facade.UpdateBizObjectEnvelope | H3YunSDK/H3YunClient.cs:125-131 | action "UpdateBizObject"; exactly ActionName, SchemaCode, BizObject, IsSubmit |
| Facade.RemoveBizObjectEnvelope | H3YunSDK/H3YunClient.cs:150-155 | action "RemoveBizObject"; exactly ActionName, SchemaCode, BizObjectId |
| Facade.ListBizObjectsEnvelope | H3YunSDK/H3YunClient.cs:173-178 | action "ListBizObjects"; ActionName and SchemaCode, then Filter exactly when the request has one |
| Facade.LoadBizObjectsEnvelope | H3YunSDK/H3YunClient.cs:196-201 | action "LoadBizObjects"; the filter text goes under FilterString and Filter stays absent |
| Facade.UpdateBizObjectsEnvelope | H3YunSDK/H3YunClient.cs:220-226 | action "UpdateBizObjects"; exactly ActionName, SchemaCode, BizObjectArray, BizObjectIds |
| Facade.RemoveBizObjectsEnvelope | H3YunSDK/H3YunClient.cs:245-250 | action "RemoveBizObjects"; exactly ActionName, SchemaCode, BizObjectIds |
| Facade.GetWorkflowInfoEnvelope | H3YunSDK/H3YunClient.cs:268-272 | action "GetWorkflowInfo"; exactly ActionName, InstanceId |
| Facade.SubmitWorkflowEnvelope | H3YunSDK/H3YunClient.cs:291-298 | action "SubmitWorkflow"; ActionName, InstanceId, ApprovalAction, then Comment and UserId each exactly when present |
| Facade.CustomEnvelope | H3YunSDK/H3YunClient.cs:370-374 | the caller's method as action and the payload as CustomData, which is emitted exactly when it is not null |
| Facade.UploadUrl | H3YunSDK/H3YunClient.cs:318 | the fixed upload prefix, the schema code, "&FilePropertyName=", the property name, "&BizObjectId=" and the object id, each at its position and spliced verbatim, with nothing else |
| Facade.UploadUrlIsAmbiguous | H3YunSDK/H3YunClient.cs:318 | without escaping, moving a separator between two values gives a different request with the same URL |
| Facade.H3YunClient.Create | H3YunSDK/H3YunClient.cs:31-38 | building the client builds the adapter, so it fails exactly on invalid options and leaves the transport configured as the adapter does |
| Facade.H3YunClient.Invoke | H3YunSDK/H3YunClient.cs:60-61 | every action is posted to "/OpenApi/Invoke" with the credentials and that very envelope as its body, and returns the classified transport result unchanged |
| Facade.H3YunClient.CreateBizObject | H3YunSDK/H3YunClient.cs:46-68 | posts to "/OpenApi/Invoke" with the two credential headers and, as its body, the envelope of action "CreateBizObject" with the request's schema code, object and submit flag; its body has exactly ActionName, SchemaCode, BizObject, IsSubmit; the result is `ClassifyPost` of the outcome, returned unchanged |
| Facade.H3YunClient.CreateBizObjects | H3YunSDK/H3YunClient.cs:70-93 | posts to "/OpenApi/Invoke" with the two credential headers and, as its body, the envelope of action "CreateBizObjects" with the request's schema code, object array and submit flag; its body has exactly ActionName, SchemaCode, BizObjectArray, IsSubmit; the result is `ClassifyPost` of the outcome, returned unchanged |
| Facade.H3YunClient.LoadBizObject | H3YunSDK/H3YunClient.cs:95-117 | posts to "/OpenApi/Invoke" with the two credential headers and, as its body, the envelope of action "LoadBizObject" with the request's schema code and object id; its body has exactly ActionName, SchemaCode, BizObjectId; the result is `ClassifyPost` of the outcome, returned unchanged |
| Facade.H3YunClient.UpdateBizObject | H3YunSDK/H3YunClient.cs:119-141 | posts to "/OpenApi/Invoke" with the two credential headers and, as its body, the envelope of action "UpdateBizObject" with the request's schema code, object and submit flag; its body has exactly ActionName, SchemaCode, BizObject, IsSubmit; the result is `ClassifyPost` of the outcome, returned unchanged |
| Facade.H3YunClient.RemoveBizObject | H3YunSDK/H3YunClient.cs:143-165 | posts to "/OpenApi/Invoke" with the two credential headers and, as its body, the envelope of action "RemoveBizObject" with the request's schema code and object id; its body has exactly ActionName, SchemaCode, BizObjectId; the result is `ClassifyPost` of the outcome, returned unchanged |
| Facade.H3YunClient.ListBizObjects | H3YunSDK/H3YunClient.cs:167-188 | posts to "/OpenApi/Invoke" with the two credential headers and, as its body, the envelope of action "ListBizObjects" with the request's schema code and its filter; its body has exactly ActionName, SchemaCode, and Filter exactly when the request has one; the result is `ClassifyPost` of the outcome, returned unchanged |
| Facade.H3YunClient.LoadBizObjects | H3YunSDK/H3YunClient.cs:190-211 | posts to "/OpenApi/Invoke" with the two credential headers and, as its body, the envelope of action "LoadBizObjects" with the request's schema code and filter text under FilterString, no Filter; its body has exactly ActionName, SchemaCode, FilterString; the result is `ClassifyPost` of the outcome, returned unchanged |
| Facade.H3YunClient.UpdateBizObjects | H3YunSDK/H3YunClient.cs:213-236 | posts to "/OpenApi/Invoke" with the two credential headers and, as its body, the envelope of action "UpdateBizObjects" with the request's schema code, object array and ids; its body has exactly ActionName, SchemaCode, BizObjectArray, BizObjectIds; the result is `ClassifyPost` of the outcome, returned unchanged |
| Facade.H3YunClient.RemoveBizObjects | H3YunSDK/H3YunClient.cs:238-260 | posts to "/OpenApi/Invoke" with the two credential headers and, as its body, the envelope of action "RemoveBizObjects" with the request's schema code and ids; its body has exactly ActionName, SchemaCode, BizObjectIds; the result is `ClassifyPost` of the outcome, returned unchanged |
| Facade.H3YunClient.GetWorkflowInfo | H3YunSDK/H3YunClient.cs:262-282 | posts to "/OpenApi/Invoke" with the two credential headers and, as its body, the envelope of action "GetWorkflowInfo" with the request's instance id; its body has exactly ActionName, InstanceId; the result is `ClassifyPost` of the outcome, returned unchanged |
| Facade.H3YunClient.SubmitWorkflow | H3YunSDK/H3YunClient.cs:284-308 | posts to "/OpenApi/Invoke" with the two credential headers and, as its body, the envelope of action "SubmitWorkflow" with the request's instance id, approval action, comment and user id; its body has exactly ActionName, InstanceId, ApprovalAction, then Comment and UserId each exactly when present; the result is `ClassifyPost` of the outcome, returned unchanged |
| Facade.H3YunClient.InvokeCustomApi | H3YunSDK/H3YunClient.cs:363-378 | posts to "/OpenApi/Invoke" with the two credential headers and, as its body, the envelope of the caller's method name as action and its payload as CustomData; its body has exactly ActionName, and CustomData exactly when the payload is not null; the result is `ClassifyPost` of the outcome, returned unchanged |
| Facade.H3YunClient.UploadAttachment | H3YunSDK/H3YunClient.cs:310-328 | sends nothing exactly when the file part is refused; otherwise posts the file to the upload URL; without an exception the decoded result is wrapped as Successful with no message; exceptions, the refused part's included, pass through |
| Facade.H3YunClient.DownloadBizObjectFile | H3YunSDK/H3YunClient.cs:336-352 | posts to the fixed download URL; without an exception the file is wrapped as Successful with no message; exceptions pass through |
| Facade.H3YunClient.SameFieldsDifferentActions | H3YunSDK/H3YunClient.cs:52-155 | create and update, and load and remove, send different messages for the same field values, since their action names differ |
| Facade.H3YunClient.DefaultUploadNeverSends | H3YunSDK/Http/H3YunHttpClient.cs:169-170 | an upload request left at its defaults sends nothing and always fails with the wrapped `ArgumentException` |
| Facade.H3YunClient.RejectedUploadReportsSuccess | H3YunSDK/H3YunClient.cs:323-327 | an upload the platform rejects in a 2xx body still comes back as a successful response |
| Facade.H3YunClient.BusinessFailureIsReturned | H3YunSDK/Http/H3YunHttpClient.cs:94-100 | a business failure in a 2xx body is returned as data, with its message, not thrown |
| Examples.ExtractObjectIds | UpdateAndRemoveBizObjectsExample.cs:212-217 | never longer than the input, and every id in it is non-empty |
| Examples.ExtractObjectIdsAppend | UpdateAndRemoveBizObjectsExample.cs:212-217 | extraction distributes over concatenation, so ids keep the objects' order |
| Examples.ExtractObjectIdsMembers | UpdateAndRemoveBizObjectsExample.cs:212-217 | an id is in the result exactly when some object has it as a non-empty id |
| Examples.ExtractObjectIdsAllPresent | UpdateAndRemoveBizObjectsExample.cs:212-217 | when every object has an id, the result lists each object's id in order, dropping none |
| Examples.ReturnedIds | UpdateAndRemoveBizObjectsExample.cs:58-74 | there are ids exactly when the response is successful and carries data with non-null ids, and they are those ids |
| Examples.CaughtIds | UpdateAndRemoveBizObjectsExample.cs:161-194 | a call that threw yields no ids; otherwise the ids are selected as above |
| Examples.Serialized | UpdateAndRemoveBizObjectsExample.cs:33-45 | one JSON text per row, in order |
| Examples.UpdateBizObjectsExample | UpdateAndRemoveBizObjectsExample.cs:28-81 | sends the schema code, the two fixed rows and the given ids unchanged; rethrows an exception as it is; otherwise returns the selected ids |
| Examples.RemoveBizObjectsExample | UpdateAndRemoveBizObjectsExample.cs:89-126 | sends the schema code and the ids unchanged; rethrows an exception as it is; otherwise returns the selected ids |
| Examples.CompleteWorkflowExample | UpdateAndRemoveBizObjectsExample.cs:133-195 | always creates first; stops with false, making no other call, when the create threw or yielded no ids; otherwise updates with exactly the created ids, and removes with those same ids only when the update yielded ids; returns true exactly when all three yielded ids |

## Left out

- The network exchange itself: sending, reading bodies, multipart framing, connection handling. It is abstracted as a transport outcome value and a decoder verdict.
- JSON serialisation and deserialisation are the libraries' job. The envelope is modelled by its emitted keys only, not by the text of its values. Value escaping, number handling and the way `BizObject` flattens its system fields with its form fields are not modelled.
- The `CreatedTime` and `ModifiedTime` fields of `BizObject` are left out; they depend on the clock and on date formats.
- `new Uri(BaseUrl)` is not modelled: the base address is stored as the configured string, with no URI parsing and no failure on a malformed URL. `TimeSpan.FromSeconds` and `HttpClient.Timeout` are not modelled either, so the timeout is stored as the number of seconds, with no upper-bound check.
- `HttpHeaders.Add` is not modelled, so header values are not validated. The `HttpStatusCode` text of a status is an input, `HttpStatus.name`, and is not derived from the code.
- The parsing of the Content-Disposition header into its `FileName` is the library's job; the model starts from the parsed value.
- Http.H3YunHttpClient.DownloadFileAsync: it models `Activator.CreateInstance<TResponse>()` for the one response type it fills, `DownloadBizObjectFileResponse`. Other response types, which would come back default-constructed, are not modelled. The response is built by value updates rather than by assigning the fields of an allocated object.
- Http.UploadResult: only the empty content type and the null-or-white-space file name are recognised as refused before sending. A non-empty content type that `MediaTypeHeaderValue`'s grammar rejects raises a `FormatException` at H3YunSDK/Http/H3YunHttpClient.cs:169; that grammar is not modelled, so such a content type is treated as accepted. The framework's exception text is an input, `argumentMessage`.
- BizObjectModels.ParseCompareType and BizObjectModels.ParseMatchType are the inverse of the serialised-name table, not Newtonsoft's `StringEnumConverter`: the converter's case-insensitive matching and its acceptance of integer text are not modelled.
- Envelope.Encode: the key order is the order in which Newtonsoft's reflection lists the properties, which follows their declaration. This is the library's observed behaviour, not a promise of the SDK.
- The options are held by reference in the source (H3YunSDK/Http/H3YunHttpClient.cs:36), and EngineCode and EngineSecret are read again on every request, so a change made after construction is sent without being validated again. The model's `options` is a constant snapshot of the validated value, so it does not capture that aliasing.
- Null values of properties declared non-nullable are not modelled: the request records' strings and arrays, and `UploadAttachmentRequest.FileBytes`, always hold a value. In the source a null `SchemaCode`, `BizObjectArray` or `BizObjectIds` (H3YunSDK/H3YunClient.cs:218 and :243 guard against it) would drop that key from the JSON body, and a null `FileBytes` would throw before an upload is sent.
- The multipart boundary and the header bytes built at H3YunSDK/Http/H3YunHttpClient.cs:149-165 are never used, so they are left out.
- Logging everywhere is left out, including the `foreach` loops in the example helpers, which only log each id.
- Asynchrony and cancellation tokens are left out. Cancellation appears only as the kind of exception the transport throws.
- The workflow response shapes are data with no behaviour, so the workflow actions are generic in their response type.
- Dependency-injection registration, the interface declaration, the other usage samples and `ConvertBizObjectsToJsonArray` are left out: they are wiring, signatures, samples and a library call. The unused `FilterOperators` constants are left out too.
