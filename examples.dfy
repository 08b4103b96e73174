/** The batch update and remove sample, which drives the client through its
    interface: a create, update and remove sequence, the two single-step
    helpers it calls, and the id extraction helper. Each client operation
    is a parameter standing for the interface method, returning the
    response or the exception it throws; JSON serialisation is the
    serialiser's and is a parameter too. */
module Examples {
  import opened Wrappers
  import opened Exceptions
  import opened Responses
  import opened BizObjectModels

  /** What an interface call comes to: the response, or the exception thrown. */
  type Reply<T> = Result<ApiResponse<T>, H3YunException>

  // ----- Id extraction -----

  /** `!string.IsNullOrEmpty(obj.ObjectId)`. */
  predicate HasObjectId(o: BizObject)
  {
    o.objectId.Some? && o.objectId.value != ""
  }

  /** `ExtractObjectIds`: the ids of the objects that have one, in order. */
  function ExtractObjectIds(objs: seq<BizObject>): (ids: seq<string>)
    ensures |ids| <= |objs|
    ensures forall i :: 0 <= i < |ids| ==> ids[i] != ""
  {
    if objs == [] then []
    else (if HasObjectId(objs[0]) then [objs[0].objectId.value] else []) + ExtractObjectIds(objs[1..])
  }

  /** Extraction works element by element: it distributes over concatenation,
      so the ids come out in the objects' order. */
  lemma {:induction false} ExtractObjectIdsAppend(a: seq<BizObject>, b: seq<BizObject>)
    ensures ExtractObjectIds(a + b) == ExtractObjectIds(a) + ExtractObjectIds(b)
  {
    if a == [] {
      assert a + b == b;
    } else {
      assert (a + b)[1..] == a[1..] + b;
      ExtractObjectIdsAppend(a[1..], b);
    }
  }

  /** An id is extracted exactly when some object carries it, non-empty. */
  lemma {:induction false} ExtractObjectIdsMembers(objs: seq<BizObject>, id: string)
    ensures id in ExtractObjectIds(objs) <==>
      exists i :: 0 <= i < |objs| && HasObjectId(objs[i]) && objs[i].objectId.value == id
  {
    if objs != [] {
      ExtractObjectIdsMembers(objs[1..], id);
      if id in ExtractObjectIds(objs) && !(HasObjectId(objs[0]) && objs[0].objectId.value == id) {
        var i :| 0 <= i < |objs[1..]| && HasObjectId(objs[1..][i]) && objs[1..][i].objectId.value == id;
        assert objs[i + 1] == objs[1..][i];
      }
      if exists i :: 0 <= i < |objs| && HasObjectId(objs[i]) && objs[i].objectId.value == id {
        var i :| 0 <= i < |objs| && HasObjectId(objs[i]) && objs[i].objectId.value == id;
        if i > 0 {
          assert objs[1..][i - 1] == objs[i];
        }
      }
    }
  }

  /** When every object has an id, nothing is dropped: the i-th id is the
      i-th object's. */
  lemma {:induction false} ExtractObjectIdsAllPresent(objs: seq<BizObject>)
    requires forall i :: 0 <= i < |objs| ==> HasObjectId(objs[i])
    ensures |ExtractObjectIds(objs)| == |objs|
    ensures forall i :: 0 <= i < |objs| ==> Some(ExtractObjectIds(objs)[i]) == objs[i].objectId
  {
    if objs != [] {
      ExtractObjectIdsAllPresent(objs[1..]);
      var ids := ExtractObjectIds(objs);
      assert ids == [objs[0].objectId.value] + ExtractObjectIds(objs[1..]);
      forall i | 0 <= i < |objs| ensures Some(ids[i]) == objs[i].objectId {
        if i > 0 {
          assert objs[1..][i - 1] == objs[i];
        }
      }
    }
  }

  // ----- Result selection -----

  /** `response.Successful && response.ReturnData?.ObjectIds != null`
      selects the ids; otherwise there are none. */
  function ReturnedIds<T>(response: ApiResponse<T>, objectIds: T -> Option<seq<string>>): (ids: Option<seq<string>>)
    ensures ids.Some? <==>
      response.base.successful && response.returnData.Some? && objectIds(response.returnData.value).Some?
    ensures ids.Some? ==> ids == objectIds(response.returnData.value)
  {
    if response.base.successful && response.returnData.Some? then objectIds(response.returnData.value)
    else None
  }

  /** The ids a call yields once any exception is caught: none when it threw. */
  function CaughtIds<T>(reply: Reply<T>, objectIds: T -> Option<seq<string>>): (ids: Option<seq<string>>)
    ensures reply.Failure? ==> ids.None?
    ensures reply.Success? ==> ids == ReturnedIds(reply.value, objectIds)
  {
    match reply
    case Success(response) => ReturnedIds(response, objectIds)
    case Failure(_) => None
  }

  function CreatedIdsOf(d: CreateBizObjectsResponse): Option<seq<string>> { d.objectIds }
  function UpdatedIdsOf(d: UpdateBizObjectsResponse): Option<seq<string>> { d.objectIds }
  function RemovedIdsOf(d: RemoveBizObjectsResponse): Option<seq<string>> { d.objectIds }

  // ----- The sample's fixed rows -----

  /** The two rows the update sends, before serialisation. */
  const UpdateRows: seq<Json> := [
    JObject([("F0000002", JString("更新后的数据1")), ("F0000009", JString("03ea2021-f7d5-4001-b996-7115e63f4319"))]),
    JObject([("F0000002", JString("更新后的数据2")), ("F0000009", JString("6d1af175-a49d-48ad-bc3e-52aa35bb34df"))])
  ]

  const SampleUser: string := "f3f69a49-edf6-468d-9aee-8cbc82a46662"

  /** The two rows the create sends, before serialisation. */
  const CreateRows: seq<Json> := [
    JObject([("CreatedBy", JString(SampleUser)), ("OwnerId", JString(SampleUser)),
             ("F0000002", JString("初始数据1")), ("F0000009", JString("03ea2021-f7d5-4001-b996-7115e63f4319"))]),
    JObject([("CreatedBy", JString(SampleUser)), ("OwnerId", JString(SampleUser)),
             ("F0000002", JString("初始数据2")), ("F0000009", JString("6d1af175-a49d-48ad-bc3e-52aa35bb34df"))])
  ]

  /** The rows as JSON texts, in order. */
  function Serialized(rows: seq<Json>, serialize: Json -> string): (texts: seq<string>)
    ensures |texts| == |rows|
    ensures forall i :: 0 <= i < |rows| ==> texts[i] == serialize(rows[i])
  {
    seq(|rows|, i requires 0 <= i < |rows| => serialize(rows[i]))
  }

  /** The create request of the full sequence. */
  function CreateRequest(schemaCode: string, serialize: Json -> string): CreateBizObjectsRequest
  {
    CreateBizObjectsRequest(schemaCode, Serialized(CreateRows, serialize), false)
  }

  /** The update request for the given ids. */
  function UpdateRequest(schemaCode: string, objectIds: seq<string>, serialize: Json -> string): UpdateBizObjectsRequest
  {
    UpdateBizObjectsRequest(schemaCode, Serialized(UpdateRows, serialize), objectIds)
  }

  // ----- The single-step helpers -----

  /** `UpdateBizObjectsExampleAsync`: sends the fixed rows for the given ids
      unchanged; an exception is rethrown as it is, and otherwise the
      returned ids are selected. */
  method UpdateBizObjectsExample(schemaCode: string, objectIds: seq<string>, serialize: Json -> string,
                                 updateBizObjects: UpdateBizObjectsRequest -> Reply<UpdateBizObjectsResponse>)
    returns (sent: UpdateBizObjectsRequest, r: Result<Option<seq<string>>, H3YunException>)
    ensures sent.schemaCode == schemaCode && sent.bizObjectIds == objectIds
    ensures sent.bizObjectArray == Serialized(UpdateRows, serialize)
    ensures updateBizObjects(sent).Failure? ==> r == Failure(updateBizObjects(sent).error)
    ensures updateBizObjects(sent).Success? ==>
      r == Success(ReturnedIds(updateBizObjects(sent).value, UpdatedIdsOf))
  {
    var rows := [serialize(UpdateRows[0]), serialize(UpdateRows[1])];
    sent := UpdateBizObjectsRequest(schemaCode, rows, objectIds);
    var response := updateBizObjects(sent);
    if response.Failure? {
      return sent, Failure(response.error);
    }
    var data := response.value.returnData;
    if response.value.base.successful && data.Some? && data.value.objectIds.Some? {
      return sent, Success(Some(data.value.objectIds.value));
    }
    return sent, Success(None);
  }

  /** `RemoveBizObjectsExampleAsync`: sends the given ids unchanged; an
      exception is rethrown as it is, and otherwise the returned ids are
      selected. */
  method RemoveBizObjectsExample(schemaCode: string, objectIds: seq<string>,
                                 removeBizObjects: RemoveBizObjectsRequest -> Reply<RemoveBizObjectsResponse>)
    returns (sent: RemoveBizObjectsRequest, r: Result<Option<seq<string>>, H3YunException>)
    ensures sent.schemaCode == schemaCode && sent.bizObjectIds == objectIds
    ensures removeBizObjects(sent).Failure? ==> r == Failure(removeBizObjects(sent).error)
    ensures removeBizObjects(sent).Success? ==>
      r == Success(ReturnedIds(removeBizObjects(sent).value, RemovedIdsOf))
  {
    sent := RemoveBizObjectsRequest(schemaCode, objectIds);
    var response := removeBizObjects(sent);
    if response.Failure? {
      return sent, Failure(response.error);
    }
    var data := response.value.returnData;
    if response.value.base.successful && data.Some? && data.value.objectIds.Some? {
      return sent, Success(Some(data.value.objectIds.value));
    }
    return sent, Success(None);
  }

  // ----- The full sequence -----

  /** A call the full sequence makes, with its request. */
  datatype Call =
    | CreateCall(create: CreateBizObjectsRequest)
    | UpdateCall(update: UpdateBizObjectsRequest)
    | RemoveCall(remove: RemoveBizObjectsRequest)

  /** `CompleteWorkflowExampleAsync`: create, then update, then remove, each
      step only when the previous one yielded ids, with the created ids
      passed to both later steps; any exception ends it with false. */
  method CompleteWorkflowExample(schemaCode: string, serialize: Json -> string,
                                 createBizObjects: CreateBizObjectsRequest -> Reply<CreateBizObjectsResponse>,
                                 updateBizObjects: UpdateBizObjectsRequest -> Reply<UpdateBizObjectsResponse>,
                                 removeBizObjects: RemoveBizObjectsRequest -> Reply<RemoveBizObjectsResponse>)
    returns (ok: bool, calls: seq<Call>)
    ensures 1 <= |calls| <= 3 && calls[0] == CreateCall(CreateRequest(schemaCode, serialize))
    // a failed or throwing create ends the sequence before any other call
    ensures |calls| == 1 <==> CaughtIds(createBizObjects(calls[0].create), CreatedIdsOf).None?
    ensures |calls| >= 2 ==>
      var ids := CaughtIds(createBizObjects(calls[0].create), CreatedIdsOf).value;
      calls[1] == UpdateCall(UpdateRequest(schemaCode, ids, serialize))
    ensures |calls| >= 2 ==>
      (|calls| == 3 <==> CaughtIds(updateBizObjects(calls[1].update), UpdatedIdsOf).Some?)
    // the remove gets the very ids the update got
    ensures |calls| == 3 ==>
      calls[2] == RemoveCall(RemoveBizObjectsRequest(schemaCode, calls[1].update.bizObjectIds))
    ensures ok <==> |calls| == 3 && CaughtIds(removeBizObjects(calls[2].remove), RemovedIdsOf).Some?
  {
    var createRequest := CreateBizObjectsRequest(schemaCode, [serialize(CreateRows[0]), serialize(CreateRows[1])], false);
    calls := [CreateCall(createRequest)];
    var createResponse := createBizObjects(createRequest);
    if createResponse.Failure? {
      return false, calls;
    }
    var data := createResponse.value.returnData;
    if !createResponse.value.base.successful || data.None? || data.value.objectIds.None? {
      return false, calls;
    }
    var objectIds := data.value.objectIds.value;

    var updateSent, updateResult := UpdateBizObjectsExample(schemaCode, objectIds, serialize, updateBizObjects);
    calls := calls + [UpdateCall(updateSent)];
    if updateResult.Failure? || updateResult.value.None? {
      return false, calls;
    }

    var removeSent, removeResult := RemoveBizObjectsExample(schemaCode, objectIds, removeBizObjects);
    calls := calls + [RemoveCall(removeSent)];
    if removeResult.Failure? || removeResult.value.None? {
      return false, calls;
    }
    return true, calls;
  }
}
