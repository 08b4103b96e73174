/** The typed request and response shapes of the business-object actions,
    the query model (`Filter`, `SortBy`, `Matcher`, `ItemMatcher`) and its
    two enumerations with their wire names. */
module BizObjectModels {
  import opened Wrappers
  import opened Configuration

  /** A byte of a file. */
  newtype byte = x: int | 0 <= x < 256

  /** A JSON-representable value, standing for a C# `object` payload. */
  datatype Json =
    | JNull
    | JBool(b: bool)
    | JNumber(n: int)
    | JString(s: string)
    | JArray(items: seq<Json>)
    | JObject(members: seq<(string, Json)>)

  // ----- Enumerations and their wire names -----

  /** `CompareType`: the ten comparison operators of an `ItemMatcher`. */
  datatype CompareType =
    | Equal | NotEqual | GreaterThan | GreaterThanOrEqual | LessThan
    | LessThanOrEqual | Contains | NotContains | In | NotIn

  /** `MatchType`: how a `Matcher` combines its conditions. */
  datatype MatchType = And | Or

  /** The wire name of a `CompareType`: its `EnumMember` value, which is
      the case's own name. */
  function CompareTypeName(c: CompareType): string
  {
    match c
    case Equal => "Equal"
    case NotEqual => "NotEqual"
    case GreaterThan => "GreaterThan"
    case GreaterThanOrEqual => "GreaterThanOrEqual"
    case LessThan => "LessThan"
    case LessThanOrEqual => "LessThanOrEqual"
    case Contains => "Contains"
    case NotContains => "NotContains"
    case In => "In"
    case NotIn => "NotIn"
  }

  /** Reading a wire name back: the case with that name, if any. */
  function ParseCompareType(s: string): (r: Option<CompareType>)
    ensures r.Some? ==> CompareTypeName(r.value) == s
  {
    if s == "Equal" then Some(Equal)
    else if s == "NotEqual" then Some(NotEqual)
    else if s == "GreaterThan" then Some(GreaterThan)
    else if s == "GreaterThanOrEqual" then Some(GreaterThanOrEqual)
    else if s == "LessThan" then Some(LessThan)
    else if s == "LessThanOrEqual" then Some(LessThanOrEqual)
    else if s == "Contains" then Some(Contains)
    else if s == "NotContains" then Some(NotContains)
    else if s == "In" then Some(In)
    else if s == "NotIn" then Some(NotIn)
    else None
  }

  /** The wire name of a `MatchType`. */
  function MatchTypeName(m: MatchType): string
  {
    match m
    case And => "And"
    case Or => "Or"
  }

  /** Reading a `MatchType` wire name back. */
  function ParseMatchType(s: string): (r: Option<MatchType>)
    ensures r.Some? ==> MatchTypeName(r.value) == s
  {
    if s == "And" then Some(And) else if s == "Or" then Some(Or) else None
  }

  /** Decoding an encoded `CompareType` gives it back, so the name table is
      injective; and a string decodes exactly when it is some case's name. */
  lemma CompareTypeRoundTrip(c: CompareType, d: CompareType, s: string)
    ensures ParseCompareType(CompareTypeName(c)) == Some(c)
    ensures CompareTypeName(c) == CompareTypeName(d) ==> c == d
    ensures ParseCompareType(s).Some? <==> s in CompareTypeNames
  {
  }

  /** The ten wire names of `CompareType`. */
  const CompareTypeNames: set<string> :=
    {"Equal", "NotEqual", "GreaterThan", "GreaterThanOrEqual", "LessThan",
     "LessThanOrEqual", "Contains", "NotContains", "In", "NotIn"}

  /** There are exactly ten comparison operators, one per wire name. */
  lemma CompareTypeHasTenCases()
    ensures |CompareTypeNames| == 10
    ensures forall c: CompareType :: CompareTypeName(c) in CompareTypeNames
  {
    assert CompareTypeNames
      == {"Equal", "NotEqual", "GreaterThan", "GreaterThanOrEqual", "LessThan"}
       + {"LessThanOrEqual", "Contains", "NotContains", "In", "NotIn"};
  }

  /** The same round trip for `MatchType`. */
  lemma MatchTypeRoundTrip(m: MatchType, n: MatchType, s: string)
    ensures ParseMatchType(MatchTypeName(m)) == Some(m)
    ensures MatchTypeName(m) == MatchTypeName(n) ==> m == n
    ensures ParseMatchType(s).Some? <==> s == "And" || s == "Or"
  {
  }

  // ----- Common shapes -----

  /** `UserObject` and `DepartmentObject`: an id and a display name. */
  datatype UserObject = UserObject(objectId: Option<string>, name: Option<string>)
  datatype DepartmentObject = DepartmentObject(objectId: Option<string>, name: Option<string>)

  /** A business record: its system fields and the open map of form fields
      (the `Dictionary<string, object>` it extends). The two timestamps are
      not part of this model. */
  datatype BizObject = BizObject(
    objectId: Option<string>,
    name: Option<string>,
    createdBy: Option<string>,
    ownerId: Option<string>,
    ownerDeptId: Option<string>,
    modifiedBy: Option<string>,
    workflowInstanceId: Option<string>,
    status: int32,
    seqNo: Option<string>,
    modifiedByObject: Option<UserObject>,
    createdByObject: Option<UserObject>,
    ownerIdObject: Option<UserObject>,
    ownerDeptIdObject: Option<DepartmentObject>,
    singleUserObject: Option<UserObject>,
    multiUserObject: Option<seq<UserObject>>,
    singleDepartmentObject: Option<DepartmentObject>,
    multiDepartmentObject: Option<seq<DepartmentObject>>,
    association: Option<string>,
    associationArray: Option<seq<string>>,
    autograph: Option<seq<string>>,
    fields: map<string, Json>)

  /** `new BizObject()`: every system field absent, status 0, no form fields. */
  function EmptyBizObject(): BizObject
  {
    BizObject(None, None, None, None, None, None, None, 0, None, None, None, None, None,
              None, None, None, None, None, None, None, map[])
  }

  // ----- The query model -----

  /** `SortBy`: a field and a free-text direction, stored verbatim. */
  datatype SortBy = SortBy(field: string, direction: string)

  /** `ItemMatcher`: one condition on one field. */
  datatype ItemMatcher = ItemMatcher(field: Option<string>, compareType: CompareType, value: Option<Json>)

  /** `Matcher`: a flat list of conditions combined by one `MatchType`;
      conditions do not nest. */
  datatype Matcher = Matcher(matchType: MatchType, conditions: Option<seq<ItemMatcher>>)

  /** `Filter`: a page of rows, with optional projection, order and condition. */
  datatype Filter = Filter(
    fromRowNum: int32,
    toRowNum: int32,
    requireCount: bool,
    returnItems: Option<seq<string>>,
    sortByCollection: Option<seq<SortBy>>,
    matcher: Option<Matcher>)

  /** `new SortBy()`. */
  function DefaultSortBy(): SortBy { SortBy("", "Ascending") }

  /** `new ItemMatcher()`. */
  function DefaultItemMatcher(): ItemMatcher { ItemMatcher(None, Equal, None) }

  /** `new Matcher()`. */
  function DefaultMatcher(): Matcher { Matcher(And, None) }

  /** `new Filter()`: rows 0 to 100, with a count, nothing else. */
  function DefaultFilter(): Filter { Filter(0, 100, true, None, None, None) }

  // ----- Requests and responses of the business-object actions -----

  datatype CreateBizObjectRequest = CreateBizObjectRequest(schemaCode: string, bizObject: BizObject, isSubmit: bool)
  datatype CreateBizObjectResponse = CreateBizObjectResponse(objectId: Option<string>, workflowInstanceId: Option<string>)

  datatype LoadBizObjectRequest = LoadBizObjectRequest(schemaCode: string, bizObjectId: string)
  /** `LoadBizObjectResponse` is a `BizObject`. */
  type LoadBizObjectResponse = BizObject

  datatype UpdateBizObjectRequest = UpdateBizObjectRequest(schemaCode: string, bizObject: BizObject, isSubmit: bool)
  datatype UpdateBizObjectResponse = UpdateBizObjectResponse(objectId: Option<string>, workflowInstanceId: Option<string>)

  datatype RemoveBizObjectRequest = RemoveBizObjectRequest(schemaCode: string, bizObjectId: string)
  datatype RemoveBizObjectResponse = RemoveBizObjectResponse(objectId: Option<string>)

  datatype ListBizObjectsRequest = ListBizObjectsRequest(schemaCode: string, filter: Option<Filter>)
  datatype ListBizObjectsResponse = ListBizObjectsResponse(bizObjects: Option<seq<BizObject>>, totalCount: int32)

  datatype CreateBizObjectsRequest = CreateBizObjectsRequest(schemaCode: string, bizObjectArray: seq<string>, isSubmit: bool)
  datatype CreateBizObjectsResponse = CreateBizObjectsResponse(objectIds: Option<seq<string>>, workflowInstanceIds: Option<seq<string>>)

  /** `LoadBizObjectsRequest`: its filter is a string, not a `Filter`. */
  datatype LoadBizObjectsRequest = LoadBizObjectsRequest(schemaCode: string, filter: string)
  datatype LoadBizObjectsResponse = LoadBizObjectsResponse(bizObjectArray: Option<seq<BizObject>>, totalCount: int32)

  datatype UpdateBizObjectsRequest = UpdateBizObjectsRequest(schemaCode: string, bizObjectArray: seq<string>, bizObjectIds: seq<string>)
  datatype UpdateBizObjectsResponse = UpdateBizObjectsResponse(objectIds: Option<seq<string>>)

  datatype RemoveBizObjectsRequest = RemoveBizObjectsRequest(schemaCode: string, bizObjectIds: seq<string>)
  datatype RemoveBizObjectsResponse = RemoveBizObjectsResponse(objectIds: Option<seq<string>>)

  datatype UploadAttachmentRequest = UploadAttachmentRequest(
    schemaCode: string, filePropertyName: string, bizObjectId: string,
    fileBytes: seq<byte>, fileName: string, contentType: string)
  datatype UploadAttachmentResponse = UploadAttachmentResponse(success: bool, attachmentId: Option<string>, errorMessage: Option<string>)

  datatype DownloadBizObjectFileRequest = DownloadBizObjectFileRequest(attachmentId: string)
  datatype DownloadBizObjectFileResponse = DownloadBizObjectFileResponse(fileBytes: seq<byte>, fileName: string, contentType: string)

  /** The two workflow requests (their response shapes are not part of
      this model). */
  datatype GetWorkflowInfoRequest = GetWorkflowInfoRequest(instanceId: string)
  datatype SubmitWorkflowRequest = SubmitWorkflowRequest(
    instanceId: string, approvalAction: string, comment: Option<string>, userId: Option<string>)

  // ----- Request defaults -----

  function DefaultCreateBizObjectRequest(): CreateBizObjectRequest { CreateBizObjectRequest("", EmptyBizObject(), false) }
  function DefaultUpdateBizObjectRequest(): UpdateBizObjectRequest { UpdateBizObjectRequest("", EmptyBizObject(), false) }
  function DefaultCreateBizObjectsRequest(): CreateBizObjectsRequest { CreateBizObjectsRequest("", [], false) }
  function DefaultUpdateBizObjectsRequest(): UpdateBizObjectsRequest { UpdateBizObjectsRequest("", [], []) }
  function DefaultRemoveBizObjectsRequest(): RemoveBizObjectsRequest { RemoveBizObjectsRequest("", []) }
  function DefaultUploadAttachmentRequest(): UploadAttachmentRequest { UploadAttachmentRequest("", "", "", [], "", "") }
  function DefaultDownloadBizObjectFileResponse(): DownloadBizObjectFileResponse { DownloadBizObjectFileResponse([], "", "") }

  /** The query model's defaults: a filter asks for rows 0 to 100 with a
      count and nothing else, a matcher is an And with no conditions, a
      condition compares nothing for equality, and a sort is ascending. */
  lemma QueryModelDefaults()
    ensures DefaultFilter().fromRowNum == 0 && DefaultFilter().toRowNum == 100 && DefaultFilter().requireCount
    ensures DefaultFilter().returnItems.None? && DefaultFilter().sortByCollection.None? && DefaultFilter().matcher.None?
    ensures DefaultMatcher().matchType == And && DefaultMatcher().conditions.None?
    ensures DefaultItemMatcher().field.None? && DefaultItemMatcher().compareType == Equal
    ensures DefaultItemMatcher().value.None?
    ensures DefaultSortBy().field == "" && DefaultSortBy().direction == "Ascending"
  {
  }

  /** The request defaults: empty schema codes, an empty object, no submit,
      and empty, never absent, batch arrays. */
  lemma RequestDefaults()
    ensures DefaultCreateBizObjectRequest().schemaCode == "" && !DefaultCreateBizObjectRequest().isSubmit
    ensures DefaultCreateBizObjectRequest().bizObject.fields == map[]
    ensures DefaultUpdateBizObjectRequest().schemaCode == "" && !DefaultUpdateBizObjectRequest().isSubmit
    ensures DefaultUpdateBizObjectRequest().bizObject.fields == map[]
    ensures DefaultCreateBizObjectsRequest().bizObjectArray == []
    ensures DefaultUpdateBizObjectsRequest().bizObjectArray == [] && DefaultUpdateBizObjectsRequest().bizObjectIds == []
    ensures DefaultRemoveBizObjectsRequest().bizObjectIds == []
    ensures var u := DefaultUploadAttachmentRequest();
      u.schemaCode == "" && u.filePropertyName == "" && u.bizObjectId == "" && u.fileBytes == []
      && u.fileName == "" && u.contentType == ""
  {
  }
}
