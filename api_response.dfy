/** The platform's response envelope, `ApiResponse` and `ApiResponse<T>`. */
module Responses {
  import opened Wrappers

  /** The non-generic `ApiResponse`: the success flag and an optional error
      message. A business-level failure is carried here as data. */
  datatype ApiResponseBase = ApiResponseBase(successful: bool, errorMessage: Option<string>)
  {
    /** `IsSuccess()`. */
    function IsSuccess(): (b: bool)
      ensures b <==> successful
    {
      successful
    }
  }

  /** `ApiResponse<T>`: the inherited fields, in `base`, plus `ReturnData`.
      The three fields are independent of each other. */
  datatype ApiResponse<T> = ApiResponse(base: ApiResponseBase, returnData: Option<T>)
  {
    /** The inherited `IsSuccess()`. */
    function IsSuccess(): (b: bool)
      ensures b <==> base.successful
    {
      base.IsSuccess()
    }
  }

  /** `new ApiResponse()`: not successful, no error message. */
  function DefaultBase(): ApiResponseBase
  {
    ApiResponseBase(false, None)
  }

  /** `new ApiResponse<T>()`: as the base, and no return data. */
  function Default<T>(): ApiResponse<T>
  {
    ApiResponse(DefaultBase(), None)
  }

  /** A default response reports failure and carries neither message nor data. */
  lemma DefaultIsNotSuccess<T>()
    ensures !DefaultBase().IsSuccess() && DefaultBase().errorMessage.None?
    ensures !Default<T>().IsSuccess() && Default<T>().base == DefaultBase() && Default<T>().returnData.None?
  {
  }

  /** The three fields are independent: every combination is a response,
      success together with an error message included, and `IsSuccess`
      looks at the flag alone. */
  lemma FieldsIndependent<T>(successful: bool, errorMessage: Option<string>, returnData: Option<T>)
    ensures var r := ApiResponse(ApiResponseBase(successful, errorMessage), returnData);
      r.IsSuccess() == successful && r.base.errorMessage == errorMessage && r.returnData == returnData
  {
  }
}
