/** The SDK's configuration options (`H3YunOptions`) and their validation. */
module Configuration {
  import opened Wrappers

  /** A C# `int`. */
  newtype int32 = x: int | -0x8000_0000 <= x < 0x8000_0000

  const DefaultBaseUrl: string := "https://www.h3yun.com"
  const DefaultTimeoutSeconds: int32 := 60

  /** The four settable options. The string properties are declared as
      non-nullable strings, but validation treats a null value explicitly,
      so they are modelled as optional. */
  datatype H3YunOptions = H3YunOptions(
    baseUrl: Option<string>,
    engineCode: Option<string>,
    engineSecret: Option<string>,
    timeoutSeconds: int32)

  /** The options as a freshly constructed `H3YunOptions` holds them. */
  function Defaults(): (o: H3YunOptions)
    ensures o.baseUrl == Some("https://www.h3yun.com") && o.engineCode == Some("") && o.engineSecret == Some("")
    ensures o.timeoutSeconds == 60
  {
    H3YunOptions(Some(DefaultBaseUrl), Some(""), Some(""), DefaultTimeoutSeconds)
  }

  /** An `ArgumentException`: its message and the name of the offending parameter. */
  datatype ArgumentError = ArgumentError(message: string, paramName: string)

  /** `char.IsWhiteSpace`: the Unicode space, line and paragraph separators,
      the control characters U+0009 to U+000D, and U+0085 and U+00A0. */
  predicate IsWhiteSpace(c: char)
  {
    || ('\t' <= c <= '\r')
    || c == ' ' || c == '\U{0085}' || c == '\U{00A0}' || c == '\U{1680}'
    || ('\U{2000}' <= c <= '\U{200A}')
    || c == '\U{2028}' || c == '\U{2029}' || c == '\U{202F}' || c == '\U{205F}' || c == '\U{3000}'
  }

  /** `string.IsNullOrWhiteSpace`. */
  predicate IsNullOrWhiteSpace(s: Option<string>)
  {
    s.None? || forall i :: 0 <= i < |s.value| ==> IsWhiteSpace(s.value[i])
  }

  /** What a valid configuration is: every string option present with some
      non-white-space character, and a positive timeout. */
  ghost predicate WellFormed(o: H3YunOptions)
  {
    && o.baseUrl.Some? && (exists i :: 0 <= i < |o.baseUrl.value| && !IsWhiteSpace(o.baseUrl.value[i]))
    && o.engineCode.Some? && (exists i :: 0 <= i < |o.engineCode.value| && !IsWhiteSpace(o.engineCode.value[i]))
    && o.engineSecret.Some? && (exists i :: 0 <= i < |o.engineSecret.value| && !IsWhiteSpace(o.engineSecret.value[i]))
    && o.timeoutSeconds >= 1
  }

  const BaseUrlMissing := ArgumentError("BaseUrl不能为空", "BaseUrl")
  const EngineCodeMissing := ArgumentError("EngineCode不能为空", "EngineCode")
  const EngineSecretMissing := ArgumentError("EngineSecret不能为空", "EngineSecret")
  const TimeoutNotPositive := ArgumentError("TimeoutSeconds必须大于0", "TimeoutSeconds")

  /** `Validate()`: four guards in the fixed order BaseUrl, EngineCode,
      EngineSecret, TimeoutSeconds; the first one that fails is reported.
      It only reads the options. */
  function Validate(o: H3YunOptions): (r: Outcome<ArgumentError>)
    ensures r.Pass? <==> WellFormed(o)
    ensures r == Fail(BaseUrlMissing) <==> IsNullOrWhiteSpace(o.baseUrl)
    ensures r == Fail(EngineCodeMissing) <==>
      !IsNullOrWhiteSpace(o.baseUrl) && IsNullOrWhiteSpace(o.engineCode)
    ensures r == Fail(EngineSecretMissing) <==>
      !IsNullOrWhiteSpace(o.baseUrl) && !IsNullOrWhiteSpace(o.engineCode) && IsNullOrWhiteSpace(o.engineSecret)
    ensures r == Fail(TimeoutNotPositive) <==>
      !IsNullOrWhiteSpace(o.baseUrl) && !IsNullOrWhiteSpace(o.engineCode) && !IsNullOrWhiteSpace(o.engineSecret)
      && o.timeoutSeconds <= 0
    ensures r.Fail? ==> r.error in {BaseUrlMissing, EngineCodeMissing, EngineSecretMissing, TimeoutNotPositive}
  {
    if IsNullOrWhiteSpace(o.baseUrl) then Fail(BaseUrlMissing)
    else if IsNullOrWhiteSpace(o.engineCode) then Fail(EngineCodeMissing)
    else if IsNullOrWhiteSpace(o.engineSecret) then Fail(EngineSecretMissing)
    else if o.timeoutSeconds <= 0 then Fail(TimeoutNotPositive)
    else Pass
  }

  /** Default-constructed options fail, and on EngineCode: the base URL has
      a usable default, the engine code defaults to the empty string. */
  lemma DefaultsFailOnEngineCode()
    ensures Validate(Defaults()) == Fail(EngineCodeMissing)
  {
    assert !IsWhiteSpace(DefaultBaseUrl[0]);
  }

  /** The timeout boundary: 0 and every negative value fail, 1 and every
      larger value pass, once the three strings are usable. */
  lemma TimeoutBoundary(o: H3YunOptions)
    requires !IsNullOrWhiteSpace(o.baseUrl) && !IsNullOrWhiteSpace(o.engineCode)
    requires !IsNullOrWhiteSpace(o.engineSecret)
    ensures Validate(o.(timeoutSeconds := 0)) == Fail(TimeoutNotPositive)
    ensures Validate(o.(timeoutSeconds := -1)) == Fail(TimeoutNotPositive)
    ensures Validate(o.(timeoutSeconds := 1)) == Pass
    ensures Validate(o).Pass? <==> o.timeoutSeconds >= 1
  {
  }
}
