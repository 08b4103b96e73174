/** The SDK's single exception type, `H3YunException`, and the system
    exceptions it may wrap. */
module Exceptions {
  import opened Wrappers

  /** The error code an exception carries when none is given. */
  const UnknownCode: string := "Unknown"

  /** The system exceptions the transport layer can meet: an
      `HttpRequestException`; a `TaskCanceledException`, whose inner exception
      may or may not be a `TimeoutException`; a Newtonsoft `JsonException`;
      and any other exception. Each carries its `Message`. */
  datatype Fault =
    | HttpRequestFault(message: string)
    | CanceledFault(message: string, innerIsTimeout: bool)
    | JsonFault(message: string)
    | OtherFault(message: string)

  /** An `H3YunException`: its message, its get-only `ErrorCode` and its
      optional inner exception. Being a value, it cannot change once built. */
  datatype H3YunException = H3YunException(message: string, errorCode: string, inner: Option<Fault>)

  /** `new H3YunException(message)`. */
  function WithMessage(message: string): (e: H3YunException)
    ensures e.message == message && e.errorCode == UnknownCode && e.inner.None?
  {
    H3YunException(message, UnknownCode, None)
  }

  /** `new H3YunException(message, errorCode)`. */
  function WithCode(message: string, errorCode: string): (e: H3YunException)
    ensures e.message == message && e.errorCode == errorCode && e.inner.None?
  {
    H3YunException(message, errorCode, None)
  }

  /** `new H3YunException(message, innerException)`. */
  function WithInner(message: string, inner: Fault): (e: H3YunException)
    ensures e.message == message && e.errorCode == UnknownCode && e.inner == Some(inner)
  {
    H3YunException(message, UnknownCode, Some(inner))
  }

  /** `new H3YunException(message, errorCode, innerException)`. */
  function WithCodeAndInner(message: string, errorCode: string, inner: Fault): (e: H3YunException)
    ensures e.message == message && e.errorCode == errorCode && e.inner == Some(inner)
  {
    H3YunException(message, errorCode, Some(inner))
  }

  /** The four constructors agree: the code-less ones are the coded ones at
      the default code, and adding an inner exception changes nothing else. */
  lemma ConstructorsAgree(message: string, errorCode: string, inner: Fault)
    ensures WithCode(message, UnknownCode) == WithMessage(message)
    ensures WithCodeAndInner(message, UnknownCode, inner) == WithInner(message, inner)
    ensures WithCodeAndInner(message, errorCode, inner).(inner := None) == WithCode(message, errorCode)
    ensures WithInner(message, inner).(inner := None) == WithMessage(message)
  {
  }
}
