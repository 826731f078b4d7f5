/** The response envelope `GenericApiResponse` and its two factories
    (app/models/generic_response_model.py). */
module Responses {
  import opened Wrappers
  import opened Domain

  /** What `data` may hold: a dict (here always a secret record), a list of
      them, or a string. */
  datatype Payload =
    | Object(record: SecretRecord)
    | Array(records: seq<SecretRecord>)
    | Text(text: string)

  datatype ApiResponse = ApiResponse(success: bool, error: Option<string>, data: Option<Payload>)

  /** The argument handed to `failure_response`: a str, a list of str, or a
      value of any other type. */
  datatype ErrorArg = Str(message: string) | StrList(parts: seq<string>) | Other

  datatype TypeError = TypeError(message: string)

  const ListSeparator := " | "

  function TotalLength(parts: seq<string>): nat
  {
    if parts == [] then 0 else |parts[0]| + TotalLength(parts[1..])
  }

  /** Python's `sep.join(parts)`. */
  function Join(parts: seq<string>, sep: string): (r: string)
    ensures |parts| == 0 ==> r == ""
    ensures |parts| > 0 ==> |r| == TotalLength(parts) + (|parts| - 1) * |sep|
    ensures |parts| > 0 ==> r[..|parts[0]|] == parts[0]
  {
    if |parts| == 0 then ""
    else if |parts| == 1 then parts[0]
    else parts[0] + sep + Join(parts[1..], sep)
  }

  /** Joining two non-empty lists is joining each and gluing with the separator. */
  lemma {:induction false} JoinAppend(a: seq<string>, b: seq<string>, sep: string)
    requires a != [] && b != []
    ensures Join(a + b, sep) == Join(a, sep) + sep + Join(b, sep)
  {
    if |a| == 1 {
      assert (a + b)[1..] == b;
    } else {
      assert (a + b)[1..] == a[1..] + b;
      JoinAppend(a[1..], b, sep);
    }
  }

  /** `success_response`: success set, the data as given, no error. */
  function SuccessResponse(data: Option<Payload>): (r: ApiResponse)
    ensures r.success && r.error.None? && r.data == data
  {
    ApiResponse(true, None, data)
  }

  /** `failure_response`: a str passes through, a list of str is joined with
      " | ", anything else raises TypeError. */
  function FailureResponse(error: ErrorArg): (r: Result<ApiResponse, TypeError>)
    ensures r.Failure? <==> error.Other?
    ensures r.Success? ==> !r.value.success && r.value.data.None? && r.value.error.Some?
    ensures error.Str? ==> r.Success? && r.value.error == Some(error.message)
    ensures error.StrList? ==> r.Success? && r.value.error == Some(Join(error.parts, ListSeparator))
  {
    match error
    case Other => Failure(TypeError("The 'error' parameter must be of type 'str' or 'list[str]'."))
    case Str(s) => Success(ApiResponse(false, Some(s), None))
    case StrList(parts) => Success(ApiResponse(false, Some(Join(parts, ListSeparator)), None))
  }

  /** A one-element list reports exactly its element, as the bare string would. */
  lemma FailureOfSingletonList(s: string)
    ensures FailureResponse(StrList([s])) == FailureResponse(Str(s))
  {
  }

  /** An empty list reports the empty message. */
  lemma FailureOfEmptyList()
    ensures FailureResponse(StrList([])) == Success(ApiResponse(false, Some(""), None))
  {
  }

  /** Splitting the list of messages anywhere and joining the halves with
      " | " gives the same message as the whole list. */
  lemma FailureOfSplitList(a: seq<string>, b: seq<string>)
    requires a != [] && b != []
    ensures FailureResponse(StrList(a + b)).value.error
         == Some(Join(a, ListSeparator) + ListSeparator + Join(b, ListSeparator))
  {
    JoinAppend(a, b, ListSeparator);
  }
}
